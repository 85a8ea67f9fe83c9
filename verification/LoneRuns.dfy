/** Runs of the whole controller in which only the first bank is addressed, followed cycle by cycle with
    refresh off. They show which conditions on the parameters cannot be dropped. */
module LoneRuns {
  import opened Arith
  import opened Dram
  import opened BankMachine
  import D = Device
  import opened DriverMachine
  import Safety = DriverSafety
  import opened DataBus
  import DataAssertion
  import Latency
  import Conv = Converter
  import opened Controller
  import opened EndToEnd

  /** Only the first bank has work: `q` in its command queue, `w` in the driver's queue. */
  ghost predicate Lone(su: Setup, s: System, q: seq<Cmd>, w: seq<Cmd>)
    requires su.Valid()
  {
    && Inv(su, s) && s.pending == [] && s.drv.inputQ == w
    && |s.queues| >= 1 && OnlyFirst(s, q)
    && (forall ch | 0 <= ch < |s.drv.colBus| :: s.drv.colBus[ch] <= 1)
  }

  predicate OnlyFirst(s: System, q: seq<Cmd>) {
    |s.queues| >= 1 && s.queues[0] == q && forall b | 0 < b < |s.queues| :: s.queues[b] == []
  }

  // ---- The scheduler's pass

  lemma VisitEmpty(su: Setup, s: System, qi: nat)
    requires su.Valid() && Shape(su, s) && Shaped(su.cfg, s.drv) && qi < |s.queues| && s.queues[qi] == []
    ensures Visit(su, s, qi) == s
  {
  }

  /** Visits of empty queues change nothing. */
  lemma {:induction false} VisitAllEmpty(su: Setup, s: System, ch: nat, order: seq<nat>)
    requires su.Valid() && Shape(su, s) && Shaped(su.cfg, s.drv) && ch < su.cfg.g.channels
    requires forall i | 0 <= i < |order| :: order[i] < BanksPerChannel(su.cfg.g)
    requires (forall b | 0 < b < |s.queues| :: s.queues[b] == []) && (ch == 0 ==> forall i | 0 <= i < |order| :: order[i] != 0)
    ensures VisitAll(su, s, ch, order) == s
    decreases |order|
  {
    if order != [] {
      ChannelQueue(su.cfg.g, ch, order[0]);
      ShapeQueues(su, s);
      LaterQueue(su.cfg.g, ch, order[0]);
      hide Shape, Shaped, Visit, BanksPerChannel, QueueAt;
      VisitEmpty(su, s, QueueAt(su.cfg.g, ch, order[0]));
      VisitAllEmpty(su, s, ch, order[1..]);
    }
  }

  lemma LaterQueue(g: Geometry, ch: nat, k: nat)
    requires g.Valid() && k < BanksPerChannel(g)
    ensures QueueAt(g, ch, k) == 0 <==> ch == 0 && k == 0
  {
    if ch > 0 { MulMono(1, ch, BanksPerChannel(g)); }
  }

  /** A round that visits the first queue once is that visit. */
  lemma {:induction false} VisitAllOne(su: Setup, s: System, order: seq<nat>, i: nat)
    requires su.Valid() && Shape(su, s) && Shaped(su.cfg, s.drv) && |s.queues| >= 1
    requires forall j | 0 <= j < |order| :: order[j] < BanksPerChannel(su.cfg.g)
    requires i < |order| && order[i] == 0 && forall j | 0 <= j < |order| && j != i :: order[j] != 0
    requires forall b | 0 < b < |s.queues| :: s.queues[b] == []
    ensures VisitAll(su, s, 0, order) == Visit(su, s, 0)
    decreases |order|
  {
    ChannelQueue(su.cfg.g, 0, order[0]);
    ShapeQueues(su, s);
    LaterQueue(su.cfg.g, 0, order[0]);
    var qi := QueueAt(su.cfg.g, 0, order[0]);
    VisitShape(su, s, qi);
    if i == 0 {
      VisitedOthers(su, s);
      hide Shape, Shaped, Visit, BanksPerChannel, QueueAt;
      VisitAllEmpty(su, Visit(su, s, 0), 0, order[1..]);
    } else {
      hide Shape, Shaped, Visit, BanksPerChannel, QueueAt;
      VisitEmpty(su, s, qi);
      VisitAllOne(su, s, order[1..], i - 1);
    }
  }

  lemma VisitedOthers(su: Setup, s: System)
    requires su.Valid() && Shape(su, s) && Shaped(su.cfg, s.drv) && |s.queues| >= 1
    ensures var s' := Visit(su, s, 0); |s'.queues| == |s.queues| && forall b | 0 < b < |s.queues| :: s'.queues[b] == s.queues[b]
  {
    hide IsCmdAllowed, Push, Shaped;
  }

  predicate SameBut(s: System, s': System) {
    s'.infos == s.infos && s'.pending == s.pending && s'.queues == s.queues && s'.drv == s.drv && s'.streams == s.streams
  }

  /** The channels from `ch` on, none of them the first. */
  lemma {:induction false} RestEmpty(su: Setup, s: System, ch: nat)
    requires su.Valid() && Shape(su, s) && Shaped(su.cfg, s.drv) && Indexed(su, s) && 1 <= ch <= su.cfg.g.channels
    requires forall b | 0 < b < |s.queues| :: s.queues[b] == []
    ensures SameBut(s, ScheduleFrom(su, s, ch))
    decreases su.cfg.g.channels - ch
  {
    if ch < su.cfg.g.channels {
      ShapeQueues(su, s);
      var n := BanksPerChannel(su.cfg.g);
      OrderInRange(su.cfg.g, s.nextQ[ch], n);
      RoundIsOrder(su, s, ch, s.nextQ[ch], n);
      VisitAllEmpty(su, s, ch, VisitOrder(su.cfg.g, s.nextQ[ch], n));
      var s1 := s.(nextQ := s.nextQ[ch := NextQueue(su.cfg.g, s.nextQ[ch])]);
      assert Shape(su, s1) && Indexed(su, s1) by { hide QueueShape, WellFormed; }
      hide Shape, Shaped, VisitsFrom, NextQueue, BanksPerChannel;
      RestEmpty(su, s1, ch + 1);
    }
  }

  /** The scheduler's pass is one visit of the first queue. */
  lemma ScheduleOne(su: Setup, s: System)
    requires su.Valid() && Shape(su, s) && Shaped(su.cfg, s.drv) && Indexed(su, s) && |s.queues| >= 1
    requires forall b | 0 < b < |s.queues| :: s.queues[b] == []
    ensures SameBut(Visit(su, s, 0), Schedule(su, s))
  {
    ShapeQueues(su, s);
    var n := BanksPerChannel(su.cfg.g);
    OnePerChannel(su.cfg.g);
    OrderInRange(su.cfg.g, s.nextQ[0], n);
    RoundIsOrder(su, s, 0, s.nextQ[0], n);
    RoundCoversAll(su.cfg.g, s.nextQ[0], 0);
    var order := VisitOrder(su.cfg.g, s.nextQ[0], n);
    var i :| 0 <= i < |order| && order[i] == 0 && forall j | 0 <= j < |order| && order[j] == 0 :: j == i;
    VisitAllOne(su, s, order, i);
    VisitShape(su, s, 0);
    VisitedOthers(su, s);
    var v := Visit(su, s, 0);
    var s1 := v.(nextQ := v.nextQ[0 := NextQueue(su.cfg.g, v.nextQ[0])]);
    assert Shape(su, s1) && Indexed(su, s1) by { hide QueueShape, WellFormed, Visit; }
    hide Shape, Shaped, VisitsFrom, NextQueue, BanksPerChannel, Visit;
    RestEmpty(su, s1, 1);
  }

  // ---- The driver with at most one queued command

  lemma UpdateFacts(cfg: Config, d: Driver)
    requires cfg.Valid() && Shaped(cfg, d)
    ensures var d' := Update(cfg, d);
      && Shaped(cfg, d') && d'.dev == D.Clock(cfg.p, d.dev) && d'.inputQ == d.inputQ && d'.inflight == {}
      && (forall b | 0 <= b < |d'.blocked| :: !d'.blocked[b])
      && d'.colBus == Release(d.colBus) && d'.rowBus == Release(d.rowBus)
  {
    UpdateShaped(cfg, d);
    hide Shaped, Tick, Shift;
  }

  lemma RunNothing(cfg: Config, d: Driver)
    requires cfg.Valid() && Shaped(cfg, d) && !cfg.useRefresh && d.inputQ == []
    ensures Run(cfg, d) == Released(d)
  {
    hide Shaped, RefreshFrom;
  }

  /** The queued command is visited with clear marks. */
  predicate Clean(d: Driver, c: Cmd) {
    d.inputQ == [c] && d.inflight == {} && forall b | 0 <= b < |d.blocked| :: !d.blocked[b]
  }

  lemma SendWaits(cfg: Config, d: Driver, c: Cmd)
    requires cfg.Valid() && Shaped(cfg, d) && NoRefresh(cfg, d) && Clean(d, c) && c.kind.ACT?
    requires c.channel < |d.rowBus| && d.rowBus[c.channel] > 0
    ensures var d' := SendRequest(cfg, d); d'.dev == d.dev && d'.inputQ == [c] && d'.colBus == d.colBus && d'.rowBus == d.rowBus
  {
    hide Sum;
    assert Queued(cfg, d.inputQ[0]);
    assert c.rank < |d.refreshQ|;
    hide Shaped, Queued;
    var counts := ActCounts(d);
    assert Decide(cfg, d, 0, counts).Skip?;
    var s := SendStep(cfg, d, 0, counts);
    assert s.i == 1 && !s.stop && s.d.inputQ == [c];
    assert SendFrom(cfg, d, 0, counts) == SendFrom(cfg, s.d, 1, counts) == s.d;
  }

  lemma SendsOne(cfg: Config, d: Driver, c: Cmd)
    requires cfg.Valid() && Shaped(cfg, d) && NoRefresh(cfg, d) && Clean(d, c) && (c.kind.ACT? || c.kind.READ?)
    requires c.rank < |d.faw| && (c.kind.ACT? ==> Sum(d.faw[c.rank]) < 4) && D.CanSend(d.dev, c.bank, c.kind)
    requires c.channel < |d.colBus| == |d.rowBus| && BusFree(d, c.kind, c.channel)
    requires forall ch | 0 <= ch < |d.colBus| :: d.colBus[ch] <= 1
    ensures var d' := SendRequest(cfg, d);
      && d'.dev == D.Send(cfg.p, cfg.g, d.dev, c.bank, c, false) && d'.inputQ == [] && d'.created == d.created
      && (forall ch | 0 <= ch < |d'.colBus| :: d'.colBus[ch] <= 1)
  {
    hide Sum, D.CanSend, D.Send;
    assert Queued(cfg, d.inputQ[0]);
    assert c.rank < |d.refreshQ|;
    var counts := ActCounts(d);
    assert Decide(cfg, d, 0, counts).Go?;
    var s := SendStep(cfg, d, 0, counts);
    SendStepShaped(cfg, d, 0, counts);
    hide Shaped, Queued, Decide;
    assert Remove([c], 0) == [];
    assert s.d.inputQ == [] && s.i == 0;
    assert SendFrom(cfg, d, 0, counts) == s.d;
  }

  lemma ReleasedFacts(d: Driver)
    ensures var d' := Released(d);
      && d'.dev == d.dev && d'.inputQ == d.inputQ && d'.inflight == d.inflight && d'.blocked == d.blocked && d'.faw == d.faw
      && d'.refreshQ == d.refreshQ && d'.created == d.created && d'.refi == d.refi
      && |d'.colBus| == |d.colBus| && |d'.rowBus| == |d.rowBus|
      && (forall ch | 0 <= ch < |d.colBus| :: d'.colBus[ch] == if d.colBus[ch] > 0 then d.colBus[ch] - 1 else 0)
      && (forall ch | 0 <= ch < |d.rowBus| :: d'.rowBus[ch] == if d.rowBus[ch] > 0 then d.rowBus[ch] - 1 else 0)
  {
  }

  lemma RunOff(cfg: Config, d: Driver)
    requires cfg.Valid() && Shaped(cfg, d) && !cfg.useRefresh
    ensures Shaped(cfg, Released(d)) && Run(cfg, d) == SendRequest(cfg, Released(d))
  {
    hide Queued, RefreshShaped, SendFrom, RefreshFrom;
  }

  // ---- The visit of the first queue

  /** No refresh command is waiting. */
  predicate NoRefresh(cfg: Config, d: Driver) { cfg.useRefresh ==> forall r | 0 <= r < |d.refreshQ| :: d.refreshQ[r] == [] }

  lemma VisitRefuses(su: Setup, s: System)
    requires su.Valid() && Shape(su, s) && Shaped(su.cfg, s.drv) && |s.queues| >= 1 && NoRefresh(su.cfg, s.drv)
    requires s.queues[0] != [] ==>
      var c := s.queues[0][0];
      && c.bank < |s.drv.dev.banks|
      && if c.kind.IsColumn() && s.drv.dev.banks[c.bank].state.Closed() then HasAct(s.drv.inputQ, c.bank)
         else !Allowed(s.drv.dev.banks[c.bank], c.kind, s.drv.dev.cycle)
    ensures Visit(su, s, 0) == s
  {
    if s.queues[0] != [] {
      assert QueueShape(su, 0, s.queues[0]);
      hide Shaped, HasAct, Allowed;
    }
  }

  lemma VisitTakes(su: Setup, s: System, c: Cmd, rest: seq<Cmd>)
    requires su.Valid() && Shape(su, s) && Shaped(su.cfg, s.drv) && |s.queues| >= 1 && NoRefresh(su.cfg, s.drv)
    requires s.queues[0] == [c] + rest && s.drv.inputQ == [] && c.bank < |s.drv.dev.banks|
    requires !(c.kind.IsColumn() && s.drv.dev.banks[c.bank].state.Closed()) && Allowed(s.drv.dev.banks[c.bank], c.kind, s.drv.dev.cycle)
    requires c.channel < |s.drv.colBus| == |s.drv.rowBus| && BusFree(s.drv, c.kind, c.channel)
    ensures Visit(su, s, 0) ==
      s.(drv := Occupy(su.cfg, s.drv.(inputQ := [c]), c.kind, c.channel), queues := s.queues[0 := rest])
  {
    assert QueueShape(su, 0, s.queues[0]);
    hide Shaped, HasAct, Allowed;
    assert ([c] + rest)[1..] == rest && [] + [c] == [c];
  }

  // ---- The converter

  /** A read of the first column of the first row of the first bank. */
  const FIRST := Conv.Txn(true, 0, 1, 0, 0, 0, 0)

  lemma FirstFormed(su: Setup)
    requires su.Valid()
    ensures WellFormed(su, FIRST) && WellFormedAll(su, [FIRST]) && WellFormedAll(su, [])
  {
    hide Geometry.NumBanks, Geometry.NumRanks;
    OneBank(su.cfg.g);
    SomeRank(su.cfg.g);
  }

  lemma SomeRank(g: Geometry)
    requires g.Valid()
    ensures g.NumRanks() >= 1
  {
  }

  /** What the open policy makes of the read. */
  lemma FirstCommands(r: Conv.Rules, info: Conv.RowInfo)
    requires r.Valid() && r.policy.OPEN? && (info.open ==> info.row == 0)
    ensures Conv.Commands(r, info, FIRST, 1).1 == if info.open then [Simple(READ)] else [Simple(ACT), Simple(READ)]
    ensures var info' := Conv.Note(r, Conv.Commands(r, info, FIRST, 1).0, FIRST); info'.open && info'.row == 0
  {
    Conv.CommandsOne(r, info, FIRST);
  }

  /** The conversion of the cycle's transactions: none, or the read. */
  lemma Converted(su: Setup, s: System, q: seq<Cmd>)
    requires su.Valid() && Shape(su, s) && OnlyFirst(s, q) && su.rules.policy.OPEN? && su.capacity >= 3
    requires s.pending == [] || (s.pending == [FIRST] && q == [] && (s.infos[0].open ==> s.infos[0].row == 0))
    ensures var s', cmds := Convert(su, s), if s.pending == [] then q else if s.infos[0].open then [Simple(READ)] else [Simple(ACT), Simple(READ)];
      && s'.pending == [] && s'.drv == s.drv && OnlyFirst(s', cmds) && |s'.infos| == |s.infos| >= 1
      && (s.pending == [] ==> s'.infos[0] == s.infos[0]) && (s.pending != [] ==> s'.infos[0].open && s'.infos[0].row == 0)
  {
    if s.pending == [] {
      assert ConvertFrom(su, s, 0) == s;
    } else {
      FirstFormed(su);
      PendingIndex(su, FIRST);
      FirstCommands(su.rules, s.infos[0]);
      hide QueueShape, WellFormed, QueueIndex, Conv.Commands, Conv.Note;
      assert HasRoom(su, s, FIRST);
      ConvertShape(su, s, 0);
      var cmds := Conv.Commands(su.rules, s.infos[0], FIRST, 1).1;
      PushAllFits(su, [], cmds);
      assert [] + cmds == cmds;
      var s1 := ConvertOne(su, s, 0);
      assert s1.pending == [];
      assert ConvertFrom(su, s, 0) == ConvertFrom(su, s1, 0) == s1;
    }
  }

  // ---- One cycle

  /** The system as the scheduler finds it. */
  lemma BeforeSchedule(su: Setup, s: System, q: seq<Cmd>, w: seq<Cmd>, txns: seq<Conv.Txn>) returns (s2: System, cmds: seq<Cmd>)
    requires su.Valid() && Lone(su, s, q, w) && su.rules.policy.OPEN? && su.capacity >= 3 && WellFormedAll(su, txns)
    requires txns == [] || (txns == [FIRST] && q == [] && (s.infos[0].open ==> s.infos[0].row == 0))
    ensures cmds == if txns == [] then q else if s.infos[0].open then [Simple(READ)] else [Simple(ACT), Simple(READ)]
    ensures Shaped(su.cfg, s.drv) && Shape(su, s2) && Shaped(su.cfg, s2.drv) && Indexed(su, s2)
    ensures s2.drv == Update(su.cfg, s.drv) && s2.pending == [] && OnlyFirst(s2, cmds) && |s2.infos| >= 1
    ensures if txns == [] then s2.infos[0] == s.infos[0] else s2.infos[0].open && s2.infos[0].row == 0
    ensures Inv(su, Schedule(su, s2)) && Shaped(su.cfg, Schedule(su, s2).drv)
    ensures Inv(su, Cycle(su, s, txns))
    ensures Cycle(su, s, txns) == var s3 := Schedule(su, s2); s3.(drv := Run(su.cfg, s3.drv))
  {
    StartInv(su, s, txns);
    var s1 := Start(su, s, txns);
    Formed(su, s1);
    Converted(su, s1, q);
    ConvertAllInv(su, s1);
    s2 := Convert(su, s1);
    Formed(su, s2);
    SafetyShaped(su, s2);
    ScheduleInv(su, s2);
    SafetyShaped(su, Schedule(su, s2));
    CycleInv(su, s, txns);
    cmds := if txns == [] then q else if s.infos[0].open then [Simple(READ)] else [Simple(ACT), Simple(READ)];
    hide Inv, Convert, Schedule, Run, Quiet, WellFormedAll, Shape, Shaped, Indexed, Update;
  }

  /** Nothing is taken from the command queue and nothing is sent. */
  lemma WaitCycle(su: Setup, s: System, q: seq<Cmd>)
    requires su.Valid() && Lone(su, s, q, []) && !su.cfg.useRefresh && su.rules.policy.OPEN? && su.capacity >= 3 && WellFormedAll(su, [])
    requires |s.drv.dev.banks| >= 1
    requires q == [] || (q == [Simple(READ)] && var bk := Tick(su.cfg.p, s.drv.dev.banks[0], s.drv.dev.cycle + 1);
      !bk.state.Closed() && !Allowed(bk, READ, s.drv.dev.cycle + 1))
    ensures var s' := Cycle(su, s, []); Lone(su, s', q, []) && s'.drv.dev == D.Clock(su.cfg.p, s.drv.dev) && |s'.infos| >= 1 && s'.infos[0] == s.infos[0]
  {
    hide Shape, Shaped, Indexed, Cycle, Inv, Schedule, Run, Update, Tick, Allowed, WellFormedAll, Sum, Visit, Convert, D.Send;
    var s2, cmds := BeforeSchedule(su, s, q, [], []);
    UpdateFacts(su.cfg, s.drv);
    assert s2.drv.dev.banks[0] == Tick(su.cfg.p, s.drv.dev.banks[0], s.drv.dev.cycle + 1);
    VisitRefuses(su, s2);
    ScheduleOne(su, s2);
    RunNothing(su.cfg, Schedule(su, s2).drv);
  }

  /** The head of the command queue goes through the driver to the bank in one cycle. */
  lemma SendCycle(su: Setup, s: System, q: seq<Cmd>, txns: seq<Conv.Txn>, c: Cmd, rest: seq<Cmd>)
    requires su.Valid() && Lone(su, s, q, []) && !su.cfg.useRefresh && su.rules.policy.OPEN? && su.capacity >= 3 && WellFormedAll(su, txns)
    requires txns == [] || (txns == [FIRST] && q == [] && (s.infos[0].open ==> s.infos[0].row == 0))
    requires (if txns == [] then q else if s.infos[0].open then [Simple(READ)] else [Simple(ACT), Simple(READ)]) == [c] + rest
    requires |s.drv.dev.banks| >= 1
    requires var bk := Tick(su.cfg.p, s.drv.dev.banks[0], s.drv.dev.cycle + 1);
      (c == Simple(ACT) || (c == Simple(READ) && !bk.state.Closed())) && Allowed(bk, c.kind, s.drv.dev.cycle + 1)
    requires c.kind.ACT? ==> s.drv.dev.trace == [] && !(su.cfg.dualBus && su.cfg.multiCycleAct) && forall ch | 0 <= ch < |s.drv.rowBus| :: s.drv.rowBus[ch] <= 1
    ensures var s', dev := Cycle(su, s, txns), D.Clock(su.cfg.p, s.drv.dev);
      && Lone(su, s', rest, []) && D.CanSend(dev, 0, c.kind) && s'.drv.dev == D.Send(su.cfg.p, su.cfg.g, dev, 0, c, false)
      && |s'.infos| >= 1 && if txns == [] then s'.infos[0] == s.infos[0] else s'.infos[0].open && s'.infos[0].row == 0
  {
    hide Shape, Shaped, Indexed, Cycle, Inv, Schedule, Run, Update, Tick, Allowed, WellFormedAll, Sum, Visit, Convert, D.Send;
    var s2, cmds := BeforeSchedule(su, s, q, [], txns);
    UpdateFacts(su.cfg, s.drv);
    Sizes(su, s2);
    if c.kind.ACT? { NoActs(su, s); }
    assert s2.drv.dev.banks[0] == Tick(su.cfg.p, s.drv.dev.banks[0], s.drv.dev.cycle + 1);
    VisitTakes(su, s2, c, rest);
    VisitShape(su, s2, 0);
    ScheduleOne(su, s2);
    RunOff(su.cfg, Schedule(su, s2).drv);
    hide SendRequest, Released;
    ReleasedFacts(Schedule(su, s2).drv);
    SendsOne(su.cfg, Released(Schedule(su, s2).drv), c);
  }

  lemma Sizes(su: Setup, s: System)
    requires su.Valid() && Shape(su, s) && Shaped(su.cfg, s.drv)
    ensures |s.drv.colBus| == |s.drv.rowBus| >= 1 && |s.drv.faw| >= 1 && |s.drv.dev.banks| >= 1
  {
  }

  /** Without a command in the history the activate trackers are clear. */
  lemma NoActs(su: Setup, s: System)
    requires su.Valid() && Inv(su, s) && s.drv.dev.trace == []
    ensures Shaped(su.cfg, s.drv) && |Update(su.cfg, s.drv).faw| >= 1 && Sum(Update(su.cfg, s.drv).faw[0]) < 4
  {
    SafetyShaped(su, s);
    Safety.UpdateInv(su.cfg, s.drv);
    var d := Update(su.cfg, s.drv);
    assert su.cfg.g.NumRanks() >= 1;
    hide Update, Sum;
    Safety.TrackedSum(su.cfg, d, 0);
    assert d.dev.trace == [] by { UpdateKeeps(su.cfg, s.drv); }
  }

  /** With an ACT of two cycles on its own row bus, the push keeps the ACT from being sent. */
  lemma HeldCycle(su: Setup, s: System)
    requires su.Valid() && Lone(su, s, [], []) && !su.cfg.useRefresh && su.rules.policy.OPEN? && su.capacity >= 3 && WellFormedAll(su, [FIRST])
    requires |s.infos| >= 1 && !s.infos[0].open && |s.drv.dev.banks| >= 1 && su.cfg.dualBus && su.cfg.multiCycleAct
    requires Allowed(Tick(su.cfg.p, s.drv.dev.banks[0], s.drv.dev.cycle + 1), ACT, s.drv.dev.cycle + 1)
    requires forall ch | 0 <= ch < |s.drv.rowBus| :: s.drv.rowBus[ch] <= 1
    ensures var s' := Cycle(su, s, [FIRST]);
      && Lone(su, s', [Simple(READ)], [Simple(ACT)]) && s'.drv.dev == D.Clock(su.cfg.p, s.drv.dev)
      && |s'.infos| >= 1 && s'.infos[0].open && s'.infos[0].row == 0 && |s'.drv.rowBus| >= 1 && s'.drv.rowBus[0] <= 1
  {
    hide Shape, Shaped, Indexed, Cycle, Inv, Schedule, Run, Update, Tick, Allowed, WellFormedAll, Sum, Visit, Convert, D.Send;
    var s2, cmds := BeforeSchedule(su, s, [], [], [FIRST]);
    UpdateFacts(su.cfg, s.drv);
    Sizes(su, s2);
    assert s2.drv.dev.banks[0] == Tick(su.cfg.p, s.drv.dev.banks[0], s.drv.dev.cycle + 1);
    VisitTakes(su, s2, Simple(ACT), [Simple(READ)]);
    VisitShape(su, s2, 0);
    ScheduleOne(su, s2);
    RunOff(su.cfg, Schedule(su, s2).drv);
    hide SendRequest, Released;
    ReleasedFacts(Schedule(su, s2).drv);
    SendWaits(su.cfg, Released(Schedule(su, s2).drv), Simple(ACT));
  }

  /** In the next cycle it goes out. */
  lemma LateCycle(su: Setup, s: System)
    requires su.Valid() && Lone(su, s, [Simple(READ)], [Simple(ACT)]) && !su.cfg.useRefresh && su.rules.policy.OPEN? && su.capacity >= 3 && WellFormedAll(su, [])
    requires |s.drv.dev.banks| >= 1 && s.drv.dev.trace == [] && |s.drv.rowBus| >= 1 && s.drv.rowBus[0] <= 1
    requires var bk := Tick(su.cfg.p, s.drv.dev.banks[0], s.drv.dev.cycle + 1); bk.state.Closed() && Allowed(bk, ACT, s.drv.dev.cycle + 1)
    ensures var s', dev := Cycle(su, s, []), D.Clock(su.cfg.p, s.drv.dev);
      && Lone(su, s', [Simple(READ)], []) && D.CanSend(dev, 0, ACT) && s'.drv.dev == D.Send(su.cfg.p, su.cfg.g, dev, 0, Simple(ACT), false)
      && |s'.infos| >= 1 && s'.infos[0] == s.infos[0]
  {
    hide Shape, Shaped, Indexed, Cycle, Inv, Schedule, Run, Update, Tick, Allowed, WellFormedAll, Sum, Visit, Convert, D.Send;
    var s2, cmds := BeforeSchedule(su, s, [Simple(READ)], [Simple(ACT)], []);
    UpdateFacts(su.cfg, s.drv);
    Sizes(su, s2);
    NoActs(su, s);
    assert s2.drv.dev.banks[0] == Tick(su.cfg.p, s.drv.dev.banks[0], s.drv.dev.cycle + 1);
    assert s2.drv.inputQ[0].bank == 0 && s2.drv.inputQ[0].kind.ACT?;
    assert HasAct(s2.drv.inputQ, 0);
    VisitRefuses(su, s2);
    ScheduleOne(su, s2);
    RunOff(su.cfg, Schedule(su, s2).drv);
    hide SendRequest, Released;
    ReleasedFacts(Schedule(su, s2).drv);
    SendsOne(su.cfg, Released(Schedule(su, s2).drv), Simple(ACT));
  }

  // ---- Runs

  lemma RunsNext(su: Setup, inputs: seq<seq<Conv.Txn>>, txns: seq<Conv.Txn>)
    requires su.Valid() && (forall i | 0 <= i < |inputs| :: WellFormedAll(su, inputs[i])) && WellFormedAll(su, txns)
    ensures forall i | 0 <= i < |inputs + [txns]| :: WellFormedAll(su, (inputs + [txns])[i])
    ensures Runs(su, inputs + [txns]) == Cycle(su, Runs(su, inputs), txns)
  {
    hide Cycle, WellFormedAll, Inv;
    assert (inputs + [txns])[..|inputs|] == inputs;
  }

  /** The setups in question: open policy, refresh off, room for a transaction. */
  predicate OpenSetup(su: Setup) {
    su.Valid() && su.rules.policy.OPEN? && !su.cfg.useRefresh && su.capacity >= 3
  }

  /** The cycle of the first ACT: an ACT of two cycles on a row bus of its own waits for its own push. */
  function FirstAct(cfg: Config): nat { if cfg.dualBus && cfg.multiCycleAct then 2 else 1 }

  /** The first bank right after its ACT, with the read's column command waiting. */
  ghost predicate Opened(su: Setup, s: System, act: D.Issue, bk: Bank)
    requires su.Valid()
  {
    && Lone(su, s, [Simple(READ)], []) && |s.infos| >= 1 && s.infos[0].open && s.infos[0].row == 0
    && s.drv.dev.cycle == FirstAct(su.cfg) && s.drv.dev.trace == [act] && act.bank == 0 && act.cmd == Simple(ACT) && act.cycle == FirstAct(su.cfg)
    && |s.drv.dev.banks| >= 1 && bk.state.Idle? && bk.next == ZERO_CYCLES && Allowed(bk, ACT, FirstAct(su.cfg))
    && s.drv.dev.banks[0] == Handle(bk, Simple(ACT), FirstAct(su.cfg))
  }

  lemma InitialLone(su: Setup)
    requires OpenSetup(su)
    ensures var s := Runs(su, []);
      && Lone(su, s, [], []) && |s.infos| >= 1 && !s.infos[0].open && s.drv.dev == D.Initial(su.cfg.g) && |s.drv.dev.banks| >= 1
      && s.drv.dev.banks[0] == INITIAL && forall ch | 0 <= ch < |s.drv.rowBus| :: s.drv.rowBus[ch] <= 1
  {
    InitialInv(su);
    OneBank(su.cfg.g);
    hide Inv, Geometry.NumBanks;
  }

  lemma IdleTicks(p: Params, bk: Bank, now: nat)
    requires p.Valid() && bk.state.Idle? && bk.received.None?
    ensures var b := Tick(p, bk, now); b.state.Idle? && b.received.None? && b.next == bk.next
  {
  }

  lemma OpeningInputs(su: Setup) returns (inputs: seq<seq<Conv.Txn>>, act: D.Issue, bk: Bank)
    requires OpenSetup(su)
    ensures (forall i | 0 <= i < |inputs| :: WellFormedAll(su, inputs[i])) && Opened(su, Runs(su, inputs), act, bk)
  {
    hide Runs, Lone, Cycle, Tick, WellFormedAll, Inv;
    FirstFormed(su);
    InitialLone(su);
    RunsNext(su, [], [FIRST]);
    var s := Runs(su, []);
    var none: seq<seq<Conv.Txn>> := [];
    assert none + [[FIRST]] == [[FIRST]];
    IdleTicks(su.cfg.p, INITIAL, 1);
    if su.cfg.dualBus && su.cfg.multiCycleAct {
      HeldCycle(su, s);
      var s1 := Runs(su, [[FIRST]]);
      RunsNext(su, [[FIRST]], []);
      bk := Tick(su.cfg.p, s1.drv.dev.banks[0], 2);
      IdleTicks(su.cfg.p, s1.drv.dev.banks[0], 2);
      LateCycle(su, s1);
      inputs := [[FIRST], []];
      assert [[FIRST]] + [[]] == inputs;
      act := D.Issue(2, 0, Simple(ACT), bk.rowOpen, bk.openRow, false);
    } else {
      bk := Tick(su.cfg.p, INITIAL, 1);
      SendCycle(su, s, [], [FIRST], Simple(ACT), [Simple(READ)]);
      inputs := [[FIRST]];
      act := D.Issue(1, 0, Simple(ACT), bk.rowOpen, bk.openRow, false);
    }
  }

  /** The waiting bank: its ACT has not settled, or its row is not ready for a column command. */
  lemma NotYet(p: Params, bk: Bank, now: nat, k: nat)
    requires p.Valid() && bk.state.Idle? && bk.next == ZERO_CYCLES && Allowed(bk, ACT, now) && k >= 1
    ensures var b := Latency.Ticks(p, Handle(bk, Simple(ACT), now), now, k);
      && !b.state.Closed() && (Allowed(b, READ, now + k) <==> k >= Max(2, p.nRCD))
  {
    Latency.ActivateExact(p, bk, Simple(ACT), now, k, READ);
    Latency.TwoEdges(p, bk, Simple(ACT), now);
    hide Tick;
    var h := Handle(bk, Simple(ACT), now);
    if k == 1 {
      assert Latency.Ticks(p, h, now, 0) == h;
    } else {
      Activated(p, bk, now, k);
    }
  }

  /** `n` cycles without input. */
  function Pause(n: nat): seq<seq<Conv.Txn>> { seq(n, i => []) }

  lemma {:induction false} Waiting(su: Setup, inputs: seq<seq<Conv.Txn>>, act: D.Issue, bk: Bank, n: nat)
    requires OpenSetup(su) && (forall i | 0 <= i < |inputs| :: WellFormedAll(su, inputs[i]))
    requires Opened(su, Runs(su, inputs), act, bk) && n < Max(2, su.cfg.p.nRCD)
    ensures forall i | 0 <= i < |inputs + Pause(n)| :: WellFormedAll(su, (inputs + Pause(n))[i])
    ensures var s, now := Runs(su, inputs + Pause(n)), FirstAct(su.cfg);
      && Lone(su, s, [Simple(READ)], []) && |s.infos| >= 1 && s.infos[0].open && s.infos[0].row == 0
      && s.drv.dev.cycle == now + n && s.drv.dev.trace == [act] && |s.drv.dev.banks| >= 1
      && s.drv.dev.banks[0] == Latency.Ticks(su.cfg.p, Handle(bk, Simple(ACT), now), now, n)
  {
    hide WellFormedAll, Runs, Lone, Cycle, Tick, Inv, Handle, Allowed;
    FirstFormed(su);
    if n == 0 {
      assert inputs + Pause(0) == inputs;
    } else {
      Waiting(su, inputs, act, bk, n - 1);
      var before := inputs + Pause(n - 1);
      assert inputs + Pause(n) == before + [[]];
      RunsNext(su, before, []);
      NotYet(su.cfg.p, bk, FirstAct(su.cfg), n);
      WaitCycle(su, Runs(su, before), [Simple(READ)]);
    }
  }

  /** After the READ: the trace, and the bank holding it. */
  ghost predicate HasRead(su: Setup, s: System, act: D.Issue, read: D.Issue)
    requires su.Valid()
  {
    && Lone(su, s, [], []) && |s.infos| >= 1 && s.infos[0].open && s.infos[0].row == 0
    && s.drv.dev.cycle == FirstAct(su.cfg) + Max(2, su.cfg.p.nRCD) && s.drv.dev.trace == [act, read] && |s.drv.dev.banks| >= 1
    && act.bank == 0 && act.cmd == Simple(ACT) && read.bank == 0 && read.cmd == Simple(READ) && read.cycle == s.drv.dev.cycle
    && var bk := s.drv.dev.banks[0];
       && bk.state.Active? && bk.Holds(READ) && bk.last.read == s.drv.dev.cycle
       && bk.state.timer < su.cfg.p.nCCD_L - 1 && bk.next.read <= s.drv.dev.cycle
  }

  lemma ReadInputs(su: Setup) returns (inputs: seq<seq<Conv.Txn>>, act: D.Issue, read: D.Issue)
    requires OpenSetup(su)
    ensures (forall i | 0 <= i < |inputs| :: WellFormedAll(su, inputs[i])) && HasRead(su, Runs(su, inputs), act, read)
  {
    hide WellFormedAll, Runs, Lone, Cycle, Tick, Inv;
    var opening, bk;
    opening, act, bk := OpeningInputs(su);
    var n, now := Max(2, su.cfg.p.nRCD), FirstAct(su.cfg);
    Waiting(su, opening, act, bk, n - 1);
    var before := opening + Pause(n - 1);
    FirstFormed(su);
    RunsNext(su, before, []);
    inputs := before + [[]];
    NotYet(su.cfg.p, bk, now, n);
    Activated(su.cfg.p, bk, now, n);
    var s := Runs(su, before);
    var b := Latency.Ticks(su.cfg.p, Handle(bk, Simple(ACT), now), now, n);
    SendCycle(su, s, [Simple(READ)], [], Simple(READ), []);
    read := D.Issue(now + n, 0, Simple(READ), b.rowOpen, b.openRow, false);
    assert [act] + [read] == [act, read];
  }

  // ---- A second read

  lemma OneTick(p: Params, bk: Bank, now: nat)
    requires p.Valid() && bk.state.Active? && bk.Holds(READ) && bk.next.read <= bk.last.read + p.nCCD_L
    ensures var b := Tick(p, bk, now);
      if bk.state.timer > 0 then b.state == Active(bk.state.timer - 1) && b.Holds(READ) && b.last == bk.last && b.next == bk.next
      else b.state.Reading? && b.received.None? && b.next.read == bk.last.read + p.nCCD_L
  {
  }

  /** A held READ is taken up when the timer has run out; the next one may come nCCD_L cycles after it. */
  lemma {:induction false} HeldRead(p: Params, bk: Bank, now: nat, k: nat)
    requires p.Valid() && bk.state.Active? && bk.Holds(READ) && bk.last.read <= now && bk.next.read <= bk.last.read + p.nCCD_L
    requires k >= bk.state.timer + 1
    ensures var b := Latency.Ticks(p, bk, now, k); b.state.Reading? && b.received.None? && b.next.read == bk.last.read + p.nCCD_L
    decreases bk.state.timer
  {
    hide Tick;
    var b1 := Tick(p, bk, now + 1);
    OneTick(p, bk, now + 1);
    assert Latency.Ticks(p, bk, now, 0) == bk && Latency.Ticks(p, bk, now, 1) == b1;
    Latency.TicksSplit(p, bk, now, 1, k - 1);
    hide Latency.Ticks;
    if bk.state.timer > 0 {
      HeldRead(p, b1, now + 1, k - 1);
    } else {
      StaysReading(p, b1, now + 1, k - 1);
    }
  }

  lemma {:induction false} Resting(su: Setup, inputs: seq<seq<Conv.Txn>>, act: D.Issue, read: D.Issue, n: nat)
    requires OpenSetup(su) && (forall i | 0 <= i < |inputs| :: WellFormedAll(su, inputs[i]))
    requires HasRead(su, Runs(su, inputs), act, read)
    ensures forall i | 0 <= i < |inputs + Pause(n)| :: WellFormedAll(su, (inputs + Pause(n))[i])
    ensures var s0, s := Runs(su, inputs), Runs(su, inputs + Pause(n));
      && Lone(su, s, [], []) && |s.infos| >= 1 && s.infos[0].open && s.infos[0].row == 0
      && s.drv.dev.cycle == s0.drv.dev.cycle + n && s.drv.dev.trace == [act, read] && |s.drv.dev.banks| >= 1
      && s.drv.dev.banks[0] == Latency.Ticks(su.cfg.p, s0.drv.dev.banks[0], s0.drv.dev.cycle, n)
  {
    hide WellFormedAll, Runs, Lone, Cycle, Tick, Inv;
    FirstFormed(su);
    if n == 0 {
      assert inputs + Pause(0) == inputs;
    } else {
      Resting(su, inputs, act, read, n - 1);
      var before := inputs + Pause(n - 1);
      assert inputs + Pause(n) == before + [[]];
      RunsNext(su, before, []);
      WaitCycle(su, Runs(su, before), []);
    }
  }

  /** Two reads of one row: the controller sends their column commands exactly nCCD_L cycles apart. */
  lemma TwoReads(su: Setup) returns (inputs: seq<seq<Conv.Txn>>)
    requires OpenSetup(su)
    ensures forall i | 0 <= i < |inputs| :: WellFormedAll(su, inputs[i])
    ensures var trace := Runs(su, inputs).drv.dev.trace;
      && |trace| == 3 && trace[0].cmd == Simple(ACT) && trace[1].cmd == trace[2].cmd == Simple(READ)
      && trace[0].bank == trace[1].bank == trace[2].bank == 0
      && trace[1].cycle == FirstAct(su.cfg) + Max(2, su.cfg.p.nRCD) && trace[2].cycle == trace[1].cycle + su.cfg.p.nCCD_L
  {
    hide WellFormedAll, Runs, Lone, Cycle, Tick, Inv;
    var opening, act, read := ReadInputs(su);
    var n := su.cfg.p.nCCD_L;
    Resting(su, opening, act, read, n - 1);
    var before := opening + Pause(n - 1);
    FirstFormed(su);
    RunsNext(su, before, [FIRST]);
    inputs := before + [[FIRST]];
    var s0, s := Runs(su, opening), Runs(su, before);
    var now := s0.drv.dev.cycle;
    HeldRead(su.cfg.p, s0.drv.dev.banks[0], now, n);
    SendCycle(su, s, [], [FIRST], Simple(READ), []);
  }

  // ---- The driver's assertion

  /** Under the open policy the assertion about data commands needs nCCD_L, and the first READ, to reach the
      asserted distance: otherwise this run of the whole controller breaks it. */
  lemma OpenAssertionFails(su: Setup) returns (inputs: seq<seq<Conv.Txn>>)
    requires OpenSetup(su)
    requires su.cfg.p.nCCD_L < DataAssertion.AssertedGap(su.cfg.p)
          || FirstAct(su.cfg) + Max(2, su.cfg.p.nRCD) < DataAssertion.AssertedGap(su.cfg.p)
    ensures forall i | 0 <= i < |inputs| :: WellFormedAll(su, inputs[i])
    ensures !DataAssertion.Asserted(su.cfg.p, su.cfg.g, Runs(su, inputs).drv.dev.trace)
  {
    hide WellFormedAll, Runs, Inv;
    inputs := TwoReads(su);
    var trace := Runs(su, inputs).drv.dev.trace;
    assert su.cfg.g.PseudoOf(0) == 0;
    assert DataAssertion.NoDataIn(trace, 0, 1) && DataAssertion.NoDataIn(trace, 2, 2);
    assert DataAssertion.SameClass(su.cfg.g, trace[1], trace[2]);
    assert trace[1].cmd.kind.IsColumn() && trace[2].cmd.kind.IsColumn();
  }

  /** The assertion holds in every run under the open policy without refresh, if and only if the parameters fit,
      unless ACTs take two cycles of a row bus of their own. */
  lemma OpenAssertionExact(su: Setup)
    requires OpenSetup(su) && FirstAct(su.cfg) == 1
    ensures (forall inputs: seq<seq<Conv.Txn>> | (forall i | 0 <= i < |inputs| :: WellFormedAll(su, inputs[i])) ::
               DataAssertion.Asserted(su.cfg.p, su.cfg.g, Runs(su, inputs).drv.dev.trace))
            <==> DataAssertion.AssertionFits(su.cfg.p)
  {
    hide WellFormedAll, Runs, Inv, DataAssertion.Asserted;
    if DataAssertion.AssertionFits(su.cfg.p) {
      forall inputs: seq<seq<Conv.Txn>> | forall i | 0 <= i < |inputs| :: WellFormedAll(su, inputs[i])
        ensures DataAssertion.Asserted(su.cfg.p, su.cfg.g, Runs(su, inputs).drv.dev.trace)
      {
        EveryDataAssertion(su, inputs);
      }
    } else {
      var inputs := OpenAssertionFails(su);
      assert !DataAssertion.Asserted(su.cfg.p, su.cfg.g, Runs(su, inputs).drv.dev.trace);
    }
  }
}
