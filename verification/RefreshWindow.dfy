/** A run of the whole controller with refresh on, on one rank: nothing happens until the first refresh, and
    a read arrives when the refresh is over. It shows that the condition of Starvation cannot be dropped. */
module RefreshWindow {
  import opened Dram
  import opened BankMachine
  import D = Device
  import opened DataBus
  import Latency
  import opened DriverMachine
  import Safety = DriverSafety
  import Refresh
  import Conv = Converter
  import opened Controller
  import opened EndToEnd
  import opened LoneRuns
  import Starvation

  /** One rank, all-bank refresh, open policy, ACTs of one bus cycle, room for a transaction. */
  predicate OneRank(su: Setup) {
    && su.Valid() && su.rules.policy.OPEN? && su.cfg.useRefresh && !su.cfg.singleBank && su.capacity >= 3
    && su.cfg.g.channels == 1 && su.cfg.g.pchannels == 1 && su.cfg.g.ranks == 1 && FirstAct(su.cfg) == 1
  }

  /** Nothing to do but to wait for the refresh timer, which shows `t`. */
  ghost predicate Resting(su: Setup, s: System, t: nat)
    requires su.Valid()
  {
    && Lone(su, s, [], []) && |s.infos| >= 1 && !s.infos[0].open && |s.drv.dev.banks| >= 1
    && s.drv.refi == [t] && s.drv.refreshQ == [[]] && |s.drv.colBus| == |s.drv.rowBus| == 1 && s.drv.rowBus[0] <= 1
  }

  lemma OneRankOnly(g: Geometry)
    requires g.Valid() && g.channels == 1 && g.pchannels == 1 && g.ranks == 1
    ensures g.NumRanks() == 1 && g.NumBanks() == BanksPerRank(g) >= 1
  {
  }

  // ---- A cycle without refresh

  lemma TimerRuns(cfg: Config, d: Driver, t: nat)
    requires cfg.Valid() && Shaped(cfg, d) && cfg.useRefresh && cfg.g.NumRanks() == 1 && d.refi == [t] && t > 0 && d.refreshQ == [[]]
    ensures Shaped(cfg, RunRefresh(cfg, d)) && RunRefresh(cfg, d) == Released(d).(refi := [t - 1])
    ensures Run(cfg, d) == SendRequest(cfg, RunRefresh(cfg, d))
  {
    var d1 := Released(d);
    assert Shaped(cfg, d1) by { hide Queued, RefreshShaped; }
    RefreshFromShaped(cfg, d1, 0);
    RefreshRankShaped(cfg, d1, 0);
    hide Shaped, SendRequest, CreateRefresh, SendRefresh, RefreshTargets;
    assert d1.refi[0 := t - 1] == [t - 1];
    var d2 := RefreshRank(cfg, d1, 0);
    assert d2 == d1.(refi := [t - 1]);
    assert RefreshFrom(cfg, d2, 1) == d2;
  }

  lemma UpdateMore(cfg: Config, d: Driver)
    requires cfg.Valid() && Shaped(cfg, d)
    ensures var d' := Update(cfg, d); d'.refi == d.refi && d'.refreshQ == d.refreshQ && d'.created == d.created
  {
    hide Shaped, Tick, Shift;
  }

  lemma IdleCycle(su: Setup, s: System, t: nat)
    requires OneRank(su) && Resting(su, s, t) && t > 0 && WellFormedAll(su, [])
    ensures var s' := Cycle(su, s, []);
      && Resting(su, s', t - 1) && s'.drv.dev == D.Clock(su.cfg.p, s.drv.dev) && s'.drv.created == s.drv.created
  {
    hide Shape, Shaped, Indexed, Cycle, Inv, Schedule, Run, Update, Tick, Allowed, WellFormedAll, Visit, Convert, RunRefresh;
    var s2, cmds := BeforeSchedule(su, s, [], [], []);
    UpdateFacts(su.cfg, s.drv);
    UpdateMore(su.cfg, s.drv);
    OneRankOnly(su.cfg.g);
    VisitRefuses(su, s2);
    ScheduleOne(su, s2);
    var d := Schedule(su, s2).drv;
    TimerRuns(su.cfg, d, t);
    ReleasedFacts(d);
    hide Released;
    assert SendRequest(su.cfg, RunRefresh(su.cfg, d)) == RunRefresh(su.cfg, d) by { SendNothing(su.cfg, RunRefresh(su.cfg, d)); }
  }

  lemma SendNothing(cfg: Config, d: Driver)
    requires cfg.Valid() && Shaped(cfg, d) && d.inputQ == []
    ensures SendRequest(cfg, d) == d
  {
    hide Shaped;
  }

  // ---- The cycle of a refresh

  /** All banks are idle and take a REF. */
  predicate AllIdle(dev: D.Device) {
    forall b | 0 <= b < |dev.banks| :: dev.banks[b].state.Idle? && Allowed(dev.banks[b], REF, dev.cycle)
  }

  lemma {:induction false} NoneOpen(d: Driver, banks: seq<nat>)
    requires (forall i | 0 <= i < |banks| :: banks[i] < |d.dev.banks|) && forall b | 0 <= b < |d.dev.banks| :: d.dev.banks[b].state.Idle?
    ensures OpenOnes(d, banks) == []
  {
    if banks != [] { NoneOpen(d, banks[1..]); }
  }

  lemma {:induction false} NothingReopened(banks: seq<nat>)
    ensures ReopenActs([], banks) == []
    decreases |banks|
  {
    if banks != [] { NothingReopened(banks[1..]); }
  }

  /** The timer has run out and all banks are idle: the REF is created and taken at once. */
  lemma TimerOut(cfg: Config, d: Driver)
    requires cfg.Valid() && Shaped(cfg, d) && cfg.useRefresh && !cfg.singleBank && cfg.g.channels == cfg.g.pchannels == cfg.g.ranks == 1
    requires d.refi == [0] && d.refreshQ == [[]] && d.inputQ == [] && AllIdle(d.dev) && |d.rowBus| == 1 && d.rowBus[0] <= 1 && |d.colBus| == 1
    ensures Shaped(cfg, RunRefresh(cfg, d)) && Run(cfg, d) == SendRequest(cfg, RunRefresh(cfg, d))
    ensures var d' := RunRefresh(cfg, d);
      && d'.refi == [cfg.p.nREFI] && d'.refreshQ == [[]] && d'.inputQ == [] && d'.dev.cycle == d.dev.cycle
      && |d'.colBus| == |d'.rowBus| == 1 && d'.rowBus[0] <= 1 && (d.colBus[0] <= 1 ==> d'.colBus[0] <= 1)
      && |d'.created| == |d.created| + 1 && d'.created[..|d.created|] == d.created
      && d'.created[|d.created|].at == |d.dev.trace| && d'.created[|d.created|].rank == 0
      && |d'.dev.banks| == |d.dev.banks| >= 1 && d.dev.trace <= d'.dev.trace
      && (forall i | |d.dev.trace| <= i < |d'.dev.trace| :: d'.dev.trace[i].cmd.kind.REF?)
      && d'.dev.banks[0] == Handle(d.dev.banks[0], Cmd(REF, 0, 0, 0, 0, 0), d.dev.cycle)
  {
    OneRankOnly(cfg.g);
    var d0 := Released(d);
    assert Shaped(cfg, d0) by { hide Queued, RefreshShaped; }
    RefreshFromShaped(cfg, d0, 0);
    RefreshRankShaped(cfg, d0, 0);
    CreateShaped(cfg, d0, 0);
    TargetsInRange(cfg, d0, 0);
    var targets := RefreshTargets(cfg, d0, 0);
    assert targets == RankBanks(cfg.g, 0) && targets[0] == 0;
    CreatedOne(cfg, d0, targets);
    var d1 := CreateRefresh(cfg, d0, 0).(refi := d0.refi[0 := cfg.p.nREFI]);
    hide Shaped, SendRequest, CreateRefresh, RefreshTargets, RankBanks, SendAll, Handle, SendRefresh;
    assert d1.refi == [cfg.p.nREFI];
    TakenAtOnce(cfg, d1, targets);
    var d2 := SendRefresh(cfg, d1, 0);
    assert RefreshRank(cfg, d0, 0) == d2;
    assert RefreshFrom(cfg, d2, 1) == d2;
  }

  /** The REF goes to every bank in the cycle of its creation. */
  lemma TakenAtOnce(cfg: Config, d: Driver, targets: seq<nat>)
    requires cfg.Valid() && Shaped(cfg, d) && d.refreshQ == [[RefreshCmd(REF, 0, targets)]] && AllIdle(d.dev)
    requires |d.rowBus| == |d.colBus| == 1 && d.rowBus[0] == 0 && targets != [] && targets[0] == 0
    ensures var d' := SendRefresh(cfg, d, 0);
      && d'.refreshQ == [[]] && d'.refi == d.refi && d'.created == d.created && d'.inputQ == d.inputQ && d'.dev.cycle == d.dev.cycle
      && |d'.colBus| == |d'.rowBus| == 1 && d'.rowBus[0] <= 1 && (d.colBus[0] <= 1 ==> d'.colBus[0] <= 1)
      && |d'.dev.banks| == |d.dev.banks| >= 1 && d.dev.trace <= d'.dev.trace
      && (forall i | |d.dev.trace| <= i < |d'.dev.trace| :: d'.dev.trace[i].cmd.kind.REF?)
      && d'.dev.banks[0] == Handle(d.dev.banks[0], Cmd(REF, 0, 0, 0, 0, 0), d.dev.cycle)
  {
    hide Shaped, SendAll, Handle, Refresh.Batch, RefreshShaped, Allowed, SendRefresh, AllIdle;
    var r := d.refreshQ[0][0];
    RefreshGoes(cfg, d, targets);
    Refresh.RefreshAtomic(cfg, d, 0);
    BatchRefs(d.dev, r, targets);
    Refresh.SendAllCycle(cfg, d.dev, r, 0, targets);
    BatchStarts(d.dev, r, targets);
  }

  lemma BatchStarts(dev: D.Device, r: RefreshCmd, banks: seq<nat>)
    requires banks != [] && banks[0] == 0 && r.kind.REF? && r.channel == 0 && forall i | 0 <= i < |banks| :: banks[i] < |dev.banks|
    ensures RefreshIssue(r, 0, banks[0]) == Cmd(REF, 0, 0, 0, 0, 0) && |dev.banks| >= 1
  {
  }

  lemma RefreshGoes(cfg: Config, d: Driver, targets: seq<nat>)
    requires cfg.Valid() && Shaped(cfg, d) && d.refreshQ == [[RefreshCmd(REF, 0, targets)]] && AllIdle(d.dev)
    requires |d.rowBus| == |d.colBus| == 1 && d.rowBus[0] == 0
    ensures SendRefresh(cfg, d, 0) ==
      Occupy(cfg, d.(dev := SendAll(cfg, d.dev, RefreshCmd(REF, 0, targets), 0, targets), refreshQ := [[]]), REF, 0)
  {
    var r := d.refreshQ[0][0];
    assert RefreshShaped(cfg, 0, r);
    assert |d.dev.banks| == cfg.g.NumBanks();
    hide Shaped, SendAll, Allowed, Queued;
    assert forall i | 0 <= i < |targets| :: D.CanSend(d.dev, targets[i], REF);
    assert d.refreshQ[0][1..] == [];
    assert d.refreshQ[0 := d.refreshQ[0][1..]] == [[]];
  }

  lemma BatchRefs(dev: D.Device, r: RefreshCmd, banks: seq<nat>)
    requires r.kind.REF? && forall i | 0 <= i < |banks| :: banks[i] < |dev.banks|
    ensures forall i | 0 <= i < |Refresh.Batch(dev, r, 0, banks)| :: Refresh.Batch(dev, r, 0, banks)[i].cmd.kind.REF?
  {
  }

  /** What creation does when all banks are idle. */
  lemma CreatedOne(cfg: Config, d: Driver, targets: seq<nat>)
    requires cfg.Valid() && Shaped(cfg, d) && cfg.g.channels == cfg.g.pchannels == cfg.g.ranks == 1 && targets == RefreshTargets(cfg, d, 0)
    requires !cfg.singleBank && d.refreshQ == [[]] && d.inputQ == [] && (forall i | 0 <= i < |targets| :: targets[i] < |d.dev.banks|)
    requires forall b | 0 <= b < |d.dev.banks| :: d.dev.banks[b].state.Idle?
    ensures var d' := CreateRefresh(cfg, d, 0);
      && d'.refreshQ == [[RefreshCmd(REF, 0, targets)]] && d'.inputQ == [] && d'.dev == d.dev && d'.refi == d.refi
      && d'.colBus == d.colBus && d'.rowBus == d.rowBus
      && d'.created == d.created + [Creation(0, |d.dev.trace|, d.dev.cycle, targets)]
  {
    hide RefreshTargets, Shaped, OpenOnes, ReopenActs;
    NoneOpen(d, targets);
    NothingReopened(targets);
    assert RefreshChannel(cfg.g, 0) == 0;
    assert [] + [RefreshCmd(REF, 0, targets)] == [RefreshCmd(REF, 0, targets)];
    assert d.refreshQ[0 := [RefreshCmd(REF, 0, targets)]] == [[RefreshCmd(REF, 0, targets)]];
  }

  lemma CreateCycle(su: Setup, s: System)
    requires OneRank(su) && Resting(su, s, 0) && WellFormedAll(su, []) && AllIdle(D.Clock(su.cfg.p, s.drv.dev))
    ensures var s', dev := Cycle(su, s, []), D.Clock(su.cfg.p, s.drv.dev);
      && Resting(su, s', su.cfg.p.nREFI) && s'.drv.dev.cycle == dev.cycle
      && |s'.drv.created| == |s.drv.created| + 1 && s'.drv.created[..|s.drv.created|] == s.drv.created
      && s'.drv.created[|s.drv.created|].at == |s.drv.dev.trace| && s'.drv.created[|s.drv.created|].rank == 0
      && s.drv.dev.trace <= s'.drv.dev.trace && |dev.banks| >= 1 && Allowed(dev.banks[0], REF, dev.cycle)
      && (forall i | |s.drv.dev.trace| <= i < |s'.drv.dev.trace| :: s'.drv.dev.trace[i].cmd.kind.REF?)
      && s'.drv.dev.banks[0] == Handle(dev.banks[0], Cmd(REF, 0, 0, 0, 0, 0), dev.cycle)
  {
    hide Shape, Shaped, Indexed, Cycle, Inv, Schedule, Run, Update, Tick, Allowed, WellFormedAll, Visit, Convert, RunRefresh, Handle;
    var s2, cmds := BeforeSchedule(su, s, [], [], []);
    UpdateFacts(su.cfg, s.drv);
    UpdateMore(su.cfg, s.drv);
    VisitRefuses(su, s2);
    ScheduleOne(su, s2);
    var d := Schedule(su, s2).drv;
    TimerOut(su.cfg, d);
    SendNothing(su.cfg, RunRefresh(su.cfg, d));
  }

  lemma {:induction false} NoneActs(g: Geometry, trace: seq<D.Issue>, rank: nat, lo: int, hi: int)
    requires g.Valid() && forall i | 0 <= i < |trace| :: !trace[i].cmd.kind.ACT?
    ensures Safety.Acts(g, trace, rank, lo, hi) == 0
  {
    if trace != [] { NoneActs(g, trace[..|trace| - 1], rank, lo, hi); }
  }

  lemma WindowClear(su: Setup, s: System)
    requires su.Valid() && Inv(su, s) && forall i | 0 <= i < |s.drv.dev.trace| :: !s.drv.dev.trace[i].cmd.kind.ACT?
    ensures Shaped(su.cfg, s.drv) && |Update(su.cfg, s.drv).faw| >= 1 && Sum(Update(su.cfg, s.drv).faw[0]) < 4
  {
    SafetyShaped(su, s);
    Safety.UpdateInv(su.cfg, s.drv);
    var d := Update(su.cfg, s.drv);
    assert su.cfg.g.NumRanks() >= 1;
    hide Update, Sum, Safety.Acts;
    Safety.TrackedSum(su.cfg, d, 0);
    UpdateKeeps(su.cfg, s.drv);
    NoneActs(su.cfg.g, d.dev.trace, 0, d.dev.cycle - su.cfg.p.nFAW + 1, d.dev.cycle);
  }

  /** The read arrives while the timer is running: its ACT goes out in the same cycle. */
  lemma ActCycle(su: Setup, s: System, t: nat)
    requires OneRank(su) && Resting(su, s, t) && t > 0 && WellFormedAll(su, [FIRST])
    requires Allowed(Tick(su.cfg.p, s.drv.dev.banks[0], s.drv.dev.cycle + 1), ACT, s.drv.dev.cycle + 1)
    requires forall i | 0 <= i < |s.drv.dev.trace| :: !s.drv.dev.trace[i].cmd.kind.ACT?
    ensures var s', dev := Cycle(su, s, [FIRST]), D.Clock(su.cfg.p, s.drv.dev);
      && D.CanSend(dev, 0, ACT) && s'.drv.dev == D.Send(su.cfg.p, su.cfg.g, dev, 0, Simple(ACT), false) && s'.drv.created == s.drv.created
  {
    hide Shape, Shaped, Indexed, Cycle, Inv, Schedule, Run, Update, Tick, Allowed, WellFormedAll, Visit, Convert, RunRefresh, D.Send, Sum;
    var s2, cmds := BeforeSchedule(su, s, [], [], [FIRST]);
    UpdateFacts(su.cfg, s.drv);
    UpdateMore(su.cfg, s.drv);
    OneRankOnly(su.cfg.g);
    WindowClear(su, s);
    Sizes(su, s2);
    assert s2.drv.dev.banks[0] == Tick(su.cfg.p, s.drv.dev.banks[0], s.drv.dev.cycle + 1);
    VisitTakes(su, s2, Simple(ACT), [Simple(READ)]);
    VisitShape(su, s2, 0);
    ScheduleOne(su, s2);
    var d := Schedule(su, s2).drv;
    TimerRuns(su.cfg, d, t);
    ReleasedFacts(d);
    hide Released, SendRequest;
    SendsOne(su.cfg, RunRefresh(su.cfg, d), Simple(ACT));
  }

  // ---- The run

  lemma {:induction false} UntilRefresh(su: Setup, n: nat)
    requires OneRank(su) && n <= su.cfg.p.nREFI
    ensures forall i | 0 <= i < |Pause(n)| :: WellFormedAll(su, Pause(n)[i])
    ensures var s := Runs(su, Pause(n));
      && Resting(su, s, su.cfg.p.nREFI - n) && s.drv.dev.cycle == n && s.drv.dev.trace == [] && s.drv.created == []
      && forall b | 0 <= b < |s.drv.dev.banks| :: Untouched(s.drv.dev.banks[b])
  {
    hide WellFormedAll, Runs, Cycle, Tick, Inv, Lone;
    FirstFormed(su);
    if n == 0 {
      StartsResting(su);
      assert Pause(0) == [];
    } else {
      UntilRefresh(su, n - 1);
      assert Pause(n) == Pause(n - 1) + [[]];
      RunsNext(su, Pause(n - 1), []);
      var s := Runs(su, Pause(n - 1));
      IdleCycle(su, s, su.cfg.p.nREFI - (n - 1));
      AllUntouched(su.cfg.p, s.drv.dev);
    }
  }

  /** An idle bank that has taken no command. */
  predicate Untouched(bk: Bank) { bk.state.Idle? && bk.received.None? && bk.next == ZERO_CYCLES }

  lemma AllUntouched(p: Params, dev: D.Device)
    requires p.Valid() && forall b | 0 <= b < |dev.banks| :: Untouched(dev.banks[b])
    ensures var dev' := D.Clock(p, dev); AllIdle(dev') && forall b | 0 <= b < |dev'.banks| :: Untouched(dev'.banks[b])
  {
    hide Tick;
    forall b | 0 <= b < |dev.banks|
      ensures Untouched(Tick(p, dev.banks[b], dev.cycle + 1))
    {
      assert Untouched(dev.banks[b]);
      IdleTicks(p, dev.banks[b], dev.cycle + 1);
    }
  }

  lemma StartsResting(su: Setup)
    requires OneRank(su)
    ensures var s := Runs(su, []);
      && Resting(su, s, su.cfg.p.nREFI) && s.drv.dev.cycle == 0 && s.drv.dev.trace == [] && s.drv.created == []
      && forall b | 0 <= b < |s.drv.dev.banks| :: Untouched(s.drv.dev.banks[b])
  {
    InitialInv(su);
    OneRankOnly(su.cfg.g);
    hide Inv, Geometry.NumBanks, Geometry.NumRanks;
  }

  /** The refresh is on its way: `n` cycles after its creation. */
  lemma {:induction false} UntilReady(su: Setup, inputs: seq<seq<Conv.Txn>>, n: nat)
    requires OneRank(su) && (forall i | 0 <= i < |inputs| :: WellFormedAll(su, inputs[i])) && n <= su.cfg.p.nREFI
    requires Resting(su, Runs(su, inputs), su.cfg.p.nREFI)
    ensures forall i | 0 <= i < |inputs + Pause(n)| :: WellFormedAll(su, (inputs + Pause(n))[i])
    ensures var s0, s := Runs(su, inputs), Runs(su, inputs + Pause(n));
      && Resting(su, s, su.cfg.p.nREFI - n) && s.drv.dev.cycle == s0.drv.dev.cycle + n
      && s.drv.dev.trace == s0.drv.dev.trace && s.drv.created == s0.drv.created
      && s.drv.dev.banks[0] == Latency.Ticks(su.cfg.p, s0.drv.dev.banks[0], s0.drv.dev.cycle, n)
  {
    hide WellFormedAll, Runs, Cycle, Tick, Inv, Lone;
    FirstFormed(su);
    if n == 0 {
      assert inputs + Pause(0) == inputs;
    } else {
      UntilReady(su, inputs, n - 1);
      var before := inputs + Pause(n - 1);
      assert inputs + Pause(n) == before + [[]];
      RunsNext(su, before, []);
      IdleCycle(su, Runs(su, before), su.cfg.p.nREFI - (n - 1));
    }
  }

  /** A run in which the first refresh of the rank is followed by a request. */
  lemma WindowOpens(su: Setup) returns (inputs: seq<seq<Conv.Txn>>, j: nat)
    requires OneRank(su) && su.cfg.p.nRFC <= su.cfg.p.nREFI
    ensures forall i | 0 <= i < |inputs| :: WellFormedAll(su, inputs[i])
    ensures var d := Runs(su, inputs).drv;
      |d.created| == 1 && d.created[0].at <= j < |d.dev.trace| && Refresh.IsRequest(su.cfg.g, d.dev.trace[j], d.created[0].rank)
  {
    hide WellFormedAll, Runs, Cycle, Tick, Inv, Lone, Handle;
    var p := su.cfg.p;
    FirstFormed(su);
    UntilRefresh(su, p.nREFI);
    var a0 := Pause(p.nREFI);
    RunsNext(su, a0, []);
    var a1 := a0 + [[]];
    var s0 := Runs(su, a0);
    AllUntouched(p, s0.drv.dev);
    CreateCycle(su, s0);
    var s1 := Runs(su, a1);
    UntilReady(su, a1, p.nRFC - 1);
    var a2 := a1 + Pause(p.nRFC - 1);
    RunsNext(su, a2, [FIRST]);
    inputs := a2 + [[FIRST]];
    var s2 := Runs(su, a2);
    var bk := D.Clock(p, s0.drv.dev).banks[0];
    assert Untouched(bk);
    Latency.RefreshExact(p, bk, Cmd(REF, 0, 0, 0, 0, 0), s1.drv.dev.cycle, p.nRFC);
    assert Latency.Ticks(p, s1.drv.dev.banks[0], s1.drv.dev.cycle, p.nRFC) == Tick(p, s2.drv.dev.banks[0], s2.drv.dev.cycle + 1);
    ActCycle(su, s2, p.nREFI - (p.nRFC - 1));
    j := |s2.drv.dev.trace|;
    assert su.cfg.g.RankOf(0) == 0;
  }

  /** On one rank, refresh starves the requests, if and only if it takes longer than the refresh interval. */
  lemma StarvationExact(su: Setup)
    requires OneRank(su)
    ensures su.cfg.p.nRFC > su.cfg.p.nREFI <==>
      forall inputs: seq<seq<Conv.Txn>> | (forall i | 0 <= i < |inputs| :: WellFormedAll(su, inputs[i])) :: Starved(su, inputs)
  {
    hide WellFormedAll, Runs, Inv, Refresh.IsRequest;
    if su.cfg.p.nRFC > su.cfg.p.nREFI {
      forall inputs: seq<seq<Conv.Txn>> | forall i | 0 <= i < |inputs| :: WellFormedAll(su, inputs[i])
        ensures Starved(su, inputs)
      {
        AlwaysStarved(su, inputs);
      }
    } else {
      var inputs, j := WindowOpens(su);
      assert !Starved(su, inputs);
    }
  }

  /** No request reaches a rank after its first refresh commands were created. */
  ghost predicate Starved(su: Setup, inputs: seq<seq<Conv.Txn>>)
    requires su.Valid() && forall i | 0 <= i < |inputs| :: WellFormedAll(su, inputs[i])
  {
    var d := Runs(su, inputs).drv;
    forall k, j | 0 <= k < |d.created| && d.created[k].at <= j < |d.dev.trace| :: !Refresh.IsRequest(su.cfg.g, d.dev.trace[j], d.created[k].rank)
  }

  lemma AlwaysStarved(su: Setup, inputs: seq<seq<Conv.Txn>>)
    requires OneRank(su) && su.cfg.p.nRFC > su.cfg.p.nREFI && forall i | 0 <= i < |inputs| :: WellFormedAll(su, inputs[i])
    ensures Starved(su, inputs)
  {
    hide WellFormedAll, Runs, Inv, Refresh.IsRequest;
    var d := Runs(su, inputs).drv;
    forall k, j | 0 <= k < |d.created| && d.created[k].at <= j < |d.dev.trace|
      ensures !Refresh.IsRequest(su.cfg.g, d.dev.trace[j], d.created[k].rank)
    {
      Starvation.EveryRankStarves(su, inputs, k, j);
    }
  }
}
