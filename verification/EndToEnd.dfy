/** The controller's clock (c_Controller::clockTic) and what holds of every run of it. */
module EndToEnd {
  import opened Arith
  import opened Dram
  import opened BankMachine
  import D = Device
  import opened DriverMachine
  import Safety = DriverSafety
  import opened Order
  import RB = RowBuffer
  import opened Rows
  import opened Edits
  import opened RefreshRows
  import Conv = Converter
  import opened Controller
  import Refresh
  import RefreshPace
  import Bus
  import DataBus
  import DataAssertion
  import A = AddressMap
  import MapString

  // ---- A whole cycle

  predicate WellFormedAll(su: Setup, txns: seq<Conv.Txn>)
    requires su.Valid()
  {
    forall i | 0 <= i < |txns| :: WellFormed(su, txns[i])
  }

  /** The start of a cycle: the driver's update, and transactions arriving at the converter. */
  function Start(su: Setup, s: System, txns: seq<Conv.Txn>): System
    requires su.Valid() && Shaped(su.cfg, s.drv)
  {
    s.(drv := Update(su.cfg, s.drv), pending := s.pending + txns)
  }

  lemma StartInv(su: Setup, s: System, txns: seq<Conv.Txn>)
    requires su.Valid() && Inv(su, s) && WellFormedAll(su, txns)
    ensures Shaped(su.cfg, s.drv)
    ensures Inv(su, Start(su, s, txns)) && Quiet(Start(su, s, txns))
  {
    hide Safety.Inv, Safety.Quiet, SettledUnlessBlocked, QueueShape, WellFormed, Conv.Tracks, RB.After, RB.Matches, Update, Shaped,
         Accounted, BankRows, Clear, ClosedDiscards, RowsOpen, Follows, Pipeline;
    SafetyShaped(su, s);
    Safety.UpdateInv(su.cfg, s.drv);
    UpdateSettled(su.cfg, s.drv);
    UpdateKeeps(su.cfg, s.drv);
    var s' := Start(su, s, txns);
    StartRows(su, s);
    forall b | 0 <= b < |s.queues|
      ensures BankFlow(su, s', b)
    {
      assert BankFlow(su, s, b);
      UpdatePipeline(su.cfg, s.drv, b);
      UpdateAccount(su.cfg, s.drv, b, s.queues[b], s.streams[b]);
    }
  }

  /** The driver's update keeps every bank's row in step. */
  lemma StartRows(su: Setup, s: System)
    requires su.Valid() && Inv(su, s) && Shaped(su.cfg, s.drv)
    ensures var d' := Update(su.cfg, s.drv);
      && |d'.dev.banks| == |s.queues| && (su.cfg.useRefresh ==> Clear(d'))
      && (forall b | 0 <= b < |s.queues| && su.cfg.useRefresh :: BankRows(d', b, s.queues[b], Left(s, b)))
      && (forall b | 0 <= b < |s.queues| && !su.cfg.useRefresh :: Follows(d', b, s.queues[b]))
  {
    hide Safety.Inv, Conv.Tracks, RB.After, RB.Matches, Update, Accounted, BankRows, Clear, ClosedDiscards, Follows, Pipeline, QueueShape;
    UpdateSettled(su.cfg, s.drv);
    if su.cfg.useRefresh {
      FlowRows(su, s);
      UpdateRows(su.cfg, s.drv, s.queues, Lefts(s));
    } else {
      FlowFollows(su, s);
      UpdateFollows(su.cfg, s.drv, s.queues);
    }
  }

  /** The row that a bank's stream leaves open. */
  ghost function Left(s: System, b: nat): RB.Status
    requires b < |s.streams|
  {
    RB.After(RB.Closed, s.streams[b])
  }

  ghost function Lefts(s: System): seq<RB.Status> { seq(|s.streams|, b requires 0 <= b < |s.streams| => Left(s, b)) }

  lemma FlowRows(su: Setup, s: System)
    requires su.Valid() && Inv(su, s) && su.cfg.useRefresh
    ensures |s.streams| == |s.queues| && AllRows(s.drv, s.queues, Lefts(s)) && Clear(s.drv)
  {
    hide Safety.Inv, Conv.Tracks, RB.After, Accounted, BankRows, Clear, ClosedDiscards, QueueShape, RowsOpen;
    forall b | 0 <= b < |s.queues| ensures BankRows(s.drv, b, s.queues[b], Lefts(s)[b]) { assert BankFlow(su, s, b); }
  }

  lemma FlowFollows(su: Setup, s: System)
    requires su.Valid() && Inv(su, s) && !su.cfg.useRefresh
    ensures AllFollow(s.drv, s.queues)
  {
    hide Safety.Inv, Conv.Tracks, RB.After, Accounted, BankRows, Clear, ClosedDiscards, QueueShape, RowsOpen, Follows;
    forall b | 0 <= b < |s.queues| ensures Follows(s.drv, b, s.queues[b]) { assert BankFlow(su, s, b); }
  }

  lemma UpdateKeeps(cfg: Config, d: Driver)
    requires cfg.Valid() && Shaped(cfg, d)
    ensures var d' := Update(cfg, d);
      d'.dev.trace == d.dev.trace && d'.inputQ == d.inputQ && d'.discarded == d.discarded && d'.refreshQ == d.refreshQ
  {
  }

  lemma UpdateAccount(cfg: Config, d: Driver, b: nat, q: seq<Cmd>, stream: seq<Cmd>)
    requires cfg.Valid() && Shaped(cfg, d) && Accounted(d, b, q, stream)
    ensures Accounted(Update(cfg, d), b, q, stream)
  {
    hide Accounted, Update, OfBank, SentTo, DiscardedOf;
    UpdateKeeps(cfg, d);
    SameAccount(d, Update(cfg, d), b, q, q, stream);
  }

  lemma UpdateSettled(cfg: Config, d: Driver)
    requires cfg.Valid() && Safety.Inv(cfg, d)
    ensures SettledUnlessBlocked(Update(cfg, d)) && |Update(cfg, d).dev.banks| == |d.dev.banks|
  {
    hide Safety.Tracks, Safety.FourActivate, D.Seen, D.TimingSafe, Queued, RefreshShaped, Tick, D.Sane, RB.Settled;
    forall b | 0 <= b < |d.dev.banks|
      ensures RB.Settled(Tick(cfg.p, d.dev.banks[b], d.dev.cycle + 1))
    {
      assert D.Sane(d.dev.banks[b]);
      TickSettled(cfg.p, d.dev.banks[b], d.dev.cycle + 1);
    }
  }

  lemma TickSettled(p: Params, bk: Bank, now: nat)
    requires p.Valid() && D.Sane(bk)
    ensures RB.Settled(Tick(p, bk, now))
  {
  }

  lemma UpdatePipeline(cfg: Config, d: Driver, b: nat)
    requires cfg.Valid() && Shaped(cfg, d)
    ensures Pipeline(Update(cfg, d), b) == Pipeline(d, b)
  {
  }

  lemma RunInv(su: Setup, s: System)
    requires su.Valid() && Inv(su, s) && Quiet(s)
    ensures Shaped(su.cfg, s.drv)
    ensures Inv(su, s.(drv := Run(su.cfg, s.drv)))
  {
    hide Safety.Inv, QueueShape, WellFormed, Conv.Tracks, RB.After, RB.Matches, Run, Shaped, Quiet,
         Accounted, BankRows, Clear, ClosedDiscards, RowsOpen, Follows, Pipeline;
    SafetyShaped(su, s);
    SafetyQuiet(s);
    Safety.RunInv(su.cfg, s.drv);
    var s' := s.(drv := Run(su.cfg, s.drv));
    RunBanks(su, s);
    RunRowsToo(su, s);
    forall b | 0 <= b < |s.queues|
      ensures ClosedDiscards(s'.drv.discarded) && BankFlow(su, s', b)
    {
      assert BankFlow(su, s, b);
      RunAccount(su.cfg, s.drv, b, s.queues[b], s.streams[b]);
    }
    OneBank(su.cfg.g);
    assert BankFlow(su, s', 0);
  }

  lemma SafetyQuiet(s: System)
    requires Quiet(s)
    ensures Safety.Quiet(s.drv) && SettledUnlessBlocked(s.drv)
  {
  }

  lemma OneBank(g: Geometry)
    requires g.Valid()
    ensures g.NumBanks() >= 1
  {
  }

  /** The driver's run keeps every bank's row in step. */
  lemma RunRowsToo(su: Setup, s: System)
    requires su.Valid() && Inv(su, s) && Quiet(s) && Shaped(su.cfg, s.drv)
    ensures var d' := Run(su.cfg, s.drv);
      && |d'.dev.banks| == |s.queues| && RowsOpen(d'.dev.trace) && (su.cfg.useRefresh ==> Clear(d'))
      && (forall b | 0 <= b < |s.queues| && su.cfg.useRefresh :: BankRows(d', b, s.queues[b], Left(s, b)))
      && (forall b | 0 <= b < |s.queues| && !su.cfg.useRefresh ::
            Follows(d', b, s.queues[b]) && Pipeline(d', b) == Pipeline(s.drv, b))
  {
    hide Safety.Inv, Conv.Tracks, RB.After, RB.Matches, Run, Accounted, BankRows, Clear, ClosedDiscards, Follows, Pipeline, QueueShape,
         Safety.Quiet, SettledUnlessBlocked, RowsOpen;
    RunBanks(su, s);
    if su.cfg.useRefresh {
      FlowRows(su, s);
      RunRows(su.cfg, s.drv, s.queues, Lefts(s));
    } else {
      FlowFollows(su, s);
      RunFollows(su.cfg, s.drv, s.queues);
    }
  }

  lemma RunBanks(su: Setup, s: System)
    requires su.Valid() && Inv(su, s) && Quiet(s) && Shaped(su.cfg, s.drv)
    ensures |Run(su.cfg, s.drv).dev.banks| == |s.drv.dev.banks|
  {
    Safety.RunInv(su.cfg, s.drv);
    hide Run;
  }

  /** One call of clockTic with the transactions that reach the converter in this cycle. */
  ghost function Cycle(su: Setup, s: System, txns: seq<Conv.Txn>): System
    requires su.Valid() && Inv(su, s) && WellFormedAll(su, txns)
  {
    StartInv(su, s, txns);
    var s1 := Start(su, s, txns);
    ConvertAllInv(su, s1);
    var s2 := Convert(su, s1);
    ScheduleFromInv(su, s2, 0);
    SafetyShaped(su, s2);
    var s3 := Schedule(su, s2);
    RunInv(su, s3);
    s3.(drv := Run(su.cfg, s3.drv))
  }

  lemma ConvertAllInv(su: Setup, s: System)
    requires su.Valid() && Inv(su, s) && Quiet(s)
    ensures Inv(su, Convert(su, s)) && Quiet(Convert(su, s))
  {
    ConvertFromInv(su, s, 0);
    AgeInv(su, ConvertFrom(su, s, 0));
    hide Inv, ConvertFrom, SettledUnlessBlocked, Safety.Quiet, Shape;
  }

  lemma CycleInv(su: Setup, s: System, txns: seq<Conv.Txn>)
    requires su.Valid() && Inv(su, s) && WellFormedAll(su, txns)
    ensures Inv(su, Cycle(su, s, txns))
  {
    hide Inv, Start, Convert, Schedule, Run, Quiet, WellFormedAll, Shape, Shaped, Indexed;
    StartInv(su, s, txns);
    var s1 := Start(su, s, txns);
    Formed(su, s1);
    ConvertAllInv(su, s1);
    var s2 := Convert(su, s1);
    Formed(su, s2);
    SafetyShaped(su, s2);
    ScheduleInv(su, s2);
    RunInv(su, Schedule(su, s2));
  }

  lemma ScheduleInv(su: Setup, s: System)
    requires su.Valid() && Inv(su, s) && Quiet(s) && Shape(su, s) && Shaped(su.cfg, s.drv) && Indexed(su, s)
    ensures Inv(su, Schedule(su, s)) && Quiet(Schedule(su, s))
  {
    ScheduleFromInv(su, s, 0);
  }

  lemma InitialInv(su: Setup)
    requires su.Valid()
    ensures Inv(su, Controller.Initial(su))
  {
    hide Safety.Inv, DriverMachine.Initial, BanksPerChannel, BankFlow, Geometry.NumBanks;
    Safety.InitialInv(su.cfg);
    OnePerChannel(su.cfg.g);
    var s := Controller.Initial(su);
    InitialEmpty(su.cfg);
    forall b | 0 <= b < |s.queues|
      ensures BankFlow(su, s, b)
    {
      InitialFlow(su, b);
    }
  }

  lemma OnePerChannel(g: Geometry)
    requires g.Valid()
    ensures BanksPerChannel(g) >= 1
  {
  }

  lemma InitialEmpty(cfg: Config)
    requires cfg.Valid()
    ensures var d := DriverMachine.Initial(cfg);
      && d.dev.trace == [] && d.inputQ == [] && d.discarded == [] && |d.dev.banks| == cfg.g.NumBanks()
      && forall r | 0 <= r < |d.refreshQ| :: d.refreshQ[r] == []
    ensures forall b | 0 <= b < cfg.g.NumBanks() :: DriverMachine.Initial(cfg).dev.banks[b] == INITIAL
  {
  }

  lemma InitialFlow(su: Setup, b: nat)
    requires su.Valid() && b < su.cfg.g.NumBanks()
    ensures var s := Controller.Initial(su); b < |s.queues| && b < |s.streams| && b < |s.infos| && b < |s.drv.dev.banks| && BankFlow(su, s, b)
  {
    InitialEmpty(su.cfg);
    hide DriverMachine.Initial;
    var d := Controller.Initial(su).drv;
    assert Split(d, b, [], [], []);
  }

  /** A transaction addressed through a map that matches the geometry is well formed. */
  lemma AddressedTransaction(su: Setup, tokens: seq<MapString.Token>, x: nat, read: bool)
    requires su.Valid() && A.Matches(su.cfg.g, tokens)
    ensures var h := A.Hash(tokens, x);
            WellFormed(su, Conv.Txn(read, x, 1, h.channel, h.RankId(su.cfg.g), h.BankId(su.cfg.g), h.row))
  {
    A.HashWellFormed(su.cfg.g, tokens, x, READ);
    hide A.Hash, A.Matches;
    su.cfg.g.RankInRange(A.Hash(tokens, x).BankId(su.cfg.g));
  }

  // ---- Every transaction is accounted for, in order

  function TxnsOf(q: seq<Conv.Txn>, b: nat): seq<Conv.Txn> {
    if q == [] then [] else TxnsOf(q[..|q| - 1], b) + if q[|q| - 1].bank == b then [q[|q| - 1]] else []
  }

  /** The column command that serves a transaction. */
  function Answer(r: Conv.Rules, t: Conv.Txn): Cmd { Conv.Command(t, Conv.ColumnKind(r, t.read), t.addr) }

  function Answers(r: Conv.Rules, q: seq<Conv.Txn>): seq<Cmd> {
    seq(|q|, i requires 0 <= i < |q| => Answer(r, q[i]))
  }

  lemma {:induction false} TxnsOfConcat(q: seq<Conv.Txn>, r: seq<Conv.Txn>, b: nat)
    ensures TxnsOf(q + r, b) == TxnsOf(q, b) + TxnsOf(r, b)
  {
    if r == [] {
      assert q + r == q;
    } else {
      assert (q + r)[..|q + r| - 1] == q + r[..|r| - 1];
      TxnsOfConcat(q, r[..|r| - 1], b);
    }
  }

  lemma {:induction false} TxnsOfNone(q: seq<Conv.Txn>, b: nat)
    requires forall i | 0 <= i < |q| :: q[i].bank != b
    ensures TxnsOf(q, b) == []
  {
    if q != [] { TxnsOfNone(q[..|q| - 1], b); }
  }

  lemma TxnsOfOne(t: Conv.Txn, b: nat)
    ensures TxnsOf([t], b) == if t.bank == b then [t] else []
  {
    assert [t][..0] == [];
  }

  lemma RemoveFirst(q: seq<Conv.Txn>, i: nat, b: nat)
    requires i < |q| && forall j | 0 <= j < i :: q[j].bank != q[i].bank
    ensures TxnsOf(q, b) == (if q[i].bank == b then [q[i]] else []) + TxnsOf(Remove(q, i), b)
  {
    hide TxnsOf;
    var l, t, r := q[..i], q[i], q[i + 1..];
    assert q == l + ([t] + r);
    TxnsOfConcat(l, [t] + r, b);
    TxnsOfConcat([t], r, b);
    TxnsOfConcat(l, r, b);
    TxnsOfOne(t, b);
    if t.bank == b { TxnsOfNone(l, b); }
  }

  /** The column commands emitted for a bank are the answers to its transactions so far, of
      which those still pending come last. */
  ghost predicate Ledger(su: Setup, s: System, arrived: seq<Conv.Txn>, b: nat)
    requires b < |s.streams|
  {
    Columns(s.streams[b]) + Answers(su.rules, TxnsOf(s.pending, b)) == Answers(su.rules, TxnsOf(arrived, b))
  }

  lemma RoundColumns(r: Conv.Rules, info: Conv.RowInfo, t: Conv.Txn)
    ensures Columns(Conv.Commands(r, info, t, 1).1) == [Answer(r, t)]
  {
    hide Columns;
    Conv.CommandsOne(r, info, t);
    var (info1, before) := Conv.Before(r, info, t, t.addr);
    var behind := Conv.Behind(r, info1, t, t.addr);
    ColumnsConcat(before, behind);
    ColumnsNone(before);
    assert behind == [behind[0]] + behind[1..];
    ColumnsConcat([behind[0]], behind[1..]);
    ColumnsOne(behind[0]);
    ColumnsNone(behind[1..]);
  }

  lemma {:induction false} ColumnsNone(q: seq<Cmd>)
    requires forall i | 0 <= i < |q| :: !q[i].kind.IsColumn()
    ensures Columns(q) == []
  {
    if q != [] { ColumnsNone(q[..|q| - 1]); }
  }

  /** What the pass has skipped so far found its queue full. */
  predicate Skipped(su: Setup, s: System, i: nat)
    requires su.Valid() && Shape(su, s) && i <= |s.pending|
  {
    forall j | 0 <= j < i :: s.pending[j].bank < |s.queues| && su.capacity - |s.queues[s.pending[j].bank]| < 3
  }

  lemma ConvertOneLedger(su: Setup, s: System, i: nat, arrived: seq<Conv.Txn>, b: nat)
    requires su.Valid() && Shape(su, s) && i < |s.pending| && Skipped(su, s, i) && b < |s.streams| && Ledger(su, s, arrived, b)
    requires QueueIndex(su.cfg.g, s.pending[i].channel, s.pending[i].bank) == s.pending[i].bank < |s.queues|
    requires HasRoom(su, s, s.pending[i])
    ensures Ledger(su, ConvertOne(su, s, i), arrived, b)
  {
    var t, s' := s.pending[i], ConvertOne(su, s, i);
    assert WellFormed(su, t);
    SkippedOthers(su, s, i);
    ConvertOneEffect(su, s, i);
    hide Shape, Skipped, ConvertOne, QueueIndex, WellFormed, Columns, TxnsOf, Remove, Answers, HasRoom;
    RemoveFirst(s.pending, i, b);
    var rest := TxnsOf(Remove(s.pending, i), b);
    if t.bank == b {
      LedgerStep(su.rules, Columns(s.streams[b]), t, rest, Answers(su.rules, TxnsOf(arrived, b)));
    } else {
      assert [] + rest == rest;
    }
  }

  lemma ConvertOneEffect(su: Setup, s: System, i: nat)
    requires su.Valid() && i < |s.pending| && |s.infos| == |s.queues| == |s.streams| && s.pending[i].bank < |s.infos|
    requires QueueIndex(su.cfg.g, s.pending[i].channel, s.pending[i].bank) < |s.queues| && s.pending[i].count == 1
    ensures
      var t, s' := s.pending[i], ConvertOne(su, s, i);
      && s'.pending == Remove(s.pending, i) && |s'.streams| == |s.streams|
      && Columns(s'.streams[t.bank]) == Columns(s.streams[t.bank]) + [Answer(su.rules, t)]
      && forall b | 0 <= b < |s.streams| && b != t.bank :: s'.streams[b] == s.streams[b]
  {
    hide Conv.Commands, QueueIndex, Conv.Note, PushAll, Columns, Remove, Answer;
    var t := s.pending[i];
    RoundColumns(su.rules, s.infos[t.bank], t);
    ColumnsConcat(s.streams[t.bank], Conv.Commands(su.rules, s.infos[t.bank], t, t.count).1);
  }

  lemma LedgerStep(r: Conv.Rules, columns: seq<Cmd>, t: Conv.Txn, rest: seq<Conv.Txn>, total: seq<Cmd>)
    requires columns + Answers(r, [t] + rest) == total
    ensures (columns + [Answer(r, t)]) + Answers(r, rest) == total
  {
    AnswersConcat(r, [t], rest);
    AnswersOne(r, t);
  }

  lemma AnswersOne(r: Conv.Rules, t: Conv.Txn)
    ensures Answers(r, [t]) == [Answer(r, t)]
  {
  }

  lemma SkippedOthers(su: Setup, s: System, i: nat)
    requires su.Valid() && Shape(su, s) && i < |s.pending| && Skipped(su, s, i)
    requires QueueIndex(su.cfg.g, s.pending[i].channel, s.pending[i].bank) == s.pending[i].bank < |s.queues|
    requires HasRoom(su, s, s.pending[i])
    ensures forall j | 0 <= j < i :: s.pending[j].bank != s.pending[i].bank
  {
    hide Shape, QueueIndex;
  }

  lemma ConvertOneSkipped(su: Setup, s: System, i: nat)
    requires su.Valid() && Shape(su, s) && i < |s.pending| && Skipped(su, s, i)
    requires QueueIndex(su.cfg.g, s.pending[i].channel, s.pending[i].bank) == s.pending[i].bank < |s.queues|
    requires HasRoom(su, s, s.pending[i])
    ensures Shape(su, ConvertOne(su, s, i)) && Skipped(su, ConvertOne(su, s, i), i)
    ensures |ConvertOne(su, s, i).streams| == |s.streams|
  {
    ConvertShape(su, s, i);
    hide Shape, Conv.Commands, QueueIndex, WellFormed, Conv.Note, PushAll;
  }

  lemma {:induction false} ConvertFromLedger(su: Setup, s: System, i: nat, arrived: seq<Conv.Txn>, b: nat)
    requires su.Valid() && Shape(su, s) && i <= |s.pending| && Skipped(su, s, i) && b < |s.streams| && Ledger(su, s, arrived, b)
    ensures var s' := ConvertFrom(su, s, i); |s'.streams| == |s.streams| && Ledger(su, s', arrived, b)
    decreases |s.pending| - i
  {
    hide ConvertOne, QueueIndex, QueueShape, Ledger;
    if i < |s.pending| {
      PendingIndex(su, s.pending[i]);
      if HasRoom(su, s, s.pending[i]) {
        ConvertOneLedger(su, s, i, arrived, b);
        ConvertOneSkipped(su, s, i);
        ConvertShorter(su, s, i);
        ConvertFromLedger(su, ConvertOne(su, s, i), i, arrived, b);
      } else {
        ConvertFromLedger(su, s, i + 1, arrived, b);
      }
    }
  }

  predicate SameHistory(d: Driver, d': Driver) {
    && d'.dev == d.dev && d'.refreshQ == d.refreshQ && d'.created == d.created
    && d'.refi == d.refi && d'.nextRefresh == d.nextRefresh
  }

  /** How full the queue of a bank is once the transactions of `q` for the bank are converted. */
  function Filled(su: Setup, info: Conv.RowInfo, length: nat, q: seq<Conv.Txn>, b: nat): nat
    decreases |q|
  {
    if q == [] then length
    else if q[0].bank == b then
      var (info1, cmds) := Conv.Commands(su.rules, info, q[0], q[0].count);
      Filled(su, Conv.Note(su.rules, info1, q[0]), Min(su.capacity, length + |cmds|), q[1..], b)
    else Filled(su, info, length, q[1..], b)
  }

  /** A pending transaction has room in its queue behind the commands of the pending transactions
      before it. */
  predicate RoomFor(su: Setup, s: System, i: nat)
    requires i < |s.pending|
  {
    var b := s.pending[i].bank;
    b < |s.queues| && b < |s.infos| && su.capacity - Filled(su, s.infos[b], |s.queues[b]|, s.pending[..i], b) >= 3
  }

  predicate Roomy(su: Setup, s: System) { forall i | 0 <= i < |s.pending| :: RoomFor(su, s, i) }

  lemma {:induction false} PushedLength(su: Setup, q: seq<Cmd>, cmds: seq<Cmd>)
    requires |q| <= su.capacity
    ensures |PushAll(su, q, cmds).0| == Min(su.capacity, |q| + |cmds|)
    decreases |cmds|
  {
    if cmds != [] { PushedLength(su, if |q| < su.capacity then q + [cmds[0]] else q, cmds[1..]); }
  }

  /** Converting the first pending transaction leaves the room of the others as it was counted. */
  lemma RoomLeft(su: Setup, s: System, s': System)
    requires s.pending != [] && s.pending[0].bank < |s.queues| == |s.infos| == |s'.queues| == |s'.infos|
    requires s'.pending == s.pending[1..]
    requires var t := s.pending[0];
      var (info1, cmds) := Conv.Commands(su.rules, s.infos[t.bank], t, t.count);
      && |s'.queues[t.bank]| == Min(su.capacity, |s.queues[t.bank]| + |cmds|)
      && s'.infos[t.bank] == Conv.Note(su.rules, info1, t)
    requires forall b | 0 <= b < |s.queues| && b != s.pending[0].bank :: s'.queues[b] == s.queues[b] && s'.infos[b] == s.infos[b]
    ensures Roomy(su, s) <==> RoomFor(su, s, 0) && Roomy(su, s')
  {
    forall i | 1 <= i < |s.pending|
      ensures RoomFor(su, s, i) <==> RoomFor(su, s', i - 1)
    {
      hide Conv.Commands, Conv.Note;
      assert s.pending[..i][0] == s.pending[0] && s.pending[..i][1..] == s'.pending[..i - 1];
      assert s'.pending[i - 1] == s.pending[i];
    }
    hide RoomFor;
    if Roomy(su, s) {
      forall i | 0 <= i < |s'.pending|
        ensures RoomFor(su, s', i)
      {
        assert RoomFor(su, s, i + 1);
      }
    }
  }

  /** The assertion at the end of the converter's pass: the pass converts all pending transactions, if
      and only if each has room behind the commands of those before it. */
  lemma {:induction false} InputDrained(su: Setup, s: System)
    requires su.Valid() && Shape(su, s)
    ensures ConvertFrom(su, s, 0).pending == [] <==> Roomy(su, s)
    decreases |s.pending|
  {
    if s.pending != [] {
      hide ConvertOne, QueueIndex, QueueShape, WellFormed;
      PendingIndex(su, s.pending[0]);
      FirstRoom(su, s);
      if HasRoom(su, s, s.pending[0]) {
        ConvertShape(su, s, 0);
        ConvertOthers(su, s);
        ConvertShorter(su, s, 0);
        var s' := ConvertOne(su, s, 0);
        InputDrained(su, s');
        RoomLeft(su, s, s');
      } else {
        SkippedStay(su, s, 1);
      }
    }
  }

  lemma FirstRoom(su: Setup, s: System)
    requires su.Valid() && Shape(su, s) && s.pending != []
    requires QueueIndex(su.cfg.g, s.pending[0].channel, s.pending[0].bank) == s.pending[0].bank < |s.queues|
    ensures RoomFor(su, s, 0) <==> HasRoom(su, s, s.pending[0])
    ensures |s.queues[s.pending[0].bank]| <= su.capacity
  {
    assert s.pending[..0] == [];
    assert QueueShape(su, s.pending[0].bank, s.queues[s.pending[0].bank]);
    hide QueueIndex, WellFormed;
  }

  lemma {:induction false} SkippedStay(su: Setup, s: System, i: nat)
    requires su.Valid() && Shape(su, s) && i <= |s.pending|
    ensures |ConvertFrom(su, s, i).pending| >= i
    decreases |s.pending| - i
  {
    hide ConvertOne, QueueIndex, QueueShape;
    if i < |s.pending| {
      PendingIndex(su, s.pending[i]);
      if HasRoom(su, s, s.pending[i]) {
        ConvertShape(su, s, i);
        ConvertShorter(su, s, i);
        SkippedStay(su, ConvertOne(su, s, i), i);
      } else {
        SkippedStay(su, s, i + 1);
      }
    }
  }

  lemma ConvertOthers(su: Setup, s: System)
    requires su.Valid() && s.pending != [] && |s.infos| == |s.queues| == |s.streams| && s.pending[0].bank < |s.infos|
    requires QueueIndex(su.cfg.g, s.pending[0].channel, s.pending[0].bank) == s.pending[0].bank
    requires |s.queues[s.pending[0].bank]| <= su.capacity
    ensures var s', t := ConvertOne(su, s, 0), s.pending[0];
      && s'.pending == s.pending[1..] && |s'.queues| == |s.queues| == |s'.infos|
      && (forall b | 0 <= b < |s.queues| && b != t.bank :: s'.queues[b] == s.queues[b] && s'.infos[b] == s.infos[b])
      && var (info1, cmds) := Conv.Commands(su.rules, s.infos[t.bank], t, t.count);
         && |s'.queues[t.bank]| == Min(su.capacity, |s.queues[t.bank]| + |cmds|)
         && s'.infos[t.bank] == Conv.Note(su.rules, info1, t)
  {
    hide Conv.Commands, QueueIndex, Conv.Note, PushAll;
    var t := s.pending[0];
    PushedLength(su, s.queues[t.bank], Conv.Commands(su.rules, s.infos[t.bank], t, t.count).1);
  }

  lemma {:induction false} VisitsQuiet(su: Setup, s: System, ch: nat, k: nat, n: nat)
    requires su.Valid() && Shape(su, s) && Shaped(su.cfg, s.drv) && ch < su.cfg.g.channels && k < BanksPerChannel(su.cfg.g)
    ensures var s' := VisitsFrom(su, s, ch, k, n); s'.streams == s.streams && s'.pending == s.pending && SameHistory(s.drv, s'.drv)
    decreases n
  {
    hide Visit, Shape, Shaped, BanksPerChannel, QueueAt, NextQueue;
    if n > 0 {
      var qi := QueueAt(su.cfg.g, ch, k);
      ChannelQueue(su.cfg.g, ch, k);
      ShapeQueues(su, s);
      VisitShape(su, s, qi);
      VisitQuiet(su, s, qi);
      VisitsQuiet(su, Visit(su, s, qi), ch, NextQueue(su.cfg.g, k), n - 1);
    }
  }

  lemma VisitQuiet(su: Setup, s: System, qi: nat)
    requires su.Valid() && Shape(su, s) && Shaped(su.cfg, s.drv) && qi < |s.queues|
    ensures var s' := Visit(su, s, qi); s'.streams == s.streams && s'.pending == s.pending && SameHistory(s.drv, s'.drv)
  {
    hide BusFree, Allowed, HasAct, WellFormed;
  }

  lemma {:induction false} ScheduleQuiet(su: Setup, s: System, ch: nat)
    requires su.Valid() && Shape(su, s) && Shaped(su.cfg, s.drv) && Indexed(su, s) && ch <= su.cfg.g.channels
    ensures var s' := ScheduleFrom(su, s, ch); s'.streams == s.streams && s'.pending == s.pending && SameHistory(s.drv, s'.drv)
    decreases su.cfg.g.channels - ch
  {
    if ch < su.cfg.g.channels {
      var bpc := BanksPerChannel(su.cfg.g);
      VisitsShape(su, s, ch, s.nextQ[ch], bpc);
      VisitsQuiet(su, s, ch, s.nextQ[ch], bpc);
      hide VisitsFrom, Shaped;
      var s1 := VisitsFrom(su, s, ch, s.nextQ[ch], bpc);
      ScheduleQuiet(su, s1.(nextQ := s1.nextQ[ch := NextQueue(su.cfg.g, s1.nextQ[ch])]), ch + 1);
    }
  }

  lemma CycleLedger(su: Setup, s: System, txns: seq<Conv.Txn>, arrived: seq<Conv.Txn>, b: nat)
    requires su.Valid() && Inv(su, s) && WellFormedAll(su, txns) && b < |s.streams| && Ledger(su, s, arrived, b)
    ensures var s' := Cycle(su, s, txns); |s'.streams| == |s.streams| && Ledger(su, s', arrived + txns, b)
  {
    hide Inv, ConvertFrom, ScheduleFrom, Run, Quiet, WellFormedAll, Shape, Shaped, Indexed, Update, Columns, TxnsOf;
    StartInv(su, s, txns);
    var s1 := Start(su, s, txns);
    assert Ledger(su, s1, arrived + txns, b) by {
      TxnsOfConcat(s.pending, txns, b);
      TxnsOfConcat(arrived, txns, b);
      AnswersConcat(su.rules, TxnsOf(s.pending, b), TxnsOf(txns, b));
      AnswersConcat(su.rules, TxnsOf(arrived, b), TxnsOf(txns, b));
    }
    Formed(su, s1);
    ConvertFromLedger(su, s1, 0, arrived + txns, b);
    ConvertAllInv(su, s1);
    var s2 := Convert(su, s1);
    Formed(su, s2);
    SafetyShaped(su, s2);
    ScheduleQuiet(su, s2, 0);
  }

  lemma AnswersConcat(r: Conv.Rules, p: seq<Conv.Txn>, q: seq<Conv.Txn>)
    ensures Answers(r, p + q) == Answers(r, p) + Answers(r, q)
  {
  }

  // ---- Every run

  /** The system after the given cycles, from power-up. */
  ghost function Runs(su: Setup, inputs: seq<seq<Conv.Txn>>): (s: System)
    requires su.Valid() && forall i | 0 <= i < |inputs| :: WellFormedAll(su, inputs[i])
    ensures Inv(su, s)
  {
    if inputs == [] then
      InitialInv(su);
      Controller.Initial(su)
    else
      var s := Runs(su, inputs[..|inputs| - 1]);
      CycleInv(su, s, inputs[|inputs| - 1]);
      Cycle(su, s, inputs[|inputs| - 1])
  }

  function Arrived(inputs: seq<seq<Conv.Txn>>): seq<Conv.Txn> {
    if inputs == [] then [] else Arrived(inputs[..|inputs| - 1]) + inputs[|inputs| - 1]
  }

  lemma RunsStart(su: Setup, b: nat)
    requires su.Valid() && b < su.cfg.g.NumBanks()
    ensures var s := Controller.Initial(su); |s.streams| == su.cfg.g.NumBanks() && Ledger(su, s, [], b)
  {
    hide DriverMachine.Initial;
  }

  lemma {:induction false} RunsLedger(su: Setup, inputs: seq<seq<Conv.Txn>>, b: nat)
    requires su.Valid() && b < su.cfg.g.NumBanks() && forall i | 0 <= i < |inputs| :: WellFormedAll(su, inputs[i])
    ensures var s := Runs(su, inputs); |s.streams| == su.cfg.g.NumBanks() && Ledger(su, s, Arrived(inputs), b)
  {
    hide Cycle, Inv, Ledger, WellFormedAll;
    if inputs == [] {
      RunsStart(su, b);
    } else {
      var n := |inputs| - 1;
      RunsLedger(su, inputs[..n], b);
      CycleLedger(su, Runs(su, inputs[..n]), inputs[n], Arrived(inputs[..n]), b);
    }
  }

  /** Every run accounts for every transaction: for each bank, the column commands sent, then those
      in the driver's queue, then those in the bank's command queue, then the answers still
      owed to pending transactions, are one answer per arrived transaction, in arrival order. */
  lemma EveryTransactionAccounted(su: Setup, inputs: seq<seq<Conv.Txn>>, b: nat)
    requires su.Valid() && b < su.cfg.g.NumBanks() && forall i | 0 <= i < |inputs| :: WellFormedAll(su, inputs[i])
    ensures
      var s := Runs(su, inputs);
      && |s.queues| == su.cfg.g.NumBanks()
      && Columns(SentTo(s.drv.dev.trace, b)) + Columns(OfBank(s.drv.inputQ, b)) + Columns(s.queues[b])
           + Answers(su.rules, TxnsOf(s.pending, b))
         == Answers(su.rules, TxnsOf(Arrived(inputs), b))
  {
    RunsLedger(su, inputs, b);
    var s := Runs(su, inputs);
    assert BankFlow(su, s, b);
    AccountedColumns(s.drv, b, s.queues[b], s.streams[b]);
  }

  /** The driver of a cycle, seen through its history: it is clocked, then nothing that the
      history records changes until it runs. */
  lemma CycleDriver(su: Setup, s: System, txns: seq<Conv.Txn>) returns (d: Driver)
    requires su.Valid() && Inv(su, s) && WellFormedAll(su, txns)
    ensures Shaped(su.cfg, s.drv) && Shaped(su.cfg, d) && SameHistory(Update(su.cfg, s.drv), d)
    ensures Cycle(su, s, txns).drv == Run(su.cfg, d)
  {
    hide Inv, ConvertFrom, ScheduleFrom, Run, Quiet, WellFormedAll, Shape, Shaped, Indexed, Update;
    StartInv(su, s, txns);
    var s1 := Start(su, s, txns);
    Formed(su, s1);
    ConvertFromInv(su, s1, 0);
    ConvertAllInv(su, s1);
    var s2 := Convert(su, s1);
    Formed(su, s2);
    SafetyShaped(su, s2);
    ScheduleQuiet(su, s2, 0);
    ScheduleInv(su, s2);
    SafetyShaped(su, Schedule(su, s2));
    d := Schedule(su, s2).drv;
  }

  lemma CycleRefresh(su: Setup, s: System, txns: seq<Conv.Txn>)
    requires su.Valid() && Inv(su, s) && WellFormedAll(su, txns) && Refresh.Inv(su.cfg, s.drv)
    ensures Refresh.Inv(su.cfg, Cycle(su, s, txns).drv)
  {
    hide Inv, Cycle, Run, Update, Shaped, WellFormedAll, Refresh.Inv;
    var d := CycleDriver(su, s, txns);
    Refresh.ActRanks(su.cfg, s.drv);
    Refresh.UpdateInv(su.cfg, s.drv);
    HistoryRefresh(su, Update(su.cfg, s.drv), d);
    Refresh.RunInv(su.cfg, d);
  }

  lemma HistoryRefresh(su: Setup, d: Driver, d': Driver)
    requires su.Valid() && Refresh.Inv(su.cfg, d) && SameHistory(d, d') && Shaped(su.cfg, d')
    ensures Refresh.Inv(su.cfg, d')
  {
    hide Shaped, Refresh.QueueForm, Refresh.Whole;
    Refresh.SameRefresh(su.cfg, d, d');
  }

  lemma {:induction false} RunsRefresh(su: Setup, inputs: seq<seq<Conv.Txn>>)
    requires su.Valid() && forall i | 0 <= i < |inputs| :: WellFormedAll(su, inputs[i])
    ensures Refresh.Inv(su.cfg, Runs(su, inputs).drv)
  {
    hide Cycle, Inv, Refresh.Inv, WellFormedAll, DriverMachine.Initial;
    if inputs == [] {
      Refresh.InitialInv(su.cfg);
    } else {
      var n := |inputs| - 1;
      RunsRefresh(su, inputs[..n]);
      CycleRefresh(su, Runs(su, inputs[..n]), inputs[n]);
    }
  }

  /** Every run refreshes atomically: whenever refresh commands were created for a rank, no
      request reached the rank after that before a REF did; and every REF found no open row
      and, under all-bank refresh, was taken by every bank of the rank in the same cycle. */
  lemma EveryRefreshAtomic(su: Setup, inputs: seq<seq<Conv.Txn>>)
    requires su.Valid() && forall i | 0 <= i < |inputs| :: WellFormedAll(su, inputs[i])
    ensures
      var d := Runs(su, inputs).drv;
      && (forall i | 0 <= i < |d.created| ::
            d.created[i].rank < |d.refreshQ| && Refresh.Held(su.cfg, d, d.created[i].rank, d.created[i].at))
      && Refresh.Whole(su.cfg, d.dev.trace)
  {
    RunsRefresh(su, inputs);
    hide Runs;
  }

  lemma CycleBus(su: Setup, s: System, txns: seq<Conv.Txn>)
    requires su.Valid() && Inv(su, s) && WellFormedAll(su, txns) && Bus.Inv(su.cfg, s.drv.dev)
    ensures Bus.Inv(su.cfg, Cycle(su, s, txns).drv.dev)
  {
    hide Inv, Cycle, Run, Update, Shaped, WellFormedAll, Bus.Inv, Bus.NoneNow;
    var d := CycleDriver(su, s, txns);
    Bus.UpdateBus(su.cfg, s.drv);
    Bus.RunBus(su.cfg, d);
  }

  lemma CyclePace(su: Setup, s: System, txns: seq<Conv.Txn>)
    requires su.Valid() && Inv(su, s) && WellFormedAll(su, txns) && su.cfg.useRefresh
    requires RefreshPace.Inv(su.cfg, s.drv, su.cfg.g.NumRanks())
    ensures RefreshPace.Inv(su.cfg, Cycle(su, s, txns).drv, su.cfg.g.NumRanks())
  {
    hide Inv, Cycle, Run, Update, Shaped, WellFormedAll, RefreshPace.Inv, Geometry.NumRanks;
    var d := CycleDriver(su, s, txns);
    Refresh.ActRanks(su.cfg, s.drv);
    RefreshPace.UpdateInv(su.cfg, s.drv);
    RefreshPace.SameInv(su.cfg, Update(su.cfg, s.drv), d, 0);
    RefreshPace.RunInv(su.cfg, d);
  }

  /** In no cycle of any run do two commands share a command bus, refresh commands included. */
  lemma {:induction false} EveryRunOnBus(su: Setup, inputs: seq<seq<Conv.Txn>>)
    requires su.Valid() && forall i | 0 <= i < |inputs| :: WellFormedAll(su, inputs[i])
    ensures Bus.Inv(su.cfg, Runs(su, inputs).drv.dev)
  {
    hide Cycle, Inv, WellFormedAll;
    if inputs == [] {
      InitialEmpty(su.cfg);
    } else {
      var n := |inputs| - 1;
      EveryRunOnBus(su, inputs[..n]);
      hide Bus.Inv;
      CycleBus(su, Runs(su, inputs[..n]), inputs[n]);
    }
  }

  /** With one channel or one pseudo channel per channel, in no cycle of any run do two commands for
      banks of one channel share that channel's command bus. */
  lemma EveryRunOnWiredBus(su: Setup, inputs: seq<seq<Conv.Txn>>, i: nat, j: nat)
    requires su.Valid() && forall i | 0 <= i < |inputs| :: WellFormedAll(su, inputs[i])
    requires (su.cfg.g.channels == 1 || su.cfg.g.pchannels == 1) && i < j < |Runs(su, inputs).drv.dev.trace|
    ensures var trace := Runs(su, inputs).drv.dev.trace; !Bus.CollideWired(su.cfg, trace[i], trace[j])
  {
    EveryRunOnBus(su, inputs);
    hide Runs, Bus.Inv, Bus.CollideWired, WellFormedAll;
    Bus.WiredApart(su.cfg, Runs(su, inputs).drv.dev, i, j);
  }

  lemma {:induction false} RunsPaced(su: Setup, inputs: seq<seq<Conv.Txn>>)
    requires su.Valid() && su.cfg.useRefresh && forall i | 0 <= i < |inputs| :: WellFormedAll(su, inputs[i])
    ensures RefreshPace.Inv(su.cfg, Runs(su, inputs).drv, su.cfg.g.NumRanks())
  {
    hide Cycle, Inv, WellFormedAll, RefreshPace.Inv, Geometry.NumRanks, DriverMachine.Initial;
    if inputs == [] {
      RefreshPace.InitialInv(su.cfg);
    } else {
      var n := |inputs| - 1;
      RunsPaced(su, inputs[..n]);
      CyclePace(su, Runs(su, inputs[..n]), inputs[n]);
    }
  }

  /** In every run with refresh, the i-th refresh of a rank is created in the cycle that the
      refresh interval dictates, for the whole rank or, bank by bank, for its banks in turn. */
  lemma EveryRefreshOnTime(su: Setup, inputs: seq<seq<Conv.Txn>>, rank: nat, i: nat)
    requires su.Valid() && su.cfg.useRefresh && rank < su.cfg.g.NumRanks()
    requires forall i | 0 <= i < |inputs| :: WellFormedAll(su, inputs[i])
    ensures
      var d := Runs(su, inputs).drv;
      var cs := RefreshPace.OfRank(d.created, rank);
      && (i < |cs| ==> cs[i].cycle == RefreshPace.Due(su.cfg.p, rank, i) && cs[i].banks == RefreshPace.Covered(su.cfg, rank, i))
      && (i < |cs| <==> RefreshPace.Due(su.cfg.p, rank, i) <= d.dev.cycle)
  {
    RunsPaced(su, inputs);
    var d := Runs(su, inputs).drv;
    hide Runs, RefreshPace.Due, RefreshPace.OfRank, RefreshPace.Covered;
    assert RefreshPace.PacedAt(su.cfg, d, rank, su.cfg.g.NumRanks());
    RefreshPace.OnTime(su.cfg, d, rank, d.dev.cycle, i);
  }

  /** Every run keeps the timing table and the four-activate window. */
  lemma EveryRunTimed(su: Setup, inputs: seq<seq<Conv.Txn>>)
    requires su.Valid() && forall i | 0 <= i < |inputs| :: WellFormedAll(su, inputs[i])
    ensures var d := Runs(su, inputs).drv;
            D.TimingSafe(su.cfg.p, su.cfg.g, d.dev.trace) && Safety.FourActivate(su.cfg, d.dev.trace)
  {
    hide Runs;
  }

  /** In every run the driver's assertion about data commands holds, if the parameters fit it. */
  lemma EveryDataAssertion(su: Setup, inputs: seq<seq<Conv.Txn>>)
    requires su.Valid() && DataAssertion.AssertionFits(su.cfg.p) && forall i | 0 <= i < |inputs| :: WellFormedAll(su, inputs[i])
    ensures DataAssertion.Asserted(su.cfg.p, su.cfg.g, Runs(su, inputs).drv.dev.trace)
  {
    var p, g, dev := su.cfg.p, su.cfg.g, Runs(su, inputs).drv.dev;
    assert D.Reached(p, g, dev) && D.Late(dev.trace);
    hide Runs, D.Run, DataAssertion.Asserted;
    var ops: seq<D.Op> :| dev == D.Run(p, g, ops);
    DataAssertion.FitsAsserted(p, g, ops);
  }

  /** In every run without auto-precharge no two bursts of a pseudo channel overlap, if the
      parameters fit. */
  lemma EveryBurstApart(su: Setup, inputs: seq<seq<Conv.Txn>>, i: nat, j: nat)
    requires su.Valid() && DataBus.BurstsFit(su.cfg.p) && forall i | 0 <= i < |inputs| :: WellFormedAll(su, inputs[i])
    requires var trace := Runs(su, inputs).drv.dev.trace;
      && D.NoAuto(trace) && i < j < |trace| && trace[i].cmd.kind.IsColumn() && trace[j].cmd.kind.IsColumn()
      && su.cfg.g.PseudoOf(trace[i].bank) == su.cfg.g.PseudoOf(trace[j].bank)
    ensures var trace := Runs(su, inputs).drv.dev.trace; DataBus.BurstsApart(su.cfg.p, trace[i], trace[j])
  {
    var p, g, dev := su.cfg.p, su.cfg.g, Runs(su, inputs).drv.dev;
    assert D.Reached(p, g, dev) && D.TimingSafe(p, g, dev.trace);
    hide Runs, D.Run, D.TimingSafe, D.NoAuto;
    var ops: seq<D.Op> :| dev == D.Run(p, g, ops);
    DataBus.FitsApart(p, g, ops);
    if dev.trace[i].bank != dev.trace[j].bank { DataBus.BurstsNeverOverlap(p, g, dev.trace, i, j); }
  }

  /** In every run, with refresh on or off, a bank's stream from the converter is what was sent to
      the bank and what is still queued for it, up to two kinds of edits: an ACT inserted for the
      column command that comes next, and a PRE left out because it found its bank closed. */
  lemma EveryCommandAccounted(su: Setup, inputs: seq<seq<Conv.Txn>>, b: nat)
    requires su.Valid() && b < su.cfg.g.NumBanks() && forall i | 0 <= i < |inputs| :: WellFormedAll(su, inputs[i])
    ensures
      var s := Runs(su, inputs);
      && |s.queues| == |s.streams| == su.cfg.g.NumBanks()
      && (exists rest ::
            && Edited(s.streams[b], SentTo(s.drv.dev.trace, b), DiscardedOf(s.drv.discarded, b), rest)
            && Edited(rest, OfBank(s.drv.inputQ, b) + s.queues[b], [], []))
      && (forall i | 0 <= i < |s.drv.discarded| :: s.drv.discarded[i].cmd.kind.PRE? && s.drv.discarded[i].state.Closed())
      && !RB.After(RB.Closed, s.streams[b]).Bad?
  {
    var s := Runs(su, inputs);
    assert BankFlow(su, s, b);
    hide Runs, Edited;
    var rest :| Split(s.drv, b, s.queues[b], s.streams[b], rest);
    assert Edited(s.streams[b], SentTo(s.drv.dev.trace, b), DiscardedOf(s.drv.discarded, b), rest);
  }

  /** In every run, with refresh on or off, every column command finds its own row open, and no
      bank is sent a command that ends in the fatal branch of its state. */
  lemma EveryRunInOpenRows(su: Setup, inputs: seq<seq<Conv.Txn>>, b: nat)
    requires su.Valid() && b < su.cfg.g.NumBanks() && forall i | 0 <= i < |inputs| :: WellFormedAll(su, inputs[i])
    ensures
      var d := Runs(su, inputs).drv;
      RowsOpen(d.dev.trace) && |d.dev.banks| == su.cfg.g.NumBanks() && !d.dev.banks[b].state.Fault?
  {
    hide Runs, Inv, RowsOpen, WellFormedAll;
    FlowSound(su, Runs(su, inputs), b);
  }

  lemma FlowSound(su: Setup, s: System, b: nat)
    requires su.Valid() && Inv(su, s) && b < su.cfg.g.NumBanks()
    ensures RowsOpen(s.drv.dev.trace) && |s.drv.dev.banks| == su.cfg.g.NumBanks() && !s.drv.dev.banks[b].state.Fault?
  {
    hide RowsOpen, Safety.Inv, Accounted, Conv.Tracks, RB.After, RowOf, Clear, ClosedDiscards, Pipeline, QueueShape, WellFormed;
    ShapeQueues(su, s);
    assert BankFlow(su, s, b);
  }

  /** With refresh off, a bank has been sent a prefix of the stream that the converter wrote for
      it, to the letter, and the rest is queued. */
  lemma EveryStreamToTheLetter(su: Setup, inputs: seq<seq<Conv.Txn>>, b: nat)
    requires su.Valid() && !su.cfg.useRefresh && b < su.cfg.g.NumBanks()
    requires forall i | 0 <= i < |inputs| :: WellFormedAll(su, inputs[i])
    ensures
      var s := Runs(su, inputs);
      && |s.queues| == |s.streams| == su.cfg.g.NumBanks()
      && SentTo(s.drv.dev.trace, b) + OfBank(s.drv.inputQ, b) + s.queues[b] == s.streams[b]
      && !RB.After(RB.Closed, s.streams[b]).Bad?
  {
    assert BankFlow(su, Runs(su, inputs), b);
    hide Runs;
  }
}
