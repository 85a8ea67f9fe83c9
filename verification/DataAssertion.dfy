/** The driver asserts that two data commands of one kind in a row on one pseudo channel are far
    enough apart, counting from a READ that it imagines in cycle 0. This says exactly for which
    parameters the assertion holds in every run, auto-precharge included. */
module DataAssertion {
  import opened Arith
  import opened Dram
  import opened BankMachine
  import opened Device
  import opened DataBus

  function AssertedGap(p: Params): nat { Min(p.nBL, Max(p.nCCD_L, p.nCCD_S)) }

  predicate NoDataIn(trace: seq<Issue>, lo: nat, hi: nat)
    requires hi <= |trace|
  {
    forall k | lo <= k < hi :: !trace[k].cmd.kind.IsColumn()
  }

  /** The assertion holds at every data command of the history. */
  predicate Asserted(p: Params, g: Geometry, trace: seq<Issue>)
    requires g.Valid()
  {
    forall j | 0 <= j < |trace| && trace[j].cmd.kind.IsColumn() ::
      && (NoDataIn(trace, 0, j) && trace[j].cmd.kind.READ? && g.PseudoOf(trace[j].bank) == 0 ==> trace[j].cycle >= AssertedGap(p))
      && (forall i | 0 <= i < j && NoDataIn(trace, i + 1, j) && SameClass(g, trace[i], trace[j]) ::
            trace[j].cycle - trace[i].cycle >= AssertedGap(p))
  }

  predicate SameClass(g: Geometry, e: Issue, f: Issue)
    requires g.Valid()
  {
    e.cmd.kind.IsColumn() && e.cmd.kind == f.cmd.kind && g.PseudoOf(e.bank) == g.PseudoOf(f.bank)
  }

  // ---- The distance of two data commands of one kind

  /** When the next data command of the kind may come at the earliest. */
  ghost function Due(p: Params, rel: Relation, e: Issue): int {
    e.cycle + if rel.Same? then Min(p.nCCD_L, p.nBL) else p.nBL
  }

  /** The bank refuses data commands of the kind until they are due: by its next-command cycle, or
      because it has the command in hand, or because it will be busy precharging. */
  ghost predicate Refuses(p: Params, rel: Relation, bk: Bank, now: nat, e: Issue) {
    var due, k := Due(p, rel, e), e.cmd.kind;
    k.IsColumn() && !rel.Far? ==>
      || due <= now || due <= bk.next.At(k) || (rel.Same? && bk.Holds(k)) || bk.state.Fault?
      || ((bk.state.ReadingA? || bk.state.WritingA?) && due <= now + bk.state.enter + 1)
  }

  lemma TickRefuses(p: Params, rel: Relation, bk: Bank, now: nat, e: Issue)
    requires p.Valid() && Sane(bk) && Refuses(p, rel, bk, now, e) && e.cycle <= now
    requires rel.Same? ==> (e.cmd.kind.READ? ==> e.cycle <= bk.last.read) && (e.cmd.kind.WRITE? ==> e.cycle <= bk.last.write)
    ensures Refuses(p, rel, Tick(p, bk, now + 1), now + 1, e)
  {
    hide Tick, Sane;
    if e.cmd.kind.IsColumn() && !rel.Far? && Due(p, rel, e) > now + 1 {
      if bk.state.ReadingA? || bk.state.WritingA? {
        TickAutoRefuses(p, rel, bk, now, e);
      } else if bk.state.Reading? || bk.state.Writing? {
        TickColumnRefuses(p, rel, bk, now, e);
      } else {
        TickOtherRefuses(p, rel, bk, now, e);
      }
    }
  }

  lemma TickAutoRefuses(p: Params, rel: Relation, bk: Bank, now: nat, e: Issue)
    requires p.Valid() && Refuses(p, rel, bk, now, e) && (bk.state.ReadingA? || bk.state.WritingA?)
    requires Sane(bk) && Due(p, rel, e) > now + 1
    ensures Refuses(p, rel, Tick(p, bk, now + 1), now + 1, e)
  {
  }

  lemma TickColumnRefuses(p: Params, rel: Relation, bk: Bank, now: nat, e: Issue)
    requires p.Valid() && Sane(bk) && Refuses(p, rel, bk, now, e) && e.cycle <= now && (bk.state.Reading? || bk.state.Writing?)
    requires rel.Same? ==> (e.cmd.kind.READ? ==> e.cycle <= bk.last.read) && (e.cmd.kind.WRITE? ==> e.cycle <= bk.last.write)
    ensures Refuses(p, rel, Tick(p, bk, now + 1), now + 1, e)
  {
    hide TickReadingA, TickWritingA, EnterIdle, EnterActive, Decrement64;
  }

  lemma TickOtherRefuses(p: Params, rel: Relation, bk: Bank, now: nat, e: Issue)
    requires p.Valid() && Sane(bk) && Refuses(p, rel, bk, now, e) && e.cycle <= now
    requires !bk.state.ReadingA? && !bk.state.WritingA? && !bk.state.Reading? && !bk.state.Writing?
    requires rel.Same? ==> (e.cmd.kind.READ? ==> e.cycle <= bk.last.read) && (e.cmd.kind.WRITE? ==> e.cycle <= bk.last.write)
    ensures Refuses(p, rel, Tick(p, bk, now + 1), now + 1, e)
  {
    hide TickReadingA, TickWritingA, Leave;
  }

  lemma HandleRefuses(p: Params, rel: Relation, bk: Bank, now: nat, c: Cmd, e: Issue)
    requires Allowed(bk, c.kind, now) && Refuses(p, rel, bk, now, e)
    ensures Refuses(p, rel, Handle(bk, c, now), now, e)
  {
  }

  lemma RaiseRefuses(p: Params, rel: Relation, bk: Bank, now: nat, via: Relation, k: Kind, e: Issue)
    requires Refuses(p, rel, bk, now, e)
    ensures Refuses(p, rel, Raise(p, bk, via, k, now), now, e)
  {
    hide Due, ColumnGap;
  }

  /** A bank that takes a data command, or hears of one, refuses the next one of its kind. */
  lemma NewRefuses(p: Params, rel: Relation, bk: Bank, now: nat, e: Issue)
    requires e.cycle == now && (rel.Same? ==> Allowed(bk, e.cmd.kind, now))
    ensures Refuses(p, rel, if rel.Same? then Handle(bk, e.cmd, now) else Raise(p, bk, rel, e.cmd.kind, now), now, e)
  {
  }

  /** A data command that a bank accepts is due. */
  lemma AcceptedDue(p: Params, rel: Relation, bk: Bank, now: nat, e: Issue)
    requires Refuses(p, rel, bk, now, e) && e.cmd.kind.IsColumn() && !rel.Far? && Allowed(bk, e.cmd.kind, now)
    ensures Due(p, rel, e) <= now
  {
  }

  ghost predicate AllRefuse(p: Params, g: Geometry, d: Device)
    requires g.Valid()
  {
    forall i, b | 0 <= i < |d.trace| && 0 <= b < |d.banks| ::
      Refuses(p, g.Relation(d.trace[i].bank, b), d.banks[b], d.cycle, d.trace[i])
  }

  ghost predicate KindsApart(p: Params, g: Geometry, trace: seq<Issue>)
    requires g.Valid()
  {
    forall i, j | 0 <= i < j < |trace| && SameClass(g, trace[i], trace[j]) ::
      trace[j].cycle >= Due(p, g.Relation(trace[i].bank, trace[j].bank), trace[i])
  }

  lemma ClockRefuses(p: Params, g: Geometry, d: Device)
    requires p.Valid() && g.Valid() && Valid(p, g, d) && AllRefuse(p, g, d)
    ensures AllRefuse(p, g, Clock(p, d))
  {
    hide Tick, Refuses, Sane, TimingSafe, Run, SeenOther, Geometry.Relation;
    var d' := Clock(p, d);
    forall i, b | 0 <= i < |d.trace| && 0 <= b < |d.banks|
      ensures Refuses(p, g.Relation(d.trace[i].bank, b), d'.banks[b], d'.cycle, d.trace[i])
    {
      var e := d.trace[i];
      assert Seen(p, NoAuto(d.trace), g.Relation(e.bank, b), d.banks[b], d.cycle, e);
      TickRefuses(p, g.Relation(e.bank, b), d.banks[b], d.cycle, e);
    }
  }

  lemma SendRefuses(p: Params, g: Geometry, d: Device, bank: nat, c: Cmd, refresh: bool)
    requires p.Valid() && g.Valid() && CanSend(d, bank, c.kind) && AllRefuse(p, g, d) && KindsApart(p, g, d.trace)
    requires forall i | 0 <= i < |d.trace| :: d.trace[i].bank < |d.banks|
    ensures var d' := Send(p, g, d, bank, c, refresh); AllRefuse(p, g, d') && KindsApart(p, g, d'.trace)
  {
    hide Refuses, Handle, Raise, Allowed, Geometry.GroupOf, Geometry.RankOf, Geometry.PseudoOf, Due;
    var d' := Send(p, g, d, bank, c, refresh);
    var n, t := |d.trace|, d'.trace;
    assert forall i | 0 <= i < n :: t[i] == d.trace[i];
    forall i, b | 0 <= i < |t| && 0 <= b < |d.banks|
      ensures Refuses(p, g.Relation(t[i].bank, b), d'.banks[b], d'.cycle, t[i])
    {
      if i == n {
        NewRefuses(p, g.Relation(bank, b), d.banks[b], d.cycle, t[n]);
      } else if b == bank {
        HandleRefuses(p, g.Relation(t[i].bank, b), d.banks[b], d.cycle, c, t[i]);
      } else {
        RaiseRefuses(p, g.Relation(t[i].bank, b), d.banks[b], d.cycle, g.Relation(bank, b), c.kind, t[i]);
      }
    }
    forall i | 0 <= i < n && SameClass(g, t[i], t[n])
      ensures t[n].cycle >= Due(p, g.Relation(t[i].bank, bank), t[i])
    {
      AcceptedDue(p, g.Relation(t[i].bank, bank), d.banks[bank], d.cycle, t[i]);
    }
  }

  lemma {:induction false} RunKindsApart(p: Params, g: Geometry, ops: seq<Op>)
    requires p.Valid() && g.Valid()
    ensures var d := Run(p, g, ops); AllRefuse(p, g, d) && KindsApart(p, g, d.trace)
  {
    hide AllRefuse, KindsApart, Valid;
    if ops == [] {
      StartRefuses(p, g);
    } else {
      var d := Run(p, g, ops[..|ops| - 1]);
      RunKindsApart(p, g, ops[..|ops| - 1]);
      RunTimingSafe(p, g, ops[..|ops| - 1]);
      match ops[|ops| - 1]
      case Edge => ClockRefuses(p, g, d);
      case Attempt(bank, c, refresh) =>
        if CanSend(d, bank, c.kind) {
          TraceBanks(p, g, d);
          SendRefuses(p, g, d, bank, c, refresh);
        }
    }
  }

  lemma StartRefuses(p: Params, g: Geometry)
    requires g.Valid()
    ensures AllRefuse(p, g, Initial(g)) && KindsApart(p, g, Initial(g).trace)
  {
  }

  lemma TraceBanks(p: Params, g: Geometry, d: Device)
    requires g.Valid() && Valid(p, g, d)
    ensures forall i | 0 <= i < |d.trace| :: d.trace[i].bank < |d.banks|
  {
    hide Run, Seen, Sane, TimingSafe;
  }

  // ---- The first data command

  /** The bank has taken an ACT at least `k` cycles ago. */
  ghost predicate Woken(trace: seq<Issue>, bank: nat, k: nat, now: nat) {
    exists i | 0 <= i < |trace| :: trace[i].bank == bank && trace[i].cmd.kind.ACT? && trace[i].cycle + k <= now
  }

  ghost predicate Awake(d: Device) {
    forall b | 0 <= b < |d.banks| ::
      && (d.banks[b].state.Idle? && d.banks[b].Holds(ACT) ==> Woken(d.trace, b, 0, d.cycle))
      && (d.banks[b].state.Activating? ==> Woken(d.trace, b, 1, d.cycle))
      && (d.banks[b].rowOpen && !d.banks[b].state.Activating? ==> Woken(d.trace, b, 2, d.cycle))
  }

  lemma WokenLater(trace: seq<Issue>, bank: nat, k: nat, now: nat)
    requires Woken(trace, bank, k, now)
    ensures Woken(trace, bank, k + 1, now + 1) && Woken(trace, bank, k, now + 1)
  {
    var i :| 0 <= i < |trace| && trace[i].bank == bank && trace[i].cmd.kind.ACT? && trace[i].cycle + k <= now;
    assert trace[i].cycle + (k + 1) <= now + 1;
  }

  /** How an edge can open a bank. */
  lemma TickWakes(p: Params, bk: Bank, now: nat)
    requires p.Valid() && Sane(bk)
    ensures var b := Tick(p, bk, now);
      && !(b.state.Idle? && b.Holds(ACT))
      && (b.state.Activating? ==> bk.state.Idle? && bk.Holds(ACT))
      && (b.rowOpen && !b.state.Activating? ==> bk.rowOpen)
  {
  }

  lemma ClockAwake(p: Params, g: Geometry, d: Device)
    requires p.Valid() && g.Valid() && Valid(p, g, d) && Awake(d)
    ensures Awake(Clock(p, d))
  {
    hide Tick, Sane, TimingSafe, Run, Seen, Woken;
    var d' := Clock(p, d);
    forall b | 0 <= b < |d.banks|
      ensures !(d'.banks[b].state.Idle? && d'.banks[b].Holds(ACT))
      ensures d'.banks[b].state.Activating? ==> Woken(d.trace, b, 1, d'.cycle)
      ensures d'.banks[b].rowOpen && !d'.banks[b].state.Activating? ==> Woken(d.trace, b, 2, d'.cycle)
    {
      TickWakes(p, d.banks[b], d'.cycle);
      if Woken(d.trace, b, 0, d.cycle) { WokenLater(d.trace, b, 0, d.cycle); }
      if Woken(d.trace, b, 1, d.cycle) { WokenLater(d.trace, b, 1, d.cycle); }
      if Woken(d.trace, b, 2, d.cycle) { WokenLater(d.trace, b, 2, d.cycle); }
    }
  }

  lemma SendAwake(p: Params, g: Geometry, d: Device, bank: nat, c: Cmd, refresh: bool)
    requires g.Valid() && CanSend(d, bank, c.kind) && Awake(d)
    ensures Awake(Send(p, g, d, bank, c, refresh))
  {
    hide Geometry.Relation, ColumnGap, SetLast;
    var d' := Send(p, g, d, bank, c, refresh);
    var e := d'.trace[|d.trace|];
    forall b: nat, k: nat | Woken(d.trace, b, k, d.cycle)
      ensures Woken(d'.trace, b, k, d.cycle)
    {
      var i :| 0 <= i < |d.trace| && d.trace[i].bank == b && d.trace[i].cmd.kind.ACT? && d.trace[i].cycle + k <= d.cycle;
      assert d'.trace[i] == d.trace[i];
    }
    if c.kind.ACT? { assert e.cycle + 0 <= d.cycle && Woken(d'.trace, bank, 0, d.cycle); }
  }

  lemma {:induction false} RunAwake(p: Params, g: Geometry, ops: seq<Op>)
    requires p.Valid() && g.Valid()
    ensures Awake(Run(p, g, ops))
  {
    hide Awake, Valid;
    if ops == [] {
      StartAwake(g);
    } else {
      var d := Run(p, g, ops[..|ops| - 1]);
      RunAwake(p, g, ops[..|ops| - 1]);
      RunTimingSafe(p, g, ops[..|ops| - 1]);
      match ops[|ops| - 1]
      case Edge => ClockAwake(p, g, d);
      case Attempt(bank, c, refresh) =>
        if CanSend(d, bank, c.kind) { SendAwake(p, g, d, bank, c, refresh); }
    }
  }

  lemma StartAwake(g: Geometry)
    ensures Awake(Initial(g))
  {
  }

  /** Every data command comes two cycles and nRCD cycles after an ACT of its bank. */
  lemma {:induction false} RunAfterAct(p: Params, g: Geometry, ops: seq<Op>, j: nat)
    requires p.Valid() && g.Valid() && j < |Run(p, g, ops).trace| && Run(p, g, ops).trace[j].cmd.kind.IsColumn()
    ensures var trace := Run(p, g, ops).trace;
      exists i | 0 <= i < j :: trace[i].bank == trace[j].bank && trace[i].cmd.kind.ACT? && trace[i].cycle + 2 <= trace[j].cycle
  {
    if ops != [] {
      var before := ops[..|ops| - 1];
      var d, t := Run(p, g, before), Run(p, g, ops).trace;
      if j < |d.trace| {
        assert d.trace[j] == t[j] && forall i | 0 <= i < j :: d.trace[i] == t[i];
        RunAfterAct(p, g, before, j);
      } else {
        RunAwake(p, g, before);
        RunTimingSafe(p, g, before);
        AcceptedAfterAct(p, g, d, t[j].bank, t[j].cmd.kind);
        assert forall i | 0 <= i < |d.trace| :: d.trace[i] == t[i];
      }
    }
  }

  lemma AcceptedAfterAct(p: Params, g: Geometry, d: Device, bank: nat, k: Kind)
    requires g.Valid() && Valid(p, g, d) && Awake(d) && k.IsColumn() && CanSend(d, bank, k)
    ensures exists i | 0 <= i < |d.trace| :: d.trace[i].bank == bank && d.trace[i].cmd.kind.ACT? && d.trace[i].cycle + 2 <= d.cycle
  {
    assert Sane(d.banks[bank]);
    hide Run, Seen, TimingSafe;
    assert Woken(d.trace, bank, 2, d.cycle);
  }

  // ---- Exactly when the assertion holds

  /** The bank's own distance, and the earliest READ at all, reach the asserted distance. */
  predicate AssertionFits(p: Params) { p.nCCD_L >= AssertedGap(p) && 1 + Max(2, p.nRCD) >= AssertedGap(p) }

  lemma FitsAsserted(p: Params, g: Geometry, ops: seq<Op>)
    requires p.Valid() && g.Valid() && AssertionFits(p) && Late(Run(p, g, ops).trace)
    ensures Asserted(p, g, Run(p, g, ops).trace)
  {
    RunKindsApart(p, g, ops);
    RunTimingSafe(p, g, ops);
    var trace := Run(p, g, ops).trace;
    forall j | 0 <= j < |trace| && trace[j].cmd.kind.IsColumn()
      ensures trace[j].cycle >= 1 + Max(2, p.nRCD)
    {
      RunAfterAct(p, g, ops, j);
      var i :| 0 <= i < j && trace[i].bank == trace[j].bank && trace[i].cmd.kind.ACT? && trace[i].cycle + 2 <= trace[j].cycle;
      assert Separated(p, g, NoAuto(trace), trace[i], trace[j]);
      assert g.Relation(trace[i].bank, trace[j].bank).Same?;
    }
    hide Run, Valid, AllRefuse, NoAuto, TimingSafe, NoDataIn, Geometry.PseudoOf, Geometry.RankOf, Geometry.GroupOf;
    forall i, j | 0 <= i < j < |trace| && SameClass(g, trace[i], trace[j])
      ensures trace[j].cycle - trace[i].cycle >= AssertedGap(p)
    {
      assert trace[j].cycle >= Due(p, g.Relation(trace[i].bank, trace[j].bank), trace[i]);
    }
  }

  lemma AssertionFails(p: Params, g: Geometry) returns (ops: seq<Op>)
    requires p.Valid() && g.Valid() && !AssertionFits(p)
    ensures var trace := Run(p, g, ops).trace; Late(trace) && !Asserted(p, g, trace)
  {
    hide Run, NoAuto;
    assert g.PseudoOf(0) == 0;
    if p.nCCD_L < AssertedGap(p) {
      PairRuns(p, g, READ, p.nCCD_L);
      ops := Pair(p, READ, p.nCCD_L);
      var trace := Run(p, g, ops).trace;
      assert NoDataIn(trace, 1 + 1, 2) && SameClass(g, trace[1], trace[2]);
    } else {
      OpeningRuns(p, g, Max(2, p.nRCD));
      ops := Opening(Max(2, p.nRCD));
      var trace := Run(p, g, ops).trace;
      assert NoDataIn(trace, 0, 1);
    }
  }

  /** The driver's assertion about data commands holds in every run whose commands come after the
      first clock edge, auto-precharge included, if and only if the parameters fit. */
  lemma DataAssertionExact(p: Params, g: Geometry)
    requires p.Valid() && g.Valid()
    ensures (forall ops: seq<Op> | Late(Run(p, g, ops).trace) :: Asserted(p, g, Run(p, g, ops).trace)) <==> AssertionFits(p)
  {
    hide Asserted, AssertionFits, Late;
    if AssertionFits(p) {
      forall ops: seq<Op> | Late(Run(p, g, ops).trace)
        ensures Asserted(p, g, Run(p, g, ops).trace)
      {
        FitsAsserted(p, g, ops);
      }
    } else {
      var ops := AssertionFails(p, g);
      assert Late(Run(p, g, ops).trace);
    }
  }
}
