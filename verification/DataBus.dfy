/** What the timing tables mean on the data bus: when the bursts of one bank stay apart in every
    run, and when the driver's own assertion about data commands cannot fail. */
module DataBus {
  import opened Arith
  import opened Dram
  import opened BankMachine
  import opened Device
  import opened Latency

  /** The cycle in which the burst of a column command starts. */
  ghost function BurstStart(p: Params, e: Issue): int {
    e.cycle + if e.cmd.kind.IsRead() then p.nCL else p.nCWL
  }

  ghost predicate BurstsApart(p: Params, e: Issue, f: Issue) { BurstStart(p, e) + p.nBL <= BurstStart(p, f) }

  /** Two column commands to different banks of a pseudo channel have disjoint bursts. */
  lemma BurstsNeverOverlap(p: Params, g: Geometry, trace: seq<Issue>, i: nat, j: nat)
    requires g.Valid() && TimingSafe(p, g, trace) && NoAuto(trace) && i < j < |trace|
    requires trace[i].cmd.kind.IsColumn() && trace[j].cmd.kind.IsColumn()
    requires g.PseudoOf(trace[i].bank) == g.PseudoOf(trace[j].bank) && trace[i].bank != trace[j].bank
    ensures BurstsApart(p, trace[i], trace[j])
  {
    var e, f := trace[i], trace[j];
    assert Separated(p, g, NoAuto(trace), e, f);
    hide Geometry.PseudoOf, Geometry.RankOf, Geometry.GroupOf, NoAuto;
    assert !g.Relation(e.bank, f.bank).Far?;
  }

  // ---- One bank takes one command per cycle

  /** A bank that took a command in this cycle still has it in hand. */
  ghost predicate Busy(d: Device) {
    forall i | 0 <= i < |d.trace| ::
      && d.trace[i].cycle <= d.cycle && d.trace[i].bank < |d.banks|
      && (d.trace[i].cycle == d.cycle ==> d.banks[d.trace[i].bank].received.Some?)
  }

  ghost predicate OneByOne(trace: seq<Issue>) {
    forall i, j | 0 <= i < j < |trace| && trace[i].bank == trace[j].bank :: trace[i].cycle < trace[j].cycle
  }

  lemma {:induction false} RunOneByOne(p: Params, g: Geometry, ops: seq<Op>)
    requires p.Valid() && g.Valid()
    ensures Busy(Run(p, g, ops)) && OneByOne(Run(p, g, ops).trace)
  {
    hide Tick, Raise, Geometry.Relation;
    if ops != [] {
      var d := Run(p, g, ops[..|ops| - 1]);
      RunOneByOne(p, g, ops[..|ops| - 1]);
      match ops[|ops| - 1]
      case Edge =>
      case Attempt(bank, c, refresh) =>
        if CanSend(d, bank, c.kind) { SendOneByOne(p, g, d, bank, c, refresh); }
    }
  }

  lemma SendOneByOne(p: Params, g: Geometry, d: Device, bank: nat, c: Cmd, refresh: bool)
    requires g.Valid() && CanSend(d, bank, c.kind) && Busy(d) && OneByOne(d.trace)
    ensures var d' := Send(p, g, d, bank, c, refresh); Busy(d') && OneByOne(d'.trace)
  {
    hide ColumnGap, Geometry.Relation, SetLast;
    var d' := Send(p, g, d, bank, c, refresh);
    assert forall i | 0 <= i < |d.trace| :: d'.trace[i] == d.trace[i];
    forall i | 0 <= i < |d.banks| && d.banks[i].received.Some?
      ensures d'.banks[i].received.Some?
    {
    }
  }

  // ---- When the bursts of a bank stay apart

  ghost predicate SameBankApart(p: Params, trace: seq<Issue>) {
    forall i, j | 0 <= i < j < |trace| && trace[i].bank == trace[j].bank && trace[i].cmd.kind.IsColumn() && trace[j].cmd.kind.IsColumn() ::
      BurstsApart(p, trace[i], trace[j])
  }

  /** The bank's own distance covers a burst, and its distance from a READ to a WRITE, one cycle at
      least, covers the read latency. */
  predicate BurstsFit(p: Params) {
    p.nCCD_L >= p.nBL && (2 * p.nCWL + p.nWTR >= p.nCL || (p.nCWL + p.nBL + p.nWTR == 0 && p.nCL <= 1))
  }

  lemma FitsApart(p: Params, g: Geometry, ops: seq<Op>)
    requires p.Valid() && g.Valid() && BurstsFit(p) && NoAuto(Run(p, g, ops).trace)
    ensures SameBankApart(p, Run(p, g, ops).trace)
  {
    RunTimingSafe(p, g, ops);
    RunOneByOne(p, g, ops);
    var trace := Run(p, g, ops).trace;
    hide Run, NoAuto, Valid, Geometry.GroupOf, Geometry.RankOf, Geometry.PseudoOf, Busy;
    forall i, j | 0 <= i < j < |trace| && trace[i].bank == trace[j].bank && trace[i].cmd.kind.IsColumn() && trace[j].cmd.kind.IsColumn()
      ensures BurstsApart(p, trace[i], trace[j])
    {
      assert Separated(p, g, NoAuto(trace), trace[i], trace[j]);
    }
  }

  // ---- A run with two column commands as close as a bank takes them

  function Edges(n: nat): seq<Op> { seq(n, i => Edge) }

  lemma {:induction false} RunEdges(p: Params, g: Geometry, ops: seq<Op>, n: nat)
    requires p.Valid() && g.Valid()
    ensures var d, d' := Run(p, g, ops), Run(p, g, ops + Edges(n));
      && d'.cycle == d.cycle + n && d'.trace == d.trace && |d'.banks| == |d.banks|
      && (|d.banks| > 0 ==> d'.banks[0] == Ticks(p, d.banks[0], d.cycle, n))
  {
    hide Tick;
    if n == 0 {
      assert ops + Edges(n) == ops;
    } else {
      RunEdges(p, g, ops, n - 1);
      assert (ops + Edges(n))[..|ops| + n - 1] == ops + Edges(n - 1) && (ops + Edges(n))[|ops| + n - 1] == Edge;
    }
  }

  lemma RunAttempt(p: Params, g: Geometry, ops: seq<Op>, c: Cmd)
    requires p.Valid() && g.Valid() && CanSend(Run(p, g, ops), 0, c.kind)
    ensures var d, d' := Run(p, g, ops), Run(p, g, ops + [Attempt(0, c, false)]);
      && d'.cycle == d.cycle && |d'.banks| == |d.banks| && d'.banks[0] == Handle(d.banks[0], c, d.cycle)
      && d'.trace == d.trace + [Issue(d.cycle, 0, c, d.banks[0].rowOpen, d.banks[0].openRow, false)]
  {
    hide Tick, Raise, Geometry.Relation;
    assert (ops + [Attempt(0, c, false)])[..|ops|] == ops;
  }

  lemma {:induction false} StaysReading(p: Params, bk: Bank, now: nat, k: nat)
    requires p.Valid() && bk.state.Reading? && bk.received.None?
    ensures var b := Ticks(p, bk, now, k); b.state.Reading? && b.received.None? && b.next == bk.next
  {
    if k > 0 { StaysReading(p, bk, now, k - 1); }
  }

  /** A command for the first bank. */
  function Simple(kind: Kind): Cmd { Cmd(kind, 0, 0, 0, 0, 0) }

  /** ACT after the first clock edge, READ `n` cycles later. */
  function Opening(n: nat): seq<Op> {
    Edges(1) + [Attempt(0, Simple(ACT), false)] + Edges(n) + [Attempt(0, Simple(READ), false)]
  }

  lemma FirstEdge(p: Params, g: Geometry)
    requires p.Valid() && g.Valid()
    ensures var d := Run(p, g, Edges(1));
      && d.cycle == 1 && d.trace == [] && |d.banks| == g.NumBanks() >= 1
      && d.banks[0].state.Idle? && d.banks[0].received.None? && d.banks[0].next == ZERO_CYCLES && d.banks[0].last == ZERO_CYCLES
  {
    RunEdges(p, g, [], 1);
    assert [] + Edges(1) == Edges(1);
    assert Ticks(p, INITIAL, 0, 1) == Tick(p, Ticks(p, INITIAL, 0, 0), 1);
  }

  /** The bank `n` cycles after its ACT, ready for a column command. */
  lemma Activated(p: Params, bk: Bank, now: nat, n: nat)
    requires p.Valid() && bk.state.Idle? && bk.next == ZERO_CYCLES && Allowed(bk, ACT, now) && n >= 2
    ensures var b := Ticks(p, Handle(bk, Simple(ACT), now), now, n);
      && b.state == Active(if n >= p.nCCD_L then 0 else p.nCCD_L - n) && b.received.None?
      && b.next.read == b.next.write == now + p.nRCD
  {
    hide Tick, Handle;
    var c := Simple(ACT);
    var b := Handle(bk, c, now);
    var b1, b2 := Tick(p, b, now + 1), Tick(p, Tick(p, b, now + 1), now + 2);
    TwoEdges(p, bk, c, now);
    assert Ticks(p, b, now, 0) == b && Ticks(p, b, now, 1) == b1 && Ticks(p, b, now, 2) == b2;
    TicksSplit(p, b, now, 2, n - 2);
    StaysActive(p, b2, now + 2, n - 2);
    assert b2.next.At(READ) == b2.next.read && b2.next.At(WRITE) == b2.next.write;
  }

  lemma OpeningRuns(p: Params, g: Geometry, n: nat)
    requires p.Valid() && g.Valid() && n >= Max(2, p.nRCD)
    ensures var d := Run(p, g, Opening(n));
      && d.cycle == 1 + n && |d.banks| >= 1 && |d.trace| == 2
      && d.trace[0].cycle == 1 && d.trace[0].bank == 0 && d.trace[0].cmd == Simple(ACT)
      && d.trace[1].cycle == 1 + n && d.trace[1].bank == 0 && d.trace[1].cmd == Simple(READ)
      && d.banks[0].state == Active(if n >= p.nCCD_L then 0 else p.nCCD_L - n) && d.banks[0].Holds(READ)
      && d.banks[0].last.read == 1 + n && d.banks[0].next.read == d.banks[0].next.write == 1 + p.nRCD
  {
    hide Run, Tick, Raise, Ticks;
    var a0 := Edges(1);
    var a1 := a0 + [Attempt(0, Simple(ACT), false)];
    var a2 := a1 + Edges(n);
    FirstEdge(p, g);
    RunAttempt(p, g, a0, Simple(ACT));
    RunEdges(p, g, a1, n);
    Activated(p, Run(p, g, a0).banks[0], 1, n);
    RunAttempt(p, g, a2, Simple(READ));
    assert Opening(n) == a2 + [Attempt(0, Simple(READ), false)];
  }

  /** The run goes on with a READ or WRITE `gap` cycles after the READ. */
  function Pair(p: Params, second: Kind, gap: nat): seq<Op> {
    Opening(Max(p.nCCD_L, p.nRCD)) + Edges(gap) + [Attempt(0, Simple(second), false)]
  }

  lemma AfterRead(p: Params, bk: Bank, now: nat, k: nat)
    requires p.Valid() && bk.state == Active(0) && bk.Holds(READ) && bk.last.read == now && k >= 1
    requires bk.next.read <= now && bk.next.write <= now
    ensures var b := Ticks(p, bk, now, k);
      && b.state.Reading? && b.received.None?
      && b.next.read == now + p.nCCD_L && b.next.write == now + p.nCWL + p.nBL + p.nWTR
  {
    var b1 := Tick(p, bk, now + 1);
    assert Ticks(p, bk, now, 0) == bk && Ticks(p, bk, now, 1) == b1;
    assert b1.state.Reading? && b1.received.None? && b1.next.read == now + p.nCCD_L && b1.next.write == now + p.nCWL + p.nBL + p.nWTR;
    hide Tick, Ticks;
    TicksSplit(p, bk, now, 1, k - 1);
    StaysReading(p, b1, now + 1, k - 1);
  }

  /** A bank takes a READ nCCD_L cycles after a READ, and a WRITE nCWL + nBL + nWTR cycles after it, one
      cycle at least. */
  lemma PairRuns(p: Params, g: Geometry, second: Kind, gap: nat)
    requires p.Valid() && g.Valid() && gap >= 1
    requires (second.READ? && gap >= p.nCCD_L) || (second.WRITE? && gap >= p.nCWL + p.nBL + p.nWTR)
    ensures var trace := Run(p, g, Pair(p, second, gap)).trace;
      && |trace| == 3 && NoAuto(trace) && Late(trace)
      && trace[0].cmd == Simple(ACT) && trace[1].cmd == Simple(READ) && trace[2].cmd == Simple(second)
      && trace[1].bank == trace[2].bank == 0 && trace[2].cycle == trace[1].cycle + gap
  {
    hide Run, Tick, Raise, Ticks;
    var n := Max(p.nCCD_L, p.nRCD);
    var a0 := Opening(n);
    var a1 := a0 + Edges(gap);
    OpeningRuns(p, g, n);
    RunEdges(p, g, a0, gap);
    AfterRead(p, Run(p, g, a0).banks[0], 1 + n, gap);
    RunAttempt(p, g, a1, Simple(second));
    assert Pair(p, second, gap) == a1 + [Attempt(0, Simple(second), false)];
  }

  /** In every run without auto-precharge the bursts of one bank stay apart, if and only if the
      parameters fit. */
  lemma SameBankBurstsExact(p: Params, g: Geometry)
    requires p.Valid() && g.Valid()
    ensures (forall ops: seq<Op> | NoAuto(Run(p, g, ops).trace) :: SameBankApart(p, Run(p, g, ops).trace)) <==> BurstsFit(p)
  {
    if BurstsFit(p) {
      forall ops: seq<Op> | NoAuto(Run(p, g, ops).trace)
        ensures SameBankApart(p, Run(p, g, ops).trace)
      {
        FitsApart(p, g, ops);
      }
    } else {
      var ops := BurstsCollide(p, g);
      assert NoAuto(Run(p, g, ops).trace);
    }
  }

  /** When they do not fit, this run makes two bursts of the first bank overlap. */
  lemma BurstsCollide(p: Params, g: Geometry) returns (ops: seq<Op>)
    requires p.Valid() && g.Valid() && !BurstsFit(p)
    ensures var trace := Run(p, g, ops).trace; NoAuto(trace) && !SameBankApart(p, trace)
  {
    hide Run, NoAuto;
    if p.nCCD_L < p.nBL {
      PairRuns(p, g, READ, p.nCCD_L);
      ops := Pair(p, READ, p.nCCD_L);
    } else {
      var gap := Max(1, p.nCWL + p.nBL + p.nWTR);
      PairRuns(p, g, WRITE, gap);
      ops := Pair(p, WRITE, gap);
    }
    var trace := Run(p, g, ops).trace;
    assert !BurstsApart(p, trace[1], trace[2]);
  }
}
