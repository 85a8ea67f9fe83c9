/** Auto-precharge breaks the column-to-column distances: a bank that enters the state of a READA lowers what
    other banks have told it. One run of two banks shows it. */
module AutoGap {
  import opened Dram
  import opened BankMachine
  import D = Device
  import DataBus

  /** Burst 1, write latency 9, own column distance 4; the other delays as short as they may be. */
  const P := Params(0, 0, 2, 4, 1, 0, 9, 0, 0, 0, 0, 0, 0, 0, 0, 0, 0, 0, 2, 2, 2, 1, 1)

  /** One rank of two groups of one bank. */
  const G := Geometry(1, 1, 1, 2, 1)

  function For(kind: Kind, bank: nat): Cmd { Cmd(kind, 0, 0, 0, bank, 0) }

  /** The cycle and the two banks. */
  ghost predicate At(d: D.Device, cycle: nat, a: Bank, b: Bank) { d.cycle == cycle && d.banks == [a, b] }

  lemma EdgeAt(d: D.Device, cycle: nat, a: Bank, b: Bank)
    requires At(d, cycle, a, b)
    ensures P.Valid() && At(D.Clock(P, d), cycle + 1, Tick(P, a, cycle + 1), Tick(P, b, cycle + 1)) && D.Clock(P, d).trace == d.trace
  {
    hide Tick;
  }

  lemma Related()
    ensures G.Valid() && G.NumBanks() == 2 && G.Relation(0, 1) == Rank && G.Relation(1, 0) == Rank
  {
  }

  lemma FirstAt(d: D.Device, cycle: nat, a: Bank, b: Bank, kind: Kind)
    requires At(d, cycle, a, b) && Allowed(a, kind, cycle)
    ensures G.Valid() && D.CanSend(d, 0, kind)
    ensures var d' := D.Send(P, G, d, 0, For(kind, 0), false);
      && At(d', cycle, Handle(a, For(kind, 0), cycle), Raise(P, b, Rank, kind, cycle))
      && d'.trace == d.trace + [D.Issue(cycle, 0, For(kind, 0), a.rowOpen, a.openRow, false)]
  {
    hide Raise, Handle, Allowed, Geometry.Relation;
    Related();
    var d' := D.Send(P, G, d, 0, For(kind, 0), false);
    assert d'.banks == [Handle(a, For(kind, 0), cycle), Raise(P, b, Rank, kind, cycle)];
  }

  lemma SecondAt(d: D.Device, cycle: nat, a: Bank, b: Bank, kind: Kind)
    requires At(d, cycle, a, b) && Allowed(b, kind, cycle)
    ensures G.Valid() && D.CanSend(d, 1, kind)
    ensures var d' := D.Send(P, G, d, 1, For(kind, 1), false);
      && At(d', cycle, Raise(P, a, Rank, kind, cycle), Handle(b, For(kind, 1), cycle))
      && d'.trace == d.trace + [D.Issue(cycle, 1, For(kind, 1), b.rowOpen, b.openRow, false)]
  {
    hide Raise, Handle, Allowed, Geometry.Relation;
    Related();
    var d' := D.Send(P, G, d, 1, For(kind, 1), false);
    assert d'.banks == [Raise(P, a, Rank, kind, cycle), Handle(b, For(kind, 1), cycle)];
  }

  // ---- The two banks

  /** The first bank up to its READA: ACT in cycle 1, the other bank's ACT in cycle 2. */
  lemma FirstOpens() returns (a1: Bank, a3: Bank)
    ensures P.Valid() && a1 == Tick(P, INITIAL, 1) && Allowed(a1, ACT, 1)
    ensures a3 == Tick(P, Raise(P, Tick(P, Handle(a1, For(ACT, 0), 1), 2), Rank, ACT, 2), 3) && Allowed(a3, READA, 3)
    ensures a3.state == Active(2) && a3.next.read == a3.next.reada == a3.next.write == a3.next.writea == 3
    ensures a3.next.pre == 1 && a3.next.act == 2 && a3.last == ZERO_CYCLES.(act := 1)
  {
    a1 := Tick(P, INITIAL, 1);
    assert a1.state.Idle? && a1.received.None? && a1.next == ZERO_CYCLES && a1.last == ZERO_CYCLES;
    var a2 := Tick(P, Handle(a1, For(ACT, 0), 1), 2);
    assert a2.state == Activating(0, For(ACT, 0)) && a2.received.None? && a2.next == ZERO_CYCLES && a2.last == ZERO_CYCLES.(act := 1);
    a3 := Tick(P, Raise(P, a2, Rank, ACT, 2), 3);
  }

  /** It hears of the other bank's WRITE while it holds the READA, and forgets one cycle of it. */
  lemma FirstForgets(a3: Bank) returns (a6: Bank)
    requires Allowed(a3, READA, 3) && a3.state == Active(2) && a3.next.read == a3.next.reada == a3.next.write == a3.next.writea == 3
    requires a3.next.pre == 1 && a3.next.act == 2 && a3.last == ZERO_CYCLES.(act := 1)
    ensures P.Valid()
    ensures a6 == Tick(P, Tick(P, Raise(P, Tick(P, Handle(a3, For(READA, 0), 3), 4), Rank, WRITE, 4), 5), 6)
    ensures a6.state == ReadingA(3, 0) && a6.received.None? && a6.next.read == 13 && a6.next.pre == 5 && a6.next.act == 2
    ensures a6.last.act == 1 && a6.last.reada == 6 && a6.last.read == 0
  {
    var a4 := Tick(P, Handle(a3, For(READA, 0), 3), 4);
    assert a4.state == Active(1) && a4.Holds(READA) && a4.next == a3.next && a4.last == a3.last.(reada := 3);
    var a4r := Raise(P, a4, Rank, WRITE, 4);
    assert a4r.next.read == 14 && a4r.next.pre == 1;
    var a5 := Tick(P, a4r, 5);
    assert a5.state == Active(0) && a5.received == a4.received && a5.next == a4r.next && a5.last == a4.last;
    a6 := Tick(P, a5, 6);
  }

  /** It precharges itself, is activated again and takes a READ in cycle 13. */
  lemma FirstReturns(a6: Bank) returns (a11: Bank, a13: Bank)
    requires a6.state == ReadingA(3, 0) && a6.received.None? && a6.next.read == 13 && a6.next.pre == 5 && a6.next.act == 2
    requires a6.last.act == 1 && a6.last.reada == 6 && a6.last.read == 0
    ensures P.Valid() && a11 == Tick(P, Tick(P, Tick(P, Tick(P, Tick(P, a6, 7), 8), 9), 10), 11) && Allowed(a11, ACT, 11)
    ensures a13 == Tick(P, Tick(P, Handle(a11, For(ACT, 0), 11), 12), 13) && Allowed(a13, READ, 13)
  {
    var a7 := Tick(P, a6, 7);
    assert a7.state == ReadingA(2, 0) && a7.received.None? && a7.next == a6.next && a7.last == a6.last;
    var a8 := Tick(P, a7, 8);
    assert a8.state == ReadingA(1, 0) && a8.received.None? && a8.next == a6.next && a8.last == a6.last;
    var a9 := Tick(P, a8, 9);
    assert a9.state == ReadingA(0, 0) && a9.received.None? && a9.next == a6.next && a9.last == a6.last;
    var a10 := Tick(P, a9, 10);
    assert a10.state == Precharging(0) && a10.received.None? && a10.next == a6.next;
    a11 := Tick(P, a10, 11);
    assert a11.state == Idle(0) && a11.received.None? && a11.next.act == 11 && a11.next.read == 13;
    var a12 := Tick(P, Handle(a11, For(ACT, 0), 11), 12);
    assert a12.state == Activating(0, For(ACT, 0)) && a12.received.None? && a12.next == a11.next;
    a13 := Tick(P, a12, 13);
  }

  /** The second bank takes an ACT in cycle 2 and a WRITE in cycle 4. */
  lemma SecondWrites() returns (b2: Bank, b4: Bank)
    ensures P.Valid() && b2 == Tick(P, Raise(P, Tick(P, INITIAL, 1), Rank, ACT, 1), 2) && Allowed(b2, ACT, 2)
    ensures b4 == Tick(P, Raise(P, Tick(P, Handle(b2, For(ACT, 1), 2), 3), Rank, READA, 3), 4) && Allowed(b4, WRITE, 4)
  {
    var b1 := Tick(P, INITIAL, 1);
    assert b1.state.Idle? && b1.received.None? && b1.next == ZERO_CYCLES && b1.last == ZERO_CYCLES;
    b2 := Tick(P, Raise(P, b1, Rank, ACT, 1), 2);
    assert b2.state.Idle? && b2.received.None? && b2.next == ZERO_CYCLES.(act := 1) && b2.last == ZERO_CYCLES;
    var b3 := Tick(P, Handle(b2, For(ACT, 1), 2), 3);
    assert b3.state == Activating(0, For(ACT, 1)) && b3.received.None? && b3.next == b2.next;
    b4 := Tick(P, Raise(P, b3, Rank, READA, 3), 4);
  }

  // ---- The run

  lemma RunEdge(ops: seq<D.Op>, cycle: nat, a: Bank, b: Bank) returns (more: seq<D.Op>)
    requires P.Valid() && G.Valid() && At(D.Run(P, G, ops), cycle, a, b)
    ensures At(D.Run(P, G, more), cycle + 1, Tick(P, a, cycle + 1), Tick(P, b, cycle + 1)) && D.Run(P, G, more).trace == D.Run(P, G, ops).trace
  {
    hide Tick, At;
    more := ops + [D.Edge];
    assert more[..|ops|] == ops;
    EdgeAt(D.Run(P, G, ops), cycle, a, b);
  }

  lemma RunFirst(ops: seq<D.Op>, cycle: nat, a: Bank, b: Bank, kind: Kind) returns (more: seq<D.Op>)
    requires P.Valid() && G.Valid() && At(D.Run(P, G, ops), cycle, a, b) && Allowed(a, kind, cycle)
    ensures At(D.Run(P, G, more), cycle, Handle(a, For(kind, 0), cycle), Raise(P, b, Rank, kind, cycle))
    ensures D.Run(P, G, more).trace == D.Run(P, G, ops).trace + [D.Issue(cycle, 0, For(kind, 0), a.rowOpen, a.openRow, false)]
  {
    hide Tick, At, Allowed, Handle, Raise, D.Send, D.CanSend;
    more := ops + [D.Attempt(0, For(kind, 0), false)];
    assert more[..|ops|] == ops;
    FirstAt(D.Run(P, G, ops), cycle, a, b, kind);
  }

  lemma RunSecond(ops: seq<D.Op>, cycle: nat, a: Bank, b: Bank, kind: Kind) returns (more: seq<D.Op>)
    requires P.Valid() && G.Valid() && At(D.Run(P, G, ops), cycle, a, b) && Allowed(b, kind, cycle)
    ensures At(D.Run(P, G, more), cycle, Raise(P, a, Rank, kind, cycle), Handle(b, For(kind, 1), cycle))
    ensures D.Run(P, G, more).trace == D.Run(P, G, ops).trace + [D.Issue(cycle, 1, For(kind, 1), b.rowOpen, b.openRow, false)]
  {
    hide Tick, At, Allowed, Handle, Raise, D.Send, D.CanSend;
    more := ops + [D.Attempt(1, For(kind, 1), false)];
    assert more[..|ops|] == ops;
    SecondAt(D.Run(P, G, ops), cycle, a, b, kind);
  }

  /** The history up to the WRITE of the second bank in cycle 4. */
  ghost predicate Begun(trace: seq<D.Issue>) {
    && |trace| == 4 && trace[2].cmd == For(READA, 0)
    && trace[3].cycle == 4 && trace[3].bank == 1 && trace[3].cmd == For(WRITE, 1)
  }

  lemma ToWrite() returns (ops: seq<D.Op>, a: Bank, b: Bank, a6: Bank)
    ensures P.Valid() && G.Valid() && At(D.Run(P, G, ops), 4, a, b) && Begun(D.Run(P, G, ops).trace)
    ensures a6 == Tick(P, Tick(P, a, 5), 6) && a6.state == ReadingA(3, 0) && a6.received.None?
    ensures a6.next.read == 13 && a6.next.pre == 5 && a6.next.act == 2 && a6.last.act == 1 && a6.last.reada == 6 && a6.last.read == 0
  {
    Related();
    var a1, a3 := FirstOpens();
    a6 := FirstForgets(a3);
    var b2, b4 := SecondWrites();
    StartAt();
    hide Tick, Allowed, Handle, Raise, At, D.Run;
    ops := RunEdge([], 0, INITIAL, INITIAL);
    ops := RunFirst(ops, 1, a1, Tick(P, INITIAL, 1), ACT);
    a := Handle(a1, For(ACT, 0), 1);
    ops := RunEdge(ops, 1, a, Raise(P, Tick(P, INITIAL, 1), Rank, ACT, 1));
    a := Tick(P, a, 2);
    ops := RunSecond(ops, 2, a, b2, ACT);
    a, b := Raise(P, a, Rank, ACT, 2), Handle(b2, For(ACT, 1), 2);
    ops := RunEdge(ops, 2, a, b);
    b := Tick(P, b, 3);
    ops := RunFirst(ops, 3, a3, b, READA);
    a, b := Handle(a3, For(READA, 0), 3), Raise(P, b, Rank, READA, 3);
    ops := RunEdge(ops, 3, a, b);
    a := Tick(P, a, 4);
    ops := RunSecond(ops, 4, a, b4, WRITE);
    a, b := Raise(P, a, Rank, WRITE, 4), Handle(b4, For(WRITE, 1), 4);
  }

  lemma ToIdle(ops0: seq<D.Op>, a: Bank, b0: Bank, a6: Bank) returns (ops: seq<D.Op>, b: Bank)
    requires P.Valid() && G.Valid() && At(D.Run(P, G, ops0), 4, a, b0) && a6 == Tick(P, Tick(P, a, 5), 6)
    ensures At(D.Run(P, G, ops), 11, Tick(P, Tick(P, Tick(P, Tick(P, Tick(P, a6, 7), 8), 9), 10), 11), b)
    ensures D.Run(P, G, ops).trace == D.Run(P, G, ops0).trace
  {
    hide Tick, At, D.Run;
    ops := RunEdge(ops0, 4, a, b0);
    b := Tick(P, b0, 5);
    ops := RunEdge(ops, 5, Tick(P, a, 5), b);
    b := Tick(P, b, 6);
    var c := a6;
    ops := RunEdge(ops, 6, c, b);
    c, b := Tick(P, c, 7), Tick(P, b, 7);
    ops := RunEdge(ops, 7, c, b);
    c, b := Tick(P, c, 8), Tick(P, b, 8);
    ops := RunEdge(ops, 8, c, b);
    c, b := Tick(P, c, 9), Tick(P, b, 9);
    ops := RunEdge(ops, 9, c, b);
    c, b := Tick(P, c, 10), Tick(P, b, 10);
    ops := RunEdge(ops, 10, c, b);
    b := Tick(P, b, 11);
  }

  lemma TooClose(e: D.Issue, f: D.Issue)
    requires e.cycle == 4 && e.bank == 1 && e.cmd == For(WRITE, 1) && f.cycle == 13 && f.bank == 0 && f.cmd == For(READ, 0)
    ensures G.Valid() && G.PseudoOf(e.bank) == G.PseudoOf(f.bank) && !D.Separated(P, G, true, e, f) && !DataBus.BurstsApart(P, e, f)
  {
    Related();
  }

  /** A WRITE of the second bank in cycle 4 and a READ of the first in cycle 13, where ten cycles are asked for:
      their bursts overlap. */
  lemma AutoTooEarly() returns (ops: seq<D.Op>)
    ensures P.Valid() && G.Valid()
    ensures var trace := D.Run(P, G, ops).trace;
      && |trace| == 6 && trace[2].cmd.kind.READA? && trace[3].cmd.kind.WRITE? && trace[5].cmd.kind.READ?
      && G.PseudoOf(trace[3].bank) == G.PseudoOf(trace[5].bank) && trace[3].bank != trace[5].bank
      && !D.Separated(P, G, true, trace[3], trace[5]) && !DataBus.BurstsApart(P, trace[3], trace[5])
  {
    hide Tick, Allowed, Handle, Raise, At, D.Run, D.Separated, DataBus.BurstsApart, Geometry.PseudoOf;
    var a, b, a6;
    ops, a, b, a6 := ToWrite();
    ops, b := ToIdle(ops, a, b, a6);
    var a11, a13 := FirstReturns(a6);
    ops := RunFirst(ops, 11, a11, b, ACT);
    a, b := Handle(a11, For(ACT, 0), 11), Raise(P, b, Rank, ACT, 11);
    ops := RunEdge(ops, 11, a, b);
    a, b := Tick(P, a, 12), Tick(P, b, 12);
    ops := RunEdge(ops, 12, a, b);
    b := Tick(P, b, 13);
    ops := RunFirst(ops, 13, a13, b, READ);
    var trace := D.Run(P, G, ops).trace;
    TooClose(trace[3], trace[5]);
  }

  lemma StartAt()
    ensures P.Valid() && G.Valid() && At(D.Run(P, G, []), 0, INITIAL, INITIAL) && D.Run(P, G, []).trace == []
  {
    Related();
    assert D.Initial(G).banks == [INITIAL, INITIAL];
  }
}
