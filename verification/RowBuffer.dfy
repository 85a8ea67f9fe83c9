/** A reference model of one bank's row buffer as seen from its command stream, and the
    correspondence between that model and the bank state machine. */
module RowBuffer {
  import opened Dram
  import opened BankMachine
  import D = Device

  /** `Open(row, used)`: `row` is open, and a READ or WRITE has touched it. `Bad`: the stream
      has activated an open bank, accessed a row that is not open, precharged a closed bank,
      or auto-precharged a row that was already used. */
  datatype Status = Bad | Closed | Open(row: nat, used: bool)

  function Next(s: Status, c: Cmd): Status {
    match c.kind
    case ACT => if s.Closed? then Open(c.row, false) else Bad
    case READ => if s.Open? && s.row == c.row then Open(s.row, true) else Bad
    case WRITE => if s.Open? && s.row == c.row then Open(s.row, true) else Bad
    case READA => if s.Open? && s.row == c.row && !s.used then Closed else Bad
    case WRITEA => if s.Open? && s.row == c.row && !s.used then Closed else Bad
    case PRE => if s.Open? then Closed else Bad
    case REF => Bad
  }

  function After(s: Status, q: seq<Cmd>): Status {
    if q == [] then s else Next(After(s, q[..|q| - 1]), q[|q| - 1])
  }

  lemma {:induction false} AfterConcat(s: Status, q: seq<Cmd>, r: seq<Cmd>)
    ensures After(s, q + r) == After(After(s, q), r)
  {
    if r == [] {
      assert q + r == q;
    } else {
      assert (q + r)[..|q + r| - 1] == q + r[..|r| - 1];
      AfterConcat(s, q, r[..|r| - 1]);
    }
  }

  lemma AfterOne(s: Status, q: seq<Cmd>, c: Cmd)
    ensures After(s, q + [c]) == Next(After(s, q), c)
  {
    assert (q + [c])[..|q|] == q;
  }

  lemma AfterNone(s: Status)
    ensures After(s, []) == s
  {
  }

  lemma {:induction false} BadStays(q: seq<Cmd>)
    ensures After(Bad, q) == Bad
  {
    if q != [] { BadStays(q[..|q| - 1]); }
  }

  /** Without an ACT a closed bank stays closed or the stream goes bad. */
  lemma {:induction false} NeedsAct(q: seq<Cmd>)
    requires forall i | 0 <= i < |q| :: !q[i].kind.ACT?
    ensures !After(Closed, q).Open?
  {
    if q != [] { NeedsAct(q[..|q| - 1]); }
  }

  // ---- The bank follows its stream

  /** The bank has taken the commands that lead the reference model to `s`. */
  predicate Matches(bk: Bank, s: Status) {
    match s
    case Bad => false
    case Closed =>
      || (bk.state.Idle? && !bk.Holds(ACT)) || bk.state.Precharging? || bk.state.Refreshing?
      || bk.state.ReadingA? || bk.state.WritingA?
      || (bk.state.TakesColumn() && bk.Holds(PRE))
      || (bk.state.Active? && (bk.Holds(READA) || bk.Holds(WRITEA)))
    case Open(row, used) =>
      if !used then
        || (bk.state.Idle? && bk.Holds(ACT) && bk.received.value.row == row)
        || (bk.state.Activating? && bk.openRow == row && bk.state.prev.row == row)
        || (bk.state.Active? && bk.received.None? && bk.openRow == row)
      else
        bk.openRow == row && (bk.received.None? || bk.Holds(READ) || bk.Holds(WRITE))
        && (bk.state.Reading? || bk.state.Writing? || (bk.state.Active? && bk.received.Some?))
  }

  /** No bank is idle with a command in hand, as after every clock edge. */
  predicate Settled(bk: Bank) { bk.state.Idle? ==> bk.received.None? }

  lemma TickMatches(p: Params, bk: Bank, s: Status, now: nat)
    requires p.Valid() && D.Sane(bk) && Matches(bk, s)
    ensures Matches(Tick(p, bk, now), s) && Settled(Tick(p, bk, now))
  {
  }

  lemma HandleMatches(bk: Bank, s: Status, c: Cmd, now: nat)
    requires D.Sane(bk) && Matches(bk, s) && Allowed(bk, c.kind, now) && !Next(s, c).Bad?
    ensures Matches(Handle(bk, c, now), Next(s, c))
    ensures c.kind.IsColumn() ==> bk.rowOpen && bk.openRow == c.row
  {
  }

  lemma RaiseMatches(p: Params, bk: Bank, rel: Relation, k: Kind, now: nat, s: Status)
    ensures Matches(bk, s) ==> Matches(Raise(p, bk, rel, k, now), s)
    ensures Settled(bk) ==> Settled(Raise(p, bk, rel, k, now))
  {
  }

  /** In an open bank of the reference model the bank's row is open, unless the ACT was taken
      in this very cycle. */
  lemma OpenNotClosed(bk: Bank, s: Status)
    requires Matches(bk, s) && s.Open? && Settled(bk)
    ensures !bk.state.Closed()
  {
  }
}
