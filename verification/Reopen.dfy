/** With refresh on, a bank may be closed under commands that are still to come. What is queued
    for it nevertheless fits the bank: the driver queues the ACT of the row that the next column
    command needs, and takes out a PRE that finds the bank closed. */
module Reopen {
  import opened Dram
  import RB = RowBuffer

  // ---- The row of a bank under its queued commands

  /** What a queued command leads to: a PRE for a closed bank is taken out, and an ACT for the row
      that is open waits until a refresh has closed it. */
  function Leads(s: RB.Status, c: Cmd): RB.Status {
    match c.kind
    case ACT => if s.Closed? || (s.Open? && s.row == c.row) then RB.Open(c.row, false) else RB.Bad
    case PRE => if s.Bad? then RB.Bad else RB.Closed
    case _ => RB.Next(s, c)
  }

  function LeadsTo(s: RB.Status, q: seq<Cmd>): RB.Status
    decreases |q|
  {
    if q == [] then s else LeadsTo(Leads(s, q[0]), q[1..])
  }

  lemma {:induction false} LeadsConcat(s: RB.Status, q: seq<Cmd>, r: seq<Cmd>)
    ensures LeadsTo(s, q + r) == LeadsTo(LeadsTo(s, q), r)
    decreases |q|
  {
    if q == [] {
      assert q + r == r;
    } else {
      assert (q + r)[1..] == q[1..] + r;
      LeadsConcat(Leads(s, q[0]), q[1..], r);
    }
  }

  lemma LeadsHead(s: RB.Status, c: Cmd, q: seq<Cmd>)
    ensures LeadsTo(s, [c] + q) == LeadsTo(Leads(s, c), q)
  {
    assert ([c] + q)[1..] == q;
  }

  lemma {:induction false} BadLeads(q: seq<Cmd>)
    ensures LeadsTo(RB.Bad, q) == RB.Bad
  {
    if q != [] { BadLeads(q[1..]); }
  }

  /** The same row, touched at most as much. */
  predicate Below(f: RB.Status, s: RB.Status) {
    f == s || (f.Open? && s.Open? && f.row == s.row && (f.used ==> s.used))
  }

  lemma {:induction false} BelowLeads(f: RB.Status, s: RB.Status, q: seq<Cmd>)
    requires Below(f, s) && !LeadsTo(s, q).Bad?
    ensures Below(LeadsTo(f, q), LeadsTo(s, q))
    decreases |q|
  {
    if q != [] {
      BadLeads(q[1..]);
      BelowLeads(Leads(f, q[0]), Leads(s, q[0]), q[1..]);
    }
  }

  /** A legal stream leads where the row-buffer model says. */
  lemma {:induction false} LegalLeads(s: RB.Status, q: seq<Cmd>)
    requires !RB.After(s, q).Bad?
    ensures LeadsTo(s, q) == RB.After(s, q)
  {
    if q != [] {
      var n := |q| - 1;
      LegalLeads(s, q[..n]);
      assert q == q[..n] + [q[n]];
      LeadsConcat(s, q[..n], [q[n]]);
      assert [q[n]][1..] == [];
    }
  }

  lemma {:induction false} NoActLeads(q: seq<Cmd>)
    requires forall i | 0 <= i < |q| :: !q[i].kind.ACT?
    ensures !LeadsTo(RB.Closed, q).Open?
  {
    if q != [] {
      BadLeads(q[1..]);
      NoActLeads(q[1..]);
    }
  }

  // ---- What is queued fits the bank

  /** The row under which the commands `a` in the driver and `q` in the bank's command queue will
      be taken: with nothing in the driver, an ACT will be queued for a column command in front. */
  function Entered(st: RB.Status, a: seq<Cmd>, q: seq<Cmd>): RB.Status {
    if a == [] && st.Closed? && q != [] && q[0].kind.IsColumn() then RB.Open(q[0].row, false) else st
  }

  function Final(st: RB.Status, a: seq<Cmd>, q: seq<Cmd>): RB.Status { LeadsTo(Entered(st, a, q), a + q) }

  /** The queued commands are legal from the bank's row `st`, and leave open the row `s` that the
      stream leaves open, unless a refresh has closed it with nothing queued. */
  predicate Fits(st: RB.Status, a: seq<Cmd>, q: seq<Cmd>, s: RB.Status) {
    && !Final(st, a, q).Bad?
    && (Below(Final(st, a, q), s) || (a == [] && q == [] && st.Closed? && s.Open?))
  }

  /** The first queued command was taken, or taken out without effect. */
  lemma FitsNext(st: RB.Status, c: Cmd, a: seq<Cmd>, q: seq<Cmd>, s: RB.Status)
    requires Fits(st, [c] + a, q, s)
    ensures !Leads(st, c).Bad? && Fits(Leads(st, c), a, q, s)
  {
    var st' := Leads(st, c);
    assert ([c] + a) + q == [c] + (a + q);
    LeadsHead(st, c, a + q);
    BadLeads(a + q);
    if a == [] && q != [] {
      assert a + q == q;
      BadLeads(q[1..]);
    }
  }

  /** A refresh closed the bank while no column command was first in the driver's queue. */
  lemma FitsClosed(st: RB.Status, a: seq<Cmd>, q: seq<Cmd>, s: RB.Status)
    requires Fits(st, a, q, s) && !st.Bad? && (a != [] ==> !a[0].kind.IsColumn())
    ensures Fits(RB.Closed, a, q, s)
  {
    if st.Open? {
      var t := a + q;
      if t != [] {
        assert t == [t[0]] + t[1..];
        LeadsHead(st, t[0], t[1..]);
        LeadsHead(RB.Closed, t[0], t[1..]);
        BadLeads(t[1..]);
        if t[0].kind.IsColumn() {
          assert a == [];
          BelowLeads(RB.Open(q[0].row, false), st, t);
        }
      }
    }
  }

  /** An ACT was queued in front of the column command that is first in the driver's queue. */
  lemma FitsReopened(st: RB.Status, c: Cmd, a: seq<Cmd>, q: seq<Cmd>, s: RB.Status)
    requires c.kind.IsColumn() && Fits(st, [c] + a, q, s)
    ensures Fits(st, [c.(kind := ACT)] + ([c] + a), q, s)
  {
    var t := ([c] + a) + q;
    assert t == [c] + (a + q);
    LeadsHead(st, c, a + q);
    BadLeads(a + q);
    var act := c.(kind := ACT);
    assert ([act] + ([c] + a)) + q == [act] + t;
    LeadsHead(st, act, t);
    BelowLeads(RB.Open(c.row, false), st, t);
  }

  /** An ACT was queued for the head of the command queue, the bank being closed. */
  lemma FitsOpened(c: Cmd, a: seq<Cmd>, tail: seq<Cmd>, s: RB.Status)
    requires c.kind.IsColumn() && Fits(RB.Closed, a, [c] + tail, s) && forall i | 0 <= i < |a| :: !a[i].kind.ACT?
    ensures Fits(RB.Closed, a + [c.(kind := ACT)], [c] + tail, s)
  {
    var q, act := [c] + tail, c.(kind := ACT);
    if a != [] {
      LeadsConcat(RB.Closed, a, q);
      NoActLeads(a);
      LeadsHead(LeadsTo(RB.Closed, a), c, tail);
      BadLeads(tail);
      BadLeads(q);
      assert false;
    }
    assert (a + [act]) + q == [act] + q;
    LeadsHead(RB.Closed, act, q);
    assert a + q == q;
  }

  /** The head of the command queue moved to the driver's queue. */
  lemma FitsMoved(st: RB.Status, a: seq<Cmd>, c: Cmd, tail: seq<Cmd>, s: RB.Status)
    requires Fits(st, a, [c] + tail, s) && !(st.Closed? && c.kind.IsColumn() && a == [])
    ensures Fits(st, a + [c], tail, s)
  {
    assert (a + [c]) + tail == a + ([c] + tail);
  }

  /** The stream goes on with the commands of a transaction. */
  lemma FitsMore(st: RB.Status, a: seq<Cmd>, q: seq<Cmd>, s: RB.Status, cmds: seq<Cmd>)
    requires Fits(st, a, q, s) && cmds != [] && !RB.After(s, cmds).Bad?
    ensures Fits(st, a, q + cmds, RB.After(s, cmds))
  {
    LegalLeads(s, cmds);
    var f, more := Final(st, a, q), cmds[1..];
    assert cmds == [cmds[0]] + more;
    LeadsHead(s, cmds[0], more);
    BadLeads(more);
    if Below(f, s) {
      assert a + (q + cmds) == (a + q) + cmds;
      LeadsConcat(Entered(st, a, q), a + q, cmds);
      BelowLeads(f, s, cmds);
      assert Entered(st, a, q + cmds) == Entered(st, a, q);
    } else {
      assert a + (q + cmds) == cmds && q + cmds == cmds;
      LeadsHead(RB.Closed, cmds[0], more);
      if cmds[0].kind.IsColumn() { BelowLeads(RB.Open(cmds[0].row, false), s, cmds); }
    }
  }
}
