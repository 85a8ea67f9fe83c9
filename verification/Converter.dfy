/** The transaction converter (c_TxnConverter): row policies turn a transaction into bank
    commands, tracking which row each bank's command stream leaves open. */
module Converter {
  import opened Dram
  import RB = RowBuffer

  datatype Policy = CLOSE | OPEN | POPEN

  /** `width` is the address step between the column commands of one transaction. */
  datatype Rules = Rules(policy: Policy, useReadA: bool, useWriteA: bool, closeTime: nat, width: nat) {
    /** Other combinations end the simulation at start-up. */
    predicate Valid() { policy.CLOSE? || (!useReadA && !useWriteA) }
  }

  /** `count` is the transaction's data width divided by the command width. */
  datatype Txn = Txn(read: bool, addr: nat, count: nat, channel: nat, rank: nat, bank: nat, row: nat)

  /** What the converter tracks of a bank: the open row and the pseudo-open timer. */
  datatype RowInfo = RowInfo(open: bool, row: nat, timer: nat)

  function Command(t: Txn, k: Kind, addr: nat): Cmd {
    Cmd(k, addr, t.channel, t.rank, t.bank, t.row)
  }

  /** getPreCommands */
  function Before(r: Rules, info: RowInfo, t: Txn, addr: nat): (RowInfo, seq<Cmd>) {
    var reopened := if r.policy.POPEN? then info.(timer := r.closeTime) else info;
    if r.policy.CLOSE? then (info, [Command(t, ACT, addr)])
    else if !info.open then (reopened, [Command(t, ACT, addr)])
    else if info.row != t.row then (reopened, [Command(t, PRE, addr), Command(t, ACT, addr)])
    else (info, [])
  }

  /** The column command of a transaction. Under the close policy the flag for READA also
      selects WRITEA. */
  function ColumnKind(r: Rules, read: bool): Kind {
    if r.policy.CLOSE? && r.useReadA then (if read then READA else WRITEA)
    else if read then READ else WRITE
  }

  /** getPostCommands */
  function Behind(r: Rules, info: RowInfo, t: Txn, addr: nat): seq<Cmd> {
    var column := Command(t, ColumnKind(r, t.read), addr);
    if (r.policy.CLOSE? && !r.useReadA) || (r.policy.POPEN? && info.timer == 0)
    then [column, Command(t, PRE, addr)] else [column]
  }

  /** The first `n` rounds of the loop in getCommands. */
  function Commands(r: Rules, info: RowInfo, t: Txn, n: nat): (RowInfo, seq<Cmd>) {
    if n == 0 then (info, [])
    else
      var (info1, cmds) := Commands(r, info, t, n - 1);
      var addr := t.addr + r.width * (n - 1);
      var (info2, before) := Before(r, info1, t, addr);
      (info2, cmds + before + Behind(r, info2, t, addr))
  }

  /** updateBankInfo */
  function Note(r: Rules, info: RowInfo, t: Txn): RowInfo {
    if r.policy.CLOSE? || (r.policy.POPEN? && info.timer == 0) then info.(open := false)
    else info.(open := true, row := t.row)
  }

  /** The clock edge of one tracked bank under the pseudo-open policy. */
  function Age(r: Rules, info: RowInfo): RowInfo {
    if r.policy.POPEN? && info.open && info.timer > 0 then info.(timer := info.timer - 1) else info
  }

  /** The tracked row is the row that the stream leaves open. */
  predicate Tracks(r: Rules, info: RowInfo, s: RB.Status) {
    && !s.Bad?
    && (info.open <==> s.Open?)
    && (info.open ==> info.row == s.row)
    && (r.policy.CLOSE? || (r.policy.POPEN? && r.closeTime == 0) ==> !info.open)
  }

  lemma AgeTracks(r: Rules, info: RowInfo, s: RB.Status)
    requires Tracks(r, info, s)
    ensures Tracks(r, Age(r, info), s)
  {
  }

  // ---- One column command per transaction

  function ColumnCount(q: seq<Cmd>): nat {
    if q == [] then 0 else ColumnCount(q[..|q| - 1]) + if q[|q| - 1].kind.IsColumn() then 1 else 0
  }

  lemma AfterTwo(s: RB.Status, a: Cmd, b: Cmd)
    ensures RB.After(s, [a]) == RB.Next(s, a)
    ensures RB.After(s, [a, b]) == RB.Next(RB.Next(s, a), b)
  {
    assert [a] == [] + [a] && [a, b] == [a] + [b];
    RB.AfterOne(s, [], a);
    RB.AfterOne(s, [a], b);
  }

  function Round(r: Rules, info: RowInfo, t: Txn, addr: nat): seq<Cmd> {
    var (info1, before) := Before(r, info, t, addr);
    before + Behind(r, info1, t, addr)
  }

  /** The stream after one round, starting from the tracked row. */
  lemma RoundAfter(r: Rules, info: RowInfo, t: Txn, addr: nat, s: RB.Status)
    requires r.Valid() && Tracks(r, info, s)
    ensures Tracks(r, Note(r, Before(r, info, t, addr).0, t), RB.After(s, Round(r, info, t, addr)))
  {
    hide RB.After;
    var (info1, before) := Before(r, info, t, addr);
    var behind := Behind(r, info1, t, addr);
    var pre, act, col := Command(t, PRE, addr), Command(t, ACT, addr), Command(t, ColumnKind(r, t.read), addr);
    RB.AfterConcat(s, before, behind);
    var m := RB.After(s, before);
    AfterTwo(s, pre, act);
    AfterTwo(s, act, act);
    AfterTwo(m, col, pre);
    RB.AfterNone(s);
    assert m.Open? && m.row == t.row;
    assert behind == [col] || behind == [col, pre];
  }

  lemma RoundShape(r: Rules, info: RowInfo, t: Txn, addr: nat)
    ensures
      var cmds := Round(r, info, t, addr);
      && 1 <= |cmds| <= 4 && ColumnCount(cmds) == 1
      && (|cmds| == 4 ==> r.policy.POPEN? && info.open && r.closeTime == 0)
      && forall i | 0 <= i < |cmds| :: cmds[i] == Command(t, cmds[i].kind, addr) && !cmds[i].kind.REF?
  {
    hide ColumnCount;
    var (info1, before) := Before(r, info, t, addr);
    var behind := Behind(r, info1, t, addr);
    ColumnCountConcat(before, behind);
    NoColumns(before);
    assert behind == [behind[0]] + behind[1..];
    ColumnCountConcat([behind[0]], behind[1..]);
    OneColumn(behind[0]);
    NoColumns(behind[1..]);
  }

  lemma OneColumn(c: Cmd)
    ensures ColumnCount([c]) == if c.kind.IsColumn() then 1 else 0
  {
    assert [c][..0] == [];
  }

  lemma {:induction false} ColumnCountConcat(q: seq<Cmd>, r: seq<Cmd>)
    ensures ColumnCount(q + r) == ColumnCount(q) + ColumnCount(r)
  {
    if r == [] {
      assert q + r == q;
    } else {
      assert (q + r)[..|q + r| - 1] == q + r[..|r| - 1];
      ColumnCountConcat(q, r[..|r| - 1]);
    }
  }

  lemma {:induction false} NoColumns(q: seq<Cmd>)
    requires forall i | 0 <= i < |q| :: !q[i].kind.IsColumn()
    ensures ColumnCount(q) == 0
  {
    if q != [] { NoColumns(q[..|q| - 1]); }
  }

  /** A transaction of one column command keeps the stream legal and the tracking exact, with
      one column command and at most three commands. */
  lemma TransactionLegal(r: Rules, info: RowInfo, t: Txn, s: RB.Status)
    requires r.Valid() && Tracks(r, info, s) && t.count == 1
    ensures
      var (info1, cmds) := Commands(r, info, t, t.count);
      && Tracks(r, Note(r, info1, t), RB.After(s, cmds))
      && 1 <= |cmds| <= 3 && ColumnCount(cmds) == 1
      && forall i | 0 <= i < |cmds| :: cmds[i] == Command(t, cmds[i].kind, t.addr) && !cmds[i].kind.REF?
  {
    hide Round, Tracks, Note, ColumnCount, RB.After;
    RoundAfter(r, info, t, t.addr, s);
    RoundShape(r, info, t, t.addr);
    CommandsOne(r, info, t);
    assert Tracks(r, info, s) && r.policy.POPEN? && r.closeTime == 0 ==> !info.open by { TrackedClosed(r, info, s); }
  }

  function Kinds(q: seq<Cmd>): seq<Kind> { seq(|q|, i requires 0 <= i < |q| => q[i].kind) }

  /** What each row policy sends for a transaction when the stream has left the bank in state
      `s`: a row command exactly where the row is not already open, and a closing one exactly
      where the policy or the pseudo-open timer asks for it. */
  lemma PolicyExact(r: Rules, info: RowInfo, t: Txn, s: RB.Status)
    requires r.Valid() && Tracks(r, info, s) && t.count == 1
    ensures
      var column := if t.read then READ else WRITE;
      var hit := s.Open? && s.row == t.row;
      var expired := (if hit then info.timer else r.closeTime) == 0;
      Kinds(Commands(r, info, t, t.count).1) ==
        if r.policy.CLOSE? then (if r.useReadA then [ACT, if t.read then READA else WRITEA] else [ACT, column, PRE])
        else (if hit then [] else if s.Closed? then [ACT] else [PRE, ACT]) + [column]
             + (if r.policy.POPEN? && expired then [PRE] else [])
  {
    CommandsOne(r, info, t);
    hide Commands;
  }

  lemma TrackedClosed(r: Rules, info: RowInfo, s: RB.Status)
    requires Tracks(r, info, s)
    ensures r.policy.POPEN? && r.closeTime == 0 ==> !info.open
  {
  }

  lemma CommandsOne(r: Rules, info: RowInfo, t: Txn)
    ensures Commands(r, info, t, 1) == (Before(r, info, t, t.addr).0, Round(r, info, t, t.addr))
  {
    assert Commands(r, info, t, 0) == (info, []);
    var (info1, before) := Before(r, info, t, t.addr);
    assert [] + before + Behind(r, info1, t, t.addr) == before + Behind(r, info1, t, t.addr);
  }

  // ---- Several column commands per transaction

  /** When a transaction of two or more column commands still gives a legal stream: the loop
      does not look at what its earlier rounds opened. */
  predicate Repeatable(r: Rules, info: RowInfo, t: Txn) {
    match r.policy
    case CLOSE => true
    case OPEN => info.open
    case POPEN => if info.open then info.row != t.row || info.timer != 0 else r.closeTime == 0
  }

  /** Where the stream stands after one or more rounds, seen from the information `info` with
      which the transaction started. */
  predicate Between(r: Rules, info: RowInfo, t: Txn, s: RB.Status) {
    if r.policy.CLOSE? || (r.policy.POPEN? && !info.open && r.closeTime == 0) then s.Closed?
    else if r.policy.POPEN? && info.open && info.row == t.row && info.timer == 0 then s.Closed?
    else s.Open? && s.row == t.row
  }

  /** The information a later round works with. */
  predicate Carries(r: Rules, info: RowInfo, t: Txn, info1: RowInfo) {
    && info1.open == info.open && info1.row == info.row
    && (!r.policy.POPEN? || (info.open && info.row == t.row) ==> info1.timer == info.timer)
    && (r.policy.POPEN? && !(info.open && info.row == t.row) ==> info1.timer == r.closeTime)
  }

  lemma RoundMore(r: Rules, info: RowInfo, t: Txn, info1: RowInfo, addr: nat, s: RB.Status)
    requires r.Valid() && Carries(r, info, t, info1) && Between(r, info, t, s)
    requires r.policy.POPEN? && r.closeTime == 0 ==> !info.open
    ensures Carries(r, info, t, Before(r, info1, t, addr).0)
    ensures var s1 := RB.After(s, Round(r, info1, t, addr));
            if Repeatable(r, info, t) then Between(r, info, t, s1) else s1.Bad?
  {
    hide RB.After;
    var (info2, before) := Before(r, info1, t, addr);
    var behind := Behind(r, info2, t, addr);
    var pre, act, col := Command(t, PRE, addr), Command(t, ACT, addr), Command(t, ColumnKind(r, t.read), addr);
    RB.AfterConcat(s, before, behind);
    var m := RB.After(s, before);
    AfterTwo(s, pre, act);
    AfterTwo(s, act, act);
    AfterTwo(m, col, pre);
    RB.AfterNone(s);
  }

  lemma FirstRound(r: Rules, info: RowInfo, t: Txn, s: RB.Status)
    requires r.Valid() && Tracks(r, info, s)
    ensures Carries(r, info, t, Commands(r, info, t, 1).0)
    ensures Between(r, info, t, RB.After(s, Commands(r, info, t, 1).1))
  {
    hide RB.After;
    CommandsOne(r, info, t);
    RoundAfter(r, info, t, t.addr, s);
  }

  /** With two or more column commands the stream is legal exactly when the transaction is
      repeatable. */
  lemma {:induction false} ManyColumnsExact(r: Rules, info: RowInfo, t: Txn, s: RB.Status, n: nat)
    requires r.Valid() && Tracks(r, info, s) && n >= 2
    ensures !RB.After(s, Commands(r, info, t, n).1).Bad? <==> Repeatable(r, info, t)
    ensures Carries(r, info, t, Commands(r, info, t, n).0)
    ensures Repeatable(r, info, t) ==> Between(r, info, t, RB.After(s, Commands(r, info, t, n).1))
  {
    hide RB.After, Carries, Before, Behind;
    if n == 2 {
      FirstRound(r, info, t, s);
    } else {
      ManyColumnsExact(r, info, t, s, n - 1);
    }
    var (info1, cmds) := Commands(r, info, t, n - 1);
    var addr := t.addr + r.width * (n - 1);
    var round := Round(r, info1, t, addr);
    assert Commands(r, info, t, n).1 == cmds + round;
    RB.AfterConcat(s, cmds, round);
    if n > 2 && !Repeatable(r, info, t) {
      RB.BadStays(round);
      CarriesOn(r, info, t, info1, addr);
    } else {
      RoundMore(r, info, t, info1, addr, RB.After(s, cmds));
    }
  }

  lemma CarriesOn(r: Rules, info: RowInfo, t: Txn, info1: RowInfo, addr: nat)
    requires Carries(r, info, t, info1)
    ensures Carries(r, info, t, Before(r, info1, t, addr).0)
  {
  }

  /** The open policy with two column commands activates an already open bank. */
  lemma TwoColumnsFail()
    ensures
      var r, t := Rules(OPEN, false, false, 0, 64), Txn(true, 0, 2, 0, 0, 0, 5);
      RB.After(RB.Closed, Commands(r, RowInfo(false, 0, 0), t, t.count).1).Bad?
  {
    ManyColumnsExact(Rules(OPEN, false, false, 0, 64), RowInfo(false, 0, 0), Txn(true, 0, 2, 0, 0, 0, 5), RB.Closed, 2);
  }
}
