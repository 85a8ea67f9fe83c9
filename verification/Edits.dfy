/** What the driver changes in a bank's command stream: it inserts an ACT for the column command
    that comes next, and leaves out a PRE that finds its bank closed. Nothing else. */
module Edits {
  import opened Dram
  import opened BankMachine
  import D = Device
  import opened DriverMachine
  import Safety = DriverSafety
  import opened Order

  /** The ACT that opens a command's own row. */
  function ActFor(c: Cmd): Cmd { c.(kind := ACT) }

  /** `t` is the stream `s` up to `rest`, with ACTs inserted, each for the column command that
      comes next in the stream, and with the PREs of `left` left out, in order. */
  predicate Edited(s: seq<Cmd>, t: seq<Cmd>, left: seq<Cmd>, rest: seq<Cmd>)
    decreases |s| + |t|
  {
    || (t == [] && left == [] && s == rest)
    || (s != [] && t != [] && s[0] == t[0] && Edited(s[1..], t[1..], left, rest))
    || (s != [] && t != [] && s[0].kind.IsColumn() && t[0] == ActFor(s[0]) && Edited(s, t[1..], left, rest))
    || (s != [] && left != [] && s[0].kind.PRE? && left[0] == s[0] && Edited(s[1..], t, left[1..], rest))
  }

  lemma {:induction false} Concat(s: seq<Cmd>, t: seq<Cmd>, x: seq<Cmd>, mid: seq<Cmd>, t': seq<Cmd>, x': seq<Cmd>, rest: seq<Cmd>)
    requires Edited(s, t, x, mid) && Edited(mid, t', x', rest)
    ensures Edited(s, t + t', x + x', rest)
    decreases |s| + |t|
  {
    if t == [] && x == [] && s == mid {
      assert t + t' == t' && x + x' == x';
    } else if s != [] && t != [] && s[0] == t[0] && Edited(s[1..], t[1..], x, mid) {
      Concat(s[1..], t[1..], x, mid, t', x', rest);
      assert (t + t')[1..] == t[1..] + t';
    } else if s != [] && t != [] && s[0].kind.IsColumn() && t[0] == ActFor(s[0]) && Edited(s, t[1..], x, mid) {
      Concat(s, t[1..], x, mid, t', x', rest);
      assert (t + t')[1..] == t[1..] + t';
    } else {
      Concat(s[1..], t, x[1..], mid, t', x', rest);
      assert (x + x')[1..] == x[1..] + x';
    }
  }

  lemma {:induction false} Same(s: seq<Cmd>, rest: seq<Cmd>)
    ensures Edited(s + rest, s, [], rest)
  {
    if s == [] {
      assert s + rest == rest;
    } else {
      Same(s[1..], rest);
      assert (s + rest)[1..] == s[1..] + rest;
    }
  }

  /** A longer stream leaves more behind. */
  lemma {:induction false} Longer(s: seq<Cmd>, t: seq<Cmd>, x: seq<Cmd>, rest: seq<Cmd>, more: seq<Cmd>)
    requires Edited(s, t, x, rest)
    ensures Edited(s + more, t, x, rest + more)
    decreases |s| + |t|
  {
    if t == [] && x == [] && s == rest {
    } else {
      assert (s + more)[1..] == s[1..] + more && (s + more)[0] == s[0];
      if t != [] && s[0] == t[0] && Edited(s[1..], t[1..], x, rest) {
        Longer(s[1..], t[1..], x, rest, more);
      } else if t != [] && s[0].kind.IsColumn() && t[0] == ActFor(s[0]) && Edited(s, t[1..], x, rest) {
        Longer(s, t[1..], x, rest, more);
      } else {
        Longer(s[1..], t, x[1..], rest, more);
      }
    }
  }

  /** An ACT may be inserted right before a column command. */
  lemma {:induction false} Insert(s: seq<Cmd>, u: seq<Cmd>, c: Cmd, v: seq<Cmd>, rest: seq<Cmd>)
    requires c.kind.IsColumn() && Edited(s, u + ([c] + v), [], rest)
    ensures Edited(s, (u + [ActFor(c)]) + ([c] + v), [], rest)
    decreases |s| + |u|
  {
    var t, t' := u + ([c] + v), (u + [ActFor(c)]) + ([c] + v);
    if u == [] {
      assert t == [c] + v && t'[0] == ActFor(c) && t'[1..] == t;
    } else {
      assert t[1..] == u[1..] + ([c] + v) && t'[1..] == (u[1..] + [ActFor(c)]) + ([c] + v) && t'[0] == t[0];
      if s[0] == t[0] && Edited(s[1..], t[1..], [], rest) {
        Insert(s[1..], u[1..], c, v, rest);
      } else {
        Insert(s, u[1..], c, v, rest);
      }
    }
  }

  /** No column command is lost, duplicated or reordered. */
  lemma {:induction false} SameColumns(s: seq<Cmd>, t: seq<Cmd>, x: seq<Cmd>, rest: seq<Cmd>)
    requires Edited(s, t, x, rest)
    ensures Columns(s) == Columns(t) + Columns(rest)
    decreases |s| + |t|
  {
    hide Columns;
    ColumnsEmpty();
    if t == [] && x == [] && s == rest {
    } else {
      HeadColumns(s);
      if t != [] && s[0] == t[0] && Edited(s[1..], t[1..], x, rest) {
        HeadColumns(t);
        SameColumns(s[1..], t[1..], x, rest);
      } else if t != [] && s[0].kind.IsColumn() && t[0] == ActFor(s[0]) && Edited(s, t[1..], x, rest) {
        HeadColumns(t);
        SameColumns(s, t[1..], x, rest);
      } else {
        SameColumns(s[1..], t, x[1..], rest);
      }
    }
  }

  lemma HeadColumns(q: seq<Cmd>)
    requires q != []
    ensures Columns(q) == (if q[0].kind.IsColumn() then [q[0]] else []) + Columns(q[1..])
  {
    assert q == [q[0]] + q[1..];
    ColumnsConcat([q[0]], q[1..]);
    ColumnsOne(q[0]);
  }

  // ---- The account of a bank

  /** The commands of a bank that were discarded, in order. */
  function DiscardedOf(log: seq<Discard>, bank: nat): seq<Cmd> {
    if log == [] then []
    else DiscardedOf(log[..|log| - 1], bank) + if log[|log| - 1].cmd.bank == bank then [log[|log| - 1].cmd] else []
  }

  /** Every discarded command was a PRE whose bank was closed. */
  predicate ClosedDiscards(log: seq<Discard>) {
    forall i | 0 <= i < |log| :: log[i].cmd.kind.PRE? && log[i].state.Closed()
  }

  lemma DiscardedSnoc(log: seq<Discard>, x: Discard, bank: nat)
    ensures DiscardedOf(log + [x], bank) == DiscardedOf(log, bank) + if x.cmd.bank == bank then [x.cmd] else []
  {
    assert (log + [x])[..|log|] == log;
  }

  /** A bank's stream: the part sent with the discarded PREs left out, the rest still queued in
      the driver and in `q`; ACTs may be inserted in either. */
  ghost predicate Accounted(d: Driver, bank: nat, q: seq<Cmd>, stream: seq<Cmd>) {
    exists rest :: Split(d, bank, q, stream, rest)
  }

  ghost predicate Split(d: Driver, bank: nat, q: seq<Cmd>, stream: seq<Cmd>, rest: seq<Cmd>) {
    && Edited(stream, SentTo(d.dev.trace, bank), DiscardedOf(d.discarded, bank), rest)
    && Edited(rest, OfBank(d.inputQ, bank) + q, [], [])
  }

  /** Nothing that a bank's account mentions has changed. */
  lemma SameAccount(d: Driver, d': Driver, bank: nat, q: seq<Cmd>, q': seq<Cmd>, stream: seq<Cmd>)
    requires Accounted(d, bank, q, stream)
    requires SentTo(d'.dev.trace, bank) == SentTo(d.dev.trace, bank) && DiscardedOf(d'.discarded, bank) == DiscardedOf(d.discarded, bank)
    requires OfBank(d'.inputQ, bank) + q' == OfBank(d.inputQ, bank) + q
    ensures Accounted(d', bank, q', stream)
  {
    var rest :| Split(d, bank, q, stream, rest);
    assert Split(d', bank, q', stream, rest);
  }

  lemma MoreStream(d: Driver, bank: nat, q: seq<Cmd>, stream: seq<Cmd>, cmds: seq<Cmd>)
    requires Accounted(d, bank, q, stream)
    ensures Accounted(d, bank, q + cmds, stream + cmds)
  {
    hide Edited, OfBank, SentTo, DiscardedOf;
    var rest :| Split(d, bank, q, stream, rest);
    var queued := OfBank(d.inputQ, bank) + q;
    Longer(stream, SentTo(d.dev.trace, bank), DiscardedOf(d.discarded, bank), rest, cmds);
    Longer(rest, queued, [], [], cmds);
    Same(cmds, []);
    var none: seq<Cmd> := [];
    assert cmds + none == cmds && none + cmds == cmds && none + none == none;
    Concat(rest + cmds, queued, [], cmds, cmds, [], []);
    assert OfBank(d.inputQ, bank) + (q + cmds) == queued + cmds;
    assert Split(d, bank, q + cmds, stream + cmds, rest + cmds);
  }

  /** The first queued command of the bank was sent. */
  lemma SentAccount(d: Driver, d': Driver, bank: nat, q: seq<Cmd>, stream: seq<Cmd>, c: Cmd)
    requires Accounted(d, bank, q, stream)
    requires OfBank(d.inputQ, bank) == [c] + OfBank(d'.inputQ, bank)
    requires SentTo(d'.dev.trace, bank) == SentTo(d.dev.trace, bank) + [c] && d'.discarded == d.discarded
    ensures Accounted(d', bank, q, stream)
  {
    hide OfBank, SentTo, DiscardedOf;
    var rest :| Split(d, bank, q, stream, rest);
    var sent, left, queued := SentTo(d.dev.trace, bank), DiscardedOf(d.discarded, bank), OfBank(d'.inputQ, bank) + q;
    assert OfBank(d.inputQ, bank) + q == [c] + queued && ([c] + queued)[1..] == queued;
    assert left + [] == left;
    if rest[0] == c && Edited(rest[1..], queued, [], []) {
      assert Edited(rest, [c], [], rest[1..]);
      Concat(stream, sent, left, rest, [c], [], rest[1..]);
      assert Split(d', bank, q, stream, rest[1..]);
    } else {
      assert Edited(rest, [c], [], rest);
      Concat(stream, sent, left, rest, [c], [], rest);
      assert Split(d', bank, q, stream, rest);
    }
  }

  /** The first queued command of the bank was a PRE and was discarded. */
  lemma DiscardAccount(d: Driver, d': Driver, bank: nat, q: seq<Cmd>, stream: seq<Cmd>, c: Cmd)
    requires Accounted(d, bank, q, stream) && c.kind.PRE?
    requires OfBank(d.inputQ, bank) == [c] + OfBank(d'.inputQ, bank)
    requires SentTo(d'.dev.trace, bank) == SentTo(d.dev.trace, bank)
    requires DiscardedOf(d'.discarded, bank) == DiscardedOf(d.discarded, bank) + [c]
    ensures Accounted(d', bank, q, stream)
  {
    hide OfBank, SentTo, DiscardedOf;
    var rest :| Split(d, bank, q, stream, rest);
    var sent, left, queued := SentTo(d.dev.trace, bank), DiscardedOf(d.discarded, bank), OfBank(d'.inputQ, bank) + q;
    assert OfBank(d.inputQ, bank) + q == [c] + queued && ([c] + queued)[1..] == queued;
    assert rest[0] == c && Edited(rest[1..], queued, [], []);
    assert [c][1..] == [] && Edited(rest, [], [c], rest[1..]);
    Concat(stream, sent, left, rest, [], [c], rest[1..]);
    assert sent + [] == sent;
    assert Split(d', bank, q, stream, rest[1..]);
  }

  /** An ACT was queued right before a column command of the bank. */
  lemma InsertAccount(d: Driver, d': Driver, bank: nat, q: seq<Cmd>, stream: seq<Cmd>, u: seq<Cmd>, c: Cmd, v: seq<Cmd>)
    requires Accounted(d, bank, q, stream) && c.kind.IsColumn()
    requires d'.dev == d.dev && d'.discarded == d.discarded
    requires OfBank(d.inputQ, bank) + q == u + ([c] + v) && OfBank(d'.inputQ, bank) + q == (u + [ActFor(c)]) + ([c] + v)
    ensures Accounted(d', bank, q, stream)
  {
    hide Edited;
    var rest :| Split(d, bank, q, stream, rest);
    Insert(rest, u, c, v, []);
    assert Split(d', bank, q, stream, rest);
  }

  lemma AccountedColumns(d: Driver, bank: nat, q: seq<Cmd>, stream: seq<Cmd>)
    requires Accounted(d, bank, q, stream)
    ensures Columns(stream) == Columns(SentTo(d.dev.trace, bank)) + Columns(OfBank(d.inputQ, bank)) + Columns(q)
  {
    hide Edited, Columns, OfBank, SentTo;
    var rest :| Split(d, bank, q, stream, rest);
    SameColumns(stream, SentTo(d.dev.trace, bank), DiscardedOf(d.discarded, bank), rest);
    SameColumns(rest, OfBank(d.inputQ, bank) + q, [], []);
    ColumnsConcat(OfBank(d.inputQ, bank), q);
    ColumnsEmpty();
  }

  // ---- The scan of sendRequest

  /** What a visit that sends nothing changes. */
  lemma VisitEffect(cfg: Config, d: Driver, i: nat, counts: seq<nat>)
    requires cfg.Valid() && Shaped(cfg, d) && i < |d.inputQ| && |counts| == cfg.g.NumRanks() && !Decide(cfg, d, i, counts).Go?
    ensures var d', c := SendStep(cfg, d, i, counts).d, d.inputQ[i];
      && d'.dev == d.dev && c.bank < |d.dev.banks|
      && (if Decide(cfg, d, i, counts).Drop? then
            && c.kind.PRE? && d.dev.banks[c.bank].state.Closed()
            && d'.inputQ == Remove(d.inputQ, i) && d'.discarded == d.discarded + [Discard(c, d.dev.banks[c.bank].state)]
          else
            d'.inputQ == d.inputQ && d'.discarded == d.discarded)
  {
    hide BusFree, RefreshShaped, D.CanSend, Remove;
    assert Queued(cfg, d.inputQ[i]);
  }

  lemma StepAccount(cfg: Config, d: Driver, i: nat, counts: seq<nat>, bank: nat, q: seq<Cmd>, stream: seq<Cmd>)
    requires cfg.Valid() && Shaped(cfg, d) && i < |d.inputQ| && |counts| == cfg.g.NumRanks() && Scanned(cfg, d, i)
    requires Accounted(d, bank, q, stream) && ClosedDiscards(d.discarded)
    ensures var d' := SendStep(cfg, d, i, counts).d; Accounted(d', bank, q, stream) && ClosedDiscards(d'.discarded)
  {
    hide Shaped, Decide, SendStep, OfBank, SentTo, Accounted, DiscardedOf, Mark, Remove;
    var d', c := SendStep(cfg, d, i, counts).d, d.inputQ[i];
    if Decide(cfg, d, i, counts).Go? {
      FirstOfBank(cfg, d, i, counts);
      MarkShaped(cfg, d, i);
      GoAccount(cfg, d, i, counts, bank, q, stream);
    } else {
      VisitEffect(cfg, d, i, counts);
      if Decide(cfg, d, i, counts).Drop? {
        FirstOfBank(cfg, d, i, counts);
        RemoveHead(d.inputQ, i, bank);
        DiscardedSnoc(d.discarded, d'.discarded[|d.discarded|], bank);
        if c.bank == bank {
          DiscardAccount(d, d', bank, q, stream, c);
        } else {
          SameAccount(d, d', bank, q, q, stream);
        }
      } else {
        SameAccount(d, d', bank, q, q, stream);
      }
    }
  }

  lemma GoAccount(cfg: Config, d: Driver, i: nat, counts: seq<nat>, bank: nat, q: seq<Cmd>, stream: seq<Cmd>)
    requires cfg.Valid() && Shaped(cfg, d) && i < |d.inputQ| && |counts| == cfg.g.NumRanks()
    requires Accounted(d, bank, q, stream) && Decide(cfg, d, i, counts).Go? && Shaped(cfg, Mark(cfg, d, i))
    requires forall j | 0 <= j < i :: d.inputQ[j].bank != d.inputQ[i].bank
    ensures var d' := SendStep(cfg, d, i, counts).d; Accounted(d', bank, q, stream) && d'.discarded == d.discarded
  {
    hide Shaped, Queued, RefreshShaped, AllBusy, OfBank, SentTo, BusFree, Accounted, DiscardedOf, D.CanSend, D.Send;
    ShapedQueue(cfg, d, i);
    var d1, d', c := Mark(cfg, d, i), SendStep(cfg, d, i, counts).d, d.inputQ[i];
    SentPipeline(cfg, d1, i, bank);
    RemoveHead(d.inputQ, i, bank);
    if c.bank == bank {
      SentAccount(d, d', bank, q, stream, c);
    } else {
      SameAccount(d, d', bank, q, q, stream);
    }
  }

  lemma {:induction false} SendFromAccount(cfg: Config, d: Driver, i: nat, counts: seq<nat>, bank: nat, q: seq<Cmd>, stream: seq<Cmd>)
    requires cfg.Valid() && Shaped(cfg, d) && i <= |d.inputQ| && |counts| == cfg.g.NumRanks() && Scanned(cfg, d, i)
    requires Accounted(d, bank, q, stream) && ClosedDiscards(d.discarded)
    ensures var d' := SendFrom(cfg, d, i, counts); Accounted(d', bank, q, stream) && ClosedDiscards(d'.discarded)
    decreases |d.inputQ| - i
  {
    hide Shaped, SendStep, Accounted, Scanned, ClosedDiscards;
    if i < |d.inputQ| {
      SendStepShaped(cfg, d, i, counts);
      ScanStep(cfg, d, i, counts);
      StepAccount(cfg, d, i, counts, bank, q, stream);
      var s := SendStep(cfg, d, i, counts);
      if !s.stop { SendFromAccount(cfg, s.d, s.i, counts, bank, q, stream); }
    }
  }

  // ---- The refresh engine

  lemma {:induction false} FirstIsHead(q: seq<Cmd>, bank: nat)
    ensures var first := FirstOf(q, bank);
      if first.Some? then OfBank(q, bank) != [] && OfBank(q, bank)[0] == first.value else OfBank(q, bank) == []
  {
    hide OfBank;
    if q == [] {
      OfBankNone(q, bank);
    } else {
      assert q == [q[0]] + q[1..];
      OfBankConcat([q[0]], q[1..], bank);
      OfBankOne(q[0], bank);
      FirstIsHead(q[1..], bank);
    }
  }

  /** A listed bank whose first queued command is a column command gets the ACT for it in front;
      the others keep their queue. */
  lemma {:induction false} ReopenOf(q: seq<Cmd>, banks: seq<nat>, bank: nat)
    ensures var mine := OfBank(q, bank);
      OfBank(ReopenActs(q, banks), bank)
      == if bank in banks && mine != [] && mine[0].kind.IsColumn() then [ActFor(mine[0])] + mine else mine
    decreases |banks|
  {
    hide OfBank, FirstOf;
    if banks != [] {
      assert bank in banks <==> bank == banks[0] || bank in banks[1..];
      var first := FirstOf(q, banks[0]);
      FirstIsHead(q, banks[0]);
      if first.Some? && first.value.kind.IsColumn() {
        var act := ActFor(first.value);
        FirstOfBankIs(q, banks[0]);
        OfBankConcat([act], q, bank);
        OfBankOne(act, bank);
        ReopenOf([act] + q, banks[1..], bank);
      } else {
        ReopenOf(q, banks[1..], bank);
      }
    }
  }

  lemma ReopenAccount(d: Driver, banks: seq<nat>, bank: nat, q: seq<Cmd>, stream: seq<Cmd>)
    requires Accounted(d, bank, q, stream)
    ensures Accounted(d.(inputQ := ReopenActs(d.inputQ, banks)), bank, q, stream)
  {
    hide Accounted, OfBank, ReopenActs;
    var mine, d' := OfBank(d.inputQ, bank), d.(inputQ := ReopenActs(d.inputQ, banks));
    ReopenOf(d.inputQ, banks, bank);
    if OfBank(d'.inputQ, bank) == mine {
      SameAccount(d, d', bank, q, q, stream);
    } else {
      var c, v := mine[0], mine[1..] + q;
      assert mine == [c] + mine[1..];
      Front(c, mine[1..], q);
      InsertAccount(d, d', bank, q, stream, [], c, v);
    }
  }

  lemma Front(c: Cmd, v: seq<Cmd>, q: seq<Cmd>)
    ensures ([c] + v) + q == [] + ([c] + (v + q))
    ensures ([ActFor(c)] + ([c] + v)) + q == ([] + [ActFor(c)]) + ([c] + (v + q))
  {
  }

  lemma FirstOfBankIs(q: seq<Cmd>, bank: nat)
    requires FirstOf(q, bank).Some?
    ensures FirstOf(q, bank).value.bank == bank
  {
    FirstOfIn(q, bank);
  }

  lemma RefreshRankAccount(cfg: Config, d: Driver, rank: nat, bank: nat, q: seq<Cmd>, stream: seq<Cmd>)
    requires cfg.Valid() && Shaped(cfg, d) && rank < cfg.g.NumRanks() && Accounted(d, bank, q, stream)
    ensures var d' := RefreshRank(cfg, d, rank); Accounted(d', bank, q, stream) && d'.discarded == d.discarded
  {
    hide RefreshTargets, RefreshShaped, Queued, BanksPerRank, OfBank, SentTo, ReopenActs, OpenOnes, NextBank, Accounted, DiscardedOf, SendAll;
    CreateShaped(cfg, d, rank);
    var d1 := if d.refi[rank] > 0 then d.(refi := d.refi[rank := d.refi[rank] - 1])
              else CreateRefresh(cfg, d, rank).(refi := d.refi[rank := cfg.p.nREFI]);
    var targets := RefreshTargets(cfg, d, rank);
    ReopenAccount(d, targets, bank, q, stream);
    SameAccount(if d.refi[rank] > 0 then d else d.(inputQ := ReopenActs(d.inputQ, targets)), d1, bank, q, q, stream);
    if d1.refreshQ[rank] != [] {
      var r := d1.refreshQ[rank][0];
      SendAllSent(cfg, d1.dev, r, rank, r.banks, bank);
      SameAccount(d1, SendRefresh(cfg, d1, rank), bank, q, q, stream);
    }
  }

  lemma {:induction false} RefreshFromAccount(cfg: Config, d: Driver, rank: nat, bank: nat, q: seq<Cmd>, stream: seq<Cmd>)
    requires cfg.Valid() && Shaped(cfg, d) && rank <= cfg.g.NumRanks() && Accounted(d, bank, q, stream)
    ensures var d' := RefreshFrom(cfg, d, rank); Accounted(d', bank, q, stream) && d'.discarded == d.discarded
    decreases cfg.g.NumRanks() - rank
  {
    hide Shaped, RefreshRank, Accounted;
    if rank < cfg.g.NumRanks() {
      RefreshRankShaped(cfg, d, rank);
      RefreshRankAccount(cfg, d, rank, bank, q, stream);
      RefreshFromAccount(cfg, RefreshRank(cfg, d, rank), rank + 1, bank, q, stream);
    }
  }

  /** `run` keeps the account of every bank, with refresh on or off. */
  lemma RunAccount(cfg: Config, d: Driver, bank: nat, q: seq<Cmd>, stream: seq<Cmd>)
    requires cfg.Valid() && Shaped(cfg, d) && Accounted(d, bank, q, stream) && ClosedDiscards(d.discarded)
    ensures var d' := Run(cfg, d); Accounted(d', bank, q, stream) && ClosedDiscards(d'.discarded)
  {
    Safety.ReleasedShaped(cfg, d);
    RefreshFromShaped(cfg, Released(d), 0);
    SameAccount(d, Released(d), bank, q, q, stream);
    RefreshFromAccount(cfg, Released(d), 0, bank, q, stream);
    hide Shaped, RefreshFrom, Accounted, ClosedDiscards, OfBank, SentTo;
    var d1 := RunRefresh(cfg, d);
    SendFromAccount(cfg, d1, 0, ActCounts(d1), bank, q, stream);
  }

  // ---- Requests from the command scheduler

  /** A request for permission changes nothing, or queues the ACT for the command that asked. */
  lemma AllowedAccount(cfg: Config, d: Driver, c: Cmd, bank: nat, q: seq<Cmd>, tail: seq<Cmd>, stream: seq<Cmd>)
    requires cfg.Valid() && Shaped(cfg, d) && Queued(cfg, c) && Accounted(d, bank, q, stream) && (c.bank == bank ==> q == [c] + tail)
    ensures var d' := IsCmdAllowed(cfg, d, c).0;
      && Accounted(d', bank, q, stream) && d'.discarded == d.discarded
      && (d' == d || (c.kind.IsColumn() && d' == d.(inputQ := d.inputQ + [ActFor(c)])))
  {
    hide OfBank, SentTo, HasAct, BusFree, Allowed, Accounted, DiscardedOf;
    var d', act := IsCmdAllowed(cfg, d, c).0, ActFor(c);
    if d' != d {
      OfBankConcat(d.inputQ, [act], bank);
      OfBankOne(act, bank);
      var mine := OfBank(d.inputQ, bank);
      if c.bank == bank {
        assert mine + q == mine + ([c] + tail) && OfBank(d'.inputQ, bank) + q == (mine + [act]) + ([c] + tail);
        InsertAccount(d, d', bank, q, stream, mine, c, tail);
      } else {
        SameAccount(d, d', bank, q, q, stream);
      }
    }
  }
}
