/** With refresh on or off, a column command always finds its own row open: the driver keeps what
    is queued for every bank in step with the bank's row. */
module RefreshRows {
  import opened Dram
  import opened BankMachine
  import D = Device
  import opened DriverMachine
  import Safety = DriverSafety
  import opened Order
  import RB = RowBuffer
  import opened Rows
  import opened Edits
  import opened Reopen
  import Refresh

  /** The row that the accepted commands leave open in a bank; a refresh command closes it. */
  function RowOf(trace: seq<D.Issue>, bank: nat): RB.Status {
    if trace == [] then RB.Closed
    else
      var e, before := trace[|trace| - 1], RowOf(trace[..|trace| - 1], bank);
      if e.bank != bank then before else if e.refresh then RB.Closed else RB.Next(before, e.cmd)
  }

  lemma RowOfSnoc(trace: seq<D.Issue>, e: D.Issue, bank: nat)
    ensures RowOf(trace + [e], bank)
      == if e.bank != bank then RowOf(trace, bank) else if e.refresh then RB.Closed else RB.Next(RowOf(trace, bank), e.cmd)
  {
    assert (trace + [e])[..|trace|] == trace;
  }

  /** A bank is where its accepted commands have led it, and what is queued for it fits. */
  ghost predicate BankRows(d: Driver, bank: nat, q: seq<Cmd>, s: RB.Status)
    requires bank < |d.dev.banks|
  {
    RB.Matches(d.dev.banks[bank], RowOf(d.dev.trace, bank)) && Fits(RowOf(d.dev.trace, bank), OfBank(d.inputQ, bank), q, s)
  }

  ghost predicate AllRows(d: Driver, qs: seq<seq<Cmd>>, ss: seq<RB.Status>) {
    && |qs| == |ss| == |d.dev.banks|
    && RowsOpen(d.dev.trace)
    && forall b | 0 <= b < |qs| :: BankRows(d, b, qs[b], ss[b])
  }

  /** An idle bank with an ACT in hand is blocked in this pass. */
  ghost predicate Ready(d: Driver) {
    && |d.blocked| == |d.dev.banks|
    && forall b | 0 <= b < |d.blocked| :: d.blocked[b] || !(d.dev.banks[b].state.Idle? && d.dev.banks[b].Holds(ACT))
  }

  /** No column command is first in the driver's queue for the bank. */
  predicate FrontClear(q: seq<Cmd>, bank: nat) { OfBank(q, bank) != [] ==> !OfBank(q, bank)[0].kind.IsColumn() }

  /** The banks that a refresh is about to close have no column command in front. */
  ghost predicate Clear(d: Driver) {
    forall r, i, k | 0 <= r < |d.refreshQ| && 0 <= i < |d.refreshQ[r]| && d.refreshQ[r][i].kind.PRE? && 0 <= k < |d.refreshQ[r][i].banks| ::
      FrontClear(d.inputQ, d.refreshQ[r][i].banks[k])
  }

  /** Only the queue of one bank has changed, and its rank has no refresh pending. */
  lemma ClearSame(cfg: Config, d: Driver, d': Driver, bank: nat)
    requires cfg.Valid() && Shaped(cfg, d) && Clear(d) && d'.refreshQ == d.refreshQ
    requires cfg.g.RankOf(bank) < |d.refreshQ| ==> d.refreshQ[cfg.g.RankOf(bank)] == []
    requires forall b: nat | b != bank :: OfBank(d'.inputQ, b) == OfBank(d.inputQ, b)
    ensures Clear(d')
  {
    hide Queued, OfBank, Geometry.RankOf;
    forall r, i, k | 0 <= r < |d.refreshQ| && 0 <= i < |d.refreshQ[r]| && d.refreshQ[r][i].kind.PRE? && 0 <= k < |d.refreshQ[r][i].banks|
      ensures FrontClear(d'.inputQ, d'.refreshQ[r][i].banks[k])
    {
      assert RefreshShaped(cfg, r, d.refreshQ[r][i]);
      assert FrontClear(d.inputQ, d.refreshQ[r][i].banks[k]);
    }
  }

  // ---- One bank

  /** A command that the bank takes is legal for the row it has. */
  lemma TakenLegal(bk: Bank, st: RB.Status, c: Cmd, now: nat)
    requires RB.Matches(bk, st) && Allowed(bk, c.kind, now) && !(c.kind.PRE? && bk.state.Closed()) && !Leads(st, c).Bad?
    ensures RB.Next(st, c) == Leads(st, c)
  {
  }

  lemma RefreshMatches(bk: Bank, st: RB.Status, c: Cmd, now: nat)
    requires RB.Matches(bk, st) && Allowed(bk, c.kind, now) && (c.kind.PRE? || c.kind.REF?)
    ensures RB.Matches(Handle(bk, c, now), RB.Closed)
    ensures c.kind.REF? ==> st.Closed?
    ensures !st.Bad?
  {
  }

  /** A closed bank without an ACT in hand has no row open. */
  lemma ClosedRow(bk: Bank, st: RB.Status)
    requires RB.Matches(bk, st) && bk.state.Closed() && !(bk.state.Idle? && bk.Holds(ACT))
    ensures st.Closed?
  {
  }

  lemma NoColumnWhenClosed(bk: Bank, k: Kind, now: nat)
    requires RB.Matches(bk, RB.Closed) && Allowed(bk, k, now)
    ensures !k.IsColumn()
  {
  }

  // ---- The scan of sendRequest

  lemma SentRows(cfg: Config, d: Driver, i: nat, b: nat, q: seq<Cmd>, s: RB.Status)
    requires cfg.Valid() && Shaped(cfg, d) && i < |d.inputQ| && Sanes(d)
    requires var c := d.inputQ[i];
      D.CanSend(d.dev, c.bank, c.kind) && !(c.kind.PRE? && d.dev.banks[c.bank].state.Closed())
    requires forall j | 0 <= j < i :: d.inputQ[j].bank != d.inputQ[i].bank
    requires b < |d.dev.banks| && BankRows(d, b, q, s)
    ensures b < |Sent(cfg, d, i).dev.banks| && BankRows(Sent(cfg, d, i), b, q, s)
    ensures var c := d.inputQ[i]; c.bank == b && c.kind.IsColumn() ==> d.dev.banks[b].rowOpen && d.dev.banks[b].openRow == c.row
  {
    hide Shaped, Handle, Raise, RB.Next, RB.Matches, D.Sane, OfBank, Queued, Remove, Geometry.Relation, RowOf, Fits, Leads;
    assert D.Sane(d.dev.banks[b]);
    SentBank(cfg, d, i, b);
    SentTrace(cfg, d, i, b);
    RemoveHead(d.inputQ, i, b);
    var c, st := d.inputQ[i], RowOf(d.dev.trace, b);
    if c.bank == b {
      FitsNext(st, c, OfBank(Remove(d.inputQ, i), b), q, s);
      TakenLegal(d.dev.banks[b], st, c, d.dev.cycle);
      RB.HandleMatches(d.dev.banks[b], st, c, d.dev.cycle);
    } else {
      assert [] + OfBank(Remove(d.inputQ, i), b) == OfBank(Remove(d.inputQ, i), b);
      RB.RaiseMatches(cfg.p, d.dev.banks[b], cfg.g.Relation(c.bank, b), c.kind, d.dev.cycle, st);
    }
  }

  lemma SentTrace(cfg: Config, d: Driver, i: nat, b: nat)
    requires cfg.Valid() && Shaped(cfg, d) && i < |d.inputQ| && D.CanSend(d.dev, d.inputQ[i].bank, d.inputQ[i].kind)
    ensures var d', c := Sent(cfg, d, i), d.inputQ[i];
      && d'.inputQ == Remove(d.inputQ, i)
      && RowOf(d'.dev.trace, b) == if c.bank == b then RB.Next(RowOf(d.dev.trace, b), c) else RowOf(d.dev.trace, b)
  {
    hide Shaped, Queued, RefreshShaped, Handle, Raise, RowOf;
    ShapedQueue(cfg, d, i);
    var d' := Sent(cfg, d, i);
    var e := d'.dev.trace[|d.dev.trace|];
    assert d'.dev.trace == d.dev.trace + [e];
    RowOfSnoc(d.dev.trace, e, b);
  }

  lemma SentAllRows(cfg: Config, d: Driver, i: nat, qs: seq<seq<Cmd>>, ss: seq<RB.Status>)
    requires cfg.Valid() && Shaped(cfg, d) && i < |d.inputQ| && Sanes(d)
    requires var c := d.inputQ[i];
      D.CanSend(d.dev, c.bank, c.kind) && !(c.kind.PRE? && d.dev.banks[c.bank].state.Closed())
    requires forall j | 0 <= j < i :: d.inputQ[j].bank != d.inputQ[i].bank
    requires AllRows(d, qs, ss)
    ensures AllRows(Sent(cfg, d, i), qs, ss)
  {
    hide Shaped, Handle, Raise, Allowed, D.Sane, BankRows;
    var c, d' := d.inputQ[i], Sent(cfg, d, i);
    forall b | 0 <= b < |qs|
      ensures BankRows(d', b, qs[b], ss[b])
      ensures c.bank == b && c.kind.IsColumn() ==> d.dev.banks[b].rowOpen && d.dev.banks[b].openRow == c.row
    {
      SentRows(cfg, d, i, b, qs[b], ss[b]);
    }
    assert forall j | 0 <= j < |d.dev.trace| :: d'.dev.trace[j] == d.dev.trace[j];
  }

  lemma SentReady(cfg: Config, d: Driver, i: nat)
    requires cfg.Valid() && Shaped(cfg, d) && i < |d.inputQ| && D.CanSend(d.dev, d.inputQ[i].bank, d.inputQ[i].kind)
    requires Ready(d) && d.inputQ[i].bank < |d.blocked| && d.blocked[d.inputQ[i].bank]
    ensures Ready(Sent(cfg, d, i))
  {
    hide Queued, RefreshShaped, Handle;
    ShapedQueue(cfg, d, i);
    var d' := Sent(cfg, d, i);
    forall b | 0 <= b < |d.blocked|
      ensures d'.blocked[b] || !(d'.dev.banks[b].state.Idle? && d'.dev.banks[b].Holds(ACT))
    {
      assert d.blocked[b] || !(d.dev.banks[b].state.Idle? && d.dev.banks[b].Holds(ACT));
    }
  }

  /** The first queued command of a bank was a PRE for a closed bank. */
  lemma DiscardRows(d: Driver, d': Driver, i: nat, b: nat, q: seq<Cmd>, s: RB.Status)
    requires i < |d.inputQ| && b < |d.dev.banks| && BankRows(d, b, q, s) && d'.dev == d.dev && d'.inputQ == Remove(d.inputQ, i)
    requires forall j | 0 <= j < i :: d.inputQ[j].bank != d.inputQ[i].bank
    requires var c := d.inputQ[i];
      c.bank == b ==> c.kind.PRE? && d.dev.banks[b].state.Closed() && !(d.dev.banks[b].state.Idle? && d.dev.banks[b].Holds(ACT))
    ensures BankRows(d', b, q, s)
  {
    hide RB.Matches, OfBank, RowOf, Fits, Remove;
    RemoveHead(d.inputQ, i, b);
    var c, rest := d.inputQ[i], OfBank(Remove(d.inputQ, i), b);
    if c.bank == b {
      ClosedRow(d.dev.banks[b], RowOf(d.dev.trace, b));
      FitsNext(RowOf(d.dev.trace, b), c, rest, q, s);
    } else {
      assert [] + rest == rest;
    }
  }

  lemma StepRows(cfg: Config, d: Driver, i: nat, counts: seq<nat>, qs: seq<seq<Cmd>>, ss: seq<RB.Status>)
    requires cfg.Valid() && Shaped(cfg, d) && i < |d.inputQ| && |counts| == cfg.g.NumRanks() && Scanned(cfg, d, i)
    requires Sanes(d) && Ready(d) && AllRows(d, qs, ss)
    ensures var d' := SendStep(cfg, d, i, counts).d; Ready(d') && AllRows(d', qs, ss)
  {
    MarkShaped(cfg, d, i);
    ShapedQueue(cfg, d, i);
    MarkRows(cfg, d, i, qs, ss);
    StepForm(cfg, d, i, counts);
    hide Shaped, Decide, SendStep, BankRows, RowsOpen, D.Sane, Remove, Mark;
    var d1, d', c := Mark(cfg, d, i), SendStep(cfg, d, i, counts).d, d.inputQ[i];
    if Decide(cfg, d, i, counts).Go? {
      FirstOfBank(cfg, d, i, counts);
      SentAllRows(cfg, d1, i, qs, ss);
      SentReady(cfg, d1, i);
    } else {
      VisitEffect(cfg, d, i, counts);
      if Decide(cfg, d, i, counts).Drop? {
        FirstOfBank(cfg, d, i, counts);
        forall b | 0 <= b < |qs|
          ensures BankRows(d', b, qs[b], ss[b])
        {
          DiscardRows(d, d', i, b, qs[b], ss[b]);
        }
      }
    }
  }

  /** The form of a visit, and what a visit that acts has found. */
  lemma StepForm(cfg: Config, d: Driver, i: nat, counts: seq<nat>)
    requires cfg.Valid() && Shaped(cfg, d) && i < |d.inputQ| && Shaped(cfg, Mark(cfg, d, i)) && |counts| == cfg.g.NumRanks()
    ensures var k, c, d1, d' := Decide(cfg, d, i, counts), d.inputQ[i], Mark(cfg, d, i), SendStep(cfg, d, i, counts).d;
      && d1.dev == d.dev && d1.inputQ == d.inputQ && c.bank < |d.dev.banks|
      && (k.Go? ==> && D.CanSend(d1.dev, c.bank, c.kind) && !(c.kind.PRE? && d.dev.banks[c.bank].state.Closed())
                    && d' == Sent(cfg, d1, i) && c.bank < |d1.blocked| && d1.blocked[c.bank])
      && (k.Drop? ==> c.bank < |d.blocked| && !d.blocked[c.bank] && d'.blocked == d1.blocked)
      && (k.Skip? || k.Halt? ==> d' == d1)
  {
    hide BusFree, RefreshShaped, D.Send, Occupy;
    assert Queued(cfg, d.inputQ[i]);
  }

  lemma MarkRows(cfg: Config, d: Driver, i: nat, qs: seq<seq<Cmd>>, ss: seq<RB.Status>)
    requires cfg.Valid() && Shaped(cfg, d) && i < |d.inputQ| && Ready(d) && AllRows(d, qs, ss) && Sanes(d)
    ensures var d1 := Mark(cfg, d, i); Ready(d1) && AllRows(d1, qs, ss) && Sanes(d1)
  {
    hide Queued, RefreshShaped, RB.Matches, Fits, OfBank, RowOf, D.Sane;
    ShapedQueue(cfg, d, i);
    var d1 := Mark(cfg, d, i);
    forall b | 0 <= b < |qs|
      ensures BankRows(d1, b, qs[b], ss[b])
    {
      assert BankRows(d, b, qs[b], ss[b]);
    }
  }

  /** A visit touches the queue of a bank only when no refresh of its rank is pending. */
  lemma StepClear(cfg: Config, d: Driver, i: nat, counts: seq<nat>)
    requires cfg.Valid() && cfg.useRefresh && Shaped(cfg, d) && i < |d.inputQ| && |counts| == cfg.g.NumRanks() && Scanned(cfg, d, i) && Clear(d)
    ensures Clear(SendStep(cfg, d, i, counts).d)
  {
    MarkShaped(cfg, d, i);
    StepForm(cfg, d, i, counts);
    SendStepShaped(cfg, d, i, counts);
    var d', c := SendStep(cfg, d, i, counts).d, d.inputQ[i];
    var k := Decide(cfg, d, i, counts);
    if k.Go? || k.Drop? {
      FirstOfBank(cfg, d, i, counts);
      assert Queued(cfg, c) && !RefreshPending(cfg, d, c.rank);
      if k.Go? { SentTrace(cfg, Mark(cfg, d, i), i, c.bank); } else { VisitEffect(cfg, d, i, counts); }
      hide Shaped, Decide, SendStep, OfBank, Clear, Remove;
      forall b: nat | b != c.bank
        ensures OfBank(d'.inputQ, b) == OfBank(d.inputQ, b)
      {
        RemoveHead(d.inputQ, i, b);
        assert [] + OfBank(Remove(d.inputQ, i), b) == OfBank(Remove(d.inputQ, i), b);
      }
      ClearSame(cfg, d, d', c.bank);
    } else {
      VisitEffect(cfg, d, i, counts);
    }
  }

  lemma {:induction false} SendFromRows(cfg: Config, d: Driver, i: nat, counts: seq<nat>, qs: seq<seq<Cmd>>, ss: seq<RB.Status>)
    requires cfg.Valid() && cfg.useRefresh && Safety.Inv(cfg, d) && Safety.BusHeld(cfg, d)
    requires i <= |d.inputQ| && counts == ActCounts(d) && Scanned(cfg, d, i)
    requires Ready(d) && AllRows(d, qs, ss) && Clear(d)
    ensures var d' := SendFrom(cfg, d, i, counts); AllRows(d', qs, ss) && Clear(d')
    decreases |d.inputQ| - i
  {
    hide SendStep, Safety.Tracks, Safety.FourActivate, Safety.BusHeld, Scanned, Ready, AllRows, Clear,
         Queued, RefreshShaped, D.Seen, D.TimingSafe, ActCounts;
    if i < |d.inputQ| {
      assert Sanes(d);
      SendStepShaped(cfg, d, i, counts);
      ScanStep(cfg, d, i, counts);
      StepRows(cfg, d, i, counts, qs, ss);
      StepClear(cfg, d, i, counts);
      Safety.SendStepInv(cfg, d, i, counts);
      var s := SendStep(cfg, d, i, counts);
      if !s.stop { SendFromRows(cfg, s.d, s.i, counts, qs, ss); }
    }
  }

  // ---- The refresh engine

  /** A queued refresh command closes the rows of its banks and touches no other. */
  lemma {:induction false} RowOfBatch(trace: seq<D.Issue>, more: seq<D.Issue>, bank: nat)
    requires forall i | 0 <= i < |more| :: more[i].refresh
    ensures RowOf(trace + more, bank) == if exists i | 0 <= i < |more| :: more[i].bank == bank then RB.Closed else RowOf(trace, bank)
  {
    hide RowOf;
    if more == [] {
      assert trace + more == trace;
    } else {
      var n := |more| - 1;
      RowOfBatch(trace, more[..n], bank);
      assert trace + more == (trace + more[..n]) + [more[n]];
      RowOfSnoc(trace + more[..n], more[n], bank);
      if exists i | 0 <= i < |more| :: more[i].bank == bank {
        var i :| 0 <= i < |more| && more[i].bank == bank;
        if i < n { assert more[..n][i].bank == bank; }
      }
    }
  }

  lemma SendRefreshRows(cfg: Config, d: Driver, rank: nat, b: nat, q: seq<Cmd>, s: RB.Status)
    requires cfg.Valid() && Shaped(cfg, d) && rank < |d.refreshQ| && d.refreshQ[rank] != [] && Clear(d)
    requires b < |d.dev.banks| && BankRows(d, b, q, s)
    ensures var d' := SendRefresh(cfg, d, rank); b < |d'.dev.banks| && BankRows(d', b, q, s)
  {
    Refresh.RefreshAtomic(cfg, d, rank);
    SendRefreshKeeps(cfg, d, rank);
    var d', r := SendRefresh(cfg, d, rank), d.refreshQ[rank][0];
    assert RefreshShaped(cfg, rank, r);
    hide Shaped, SendRefresh, RB.Matches, OfBank, RowOf, Fits, Handle, Allowed;
    if d' != d {
      var more := Refresh.Batch(d.dev, r, rank, r.banks);
      RowOfBatch(d.dev.trace, more, b);
      if b in r.banks {
        var k :| 0 <= k < |r.banks| && r.banks[k] == b;
        assert more[k].bank == b;
        var st, c := RowOf(d.dev.trace, b), RefreshIssue(r, rank, b);
        RefreshMatches(d.dev.banks[b], st, c, d.dev.cycle);
        if r.kind.PRE? {
          assert FrontClear(d.inputQ, d.refreshQ[rank][0].banks[k]);
          FitsClosed(st, OfBank(d.inputQ, b), q, s);
        }
      }
    }
  }

  lemma SendRefreshKeeps(cfg: Config, d: Driver, rank: nat)
    requires cfg.Valid() && Shaped(cfg, d) && rank < |d.refreshQ| && d.refreshQ[rank] != []
    ensures var d' := SendRefresh(cfg, d, rank); d'.inputQ == d.inputQ && d'.blocked == d.blocked
  {
    hide SendAll;
  }

  /** Sending a refresh command keeps all rows in step. */
  lemma RefreshAllRows(cfg: Config, d: Driver, rank: nat, qs: seq<seq<Cmd>>, ss: seq<RB.Status>)
    requires cfg.Valid() && Shaped(cfg, d) && rank < |d.refreshQ| && d.refreshQ[rank] != []
    requires Clear(d) && Ready(d) && AllRows(d, qs, ss)
    ensures var d' := SendRefresh(cfg, d, rank); Clear(d') && Ready(d') && AllRows(d', qs, ss)
  {
    Refresh.RefreshAtomic(cfg, d, rank);
    SendRefreshKeeps(cfg, d, rank);
    var d', r := SendRefresh(cfg, d, rank), d.refreshQ[rank][0];
    assert RefreshShaped(cfg, rank, r);
    if d' != d {
      forall b | 0 <= b < |qs|
        ensures b < |d'.dev.banks| && BankRows(d', b, qs[b], ss[b])
      {
        SendRefreshRows(cfg, d, rank, b, qs[b], ss[b]);
      }
      RefreshReady(d, d', r, rank);
      hide Shaped, SendRefresh, BankRows, Ready, Handle, Allowed, OfBank;
      forall i | 0 <= i < |d'.dev.trace| && d'.dev.trace[i].cmd.kind.IsColumn()
        ensures d'.dev.trace[i].open && d'.dev.trace[i].openRow == d'.dev.trace[i].cmd.row
      {
        assert i < |d.dev.trace| && d'.dev.trace[i] == d.dev.trace[i];
      }
      PoppedClear(d, d', rank);
    }
  }

  lemma PoppedClear(d: Driver, d': Driver, rank: nat)
    requires Clear(d) && rank < |d.refreshQ| && d.refreshQ[rank] != []
    requires d'.refreshQ == d.refreshQ[rank := d.refreshQ[rank][1..]] && d'.inputQ == d.inputQ
    ensures Clear(d')
  {
    hide FrontClear;
    forall r, i, k | 0 <= r < |d'.refreshQ| && 0 <= i < |d'.refreshQ[r]| && d'.refreshQ[r][i].kind.PRE? && 0 <= k < |d'.refreshQ[r][i].banks|
      ensures FrontClear(d'.inputQ, d'.refreshQ[r][i].banks[k])
    {
      var j := if r == rank then i + 1 else i;
      assert d'.refreshQ[r][i] == d.refreshQ[r][j];
      assert FrontClear(d.inputQ, d.refreshQ[r][j].banks[k]);
    }
  }

  lemma RefreshReady(d: Driver, d': Driver, r: RefreshCmd, rank: nat)
    requires Ready(d) && (r.kind.PRE? || r.kind.REF?) && d'.blocked == d.blocked && |d'.dev.banks| == |d.dev.banks|
    requires forall i | 0 <= i < |r.banks| ::
      && r.banks[i] < |d.dev.banks| && Allowed(d.dev.banks[r.banks[i]], r.kind, d.dev.cycle)
      && d'.dev.banks[r.banks[i]] == Handle(d.dev.banks[r.banks[i]], RefreshIssue(r, rank, r.banks[i]), d.dev.cycle)
    requires forall b | 0 <= b < |d.dev.banks| && b !in r.banks :: d'.dev.banks[b] == d.dev.banks[b]
    ensures Ready(d')
  {
    forall b | 0 <= b < |d.blocked|
      ensures d'.blocked[b] || !(d'.dev.banks[b].state.Idle? && d'.dev.banks[b].Holds(ACT))
    {
      if b in r.banks {
        var k :| 0 <= k < |r.banks| && r.banks[k] == b;
        assert d'.dev.banks[r.banks[k]].Holds(r.kind);
      }
    }
  }

  /** Creating refresh commands puts the ACT of the row that is still needed in front, which
      leaves no column command in front of the banks to be closed. */
  lemma CreateRows(cfg: Config, d: Driver, rank: nat, b: nat, q: seq<Cmd>, s: RB.Status)
    requires cfg.Valid() && rank < |d.refreshQ| == |d.nextRefresh| && b < |d.dev.banks| && BankRows(d, b, q, s)
    requires forall i | 0 <= i < |RefreshTargets(cfg, d, rank)| :: RefreshTargets(cfg, d, rank)[i] < |d.dev.banks|
    ensures BankRows(CreateRefresh(cfg, d, rank), b, q, s)
  {
    hide RefreshTargets, RB.Matches, OfBank, RowOf, Fits, ReopenActs;
    var mine, targets := OfBank(d.inputQ, b), RefreshTargets(cfg, d, rank);
    ReopenOf(d.inputQ, targets, b);
    if OfBank(ReopenActs(d.inputQ, targets), b) != mine {
      assert mine == [mine[0]] + mine[1..];
      FitsReopened(RowOf(d.dev.trace, b), mine[0], mine[1..], q, s);
    }
  }

  lemma CreateClear(cfg: Config, d: Driver, rank: nat)
    requires cfg.Valid() && Shaped(cfg, d) && rank < cfg.g.NumRanks() && Clear(d)
    requires forall i | 0 <= i < |RefreshTargets(cfg, d, rank)| :: RefreshTargets(cfg, d, rank)[i] < |d.dev.banks|
    ensures Clear(CreateRefresh(cfg, d, rank))
  {
    hide RefreshTargets, OfBank, OpenOnes, ReopenActs, BanksPerRank, Geometry.NumBanks, Geometry.NumRanks, Geometry.RankOf, Queued;
    var d', targets := CreateRefresh(cfg, d, rank), RefreshTargets(cfg, d, rank);
    OpenOnesSubset(d, targets);
    forall r, i, k | 0 <= r < |d'.refreshQ| && 0 <= i < |d'.refreshQ[r]| && d'.refreshQ[r][i].kind.PRE? && 0 <= k < |d'.refreshQ[r][i].banks|
      ensures FrontClear(d'.inputQ, d'.refreshQ[r][i].banks[k])
    {
      var b := d'.refreshQ[r][i].banks[k];
      ReopenOf(d.inputQ, targets, b);
      if r == rank {
        assert b in OpenOnes(d, targets);
      } else {
        assert FrontClear(d.inputQ, d.refreshQ[r][i].banks[k]);
      }
    }
  }

  lemma CreateAllRows(cfg: Config, d: Driver, rank: nat, qs: seq<seq<Cmd>>, ss: seq<RB.Status>)
    requires cfg.Valid() && Shaped(cfg, d) && rank < cfg.g.NumRanks() && Clear(d) && Ready(d) && AllRows(d, qs, ss)
    requires forall i | 0 <= i < |RefreshTargets(cfg, d, rank)| :: RefreshTargets(cfg, d, rank)[i] < |d.dev.banks|
    ensures var d' := CreateRefresh(cfg, d, rank); Clear(d') && Ready(d') && AllRows(d', qs, ss)
  {
    CreateClear(cfg, d, rank);
    hide Clear, BankRows, RowsOpen, RefreshTargets, ReopenActs, OpenOnes, Queued, RefreshShaped;
    forall b | 0 <= b < |qs|
      ensures BankRows(CreateRefresh(cfg, d, rank), b, qs[b], ss[b])
    {
      CreateRows(cfg, d, rank, b, qs[b], ss[b]);
    }
  }

  lemma RankRows(cfg: Config, d: Driver, rank: nat, qs: seq<seq<Cmd>>, ss: seq<RB.Status>)
    requires cfg.Valid() && Shaped(cfg, d) && rank < cfg.g.NumRanks() && Clear(d) && Ready(d) && AllRows(d, qs, ss)
    ensures var d' := RefreshRank(cfg, d, rank); Clear(d') && Ready(d') && AllRows(d', qs, ss)
  {
    hide RefreshTargets, RefreshShaped, Queued, BanksPerRank, CreateRefresh, SendRefresh, Clear, Ready, AllRows;
    CreateShaped(cfg, d, rank);
    CreateAllRows(cfg, d, rank, qs, ss);
    var d1 := if d.refi[rank] > 0 then d.(refi := d.refi[rank := d.refi[rank] - 1])
              else CreateRefresh(cfg, d, rank).(refi := d.refi[rank := cfg.p.nREFI]);
    TimerRows(if d.refi[rank] > 0 then d else CreateRefresh(cfg, d, rank), d1, qs, ss);
    if d1.refreshQ[rank] != [] { RefreshAllRows(cfg, d1, rank, qs, ss); }
  }

  lemma TimerRows(d: Driver, d': Driver, qs: seq<seq<Cmd>>, ss: seq<RB.Status>)
    requires Clear(d) && Ready(d) && AllRows(d, qs, ss) && d'.dev == d.dev && d'.inputQ == d.inputQ
    requires d'.refreshQ == d.refreshQ && d'.blocked == d.blocked
    ensures Clear(d') && Ready(d') && AllRows(d', qs, ss)
  {
    hide OfBank, RowOf, Fits, RB.Matches, RowsOpen;
    forall b | 0 <= b < |qs|
      ensures BankRows(d', b, qs[b], ss[b])
    {
      assert BankRows(d, b, qs[b], ss[b]);
    }
  }

  lemma {:induction false} RefreshFromRows(cfg: Config, d: Driver, rank: nat, qs: seq<seq<Cmd>>, ss: seq<RB.Status>)
    requires cfg.Valid() && Shaped(cfg, d) && rank <= cfg.g.NumRanks() && Clear(d) && Ready(d) && AllRows(d, qs, ss)
    ensures var d' := RefreshFrom(cfg, d, rank); Clear(d') && Ready(d') && AllRows(d', qs, ss)
    decreases cfg.g.NumRanks() - rank
  {
    hide Shaped, RefreshRank, Clear, Ready, AllRows;
    if rank < cfg.g.NumRanks() {
      RefreshRankShaped(cfg, d, rank);
      RankRows(cfg, d, rank, qs, ss);
      RefreshFromRows(cfg, RefreshRank(cfg, d, rank), rank + 1, qs, ss);
    }
  }

  // ---- Whole phases

  /** One `run` with refresh on keeps every bank in step with what is queued for it, and every
      column command that it sends finds its own row open. */
  lemma RunRows(cfg: Config, d: Driver, qs: seq<seq<Cmd>>, ss: seq<RB.Status>)
    requires cfg.Valid() && cfg.useRefresh && Safety.Inv(cfg, d) && Safety.Quiet(d)
    requires Clear(d) && SettledUnlessBlocked(d) && AllRows(d, qs, ss)
    ensures var d' := Run(cfg, d); AllRows(d', qs, ss) && Clear(d')
  {
    Safety.RunRefreshInv(cfg, d);
    Safety.ReleasedShaped(cfg, d);
    var d1 := RunRefresh(cfg, d);
    assert Safety.BusHeld(cfg, d1);
    assert Ready(d);
    hide Safety.Tracks, Safety.FourActivate, D.Valid, Safety.BusHeld, Shaped, AllRows, Clear, Ready;
    TimerRows(d, Released(d), qs, ss);
    RefreshFromRows(cfg, Released(d), 0, qs, ss);
    SendFromRows(cfg, d1, 0, ActCounts(d1), qs, ss);
  }

  lemma UpdateRows(cfg: Config, d: Driver, qs: seq<seq<Cmd>>, ss: seq<RB.Status>)
    requires cfg.Valid() && Safety.Inv(cfg, d) && AllRows(d, qs, ss) && Clear(d)
    ensures var d' := Update(cfg, d); AllRows(d', qs, ss) && Clear(d')
  {
    hide Safety.Tracks, Safety.FourActivate, D.Seen, D.TimingSafe, Queued, RefreshShaped, Tick, RB.Matches, RowOf, OfBank, Fits, D.Sane, RB.Settled;
    var d' := Update(cfg, d);
    forall b | 0 <= b < |qs|
      ensures BankRows(d', b, qs[b], ss[b])
    {
      assert BankRows(d, b, qs[b], ss[b]) && D.Sane(d.dev.banks[b]);
      RB.TickMatches(cfg.p, d.dev.banks[b], RowOf(d.dev.trace, b), d.dev.cycle + 1);
    }
  }

  // ---- Requests from the command scheduler

  /** A request for permission keeps the asking bank in step; a permission means that the head of
      the command queue may join the driver's queue. */
  lemma AllowedRows(cfg: Config, d: Driver, c: Cmd, b: nat, q: seq<Cmd>, tail: seq<Cmd>, s: RB.Status)
    requires cfg.Valid() && Shaped(cfg, d) && Queued(cfg, c) && b < |d.dev.banks| && BankRows(d, b, q, s)
    requires RB.Settled(d.dev.banks[b]) && (c.bank == b ==> q == [c] + tail)
    ensures var (d', ok) := IsCmdAllowed(cfg, d, c); d'.dev == d.dev && BankRows(d', b, q, s)
    ensures var (d', ok) := IsCmdAllowed(cfg, d, c);
      ok && c.bank == b ==> d' == d && Fits(RowOf(d.dev.trace, b), OfBank(d.inputQ, b) + [c], tail, s)
  {
    hide RB.Matches, OfBank, RowOf, Fits, BusFree;
    var act, mine, st := c.(kind := ACT), OfBank(d.inputQ, b), RowOf(d.dev.trace, b);
    var (d', ok) := IsCmdAllowed(cfg, d, c);
    OfBankConcat(d.inputQ, [act], b);
    OfBankOne(act, b);
    if c.bank == b {
      if d' != d {
        OfBankAll(d.inputQ, b);
        assert forall i | 0 <= i < |mine| :: !mine[i].kind.ACT?;
        ClosedRow(d.dev.banks[b], st);
        FitsOpened(c, mine, tail, s);
      } else if ok {
        if st.Closed? { NoColumnWhenClosed(d.dev.banks[b], c.kind, d.dev.cycle); }
        FitsMoved(st, mine, c, tail, s);
      }
    } else {
      assert mine + [] == mine;
    }
  }

  lemma PushRows(cfg: Config, d: Driver, c: Cmd, b: nat, q: seq<Cmd>, tail: seq<Cmd>, s: RB.Status)
    requires cfg.Valid() && Shaped(cfg, d) && Queued(cfg, c) && b < |d.dev.banks| && BankRows(d, b, q, s)
    requires c.bank == b ==> Fits(RowOf(d.dev.trace, b), OfBank(d.inputQ, b) + [c], tail, s)
    ensures var (d', pushed) := Push(cfg, d, c); d'.dev == d.dev && BankRows(d', b, if pushed && c.bank == b then tail else q, s)
  {
    hide RB.Matches, OfBank, RowOf, Fits, Shaped;
    OfBankConcat(d.inputQ, [c], b);
    OfBankOne(c, b);
    assert OfBank(d.inputQ, b) + [] == OfBank(d.inputQ, b);
  }

  /** Neither step touches the queue of a bank whose rank has a refresh pending. */
  lemma RequestClear(cfg: Config, d: Driver, c: Cmd)
    requires cfg.Valid() && cfg.useRefresh && Shaped(cfg, d) && Queued(cfg, c) && Clear(d)
    ensures var (d', ok) := IsCmdAllowed(cfg, d, c); Clear(d')
    ensures var (d', ok) := IsCmdAllowed(cfg, d, c); ok ==> Clear(Push(cfg, d, c).0)
  {
    hide OfBank, Clear, BusFree, Allowed, HasAct;
    if !RefreshPending(cfg, d, c.rank) {
      AppendClear(cfg, d, IsCmdAllowed(cfg, d, c).0, c.(kind := ACT));
      AppendClear(cfg, d, Push(cfg, d, c).0, c);
    }
  }

  lemma AppendClear(cfg: Config, d: Driver, d': Driver, c: Cmd)
    requires cfg.Valid() && Shaped(cfg, d) && Clear(d) && d'.refreshQ == d.refreshQ
    requires cfg.g.RankOf(c.bank) < |d.refreshQ| ==> d.refreshQ[cfg.g.RankOf(c.bank)] == []
    requires d'.inputQ == d.inputQ || d'.inputQ == d.inputQ + [c]
    ensures Clear(d')
  {
    hide OfBank, Clear, Shaped;
    forall b: nat | b != c.bank
      ensures OfBank(d'.inputQ, b) == OfBank(d.inputQ, b)
    {
      OfBankConcat(d.inputQ, [c], b);
      OfBankOne(c, b);
      assert OfBank(d.inputQ, b) + [] == OfBank(d.inputQ, b);
    }
    ClearSame(cfg, d, d', c.bank);
  }
}
