/** Refresh is atomic: once the refresh commands of a rank exist, no request reaches the rank
    before its REF, and a refresh command is taken by all of its banks at once. */
module Refresh {
  import opened Arith
  import opened Dram
  import opened BankMachine
  import D = Device
  import opened DriverMachine

  predicate IsRequest(g: Geometry, e: D.Issue, rank: nat)
    requires g.Valid()
  {
    !e.refresh && g.RankOf(e.bank) == rank
  }

  predicate IsRefresh(g: Geometry, e: D.Issue, rank: nat)
    requires g.Valid()
  {
    e.refresh && e.cmd.kind.REF? && g.RankOf(e.bank) == rank
  }

  /** No request of the rank among the issues from `lo` to `hi`. */
  predicate NoRequest(g: Geometry, trace: seq<D.Issue>, rank: nat, lo: nat, hi: nat)
    requires g.Valid() && hi <= |trace|
  {
    forall i | lo <= i < hi :: !IsRequest(g, trace[i], rank)
  }

  predicate Refreshed(g: Geometry, trace: seq<D.Issue>, rank: nat, lo: nat)
    requires g.Valid()
  {
    exists j | lo <= j < |trace| :: IsRefresh(g, trace[j], rank) && NoRequest(g, trace, rank, lo, j)
  }

  /** Since position `lo`, no request has reached the rank before a REF did; while the REF is
      outstanding it is queued. */
  predicate Held(cfg: Config, d: Driver, rank: nat, lo: nat)
    requires cfg.Valid() && rank < |d.refreshQ|
  {
    && lo <= |d.dev.trace|
    && (Refreshed(cfg.g, d.dev.trace, rank, lo)
        || (d.refreshQ[rank] != [] && NoRequest(cfg.g, d.dev.trace, rank, lo, |d.dev.trace|)))
  }

  /** The form of a rank's refresh queue: an optional PRE, then the REF. */
  predicate QueueForm(cfg: Config, rank: nat, q: seq<RefreshCmd>) {
    q != [] ==>
      && cfg.useRefresh
      && q[|q| - 1].kind.REF?
      && (forall i | 0 <= i < |q| - 1 :: q[i].kind.PRE?)
      && (!cfg.singleBank ==> q[|q| - 1].banks == RankBanks(cfg.g, rank))
  }

  /** The bank took a REF in the given cycle. */
  predicate RefAt(trace: seq<D.Issue>, bank: nat, cycle: nat) {
    exists j | 0 <= j < |trace| :: trace[j].bank == bank && trace[j].cmd.kind.REF? && trace[j].cycle == cycle
  }

  /** Every REF came from the refresh engine to a bank with no open row, and under all-bank
      refresh every bank of the rank took one in the same cycle. */
  predicate Whole(cfg: Config, trace: seq<D.Issue>)
    requires cfg.Valid()
  {
    forall i | 0 <= i < |trace| && trace[i].cmd.kind.REF? ::
      && trace[i].refresh && !trace[i].open
      && (!cfg.singleBank ==>
            forall b | 0 <= b < cfg.g.NumBanks() && cfg.g.RankOf(b) == cfg.g.RankOf(trace[i].bank) :: RefAt(trace, b, trace[i].cycle))
  }

  predicate IdleClosed(dev: D.Device) {
    forall b | 0 <= b < |dev.banks| :: dev.banks[b].state.Idle? ==> !dev.banks[b].rowOpen
  }

  predicate Inv(cfg: Config, d: Driver)
    requires cfg.Valid()
  {
    && Shaped(cfg, d)
    && (forall r | 0 <= r < |d.refreshQ| :: QueueForm(cfg, r, d.refreshQ[r]))
    && (forall i | 0 <= i < |d.created| :: d.created[i].rank < |d.refreshQ| && Held(cfg, d, d.created[i].rank, d.created[i].at))
    && Whole(cfg, d.dev.trace)
    && IdleClosed(d.dev)
  }

  /** A step that extends the trace: a rank with queued refresh commands gets no request, or
      gets its REF first. */
  predicate Advances(cfg: Config, d: Driver, d': Driver)
    requires cfg.Valid()
  {
    && d.dev.trace <= d'.dev.trace && |d'.refreshQ| == |d.refreshQ|
    && forall r | 0 <= r < |d.refreshQ| && d.refreshQ[r] != [] ::
         || (d'.refreshQ[r] != [] && NoRequest(cfg.g, d'.dev.trace, r, |d.dev.trace|, |d'.dev.trace|))
         || Refreshed(cfg.g, d'.dev.trace, r, |d.dev.trace|)
  }

  lemma HeldGrows(cfg: Config, d: Driver, d': Driver, rank: nat, lo: nat)
    requires cfg.Valid() && Advances(cfg, d, d') && rank < |d.refreshQ| && Held(cfg, d, rank, lo)
    ensures Held(cfg, d', rank, lo)
  {
    hide IsRequest, IsRefresh;
    var g, t, t' := cfg.g, d.dev.trace, d'.dev.trace;
    if Refreshed(g, t, rank, lo) {
      var j :| lo <= j < |t| && IsRefresh(g, t[j], rank) && NoRequest(g, t, rank, lo, j);
      assert IsRefresh(g, t'[j], rank) && NoRequest(g, t', rank, lo, j);
    } else {
      assert NoRequest(g, t', rank, lo, |t|);
      if Refreshed(g, t', rank, |t|) {
        var j :| |t| <= j < |t'| && IsRefresh(g, t'[j], rank) && NoRequest(g, t', rank, |t|, j);
        assert NoRequest(g, t', rank, lo, j);
      }
    }
  }

  lemma AdvancesInv(cfg: Config, d: Driver, d': Driver)
    requires cfg.Valid() && Inv(cfg, d) && Advances(cfg, d, d') && d'.created == d.created
    requires Shaped(cfg, d') && Whole(cfg, d'.dev.trace) && IdleClosed(d'.dev)
    requires forall r | 0 <= r < |d'.refreshQ| :: QueueForm(cfg, r, d'.refreshQ[r])
    ensures Inv(cfg, d')
  {
    hide Held, Shaped, Advances, QueueForm, Whole;
    assert |d'.refreshQ| == |d.refreshQ| by { AdvancesSize(cfg, d, d'); }
    forall i | 0 <= i < |d'.created|
      ensures Held(cfg, d', d'.created[i].rank, d'.created[i].at)
    {
      HeldGrows(cfg, d, d', d.created[i].rank, d.created[i].at);
    }
  }

  lemma AdvancesSize(cfg: Config, d: Driver, d': Driver)
    requires cfg.Valid() && Advances(cfg, d, d')
    ensures |d'.refreshQ| == |d.refreshQ|
  {
  }

  /** The refresh state is the same. */
  lemma SameRefresh(cfg: Config, d: Driver, d': Driver)
    requires cfg.Valid() && Inv(cfg, d) && Shaped(cfg, d') && IdleClosed(d'.dev)
    requires d'.dev.trace == d.dev.trace && d'.refreshQ == d.refreshQ && d'.created == d.created
    ensures Inv(cfg, d')
  {
    hide Shaped, QueueForm, Whole, IdleClosed;
    assert Advances(cfg, d, d');
    AdvancesInv(cfg, d, d');
  }

  /** Old refreshes stay whole when the trace grows by `more`. */
  lemma WholeGrows(cfg: Config, trace: seq<D.Issue>, more: seq<D.Issue>)
    requires cfg.Valid() && Whole(cfg, trace)
    requires forall i | 0 <= i < |more| && more[i].cmd.kind.REF? :: more[i].refresh && !more[i].open
    requires forall i, b | 0 <= i < |more| && more[i].cmd.kind.REF? && !cfg.singleBank && 0 <= b < cfg.g.NumBanks()
               && cfg.g.RankOf(b) == cfg.g.RankOf(more[i].bank) :: RefAt(more, b, more[i].cycle)
    ensures Whole(cfg, trace + more)
  {
    hide Geometry.NumBanks, Geometry.RankOf;
    var t' := trace + more;
    forall b: nat, cycle: nat | RefAt(trace, b, cycle)
      ensures RefAt(t', b, cycle)
    {
      var j :| 0 <= j < |trace| && trace[j].bank == b && trace[j].cmd.kind.REF? && trace[j].cycle == cycle;
      assert t'[j] == trace[j];
    }
    forall b: nat, cycle: nat | RefAt(more, b, cycle)
      ensures RefAt(t', b, cycle)
    {
      var j :| 0 <= j < |more| && more[j].bank == b && more[j].cmd.kind.REF? && more[j].cycle == cycle;
      assert t'[|trace| + j] == more[j];
    }
  }

  // ---- Requests

  lemma StepInv(cfg: Config, d: Driver, i: nat, counts: seq<nat>)
    requires cfg.Valid() && Inv(cfg, d) && i < |d.inputQ| && |counts| == cfg.g.NumRanks()
    ensures Inv(cfg, SendStep(cfg, d, i, counts).d)
  {
    SendStepShaped(cfg, d, i, counts);
    var d' := SendStep(cfg, d, i, counts).d;
    if Decide(cfg, d, i, counts).Go? {
      var c := d.inputQ[i];
      assert Queued(cfg, c);
      GoEffect(cfg, d, i, counts);
      var e := d'.dev.trace[|d.dev.trace|];
      assert QueueForm(cfg, c.rank, d.refreshQ[c.rank]);
      hide Inv, Shaped, SendStep, Decide, QueueForm, RefAt, Geometry.RankOf;
      WholeGrows(cfg, d.dev.trace, [e]);
      assert Advances(cfg, d, d');
      AdvancesInv(cfg, d, d');
    } else {
      hide Inv, Shaped, D.CanSend, BusFree;
      SameRefresh(cfg, d, d');
    }
  }

  lemma GoEffect(cfg: Config, d: Driver, i: nat, counts: seq<nat>)
    requires cfg.Valid() && Shaped(cfg, d) && i < |d.inputQ| && |counts| == cfg.g.NumRanks() && IdleClosed(d.dev)
    requires Decide(cfg, d, i, counts).Go?
    ensures
      var d', c := SendStep(cfg, d, i, counts).d, d.inputQ[i];
      && |d'.dev.trace| == |d.dev.trace| + 1 && d'.dev.trace == d.dev.trace + [d'.dev.trace[|d.dev.trace|]]
      && d'.dev.trace[|d.dev.trace|].bank == c.bank && d'.dev.trace[|d.dev.trace|].cmd == c
      && d'.refreshQ == d.refreshQ && d'.created == d.created && !RefreshPending(cfg, d, c.rank) && IdleClosed(d'.dev)
  {
    hide Shaped, Queued, Geometry.Relation, ColumnGap, SetLast;
  }

  lemma {:induction false} SendFromInv(cfg: Config, d: Driver, i: nat, counts: seq<nat>)
    requires cfg.Valid() && Inv(cfg, d) && i <= |d.inputQ| && |counts| == cfg.g.NumRanks()
    ensures Inv(cfg, SendFrom(cfg, d, i, counts))
    decreases |d.inputQ| - i
  {
    hide Inv, Shaped, SendStep;
    InvShaped(cfg, d);
    if i < |d.inputQ| {
      SendStepShaped(cfg, d, i, counts);
      StepInv(cfg, d, i, counts);
      var s := SendStep(cfg, d, i, counts);
      if !s.stop { SendFromInv(cfg, s.d, s.i, counts); }
    }
  }

  lemma InvShaped(cfg: Config, d: Driver)
    requires cfg.Valid() && Inv(cfg, d)
    ensures Shaped(cfg, d)
  {
  }

  // ---- The refresh commands

  predicate Distinct(banks: seq<nat>) { forall i, j | 0 <= i < j < |banks| :: banks[i] != banks[j] }

  /** What the banks of a refresh command show in the trace. */
  function Batch(dev: D.Device, r: RefreshCmd, rank: nat, banks: seq<nat>): seq<D.Issue>
    requires forall i | 0 <= i < |banks| :: banks[i] < |dev.banks|
  {
    seq(|banks|, i requires 0 <= i < |banks| =>
      var bk := dev.banks[banks[i]];
      D.Issue(dev.cycle, banks[i], RefreshIssue(r, rank, banks[i]), bk.rowOpen, bk.openRow, true))
  }

  /** A refresh command that every bank of its vector allows is taken by all of them in this
      cycle, and no other bank notices. */
  lemma {:induction false} AllAtOnce(cfg: Config, dev: D.Device, r: RefreshCmd, rank: nat, banks: seq<nat>)
    requires cfg.Valid() && (r.kind.PRE? || r.kind.REF?) && Distinct(banks)
    requires forall i | 0 <= i < |banks| :: banks[i] < |dev.banks| && Allowed(dev.banks[banks[i]], r.kind, dev.cycle)
    ensures
      var dev' := SendAll(cfg, dev, r, rank, banks);
      && dev'.cycle == dev.cycle && |dev'.banks| == |dev.banks|
      && dev'.trace == dev.trace + Batch(dev, r, rank, banks)
      && (forall i | 0 <= i < |banks| ::
            dev'.banks[banks[i]] == Handle(dev.banks[banks[i]], RefreshIssue(r, rank, banks[i]), dev.cycle))
      && (forall b | 0 <= b < |dev.banks| && b !in banks :: dev'.banks[b] == dev.banks[b])
    decreases |banks|
  {
    hide Handle, Geometry.Relation, Allowed;
    if banks != [] {
      var c := RefreshIssue(r, rank, banks[0]);
      var dev1 := D.Send(cfg.p, cfg.g, dev, banks[0], c, true);
      assert forall b | 0 <= b < |dev.banks| && b != banks[0] :: dev1.banks[b] == dev.banks[b];
      assert forall i | 0 <= i < |banks[1..]| :: banks[1..][i] == banks[i + 1];
      AllAtOnce(cfg, dev1, r, rank, banks[1..]);
      assert Batch(dev, r, rank, banks) == [dev1.trace[|dev.trace|]] + Batch(dev1, r, rank, banks[1..]);
    }
  }

  /** sendRefresh is all or nothing, and a REF finds all of its banks idle. */
  lemma RefreshAtomic(cfg: Config, d: Driver, rank: nat)
    requires cfg.Valid() && Shaped(cfg, d) && rank < |d.refreshQ| && d.refreshQ[rank] != []
    ensures
      var r, d' := d.refreshQ[rank][0], SendRefresh(cfg, d, rank);
      && (forall i | 0 <= i < |r.banks| :: r.banks[i] < |d.dev.banks|)
      && (d' == d
          || (&& d'.dev.trace == d.dev.trace + Batch(d.dev, r, rank, r.banks)
              && d'.refreshQ == d.refreshQ[rank := d.refreshQ[rank][1..]]
              && |d'.dev.banks| == |d.dev.banks|
              && (forall i | 0 <= i < |r.banks| ::
                    && Allowed(d.dev.banks[r.banks[i]], r.kind, d.dev.cycle)
                    && d'.dev.banks[r.banks[i]]
                       == Handle(d.dev.banks[r.banks[i]], RefreshIssue(r, rank, r.banks[i]), d.dev.cycle))
              && (forall b | 0 <= b < |d.dev.banks| && b !in r.banks :: d'.dev.banks[b] == d.dev.banks[b])
              && (r.kind.REF? ==> forall i | 0 <= i < |r.banks| :: d.dev.banks[r.banks[i]].state.Idle?)))
  {
    var r := d.refreshQ[rank][0];
    assert RefreshShaped(cfg, rank, r);
    assert |d.dev.banks| == cfg.g.NumBanks();
    hide Shaped, Handle, SendAll, BusFree, Batch, RefreshIssue;
    if forall i | 0 <= i < |r.banks| :: D.CanSend(d.dev, r.banks[i], r.kind) {
      assert forall i | 0 <= i < |r.banks| :: D.CanSend(d.dev, r.banks[i], r.kind);
      AllAtOnce(cfg, d.dev, r, rank, r.banks);
    }
  }

  lemma InRank(g: Geometry, rank: nat, b: nat)
    requires g.Valid() && b < g.NumBanks() && g.RankOf(b) == rank
    ensures b in RankBanks(g, rank)
  {
    var n := BanksPerRank(g);
    DivDiv(b, g.banks, g.groups);
    var k := b % n;
    assert n == g.banks * g.groups && b == rank * n + k;
    assert RankBanks(g, rank)[k] == b;
  }

  lemma BatchWhole(cfg: Config, d: Driver, rank: nat)
    requires cfg.Valid() && Inv(cfg, d) && rank < |d.refreshQ| && d.refreshQ[rank] != []
    requires var r := d.refreshQ[rank][0];
             (forall i | 0 <= i < |r.banks| :: r.banks[i] < |d.dev.banks|)
             && (r.kind.REF? ==> forall i | 0 <= i < |r.banks| :: d.dev.banks[r.banks[i]].state.Idle?)
    ensures var r := d.refreshQ[rank][0]; Whole(cfg, d.dev.trace + Batch(d.dev, r, rank, r.banks))
  {
    var r := d.refreshQ[rank][0];
    assert RefreshShaped(cfg, rank, r) && QueueForm(cfg, rank, d.refreshQ[rank]);
    var more := Batch(d.dev, r, rank, r.banks);
    hide Shaped, Held, Geometry.NumBanks, Geometry.RankOf, RankBanks;
    forall i, b: nat | 0 <= i < |more| && more[i].cmd.kind.REF? && !cfg.singleBank && b < cfg.g.NumBanks()
                       && cfg.g.RankOf(b) == cfg.g.RankOf(more[i].bank)
      ensures RefAt(more, b, more[i].cycle)
    {
      assert cfg.g.RankOf(r.banks[i]) == rank;
      InRank(cfg.g, rank, b);
      assert r.banks == RankBanks(cfg.g, rank);
      var j :| 0 <= j < |r.banks| && r.banks[j] == b;
      assert more[j].bank == b;
    }
    WholeGrows(cfg, d.dev.trace, more);
  }

  lemma SendRefreshInv(cfg: Config, d: Driver, rank: nat)
    requires cfg.Valid() && Inv(cfg, d) && rank < |d.refreshQ| && d.refreshQ[rank] != []
    ensures Inv(cfg, SendRefresh(cfg, d, rank))
  {
    var d', r := SendRefresh(cfg, d, rank), d.refreshQ[rank][0];
    SendRefreshShaped(cfg, d, rank);
    RefreshAtomic(cfg, d, rank);
    assert RefreshShaped(cfg, rank, r) && QueueForm(cfg, rank, d.refreshQ[rank]);
    if d' != d {
      BatchWhole(cfg, d, rank);
      assert d'.created == d.created && |d'.dev.banks| == |d.dev.banks|;
      hide Shaped, SendRefresh, Whole, Held, RankBanks;
      assert QueueForm(cfg, rank, d'.refreshQ[rank]);
      SendRefreshAdvances(cfg, d, d', rank);
      AdvancesInv(cfg, d, d');
    }
  }

  lemma SendRefreshAdvances(cfg: Config, d: Driver, d': Driver, rank: nat)
    requires cfg.Valid() && rank < |d.refreshQ| && d.refreshQ[rank] != []
    requires RefreshShaped(cfg, rank, d.refreshQ[rank][0]) && QueueForm(cfg, rank, d.refreshQ[rank])
    requires forall i | 0 <= i < |d.refreshQ[rank][0].banks| :: d.refreshQ[rank][0].banks[i] < |d.dev.banks|
    requires d'.dev.trace == d.dev.trace + Batch(d.dev, d.refreshQ[rank][0], rank, d.refreshQ[rank][0].banks)
    requires d'.refreshQ == d.refreshQ[rank := d.refreshQ[rank][1..]]
    ensures Advances(cfg, d, d')
  {
    var r, t, t' := d.refreshQ[rank][0], d.dev.trace, d'.dev.trace;
    hide RankBanks;
    assert forall i | |t| <= i < |t'| :: t'[i].refresh;
    if d'.refreshQ[rank] == [] {
      assert t'[|t|].bank == r.banks[0];
      assert IsRefresh(cfg.g, t'[|t|], rank) && NoRequest(cfg.g, t', rank, |t|, |t|);
    }
  }

  // ---- Creation

  lemma CreateInv(cfg: Config, d: Driver, rank: nat)
    requires cfg.Valid() && Inv(cfg, d) && rank < cfg.g.NumRanks() && cfg.useRefresh
    ensures forall i | 0 <= i < |RefreshTargets(cfg, d, rank)| :: RefreshTargets(cfg, d, rank)[i] < |d.dev.banks|
    ensures Inv(cfg, CreateRefresh(cfg, d, rank))
  {
    CreateShaped(cfg, d, rank);
    var d' := CreateRefresh(cfg, d, rank);
    var n := |d.created|;
    assert QueueForm(cfg, rank, d'.refreshQ[rank]) && d'.refreshQ[rank] != [];
    assert d'.created == d.created + [Creation(rank, |d.dev.trace|, d.dev.cycle, RefreshTargets(cfg, d, rank))];
    hide CreateRefresh, Shaped, RefreshTargets, RankBanks;
    CreateSame(cfg, d, rank);
    assert Advances(cfg, d, d');
    forall i | 0 <= i < |d'.created|
      ensures d'.created[i].rank < |d'.refreshQ| && Held(cfg, d', d'.created[i].rank, d'.created[i].at)
    {
      if i < n {
        HeldGrows(cfg, d, d', d.created[i].rank, d.created[i].at);
      } else {
        assert NoRequest(cfg.g, d'.dev.trace, rank, |d.dev.trace|, |d'.dev.trace|);
      }
    }
  }

  lemma CreateSame(cfg: Config, d: Driver, rank: nat)
    requires cfg.Valid() && rank < |d.refreshQ| == |d.nextRefresh|
    requires forall i | 0 <= i < |RefreshTargets(cfg, d, rank)| :: RefreshTargets(cfg, d, rank)[i] < |d.dev.banks|
    ensures
      var d' := CreateRefresh(cfg, d, rank);
      d'.dev == d.dev && |d'.refreshQ| == |d.refreshQ| && forall r | 0 <= r < |d.refreshQ| && r != rank :: d'.refreshQ[r] == d.refreshQ[r]
  {
  }

  lemma RankInv(cfg: Config, d: Driver, rank: nat)
    requires cfg.Valid() && Inv(cfg, d) && rank < cfg.g.NumRanks() && cfg.useRefresh
    ensures Shaped(cfg, d) && Inv(cfg, RefreshRank(cfg, d, rank))
  {
    InvShaped(cfg, d);
    hide Inv, CreateRefresh, RefreshTargets, RefreshShaped, Queued, SendRefresh;
    CreateInv(cfg, d, rank);
    var d0 := if d.refi[rank] > 0 then d else CreateRefresh(cfg, d, rank);
    var d1 := d0.(refi := d.refi[rank := if d.refi[rank] > 0 then d.refi[rank] - 1 else cfg.p.nREFI]);
    InvShaped(cfg, d0);
    RefiInv(cfg, d0, d1);
    InvShaped(cfg, d1);
    if d1.refreshQ[rank] != [] { SendRefreshInv(cfg, d1, rank); }
  }

  lemma RefiInv(cfg: Config, d: Driver, d': Driver)
    requires cfg.Valid() && Inv(cfg, d) && |d'.refi| == |d.refi| && d' == d.(refi := d'.refi)
    ensures Inv(cfg, d')
  {
    hide Whole, QueueForm, Queued, RefreshShaped;
    SameRefresh(cfg, d, d');
  }

  lemma {:induction false} RefreshFromInv(cfg: Config, d: Driver, rank: nat)
    requires cfg.Valid() && Inv(cfg, d) && rank <= cfg.g.NumRanks() && cfg.useRefresh
    ensures Shaped(cfg, d) && Inv(cfg, RefreshFrom(cfg, d, rank))
    decreases cfg.g.NumRanks() - rank
  {
    InvShaped(cfg, d);
    hide Inv, RefreshRank, Shaped;
    if rank < cfg.g.NumRanks() {
      RankInv(cfg, d, rank);
      RefreshRankShaped(cfg, d, rank);
      RefreshFromInv(cfg, RefreshRank(cfg, d, rank), rank + 1);
    }
  }

  // ---- Whole cycles

  lemma RunInv(cfg: Config, d: Driver)
    requires cfg.Valid() && Inv(cfg, d)
    ensures Shaped(cfg, d) && Inv(cfg, Run(cfg, d))
  {
    InvShaped(cfg, d);
    var d1 := Released(d);
    ReleasedInv(cfg, d);
    hide Inv, RefreshFrom, SendFrom, Shaped;
    InvShaped(cfg, d1);
    if cfg.useRefresh { RefreshFromInv(cfg, d1, 0); }
    var d2 := RunRefresh(cfg, d);
    InvShaped(cfg, d2);
    FawRanks(cfg, d2);
    SendFromInv(cfg, d2, 0, ActCounts(d2));
  }

  lemma ActRanks(cfg: Config, d: Driver)
    requires cfg.Valid() && Shaped(cfg, d)
    ensures |d.actIssued| == |d.faw|
  {
  }

  lemma FawRanks(cfg: Config, d: Driver)
    requires cfg.Valid() && Shaped(cfg, d)
    ensures |d.faw| == cfg.g.NumRanks()
  {
  }

  lemma ReleasedInv(cfg: Config, d: Driver)
    requires cfg.Valid() && Inv(cfg, d)
    ensures Inv(cfg, Released(d))
  {
    hide Whole, QueueForm, Queued, RefreshShaped;
    SameRefresh(cfg, d, Released(d));
  }

  lemma UpdateInv(cfg: Config, d: Driver)
    requires cfg.Valid() && Inv(cfg, d)
    ensures Shaped(cfg, d) && Inv(cfg, Update(cfg, d))
  {
    hide Tick, Shift, Release, Whole, QueueForm, Queued, RefreshShaped;
    InvShaped(cfg, d);
    var d' := Update(cfg, d);
    forall b | 0 <= b < |d.dev.banks|
      ensures d'.dev.banks[b].state.Idle? ==> !d'.dev.banks[b].rowOpen
    {
      TickClosed(cfg.p, d.dev.banks[b], d.dev.cycle + 1);
    }
    UpdateShaped(cfg, d);
    SameRefresh(cfg, d, d');
  }

  lemma {:induction false} SendAllCycle(cfg: Config, dev: D.Device, r: RefreshCmd, rank: nat, banks: seq<nat>)
    requires cfg.Valid()
    ensures SendAll(cfg, dev, r, rank, banks).cycle == dev.cycle
    decreases |banks|
  {
    hide Handle, Raise;
    if banks != [] {
      var c := RefreshIssue(r, rank, banks[0]);
      SendAllCycle(cfg, if D.CanSend(dev, banks[0], c.kind) then D.Send(cfg.p, cfg.g, dev, banks[0], c, true) else dev, r, rank, banks[1..]);
    }
  }

  lemma TickClosed(p: Params, bk: Bank, now: nat)
    requires p.Valid() && (bk.state.Idle? ==> !bk.rowOpen)
    ensures var bk' := Tick(p, bk, now); bk'.state.Idle? ==> !bk'.rowOpen
  {
  }

  lemma InitialInv(cfg: Config)
    requires cfg.Valid()
    ensures Inv(cfg, Initial(cfg))
  {
    assert BanksPerRank(cfg.g) >= 1;
  }
}
