/** When refresh starves the requests: if refreshing takes longer than the refresh interval, the first
    refresh of a rank is the end of its requests. */
module Starvation {
  import opened Arith
  import opened Dram
  import opened BankMachine
  import D = Device
  import opened DataBus
  import opened DriverMachine
  import Refresh
  import RefreshPace
  import Conv = Converter
  import opened Controller
  import opened EndToEnd

  // ---- A refreshing bank takes nothing

  /** The REF has been over for a while, or the bank is busy with it. */
  ghost predicate RefBusy(p: Params, bk: Bank, now: nat, e: D.Issue) {
    || e.cycle + p.nRFC <= now
    || (bk.Holds(REF) && bk.state == Idle(1) && e.cycle == now)
    || (bk.state.Refreshing? && bk.received.None? && bk.state.timer + now == e.cycle + p.nRFC - 1)
  }

  ghost predicate AllRefBusy(p: Params, d: D.Device) {
    forall i | 0 <= i < |d.trace| && d.trace[i].cmd.kind.REF? :: d.trace[i].bank < |d.banks| && RefBusy(p, d.banks[d.trace[i].bank], d.cycle, d.trace[i])
  }

  /** Every command of a bank comes nRFC cycles or more after each of its earlier REFs. */
  predicate AfterRefs(p: Params, trace: seq<D.Issue>) {
    forall i, j | 0 <= i < j < |trace| && trace[i].cmd.kind.REF? && trace[i].bank == trace[j].bank :: trace[i].cycle + p.nRFC <= trace[j].cycle
  }

  predicate Sorted(d: D.Device) {
    (forall i, j | 0 <= i < j < |d.trace| :: d.trace[i].cycle <= d.trace[j].cycle) && forall i | 0 <= i < |d.trace| :: d.trace[i].cycle <= d.cycle
  }

  lemma TickBusy(p: Params, bk: Bank, now: nat, e: D.Issue)
    requires p.Valid() && RefBusy(p, bk, now, e)
    ensures RefBusy(p, Tick(p, bk, now + 1), now + 1, e)
  {
  }

  lemma SendBusy(p: Params, g: Geometry, d: D.Device, bank: nat, c: Cmd, refresh: bool)
    requires p.Valid() && g.Valid() && D.CanSend(d, bank, c.kind) && AllRefBusy(p, d) && AfterRefs(p, d.trace) && Sorted(d)
    ensures var d' := D.Send(p, g, d, bank, c, refresh); AllRefBusy(p, d') && AfterRefs(p, d'.trace) && Sorted(d')
  {
    hide Geometry.Relation;
    var d', n := D.Send(p, g, d, bank, c, refresh), |d.trace|;
    forall i | 0 <= i < |d'.trace| && d'.trace[i].cmd.kind.REF?
      ensures RefBusy(p, d'.banks[d'.trace[i].bank], d'.cycle, d'.trace[i])
    {
      if i < n { assert d'.trace[i] == d.trace[i]; }
    }
    forall i | 0 <= i < n && d.trace[i].cmd.kind.REF? && d.trace[i].bank == bank
      ensures d.trace[i].cycle + p.nRFC <= d.cycle
    {
      assert RefBusy(p, d.banks[bank], d.cycle, d.trace[i]);
    }
  }

  lemma ClockBusy(p: Params, d: D.Device)
    requires p.Valid() && AllRefBusy(p, d) && Sorted(d)
    ensures AllRefBusy(p, D.Clock(p, d)) && Sorted(D.Clock(p, d))
  {
    hide Tick, RefBusy;
    forall i | 0 <= i < |d.trace| && d.trace[i].cmd.kind.REF?
      ensures RefBusy(p, Tick(p, d.banks[d.trace[i].bank], d.cycle + 1), d.cycle + 1, d.trace[i])
    {
      TickBusy(p, d.banks[d.trace[i].bank], d.cycle, d.trace[i]);
    }
  }

  lemma {:induction false} RunAfterRefs(p: Params, g: Geometry, ops: seq<D.Op>)
    requires p.Valid() && g.Valid()
    ensures var d := D.Run(p, g, ops); AllRefBusy(p, d) && AfterRefs(p, d.trace) && Sorted(d)
  {
    if ops != [] {
      var n := |ops| - 1;
      RunAfterRefs(p, g, ops[..n]);
      hide AllRefBusy, AfterRefs, Sorted, Tick, Raise, Handle, Geometry.Relation;
      var d := D.Run(p, g, ops[..n]);
      match ops[n] {
        case Edge => ClockBusy(p, d);
        case Attempt(bank, c, refresh) =>
          if D.CanSend(d, bank, c.kind) { SendBusy(p, g, d, bank, c, refresh); }
      }
    }
  }

  // ---- Creations in the history

  /** The creation falls between the commands before it and those after it; of its own cycle, only
      refresh commands may come before it. */
  predicate DatedAt(c: Creation, dev: D.Device) {
    && c.at <= |dev.trace| && c.cycle <= dev.cycle
    && (forall i | 0 <= i < c.at :: dev.trace[i].cycle < c.cycle || (dev.trace[i].refresh && dev.trace[i].cycle == c.cycle))
    && (forall i | c.at <= i < |dev.trace| :: dev.trace[i].cycle >= c.cycle)
  }

  predicate Dated(d: Driver) { forall k | 0 <= k < |d.created| :: DatedAt(d.created[k], d.dev) }

  /** In the current cycle only refresh commands were sent. */
  predicate OnlyRefresh(dev: D.Device) {
    forall i | 0 <= i < |dev.trace| :: dev.trace[i].cycle < dev.cycle || (dev.trace[i].refresh && dev.trace[i].cycle == dev.cycle)
  }

  /** The trace goes on in the current cycle. */
  predicate Extends(dev: D.Device, dev': D.Device) {
    && dev'.cycle == dev.cycle && dev.trace <= dev'.trace
    && forall i | |dev.trace| <= i < |dev'.trace| :: dev'.trace[i].cycle == dev.cycle
  }

  lemma ExtendsDated(d: Driver, d': Driver)
    requires Dated(d) && Extends(d.dev, d'.dev) && d'.created == d.created
    ensures Dated(d')
  {
    forall k | 0 <= k < |d'.created|
      ensures DatedAt(d'.created[k], d'.dev)
    {
      assert DatedAt(d.created[k], d.dev);
    }
  }

  lemma StepExtends(cfg: Config, d: Driver, i: nat, counts: seq<nat>)
    requires cfg.Valid() && Shaped(cfg, d) && i < |d.inputQ| && |counts| == cfg.g.NumRanks()
    ensures var d' := SendStep(cfg, d, i, counts).d; Extends(d.dev, d'.dev) && d'.created == d.created
  {
    hide Handle, Raise, Geometry.Relation, RefreshShaped, Geometry.NumBanks, Geometry.NumRanks;
  }

  lemma {:induction false} SendFromDated(cfg: Config, d: Driver, i: nat, counts: seq<nat>)
    requires cfg.Valid() && Shaped(cfg, d) && i <= |d.inputQ| && |counts| == cfg.g.NumRanks() && Dated(d)
    ensures Dated(SendFrom(cfg, d, i, counts))
    decreases |d.inputQ| - i
  {
    hide Shaped, SendStep, Dated, Extends;
    if i < |d.inputQ| {
      SendStepShaped(cfg, d, i, counts);
      StepExtends(cfg, d, i, counts);
      var s := SendStep(cfg, d, i, counts);
      ExtendsDated(d, s.d);
      if !s.stop { SendFromDated(cfg, s.d, s.i, counts); }
    }
  }

  lemma SendRefreshDated(cfg: Config, d: Driver, rank: nat)
    requires cfg.Valid() && Shaped(cfg, d) && rank < |d.refreshQ| && d.refreshQ[rank] != [] && Dated(d) && OnlyRefresh(d.dev)
    ensures var d' := SendRefresh(cfg, d, rank); Dated(d') && OnlyRefresh(d'.dev)
  {
    hide Shaped, SendRefresh, Dated, OnlyRefresh;
    Refresh.RefreshAtomic(cfg, d, rank);
    var d', r := SendRefresh(cfg, d, rank), d.refreshQ[rank][0];
    SendRefreshSame(cfg, d, rank);
    hide Allowed, Handle;
    if d' != d {
      BatchExtends(d.dev, d'.dev, r, rank);
      ExtendsDated(d, d');
    }
  }

  lemma SendRefreshSame(cfg: Config, d: Driver, rank: nat)
    requires cfg.Valid() && Shaped(cfg, d) && rank < |d.refreshQ| && d.refreshQ[rank] != []
    ensures var d' := SendRefresh(cfg, d, rank); d'.created == d.created && d'.dev.cycle == d.dev.cycle
  {
    hide SendAll, Queued, RefreshShaped;
    var r := d.refreshQ[rank][0];
    Refresh.SendAllCycle(cfg, d.dev, r, rank, r.banks);
  }

  lemma BatchExtends(dev: D.Device, dev': D.Device, r: RefreshCmd, rank: nat)
    requires (forall i | 0 <= i < |r.banks| :: r.banks[i] < |dev.banks|) && OnlyRefresh(dev)
    requires dev'.cycle == dev.cycle && dev'.trace == dev.trace + Refresh.Batch(dev, r, rank, r.banks)
    ensures Extends(dev, dev') && OnlyRefresh(dev')
  {
    var t, more := dev.trace, Refresh.Batch(dev, r, rank, r.banks);
    assert forall k | 0 <= k < |more| :: more[k].refresh && more[k].cycle == dev.cycle;
    assert forall k | |t| <= k < |t + more| :: (t + more)[k] == more[k - |t|];
  }

  lemma RankDated(cfg: Config, d: Driver, rank: nat)
    requires cfg.Valid() && Shaped(cfg, d) && rank < cfg.g.NumRanks() && Dated(d) && OnlyRefresh(d.dev)
    ensures var d' := RefreshRank(cfg, d, rank); Dated(d') && OnlyRefresh(d'.dev)
  {
    hide RefreshTargets, Queued, RefreshShaped, SendRefresh, OpenOnes, ReopenActs;
    CreateShaped(cfg, d, rank);
    var d1 := if d.refi[rank] > 0 then d.(refi := d.refi[rank := d.refi[rank] - 1])
              else CreateRefresh(cfg, d, rank).(refi := d.refi[rank := cfg.p.nREFI]);
    assert Dated(d1) && d1.dev == d.dev;
    if d1.refreshQ[rank] != [] { SendRefreshDated(cfg, d1, rank); }
  }

  lemma {:induction false} RefreshFromDated(cfg: Config, d: Driver, rank: nat)
    requires cfg.Valid() && Shaped(cfg, d) && rank <= cfg.g.NumRanks() && Dated(d) && OnlyRefresh(d.dev)
    ensures Dated(RefreshFrom(cfg, d, rank))
    decreases cfg.g.NumRanks() - rank
  {
    hide Dated, OnlyRefresh, Shaped, RefreshRank;
    if rank < cfg.g.NumRanks() {
      RefreshRankShaped(cfg, d, rank);
      RankDated(cfg, d, rank);
      RefreshFromDated(cfg, RefreshRank(cfg, d, rank), rank + 1);
    }
  }

  lemma RunDated(cfg: Config, d: Driver)
    requires cfg.Valid() && Shaped(cfg, d) && Dated(d) && OnlyRefresh(d.dev)
    ensures Dated(Run(cfg, d))
  {
    var d1 := Released(d);
    assert Shaped(cfg, d1) by { hide Queued, RefreshShaped; }
    assert Dated(d1);
    hide Dated, OnlyRefresh, Shaped, RefreshFrom, SendFrom;
    if cfg.useRefresh { RefreshFromDated(cfg, d1, 0); }
    RefreshFromShaped(cfg, d1, 0);
    var d2 := RunRefresh(cfg, d);
    Refresh.FawRanks(cfg, d2);
    SendFromDated(cfg, d2, 0, ActCounts(d2));
  }

  lemma UpdateDated(cfg: Config, d: Driver)
    requires cfg.Valid() && Shaped(cfg, d) && Dated(d) && Sorted(d.dev)
    ensures var d' := Update(cfg, d); Dated(d') && OnlyRefresh(d'.dev)
  {
    hide Tick, Shift, Release, Repeat, Queued, RefreshShaped;
    var d' := Update(cfg, d);
    forall k | 0 <= k < |d'.created|
      ensures DatedAt(d'.created[k], d'.dev)
    {
      assert DatedAt(d.created[k], d.dev);
    }
  }

  lemma SystemRefs(su: Setup, s: System)
    requires su.Valid() && Inv(su, s)
    ensures AfterRefs(su.cfg.p, s.drv.dev.trace) && Sorted(s.drv.dev) && OneByOne(s.drv.dev.trace)
    ensures forall i | 0 <= i < |s.drv.dev.trace| :: s.drv.dev.trace[i].bank < su.cfg.g.NumBanks()
  {
    var p, g, dev := su.cfg.p, su.cfg.g, s.drv.dev;
    assert D.Reached(p, g, dev);
    SafetyShaped(su, s);
    assert |dev.banks| == g.NumBanks();
    hide D.Run, Inv, Shaped;
    var ops: seq<D.Op> :| dev == D.Run(p, g, ops);
    RunAfterRefs(p, g, ops);
    RunOneByOne(p, g, ops);
  }

  lemma {:induction false} RunsDated(su: Setup, inputs: seq<seq<Conv.Txn>>)
    requires su.Valid() && forall i | 0 <= i < |inputs| :: WellFormedAll(su, inputs[i])
    ensures Dated(Runs(su, inputs).drv)
  {
    hide Inv, Cycle, WellFormedAll;
    if inputs != [] {
      var n := |inputs| - 1;
      RunsDated(su, inputs[..n]);
      var s := Runs(su, inputs[..n]);
      SystemRefs(su, s);
      hide Runs, Dated, OnlyRefresh, Run, Update, Shaped, Sorted, AfterRefs, OneByOne;
      var d := CycleDriver(su, s, inputs[n]);
      UpdateDated(su.cfg, s.drv);
      SameDated(Update(su.cfg, s.drv), d);
      RunDated(su.cfg, d);
    }
  }

  lemma SameDated(d: Driver, d': Driver)
    requires Dated(d) && d'.dev == d.dev && d'.created == d.created
    ensures Dated(d')
  {
  }

  // ---- The creations of a rank

  lemma {:induction false} InRank(log: seq<Creation>, rank: nat, c: Creation)
    ensures c in RefreshPace.OfRank(log, rank) <==> c in log && c.rank == rank
  {
    if log != [] {
      var n := |log| - 1;
      InRank(log[..n], rank, c);
      assert log == log[..n] + [log[n]];
    }
  }

  /** After every creation the next one comes nREFI + 1 cycles later. */
  lemma NextCreation(su: Setup, inputs: seq<seq<Conv.Txn>>, k: nat) returns (next: nat)
    requires su.Valid() && su.cfg.useRefresh && forall i | 0 <= i < |inputs| :: WellFormedAll(su, inputs[i])
    requires var d := Runs(su, inputs).drv;
      k < |d.created| && d.created[k].rank < su.cfg.g.NumRanks() && d.created[k].cycle + su.cfg.p.nREFI + 1 <= d.dev.cycle
    ensures var d := Runs(su, inputs).drv;
      next < |d.created| && d.created[next].rank == d.created[k].rank && d.created[next].cycle == d.created[k].cycle + su.cfg.p.nREFI + 1
  {
    hide Runs, Inv, WellFormedAll, RefreshPace.Covered;
    var d := Runs(su, inputs).drv;
    var rank := d.created[k].rank;
    var cs := RefreshPace.OfRank(d.created, rank);
    InRank(d.created, rank, d.created[k]);
    var i :| 0 <= i < |cs| && cs[i] == d.created[k];
    EveryRefreshOnTime(su, inputs, rank, i);
    EveryRefreshOnTime(su, inputs, rank, i + 1);
    Distribute(i, 1, su.cfg.p.nREFI + 1);
    InRank(d.created, rank, cs[i + 1]);
    next :| 0 <= next < |d.created| && d.created[next] == cs[i + 1];
  }

  // ---- Starvation

  /** In every run with all-bank refresh that takes longer than the refresh interval, no request reaches a
      rank after its first refresh commands were created. */
  lemma {:induction false} EveryRankStarves(su: Setup, inputs: seq<seq<Conv.Txn>>, k: nat, j: nat)
    requires su.Valid() && su.cfg.useRefresh && !su.cfg.singleBank && su.cfg.p.nRFC > su.cfg.p.nREFI
    requires forall i | 0 <= i < |inputs| :: WellFormedAll(su, inputs[i])
    requires var d := Runs(su, inputs).drv; k < |d.created| && d.created[k].at <= j < |d.dev.trace|
    ensures var d := Runs(su, inputs).drv; !Refresh.IsRequest(su.cfg.g, d.dev.trace[j], d.created[k].rank)
    decreases Runs(su, inputs).drv.dev.cycle - Runs(su, inputs).drv.created[k].cycle
  {
    hide Runs, Inv, WellFormedAll, Refresh.Held, Refresh.Whole, AfterRefs, Sorted, OneByOne, Refresh.IsRequest;
    var d := Runs(su, inputs).drv;
    var c, trace := d.created[k], d.dev.trace;
    EveryRefreshAtomic(su, inputs);
    RunsDated(su, inputs);
    SystemRefs(su, Runs(su, inputs));
    assert DatedAt(c, d.dev) && Refresh.Held(su.cfg, d, c.rank, c.at);
    if Refresh.IsRequest(su.cfg.g, trace[j], c.rank) {
      var m := RefBefore(su.cfg, d, c, j);
      assert trace[m].cycle >= c.cycle;
      assert trace[j].cycle <= d.dev.cycle by { Latest(d.dev, j); }
      Queues(su, inputs, k);
      var next := NextCreation(su, inputs, k);
      assert DatedAt(d.created[next], d.dev);
      RequestRank(su.cfg.g, trace[j], c.rank);
      EveryRankStarves(su, inputs, next, j);
    }
  }

  lemma Latest(dev: D.Device, j: nat)
    requires Sorted(dev) && j < |dev.trace|
    ensures dev.trace[j].cycle <= dev.cycle
  {
  }

  lemma Queues(su: Setup, inputs: seq<seq<Conv.Txn>>, k: nat)
    requires su.Valid() && forall i | 0 <= i < |inputs| :: WellFormedAll(su, inputs[i])
    requires k < |Runs(su, inputs).drv.created|
    ensures Runs(su, inputs).drv.created[k].rank < su.cfg.g.NumRanks()
  {
    EveryRefreshAtomic(su, inputs);
    SafetyShaped(su, Runs(su, inputs));
    hide Runs, Inv, WellFormedAll;
  }

  /** A request after the creation comes nRFC cycles or more after a REF that came after the creation. */
  lemma RefBefore(cfg: Config, d: Driver, c: Creation, j: nat) returns (m: nat)
    requires cfg.Valid() && !cfg.singleBank && c.rank < |d.refreshQ| && Refresh.Held(cfg, d, c.rank, c.at) && Refresh.Whole(cfg, d.dev.trace)
    requires c.at <= j < |d.dev.trace| && Refresh.IsRequest(cfg.g, d.dev.trace[j], c.rank) && d.dev.trace[j].bank < cfg.g.NumBanks()
    requires AfterRefs(cfg.p, d.dev.trace) && Sorted(d.dev) && OneByOne(d.dev.trace)
    ensures c.at <= m < |d.dev.trace| && d.dev.trace[m].cycle + cfg.p.nRFC <= d.dev.trace[j].cycle
  {
    hide Refresh.Held, Refresh.Whole, AfterRefs, Sorted, OneByOne, Refresh.IsRequest, Geometry.RankOf, Geometry.NumBanks;
    m := FirstRef(cfg, d, c, j);
    RequestRank(cfg.g, d.dev.trace[j], c.rank);
    var i := RefOfBank(cfg, d.dev.trace, m, d.dev.trace[j].bank);
    InOrder(cfg.p, d.dev, m, i, j);
  }

  lemma RequestRank(g: Geometry, e: D.Issue, rank: nat)
    requires g.Valid() && Refresh.IsRequest(g, e, rank)
    ensures g.RankOf(e.bank) == rank && !e.refresh
  {
  }

  lemma FirstRef(cfg: Config, d: Driver, c: Creation, j: nat) returns (m: nat)
    requires cfg.Valid() && c.rank < |d.refreshQ| && Refresh.Held(cfg, d, c.rank, c.at)
    requires c.at <= j < |d.dev.trace| && Refresh.IsRequest(cfg.g, d.dev.trace[j], c.rank)
    ensures c.at <= m < j && d.dev.trace[m].cmd.kind.REF? && cfg.g.RankOf(d.dev.trace[m].bank) == c.rank
  {
    hide Geometry.RankOf;
    var trace := d.dev.trace;
    assert Refresh.Refreshed(cfg.g, trace, c.rank, c.at);
    m :| c.at <= m < |trace| && Refresh.IsRefresh(cfg.g, trace[m], c.rank) && Refresh.NoRequest(cfg.g, trace, c.rank, c.at, m);
    assert m != j;
  }

  lemma RefOfBank(cfg: Config, trace: seq<D.Issue>, m: nat, b: nat) returns (i: nat)
    requires cfg.Valid() && !cfg.singleBank && Refresh.Whole(cfg, trace) && m < |trace| && trace[m].cmd.kind.REF?
    requires b < cfg.g.NumBanks() && cfg.g.RankOf(b) == cfg.g.RankOf(trace[m].bank)
    ensures i < |trace| && trace[i].bank == b && trace[i].cmd.kind.REF? && trace[i].refresh && trace[i].cycle == trace[m].cycle
  {
    hide Geometry.RankOf, Geometry.NumBanks;
    assert Refresh.RefAt(trace, b, trace[m].cycle);
    i :| 0 <= i < |trace| && trace[i].bank == b && trace[i].cmd.kind.REF? && trace[i].cycle == trace[m].cycle;
  }

  lemma InOrder(p: Params, dev: D.Device, m: nat, i: nat, j: nat)
    requires AfterRefs(p, dev.trace) && Sorted(dev) && OneByOne(dev.trace) && m < j < |dev.trace| && i < |dev.trace| && i != j
    requires dev.trace[i].cmd.kind.REF? && dev.trace[i].bank == dev.trace[j].bank && dev.trace[i].cycle == dev.trace[m].cycle
    ensures dev.trace[m].cycle + p.nRFC <= dev.trace[j].cycle
  {
    assert dev.trace[m].cycle <= dev.trace[j].cycle;
    if i > j { assert false; }
  }
}
