/** What every cycle of the driver keeps: the timing theorem of the banks and the
    four-activate window. */
module DriverSafety {
  import opened Dram
  import D = Device
  import opened BankMachine
  import opened DriverMachine

  // ---- Counting activates

  ghost predicate IsAct(g: Geometry, e: D.Issue, rank: nat, lo: int, hi: int)
    requires g.Valid()
  {
    e.cmd.kind.ACT? && g.RankOf(e.bank) == rank && lo <= e.cycle <= hi
  }

  /** The number of ACTs sent to a rank in the cycles `lo` to `hi`. */
  ghost function Acts(g: Geometry, trace: seq<D.Issue>, rank: nat, lo: int, hi: int): nat
    requires g.Valid()
  {
    if trace == [] then 0
    else Acts(g, trace[..|trace| - 1], rank, lo, hi) + if IsAct(g, trace[|trace| - 1], rank, lo, hi) then 1 else 0
  }

  /** ACTs sent to a rank in the nFAW cycles that end with cycle `t`. */
  ghost function Window(cfg: Config, trace: seq<D.Issue>, rank: nat, t: int): nat
    requires cfg.Valid()
  {
    Acts(cfg.g, trace, rank, t - cfg.p.nFAW + 1, t)
  }

  /** Any nFAW consecutive cycles hold at most four ACTs per rank, and one cycle at most one. */
  ghost predicate FourActivate(cfg: Config, trace: seq<D.Issue>)
    requires cfg.Valid()
  {
    && (forall rank: nat, t: int :: Window(cfg, trace, rank, t) <= 4)
    && (forall rank: nat, t: int :: Acts(cfg.g, trace, rank, t, t) <= 1)
  }

  ghost predicate Past(trace: seq<D.Issue>, now: nat) {
    forall i | 0 <= i < |trace| :: trace[i].cycle <= now
  }

  lemma {:induction false} ActsSplit(g: Geometry, trace: seq<D.Issue>, rank: nat, lo: int, mid: int, hi: int)
    requires g.Valid() && lo <= mid + 1 <= hi + 1
    ensures Acts(g, trace, rank, lo, hi) == Acts(g, trace, rank, lo, mid) + Acts(g, trace, rank, mid + 1, hi)
  {
    if trace != [] { ActsSplit(g, trace[..|trace| - 1], rank, lo, mid, hi); }
  }

  lemma {:induction false} ActsAfter(g: Geometry, trace: seq<D.Issue>, rank: nat, lo: int, hi: int, now: nat)
    requires g.Valid() && Past(trace, now) && now < lo
    ensures Acts(g, trace, rank, lo, hi) == 0
  {
    if trace != [] { ActsAfter(g, trace[..|trace| - 1], rank, lo, hi, now); }
  }

  lemma {:induction false} ActsEmpty(g: Geometry, trace: seq<D.Issue>, rank: nat, lo: int, hi: int)
    requires g.Valid() && hi < lo
    ensures Acts(g, trace, rank, lo, hi) == 0
  {
    if trace != [] { ActsEmpty(g, trace[..|trace| - 1], rank, lo, hi); }
  }

  /** A later and shorter range holds no more ACTs when nothing lies past `now`. */
  lemma ActsWithin(g: Geometry, trace: seq<D.Issue>, rank: nat, lo: int, hi: int, lo': int, now: nat)
    requires g.Valid() && Past(trace, now) && lo' <= lo && now <= hi
    ensures Acts(g, trace, rank, lo, hi) <= Acts(g, trace, rank, lo', now)
  {
    if now < lo {
      ActsAfter(g, trace, rank, lo, hi, now);
    } else {
      ActsSplit(g, trace, rank, lo, now, hi);
      ActsAfter(g, trace, rank, now + 1, hi, now);
      ActsSplit(g, trace, rank, lo', lo - 1, now);
    }
  }

  lemma {:induction false} SumIsActs(g: Geometry, trace: seq<D.Issue>, rank: nat, lo: int, s: seq<nat>)
    requires g.Valid()
    requires forall k | 0 <= k < |s| :: s[k] == Acts(g, trace, rank, lo + k, lo + k)
    ensures Sum(s) == Acts(g, trace, rank, lo, lo + |s| - 1)
  {
    if s == [] {
      ActsEmpty(g, trace, rank, lo, lo - 1);
    } else {
      var n := |s| - 1;
      SumIsActs(g, trace, rank, lo, s[..n]);
      ActsSplit(g, trace, rank, lo, lo + n - 1, lo + n);
    }
  }

  // ---- The activate trackers

  /** Cycle described by entry `k` of an activate tracker. */
  ghost function TrackedCycle(cfg: Config, now: nat, k: nat): int { now - (cfg.p.nFAW - 1) + k }

  ghost predicate Tracks(cfg: Config, d: Driver, rank: nat)
    requires cfg.Valid() && rank < |d.faw| && rank < |d.actIssued|
  {
    var now, trace := d.dev.cycle, d.dev.trace;
    && (forall k: nat | k < |d.faw[rank]| ::
          d.faw[rank][k] == Acts(cfg.g, trace, rank, TrackedCycle(cfg, now, k), TrackedCycle(cfg, now, k)))
    && (if d.actIssued[rank] then 1 else 0) == Acts(cfg.g, trace, rank, now, now)
  }

  /** What holds between any two phases of a cycle. */
  ghost predicate Inv(cfg: Config, d: Driver)
    requires cfg.Valid()
  {
    && Shaped(cfg, d)
    && D.Valid(cfg.p, cfg.g, d.dev)
    && Past(d.dev.trace, d.dev.cycle) && D.Late(d.dev.trace)
    && (forall rank | 0 <= rank < cfg.g.NumRanks() :: Tracks(cfg, d, rank))
    && FourActivate(cfg, d.dev.trace)
  }

  /** Between `update` and `run` no rank has sent an ACT and no bank is blocked. */
  ghost predicate Quiet(d: Driver) {
    && d.dev.cycle >= 1
    && (forall r | 0 <= r < |d.actIssued| :: !d.actIssued[r])
    && (forall b | 0 <= b < |d.blocked| :: !d.blocked[b])
  }

  lemma TrackedSum(cfg: Config, d: Driver, rank: nat)
    requires cfg.Valid() && Inv(cfg, d) && rank < cfg.g.NumRanks()
    ensures Sum(d.faw[rank]) + (if d.actIssued[rank] then 1 else 0) == Window(cfg, d.dev.trace, rank, d.dev.cycle)
  {
    hide Shaped, D.Valid, FourActivate;
    var g, trace, now := cfg.g, d.dev.trace, d.dev.cycle;
    ShapedFaw(cfg, d);
    assert Tracks(cfg, d, rank);
    var lo := now - cfg.p.nFAW + 1;
    assert forall k: nat | k < |d.faw[rank]| :: TrackedCycle(cfg, now, k) == lo + k;
    SumIsActs(g, trace, rank, lo, d.faw[rank]);
    ActsSplit(g, trace, rank, lo, now - 1, now);
  }

  // ---- One command sent

  lemma ActsSnoc(g: Geometry, trace: seq<D.Issue>, e: D.Issue, rank: nat, lo: int, hi: int)
    requires g.Valid()
    ensures Acts(g, trace + [e], rank, lo, hi) == Acts(g, trace, rank, lo, hi) + if IsAct(g, e, rank, lo, hi) then 1 else 0
  {
    assert (trace + [e])[..|trace|] == trace;
  }

  /** An ACT sent while the window has room and the cycle has none yet. */
  lemma ActKeepsWindow(cfg: Config, trace: seq<D.Issue>, e: D.Issue, now: nat)
    requires cfg.Valid() && FourActivate(cfg, trace) && Past(trace, now) && e.cycle == now
    requires e.cmd.kind.ACT? ==> var r := cfg.g.RankOf(e.bank);
               Window(cfg, trace, r, now) <= 3 && Acts(cfg.g, trace, r, now, now) == 0
    ensures FourActivate(cfg, trace + [e]) && Past(trace + [e], now)
  {
    forall rank: nat, t: int
      ensures Window(cfg, trace + [e], rank, t) <= 4 && Acts(cfg.g, trace + [e], rank, t, t) <= 1
    {
      var lo := t - cfg.p.nFAW + 1;
      ActsSnoc(cfg.g, trace, e, rank, lo, t);
      ActsSnoc(cfg.g, trace, e, rank, t, t);
      assert Window(cfg, trace, rank, t) <= 4 && Acts(cfg.g, trace, rank, t, t) <= 1;
      if IsAct(cfg.g, e, rank, lo, t) {
        ActsWithin(cfg.g, trace, rank, lo, t, now - cfg.p.nFAW + 1, now);
      }
    }
  }

  /** The trackers after a command: only an ACT changes the count, and only of this cycle. */
  lemma SendTracks(cfg: Config, d: Driver, d': Driver, e: D.Issue, rank: nat)
    requires cfg.Valid() && rank < |d.faw| && rank < |d.actIssued| && Tracks(cfg, d, rank)
    requires d'.faw == d.faw && d'.dev.cycle == d.dev.cycle == e.cycle && d'.dev.trace == d.dev.trace + [e]
    requires |d'.actIssued| == |d.actIssued| && |d.faw[rank]| == cfg.p.nFAW - 1
    requires d'.actIssued[rank] == (d.actIssued[rank] || (e.cmd.kind.ACT? && cfg.g.RankOf(e.bank) == rank))
    requires e.cmd.kind.ACT? && cfg.g.RankOf(e.bank) == rank ==> !d.actIssued[rank]
    ensures Tracks(cfg, d', rank)
  {
    var now, trace := d.dev.cycle, d.dev.trace;
    ActsSnoc(cfg.g, trace, e, rank, now, now);
    forall k: nat | k < |d.faw[rank]|
      ensures d.faw[rank][k] == Acts(cfg.g, d'.dev.trace, rank, TrackedCycle(cfg, now, k), TrackedCycle(cfg, now, k))
    {
      ActsSnoc(cfg.g, trace, e, rank, TrackedCycle(cfg, now, k), TrackedCycle(cfg, now, k));
    }
  }

  /** Any driver change that touches neither the banks nor the trackers. */
  lemma SameDevice(cfg: Config, d: Driver, d': Driver)
    requires cfg.Valid() && Inv(cfg, d) && Shaped(cfg, d')
    requires d'.dev == d.dev && d'.faw == d.faw && d'.actIssued == d.actIssued
    ensures Inv(cfg, d')
  {
    hide D.Valid, FourActivate, Shaped, Acts;
    ShapedFaw(cfg, d);
    forall rank | 0 <= rank < cfg.g.NumRanks()
      ensures Tracks(cfg, d', rank)
    {
      assert Tracks(cfg, d, rank);
    }
  }

  lemma ShapedFaw(cfg: Config, d: Driver)
    requires cfg.Valid() && Shaped(cfg, d)
    ensures |d.faw| == |d.actIssued| == cfg.g.NumRanks()
    ensures forall rank | 0 <= rank < |d.faw| :: |d.faw[rank]| == cfg.p.nFAW - 1
  {
  }

  // ---- Phases

  lemma InitialInv(cfg: Config)
    requires cfg.Valid()
    ensures Inv(cfg, Initial(cfg))
  {
    assert BanksPerRank(cfg.g) >= 1;
    D.InitialValid(cfg.p, cfg.g);
  }

  lemma UpdateQuiet(cfg: Config, d: Driver)
    requires cfg.Valid() && Shaped(cfg, d)
    ensures Quiet(Update(cfg, d))
  {
    hide Queued, RefreshShaped;
  }

  lemma UpdateTracks(cfg: Config, d: Driver, rank: nat)
    requires cfg.Valid() && Shaped(cfg, d) && rank < cfg.g.NumRanks()
    requires Tracks(cfg, d, rank) && Past(d.dev.trace, d.dev.cycle)
    ensures Tracks(cfg, Update(cfg, d), rank)
  {
    hide Queued, RefreshShaped;
    var d', now, n := Update(cfg, d), d.dev.cycle, cfg.p.nFAW - 1;
    ActsAfter(cfg.g, d.dev.trace, rank, now + 1, now + 1, now);
    forall k: nat | k < n
      ensures d'.faw[rank][k] ==
              Acts(cfg.g, d.dev.trace, rank, TrackedCycle(cfg, now + 1, k), TrackedCycle(cfg, now + 1, k))
    {
      if k < n - 1 {
        assert d'.faw[rank][k] == d.faw[rank][k + 1];
        assert TrackedCycle(cfg, now + 1, k) == TrackedCycle(cfg, now, k + 1);
      } else {
        assert TrackedCycle(cfg, now + 1, k) == now;
      }
    }
  }

  lemma UpdateInv(cfg: Config, d: Driver)
    requires cfg.Valid() && Inv(cfg, d)
    ensures Inv(cfg, Update(cfg, d)) && Quiet(Update(cfg, d))
  {
    UpdateShaped(cfg, d);
    UpdateQuiet(cfg, d);
    D.ClockValid(cfg.p, cfg.g, d.dev);
    hide Shaped, D.Valid, FourActivate, Quiet, Tracks;
    ShapedFaw(cfg, d);
    ShapedFaw(cfg, Update(cfg, d));
    forall rank | 0 <= rank < cfg.g.NumRanks()
      ensures Tracks(cfg, Update(cfg, d), rank)
    {
      UpdateTracks(cfg, d, rank);
    }
  }

  lemma RequestInv(cfg: Config, d: Driver, c: Cmd)
    requires cfg.Valid() && Inv(cfg, d) && Queued(cfg, c)
    ensures var d' := IsCmdAllowed(cfg, d, c).0;
            Inv(cfg, d') && d'.dev == d.dev && (Quiet(d) ==> Quiet(d'))
    ensures var d' := Push(cfg, d, c).0;
            Inv(cfg, d') && d'.dev == d.dev && (Quiet(d) ==> Quiet(d'))
  {
    RequestShaped(cfg, d, c);
    SameDevice(cfg, d, IsCmdAllowed(cfg, d, c).0);
    SameDevice(cfg, d, Push(cfg, d, c).0);
    hide Inv, Shaped;
  }

  lemma RequestShaped(cfg: Config, d: Driver, c: Cmd)
    requires cfg.Valid() && Shaped(cfg, d) && Queued(cfg, c)
    ensures Shaped(cfg, IsCmdAllowed(cfg, d, c).0) && Shaped(cfg, Push(cfg, d, c).0)
  {
    hide RefreshShaped;
  }

  /** The command bus that an ACT of this pass occupies. */
  ghost predicate BusHeld(cfg: Config, d: Driver)
    requires cfg.Valid() && Shaped(cfg, d)
  {
    && d.dev.cycle >= 1
    && forall r | 0 <= r < cfg.g.NumRanks() && cfg.g.ChannelOf(r) < cfg.g.channels ::
         d.actIssued[r] ==> d.rowBus[cfg.g.ChannelOf(r)] > 0
  }

  lemma MarkInv(cfg: Config, d: Driver, i: nat)
    requires cfg.Valid() && Inv(cfg, d) && i < |d.inputQ|
    ensures Inv(cfg, Mark(cfg, d, i))
  {
    SameDevice(cfg, d, Mark(cfg, d, i));
  }

  lemma SentShaped(cfg: Config, d: Driver, i: nat)
    requires cfg.Valid() && Shaped(cfg, d) && i < |d.inputQ|
    requires D.CanSend(d.dev, d.inputQ[i].bank, d.inputQ[i].kind)
    ensures Shaped(cfg, Sent(cfg, d, i))
    ensures Shaped(cfg, d.(inputQ := Remove(d.inputQ, i)))
  {
    hide RefreshShaped, Queued;
    assert Queued(cfg, d.inputQ[i]);
    QueuedFacts(cfg, d.inputQ[i]);
    assert forall c | c in Remove(d.inputQ, i) :: c in d.inputQ;
  }

  lemma QueuedFacts(cfg: Config, c: Cmd)
    requires cfg.Valid() && Queued(cfg, c)
    ensures c.rank < cfg.g.NumRanks() && c.channel < cfg.g.channels && c.bank < cfg.g.NumBanks()
    ensures cfg.g.RankOf(c.bank) == c.rank && cfg.g.ChannelOf(c.rank) == c.channel
  {
  }

  lemma SentInv(cfg: Config, d: Driver, i: nat)
    requires cfg.Valid() && Inv(cfg, d) && BusHeld(cfg, d) && i < |d.inputQ|
    requires var c := d.inputQ[i];
      && D.CanSend(d.dev, c.bank, c.kind) && BusFree(d, c.kind, c.channel)
      && (c.kind.ACT? ==> Sum(d.faw[c.rank]) < 4)
    ensures Inv(cfg, Sent(cfg, d, i)) && BusHeld(cfg, Sent(cfg, d, i))
  {
    var c, d' := d.inputQ[i], Sent(cfg, d, i);
    SentShaped(cfg, d, i);
    D.SendValid(cfg.p, cfg.g, d.dev, c.bank, c, false);
    QueuedFacts(cfg, c);
    hide D.Valid, FourActivate, Queued, RefreshShaped, Handle, Raise, Acts, Sum, Tracks;
    var e := d'.dev.trace[|d.dev.trace|];
    assert d'.dev.trace == d.dev.trace + [e];
    if c.kind.ACT? {
      assert !d.actIssued[c.rank];
      TrackedSum(cfg, d, c.rank);
      TracksNow(cfg, d, c.rank);
    }
    ActKeepsWindow(cfg, d.dev.trace, e, d.dev.cycle);
    ShapedFaw(cfg, d);
    forall rank | 0 <= rank < cfg.g.NumRanks()
      ensures Tracks(cfg, d', rank)
    {
      SendTracks(cfg, d, d', e, rank);
    }
  }

  lemma TracksNow(cfg: Config, d: Driver, rank: nat)
    requires cfg.Valid() && Inv(cfg, d) && rank < cfg.g.NumRanks()
    ensures (if d.actIssued[rank] then 1 else 0) == Acts(cfg.g, d.dev.trace, rank, d.dev.cycle, d.dev.cycle)
  {
    hide D.Valid, FourActivate, Acts;
    assert Tracks(cfg, d, rank);
  }

  lemma SendStepInv(cfg: Config, d: Driver, i: nat, counts: seq<nat>)
    requires cfg.Valid() && Inv(cfg, d) && BusHeld(cfg, d) && i < |d.inputQ| && counts == ActCounts(d)
    ensures
      var s := SendStep(cfg, d, i, counts);
      Shaped(cfg, s.d) && Inv(cfg, s.d) && BusHeld(cfg, s.d) && ActCounts(s.d) == counts
    ensures Decide(cfg, d, i, counts).Go? && d.inputQ[i].kind.ACT? ==> !d.actIssued[d.inputQ[i].rank]
  {
    hide D.Valid, FourActivate, Tracks, Sum;
    MarkInv(cfg, d, i);
    var d1 := Mark(cfg, d, i);
    match Decide(cfg, d, i, counts)
    case Skip =>
    case Halt =>
    case Drop =>
      SendStepShaped(cfg, d, i, counts);
      SameDevice(cfg, d1, SendStep(cfg, d, i, counts).d);
    case Go =>
      SentInv(cfg, d1, i);
  }

  lemma {:induction false} SendFromInv(cfg: Config, d: Driver, i: nat, counts: seq<nat>)
    requires cfg.Valid() && Inv(cfg, d) && BusHeld(cfg, d) && i <= |d.inputQ| && counts == ActCounts(d)
    ensures Inv(cfg, SendFrom(cfg, d, i, counts))
    decreases |d.inputQ| - i
  {
    hide D.Valid, FourActivate, Tracks, BusHeld, SendStep, RefreshShaped, Queued;
    if i < |d.inputQ| {
      SendStepShaped(cfg, d, i, counts);
      SendStepInv(cfg, d, i, counts);
      var s := SendStep(cfg, d, i, counts);
      if !s.stop { SendFromInv(cfg, s.d, s.i, counts); }
    }
  }

  /** A refresh-engine command to one bank. */
  lemma RefreshSendInv(cfg: Config, d: Driver, bank: nat, c: Cmd)
    requires cfg.Valid() && Inv(cfg, d) && D.CanSend(d.dev, bank, c.kind) && !c.kind.ACT? && d.dev.cycle >= 1
    ensures Inv(cfg, d.(dev := D.Send(cfg.p, cfg.g, d.dev, bank, c, true)))
  {
    var d' := d.(dev := D.Send(cfg.p, cfg.g, d.dev, bank, c, true));
    D.SendValid(cfg.p, cfg.g, d.dev, bank, c, true);
    hide D.Valid, FourActivate, Queued, RefreshShaped, Handle, Raise, Acts, Tracks;
    var e := d'.dev.trace[|d.dev.trace|];
    assert d'.dev.trace == d.dev.trace + [e];
    ActKeepsWindow(cfg, d.dev.trace, e, d.dev.cycle);
    ShapedFaw(cfg, d);
    forall rank | 0 <= rank < cfg.g.NumRanks()
      ensures Tracks(cfg, d', rank)
    {
      SendTracks(cfg, d, d', e, rank);
    }
  }

  lemma {:induction false} SendAllInv(cfg: Config, d: Driver, r: RefreshCmd, rank: nat, banks: seq<nat>)
    requires cfg.Valid() && Inv(cfg, d) && !r.kind.ACT? && d.dev.cycle >= 1
    ensures var d' := d.(dev := SendAll(cfg, d.dev, r, rank, banks)); Inv(cfg, d') && d'.dev.cycle == d.dev.cycle
    decreases |banks|
  {
    hide Inv;
    if banks == [] {
      assert d.(dev := d.dev) == d;
    } else {
      var c := RefreshIssue(r, rank, banks[0]);
      if D.CanSend(d.dev, banks[0], c.kind) {
        RefreshSendInv(cfg, d, banks[0], c);
        SendAllInv(cfg, d.(dev := D.Send(cfg.p, cfg.g, d.dev, banks[0], c, true)), r, rank, banks[1..]);
      } else {
        SendAllInv(cfg, d, r, rank, banks[1..]);
      }
    }
  }

  lemma SendRefreshInv(cfg: Config, d: Driver, rank: nat)
    requires cfg.Valid() && Inv(cfg, d) && Quiet(d) && rank < cfg.g.NumRanks() && d.refreshQ[rank] != []
    ensures Inv(cfg, SendRefresh(cfg, d, rank)) && Quiet(SendRefresh(cfg, d, rank))
  {
    hide D.Valid, FourActivate, Tracks;
    var r := d.refreshQ[rank][0];
    assert RefreshShaped(cfg, rank, r);
    var d1 := d.(dev := SendAll(cfg, d.dev, r, rank, r.banks));
    SendAllInv(cfg, d, r, rank, r.banks);
    SendRefreshShaped(cfg, d, rank);
    hide Shaped, RefreshShaped;
    if SendRefresh(cfg, d, rank) != d { SameDevice(cfg, d1, SendRefresh(cfg, d, rank)); }
  }

  lemma RefreshRankInv(cfg: Config, d: Driver, rank: nat)
    requires cfg.Valid() && Inv(cfg, d) && Quiet(d) && rank < cfg.g.NumRanks()
    ensures Inv(cfg, RefreshRank(cfg, d, rank)) && Quiet(RefreshRank(cfg, d, rank))
  {
    hide D.Valid, FourActivate, Tracks, RefreshTargets, RefreshShaped, Queued, BanksPerRank;
    hide OpenOnes, ReopenActs, RefreshChannel, NextBank, SendRefresh, Geometry.NumBanks, Geometry.NumRanks;
    CreateShaped(cfg, d, rank);
    var d1 := if d.refi[rank] > 0 then d.(refi := d.refi[rank := d.refi[rank] - 1])
              else CreateRefresh(cfg, d, rank).(refi := d.refi[rank := cfg.p.nREFI]);
    SameDevice(cfg, d, d1);
    if d1.refreshQ[rank] != [] { SendRefreshInv(cfg, d1, rank); }
  }

  lemma {:induction false} RefreshFromInv(cfg: Config, d: Driver, rank: nat)
    requires cfg.Valid() && Inv(cfg, d) && Quiet(d) && rank <= cfg.g.NumRanks()
    ensures Inv(cfg, RefreshFrom(cfg, d, rank)) && Quiet(RefreshFrom(cfg, d, rank))
    decreases cfg.g.NumRanks() - rank
  {
    hide Shaped, RefreshRank, Quiet, D.Valid, FourActivate, Tracks;
    if rank < cfg.g.NumRanks() {
      RefreshRankInv(cfg, d, rank);
      RefreshFromInv(cfg, RefreshRank(cfg, d, rank), rank + 1);
    }
  }

  lemma RunRefreshInv(cfg: Config, d: Driver)
    requires cfg.Valid() && Inv(cfg, d) && Quiet(d)
    ensures Inv(cfg, RunRefresh(cfg, d)) && Quiet(RunRefresh(cfg, d))
  {
    ReleasedShaped(cfg, d);
    hide Shaped, D.Valid, FourActivate, Tracks;
    SameDevice(cfg, d, Released(d));
    if cfg.useRefresh { RefreshFromInv(cfg, Released(d), 0); }
  }

  lemma ReleasedShaped(cfg: Config, d: Driver)
    requires cfg.Valid() && Shaped(cfg, d)
    ensures Shaped(cfg, Released(d))
  {
    hide RefreshShaped, Queued;
  }

  lemma RunInv(cfg: Config, d: Driver)
    requires cfg.Valid() && Inv(cfg, d) && Quiet(d)
    ensures Inv(cfg, Run(cfg, d))
  {
    RunRefreshInv(cfg, d);
    var d1 := RunRefresh(cfg, d);
    assert BusHeld(cfg, d1);
    hide D.Valid, FourActivate, Tracks, BusHeld, RunRefresh, Shaped;
    SendFromInv(cfg, d1, 0, ActCounts(d1));
  }
}
