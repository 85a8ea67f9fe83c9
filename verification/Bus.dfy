/** The command buses: in no cycle do two commands share a bus. */
module Bus {
  import opened Arith
  import opened Dram
  import opened BankMachine
  import D = Device
  import opened DriverMachine
  import Refresh

  /** Two commands of one cycle on one bus, by the channel that the driver accounts them to: the
      channel's only bus, or its column or row bus. A refresh command for all banks of a rank
      is one command on the bus. */
  predicate Collide(cfg: Config, a: D.Issue, b: D.Issue) {
    && a.cycle == b.cycle && a.cmd.channel == b.cmd.channel
    && (!cfg.dualBus || a.cmd.kind.IsColumn() == b.cmd.kind.IsColumn())
    && !(a.refresh && b.refresh && a.cmd.rank == b.cmd.rank)
  }

  predicate Exclusive(cfg: Config, trace: seq<D.Issue>) {
    forall i, j | 0 <= i < j < |trace| :: !Collide(cfg, trace[i], trace[j])
  }

  /** The bus of a command is taken. */
  predicate Taken(cfg: Config, d: Driver, e: D.Issue) {
    && e.cmd.channel < |d.colBus| && e.cmd.channel < |d.rowBus|
    && (!cfg.dualBus || e.cmd.kind.IsColumn() ==> d.colBus[e.cmd.channel] > 0)
    && (!cfg.dualBus || !e.cmd.kind.IsColumn() ==> d.rowBus[e.cmd.channel] > 0)
  }

  /** Every command of the current cycle holds its bus. */
  predicate Held(cfg: Config, d: Driver) {
    forall i | 0 <= i < |d.dev.trace| && d.dev.trace[i].cycle == d.dev.cycle :: Taken(cfg, d, d.dev.trace[i])
  }

  /** A request is accounted to the channel that its bank is wired to, a refresh command to the
      channel that the refresh engine computes for its rank. */
  predicate OnChannel(cfg: Config, e: D.Issue)
    requires cfg.Valid()
  {
    var rank := cfg.g.RankOf(e.bank);
    rank < cfg.g.NumRanks() && e.cmd.rank == rank && e.cmd.channel == if e.refresh then RefreshChannel(cfg.g, rank) else cfg.g.ChannelOf(rank)
  }

  predicate Inv(cfg: Config, dev: D.Device)
    requires cfg.Valid()
  {
    && Exclusive(cfg, dev.trace)
    && (forall i | 0 <= i < |dev.trace| :: dev.trace[i].cycle <= dev.cycle)
    && (forall i | 0 <= i < |dev.trace| :: OnChannel(cfg, dev.trace[i]))
  }

  /** No command has been sent in the current cycle. */
  predicate NoneNow(dev: D.Device) {
    forall i | 0 <= i < |dev.trace| :: dev.trace[i].cycle < dev.cycle
  }

  lemma StepBus(cfg: Config, d: Driver, i: nat, counts: seq<nat>)
    requires cfg.Valid() && Shaped(cfg, d) && i < |d.inputQ| && |counts| == cfg.g.NumRanks() && Inv(cfg, d.dev) && Held(cfg, d)
    ensures var d' := SendStep(cfg, d, i, counts).d; Inv(cfg, d'.dev) && Held(cfg, d')
  {
    var d', c := SendStep(cfg, d, i, counts).d, d.inputQ[i];
    assert Queued(cfg, c);
    if Decide(cfg, d, i, counts).Go? {
      SentBus(cfg, d, i, counts);
      var t, e := d.dev.trace, d'.dev.trace[|d.dev.trace|];
      assert OnChannel(cfg, e);
      hide Shaped, Decide, SendStep, Queued, OnChannel;
      forall k | 0 <= k < |t|
        ensures !Collide(cfg, t[k], e)
      {
        if t[k].cycle == d.dev.cycle { assert Taken(cfg, d, t[k]); }
      }
      forall k | 0 <= k < |d'.dev.trace| && d'.dev.trace[k].cycle == d'.dev.cycle
        ensures Taken(cfg, d', d'.dev.trace[k])
      {
        if k < |t| { assert Taken(cfg, d, t[k]); }
      }
    } else {
      hide Shaped, D.CanSend, BusFree;
      assert d'.dev == d.dev && d'.colBus == d.colBus && d'.rowBus == d.rowBus;
    }
  }

  /** What sending does to the trace and the buses. */
  lemma SentBus(cfg: Config, d: Driver, i: nat, counts: seq<nat>)
    requires cfg.Valid() && Shaped(cfg, d) && i < |d.inputQ| && |counts| == cfg.g.NumRanks()
    requires Decide(cfg, d, i, counts).Go?
    ensures
      var d', c := SendStep(cfg, d, i, counts).d, d.inputQ[i];
      && d'.dev.cycle == d.dev.cycle && |d'.dev.trace| == |d.dev.trace| + 1
      && d'.dev.trace == d.dev.trace + [d'.dev.trace[|d.dev.trace|]]
      && var e := d'.dev.trace[|d.dev.trace|];
         && e.cycle == d.dev.cycle && e.cmd == c && e.bank == c.bank && !e.refresh
         && c.channel < |d.colBus| == |d'.colBus| && c.channel < |d.rowBus| == |d'.rowBus|
         && BusFree(d, c.kind, c.channel) && Taken(cfg, d', e)
         && (forall ch | 0 <= ch < |d.colBus| :: d.colBus[ch] > 0 ==> d'.colBus[ch] > 0)
         && (forall ch | 0 <= ch < |d.rowBus| :: d.rowBus[ch] > 0 ==> d'.rowBus[ch] > 0)
  {
    hide Handle, Raise, Geometry.Relation, RefreshShaped, Geometry.NumBanks, Geometry.NumRanks;
  }

  lemma {:induction false} SendFromBus(cfg: Config, d: Driver, i: nat, counts: seq<nat>)
    requires cfg.Valid() && Shaped(cfg, d) && i <= |d.inputQ| && |counts| == cfg.g.NumRanks() && Inv(cfg, d.dev) && Held(cfg, d)
    ensures Inv(cfg, SendFrom(cfg, d, i, counts).dev)
    decreases |d.inputQ| - i
  {
    hide Shaped, SendStep, Inv, Held;
    if i < |d.inputQ| {
      SendStepShaped(cfg, d, i, counts);
      StepBus(cfg, d, i, counts);
      var s := SendStep(cfg, d, i, counts);
      if !s.stop { SendFromBus(cfg, s.d, s.i, counts); }
    }
  }

  /** A refresh command that goes out finds its bus free and takes it. */
  lemma SendRefreshBus(cfg: Config, d: Driver, rank: nat)
    requires cfg.Valid() && Shaped(cfg, d) && rank < |d.refreshQ| && d.refreshQ[rank] != [] && Inv(cfg, d.dev) && Held(cfg, d)
    ensures var d' := SendRefresh(cfg, d, rank); Inv(cfg, d'.dev) && Held(cfg, d')
  {
    Refresh.RefreshAtomic(cfg, d, rank);
    RefreshTakes(cfg, d, rank);
    var d', r := SendRefresh(cfg, d, rank), d.refreshQ[rank][0];
    assert RefreshShaped(cfg, rank, r);
    hide Shaped, SendRefresh, Handle, Allowed;
    if d' != d {
      var t, more := d.dev.trace, Refresh.Batch(d.dev, r, rank, r.banks);
      assert d'.dev.trace == t + more;
      assert forall k | 0 <= k < |more| ::
          more[k].refresh && more[k].cycle == d.dev.cycle && more[k].cmd.rank == rank && more[k].cmd.channel == r.channel && more[k].cmd.kind == r.kind;
      assert forall k | 0 <= k < |more| :: OnChannel(cfg, more[k]);
      hide RefreshShaped, OnChannel;
      forall i, j | 0 <= i < j < |t + more|
        ensures !Collide(cfg, (t + more)[i], (t + more)[j])
      {
        if j >= |t| && i < |t| && t[i].cycle == d.dev.cycle { assert Taken(cfg, d, t[i]); }
      }
      forall k | 0 <= k < |d'.dev.trace| && d'.dev.trace[k].cycle == d'.dev.cycle
        ensures Taken(cfg, d', d'.dev.trace[k])
      {
        if k < |t| { assert Taken(cfg, d, t[k]); }
      }
    }
  }

  lemma RefreshTakes(cfg: Config, d: Driver, rank: nat)
    requires cfg.Valid() && Shaped(cfg, d) && rank < |d.refreshQ| && d.refreshQ[rank] != []
    ensures var d', r := SendRefresh(cfg, d, rank), d.refreshQ[rank][0];
      d' != d ==>
        && d'.dev.cycle == d.dev.cycle && !r.kind.IsColumn()
        && r.channel < |d.colBus| == |d'.colBus| && r.channel < |d.rowBus| == |d'.rowBus|
        && BusFree(d, r.kind, r.channel)
        && (!cfg.dualBus ==> d'.colBus[r.channel] > 0) && d'.rowBus[r.channel] > 0
        && (forall ch | 0 <= ch < |d.colBus| :: d.colBus[ch] > 0 ==> d'.colBus[ch] > 0)
        && (forall ch | 0 <= ch < |d.rowBus| :: d.rowBus[ch] > 0 ==> d'.rowBus[ch] > 0)
  {
    hide SendAll, Queued;
    var r := d.refreshQ[rank][0];
    assert RefreshShaped(cfg, rank, r);
    Refresh.SendAllCycle(cfg, d.dev, r, rank, r.banks);
  }

  lemma RankBus(cfg: Config, d: Driver, rank: nat)
    requires cfg.Valid() && Shaped(cfg, d) && rank < cfg.g.NumRanks() && Inv(cfg, d.dev) && Held(cfg, d)
    ensures var d' := RefreshRank(cfg, d, rank); Inv(cfg, d'.dev) && Held(cfg, d')
  {
    hide Inv, RefreshTargets, Queued, RefreshShaped, SendRefresh;
    CreateShaped(cfg, d, rank);
    var d1 := if d.refi[rank] > 0 then d.(refi := d.refi[rank := d.refi[rank] - 1])
              else CreateRefresh(cfg, d, rank).(refi := d.refi[rank := cfg.p.nREFI]);
    assert d1.dev == d.dev && d1.colBus == d.colBus && d1.rowBus == d.rowBus;
    assert Held(cfg, d1);
    if d1.refreshQ[rank] != [] { SendRefreshBus(cfg, d1, rank); }
  }

  lemma {:induction false} RefreshFromBus(cfg: Config, d: Driver, rank: nat)
    requires cfg.Valid() && Shaped(cfg, d) && rank <= cfg.g.NumRanks() && Inv(cfg, d.dev) && Held(cfg, d)
    ensures var d' := RefreshFrom(cfg, d, rank); Inv(cfg, d'.dev) && Held(cfg, d')
    decreases cfg.g.NumRanks() - rank
  {
    hide Inv, Held, Shaped, RefreshRank;
    if rank < cfg.g.NumRanks() {
      RefreshRankShaped(cfg, d, rank);
      RankBus(cfg, d, rank);
      RefreshFromBus(cfg, RefreshRank(cfg, d, rank), rank + 1);
    }
  }

  lemma RunBus(cfg: Config, d: Driver)
    requires cfg.Valid() && Shaped(cfg, d) && Inv(cfg, d.dev) && NoneNow(d.dev)
    ensures Inv(cfg, Run(cfg, d).dev)
  {
    var d1 := Released(d);
    assert Shaped(cfg, d1) by { hide Queued, RefreshShaped; }
    hide Inv, NoneNow, Shaped, RefreshFrom, SendFrom, Held;
    NothingHeld(cfg, d1);
    if cfg.useRefresh { RefreshFromBus(cfg, d1, 0); }
    RefreshFromShaped(cfg, d1, 0);
    var d2 := RunRefresh(cfg, d);
    Refresh.FawRanks(cfg, d2);
    SendFromBus(cfg, d2, 0, ActCounts(d2));
  }

  lemma NothingHeld(cfg: Config, d: Driver)
    requires NoneNow(d.dev)
    ensures Held(cfg, d)
  {
  }

  lemma UpdateBus(cfg: Config, d: Driver)
    requires cfg.Valid() && Shaped(cfg, d) && Inv(cfg, d.dev)
    ensures var d' := Update(cfg, d); Inv(cfg, d'.dev) && NoneNow(d'.dev)
  {
    hide Tick, Shift, Release, Repeat;
  }

  // ---- The wired channels

  /** The refresh engine accounts every refresh to its rank's own channel, if and only if there is one
      channel or one pseudo channel per channel. */
  lemma RefreshOnOwnChannel(g: Geometry)
    requires g.Valid()
    ensures (forall rank | 0 <= rank < g.NumRanks() :: RefreshChannel(g, rank) == g.ChannelOf(rank)) <==> g.channels == 1 || g.pchannels == 1
  {
    if g.channels == 1 || g.pchannels == 1 {
      forall rank | 0 <= rank < g.NumRanks()
        ensures RefreshChannel(g, rank) == g.ChannelOf(rank)
      {
        OwnChannel(g, rank);
      }
    } else {
      ForeignChannel(g);
    }
  }

  lemma OwnChannel(g: Geometry, rank: nat)
    requires g.Valid() && rank < g.NumRanks() && (g.channels == 1 || g.pchannels == 1)
    ensures RefreshChannel(g, rank) == g.ChannelOf(rank)
  {
    DivBound(rank, g.channels * g.pchannels, g.ranks);
    DivBound(rank / g.ranks, g.channels, g.pchannels);
    if g.channels > 1 { DivUnique(rank / g.ranks, g.channels, 0, rank / g.ranks); }
  }

  /** Otherwise the first rank of the second pseudo channel is refreshed over the second channel's bus. */
  lemma ForeignChannel(g: Geometry)
    requires g.Valid() && g.channels > 1 && g.pchannels > 1
    ensures g.ranks < g.NumRanks() && RefreshChannel(g, g.ranks) == 1 && g.ChannelOf(g.ranks) == 0
  {
    MulMono(2, g.channels, g.pchannels);
    MulMono(2, g.channels * g.pchannels, g.ranks);
    DivUnique(g.ranks, g.ranks, 1, 0);
    DivUnique(1, g.channels, 0, 1);
    DivUnique(1, g.pchannels, 0, 1);
  }

  /** Two commands of one cycle on one bus, by the channel that their banks are wired to. */
  predicate CollideWired(cfg: Config, a: D.Issue, b: D.Issue)
    requires cfg.Valid()
  {
    && a.cycle == b.cycle && cfg.g.ChannelOf(cfg.g.RankOf(a.bank)) == cfg.g.ChannelOf(cfg.g.RankOf(b.bank))
    && (!cfg.dualBus || a.cmd.kind.IsColumn() == b.cmd.kind.IsColumn())
    && !(a.refresh && b.refresh && cfg.g.RankOf(a.bank) == cfg.g.RankOf(b.bank))
  }

  lemma WiredApart(cfg: Config, dev: D.Device, i: nat, j: nat)
    requires cfg.Valid() && Inv(cfg, dev) && (cfg.g.channels == 1 || cfg.g.pchannels == 1) && i < j < |dev.trace|
    ensures !CollideWired(cfg, dev.trace[i], dev.trace[j])
  {
    var a, b := dev.trace[i], dev.trace[j];
    assert OnChannel(cfg, a) && OnChannel(cfg, b) && !Collide(cfg, a, b);
    hide RefreshChannel, Geometry.RankOf, Geometry.ChannelOf, Geometry.NumRanks;
    OwnChannel(cfg.g, cfg.g.RankOf(a.bank));
    OwnChannel(cfg.g, cfg.g.RankOf(b.bank));
  }
}
