/** The refresh timer: when refresh commands are created for a rank, and for which banks. */
module RefreshPace {
  import opened Arith
  import opened Dram
  import opened BankMachine
  import opened DriverMachine
  import Refresh

  function OfRank(log: seq<Creation>, rank: nat): seq<Creation> {
    if log == [] then []
    else OfRank(log[..|log| - 1], rank) + if log[|log| - 1].rank == rank then [log[|log| - 1]] else []
  }

  /** The cycle of the i-th creation for a rank. */
  function Due(p: Params, rank: nat, i: nat): nat { FirstRefresh(p, rank) + 1 + i * (p.nREFI + 1) }

  /** The banks of the i-th creation: the whole rank, or its banks in turn. */
  function Covered(cfg: Config, rank: nat, i: nat): seq<nat>
    requires cfg.Valid()
  {
    if cfg.singleBank then assert BanksPerRank(cfg.g) >= 1; [rank * BanksPerRank(cfg.g) + i % BanksPerRank(cfg.g)]
    else RankBanks(cfg.g, rank)
  }

  /** After the rank's timer has run in cycle `now`: the creations so far were made on time and
      for the right banks, and the timer shows how long the next one is away. */
  ghost predicate Paced(cfg: Config, d: Driver, rank: nat, now: int)
    requires cfg.Valid() && rank < |d.refi| == |d.nextRefresh|
  {
    var cs := OfRank(d.created, rank);
    && now + d.refi[rank] + 1 == Due(cfg.p, rank, |cs|) && (cs != [] ==> d.refi[rank] <= cfg.p.nREFI)
    && (forall i | 0 <= i < |cs| :: cs[i].cycle == Due(cfg.p, rank, i) && cs[i].banks == Covered(cfg, rank, i))
    && (cfg.singleBank ==> Covered(cfg, rank, |cs|) == [rank * BanksPerRank(cfg.g) + d.nextRefresh[rank]])
  }

  /** The ranks below `rank` have run their timers in the current cycle, the others have not. */
  ghost predicate Inv(cfg: Config, d: Driver, rank: nat)
    requires cfg.Valid()
  {
    && |d.refi| == |d.nextRefresh| == cfg.g.NumRanks()
    && forall r | 0 <= r < cfg.g.NumRanks() :: PacedAt(cfg, d, r, rank)
  }

  ghost predicate PacedAt(cfg: Config, d: Driver, r: nat, rank: nat)
    requires cfg.Valid() && r < |d.refi| == |d.nextRefresh|
  {
    Paced(cfg, d, r, if r < rank then d.dev.cycle else d.dev.cycle - 1)
  }

  lemma OfRankSnoc(log: seq<Creation>, c: Creation, rank: nat)
    ensures OfRank(log + [c], rank) == OfRank(log, rank) + if c.rank == rank then [c] else []
  {
    assert (log + [c])[..|log|] == log;
  }

  lemma InitialInv(cfg: Config)
    requires cfg.Valid()
    ensures Inv(cfg, Initial(cfg), cfg.g.NumRanks())
  {
    var d := Initial(cfg);
    forall r | 0 <= r < cfg.g.NumRanks()
      ensures PacedAt(cfg, d, r, cfg.g.NumRanks())
    {
      assert BanksPerRank(cfg.g) >= 1;
      DivUnique(0, BanksPerRank(cfg.g), 0, 0);
      hide BanksPerRank;
      assert OfRank(d.created, r) == [];
    }
  }

  lemma UpdateInv(cfg: Config, d: Driver)
    requires cfg.Valid() && Shaped(cfg, d) && Inv(cfg, d, cfg.g.NumRanks())
    ensures Inv(cfg, Update(cfg, d), 0)
  {
    hide Tick, Shift, Release, Repeat, OfRank, Due, Covered;
    var d' := Update(cfg, d);
    forall r | 0 <= r < cfg.g.NumRanks()
      ensures PacedAt(cfg, d', r, 0)
    {
      assert PacedAt(cfg, d, r, cfg.g.NumRanks());
    }
  }

  /** One step of a rank's timer. */
  lemma TimerStep(cfg: Config, d: Driver, rank: nat, now: int)
    requires cfg.Valid() && Shaped(cfg, d) && rank < cfg.g.NumRanks() && d.dev.cycle == now + 1
    requires |d.refi| == |d.nextRefresh| == cfg.g.NumRanks() && Paced(cfg, d, rank, now)
    ensures var d' := RefreshRank(cfg, d, rank); |d'.refi| == |d'.nextRefresh| == cfg.g.NumRanks() && Paced(cfg, d', rank, now + 1)
  {
    hide RefreshRank, Shaped, RefreshTargets, RankBanks, OfRank, Due, Covered, NextBank, BanksPerRank, Geometry.NumRanks;
    var d', cs := RefreshRank(cfg, d, rank), OfRank(d.created, rank);
    RefreshRankEffect(cfg, d, rank);
    if d.refi[rank] == 0 {
      var c := d'.created[|d.created|];
      OfRankSnoc(d.created, c, rank);
      TargetsAre(cfg, d, rank);
      DueNext(cfg.p, rank, |cs|);
      if cfg.singleBank { NextIsNext(cfg, rank, |cs|, d.nextRefresh[rank]); }
    }
  }

  lemma DueNext(p: Params, rank: nat, i: nat)
    ensures Due(p, rank, i + 1) == Due(p, rank, i) + p.nREFI + 1
  {
    Distribute(i, 1, p.nREFI + 1);
  }

  lemma TargetsAre(cfg: Config, d: Driver, rank: nat)
    requires cfg.Valid() && rank < |d.refi| == |d.nextRefresh|
    requires cfg.singleBank ==> Covered(cfg, rank, |OfRank(d.created, rank)|) == [rank * BanksPerRank(cfg.g) + d.nextRefresh[rank]]
    ensures RefreshTargets(cfg, d, rank) == Covered(cfg, rank, |OfRank(d.created, rank)|)
  {
    hide OfRank, RankBanks;
  }

  lemma NextIsNext(cfg: Config, rank: nat, i: nat, next: nat)
    requires cfg.Valid() && cfg.singleBank && Covered(cfg, rank, i) == [rank * BanksPerRank(cfg.g) + next]
    ensures Covered(cfg, rank, i + 1) == [rank * BanksPerRank(cfg.g) + NextBank(cfg.g, next)]
  {
    var n := BanksPerRank(cfg.g);
    assert n >= 1;
    assert Covered(cfg, rank, i)[0] == rank * n + i % n;
    Successor(i, n);
  }

  lemma Successor(i: nat, n: nat)
    requires n >= 1
    ensures (i % n + 1) % n == (i + 1) % n
  {
    var q, r := i / n, i % n;
    assert i == q * n + r;
    if r + 1 < n {
      DivUnique(i + 1, n, q, r + 1);
      DivUnique(r + 1, n, 0, r + 1);
    } else {
      Distribute(q, 1, n);
      DivUnique(i + 1, n, q + 1, 0);
      DivUnique(r + 1, n, 1, 0);
    }
  }

  lemma RefreshRankEffect(cfg: Config, d: Driver, rank: nat)
    requires cfg.Valid() && Shaped(cfg, d) && rank < cfg.g.NumRanks()
    ensures var d' := RefreshRank(cfg, d, rank);
      && d'.dev.cycle == d.dev.cycle && |d'.refi| == |d.refi| == |d.nextRefresh| == |d'.nextRefresh| == cfg.g.NumRanks()
      && (forall r | 0 <= r < |d.refi| && r != rank :: d'.refi[r] == d.refi[r] && d'.nextRefresh[r] == d.nextRefresh[r])
      && (if d.refi[rank] > 0 then d'.refi[rank] == d.refi[rank] - 1 && d'.created == d.created && d'.nextRefresh == d.nextRefresh
          else
            && d'.refi[rank] == cfg.p.nREFI
            && d'.created == d.created + [Creation(rank, |d.dev.trace|, d.dev.cycle, RefreshTargets(cfg, d, rank))]
            && (cfg.singleBank ==> d'.nextRefresh[rank] == NextBank(cfg.g, d.nextRefresh[rank])))
  {
    hide RefreshTargets, RefreshShaped, Queued, BanksPerRank, OpenOnes, ReopenActs, NextBank, SendAll, RefreshChannel;
    CreateShaped(cfg, d, rank);
    var d1 := if d.refi[rank] > 0 then d.(refi := d.refi[rank := d.refi[rank] - 1])
              else CreateRefresh(cfg, d, rank).(refi := d.refi[rank := cfg.p.nREFI]);
    if d1.refreshQ[rank] != [] {
      var r := d1.refreshQ[rank][0];
      Refresh.SendAllCycle(cfg, d1.dev, r, rank, r.banks);
    }
  }

  lemma RankInv(cfg: Config, d: Driver, rank: nat)
    requires cfg.Valid() && Shaped(cfg, d) && rank < cfg.g.NumRanks() && Inv(cfg, d, rank)
    ensures Inv(cfg, RefreshRank(cfg, d, rank), rank + 1)
  {
    var after := rank + 1;
    hide OfRank, Due, Covered, RefreshRank, Shaped, RefreshTargets;
    var d' := RefreshRank(cfg, d, rank);
    RefreshRankEffect(cfg, d, rank);
    assert PacedAt(cfg, d, rank, rank);
    TimerStep(cfg, d, rank, d.dev.cycle - 1);
    forall r | 0 <= r < cfg.g.NumRanks()
      ensures PacedAt(cfg, d', r, after)
    {
      if r != rank {
        assert PacedAt(cfg, d, r, rank);
        if d'.created != d.created { OfRankSnoc(d.created, d'.created[|d.created|], r); }
      }
    }
  }

  lemma {:induction false} DueMono(p: Params, rank: nat, i: nat, n: nat)
    requires i <= n
    ensures Due(p, rank, i) <= Due(p, rank, n)
  {
    hide Due;
    if i < n {
      DueMono(p, rank, i, n - 1);
      DueNext(p, rank, n - 1);
    }
  }

  /** The creations made by cycle `now` are those due by then. */
  lemma OnTime(cfg: Config, d: Driver, rank: nat, now: int, i: nat)
    requires cfg.Valid() && rank < |d.refi| == |d.nextRefresh| && Paced(cfg, d, rank, now)
    ensures var cs := OfRank(d.created, rank);
      && (i < |cs| ==> cs[i].cycle == Due(cfg.p, rank, i) && cs[i].banks == Covered(cfg, rank, i))
      && (i < |cs| <==> Due(cfg.p, rank, i) <= now)
  {
    hide OfRank, Due, Covered;
    var n := |OfRank(d.created, rank)|;
    if i < n {
      DueMono(cfg.p, rank, i, n - 1);
      DueNext(cfg.p, rank, n - 1);
    } else {
      DueMono(cfg.p, rank, n, i);
    }
  }

  lemma {:induction false} RefreshFromInv(cfg: Config, d: Driver, rank: nat)
    requires cfg.Valid() && Shaped(cfg, d) && rank <= cfg.g.NumRanks() && Inv(cfg, d, rank)
    ensures Inv(cfg, RefreshFrom(cfg, d, rank), cfg.g.NumRanks())
    decreases cfg.g.NumRanks() - rank
  {
    hide Inv, Shaped, RefreshRank;
    if rank < cfg.g.NumRanks() {
      RefreshRankShaped(cfg, d, rank);
      RankInv(cfg, d, rank);
      RefreshFromInv(cfg, RefreshRank(cfg, d, rank), rank + 1);
    }
  }

  lemma {:induction false} SendFromSame(cfg: Config, d: Driver, i: nat, counts: seq<nat>)
    requires cfg.Valid() && Shaped(cfg, d) && i <= |d.inputQ| && |counts| == cfg.g.NumRanks()
    ensures var d' := SendFrom(cfg, d, i, counts);
      d'.refi == d.refi && d'.nextRefresh == d.nextRefresh && d'.created == d.created && d'.dev.cycle == d.dev.cycle
    decreases |d.inputQ| - i
  {
    hide Shaped, SendStep;
    if i < |d.inputQ| {
      SendStepShaped(cfg, d, i, counts);
      var s := SendStep(cfg, d, i, counts);
      if !s.stop { SendFromSame(cfg, s.d, s.i, counts); }
    }
  }

  lemma SameInv(cfg: Config, d: Driver, d': Driver, rank: nat)
    requires cfg.Valid() && Inv(cfg, d, rank) && d'.dev.cycle == d.dev.cycle
    requires d'.refi == d.refi && d'.nextRefresh == d.nextRefresh && d'.created == d.created
    ensures Inv(cfg, d', rank)
  {
    hide OfRank, Due, Covered;
    forall r | 0 <= r < cfg.g.NumRanks()
      ensures PacedAt(cfg, d', r, rank)
    {
      assert PacedAt(cfg, d, r, rank);
    }
  }

  lemma RunInv(cfg: Config, d: Driver)
    requires cfg.Valid() && Shaped(cfg, d) && cfg.useRefresh && Inv(cfg, d, 0)
    ensures Inv(cfg, Run(cfg, d), cfg.g.NumRanks())
  {
    var d1 := Released(d);
    assert Shaped(cfg, d1) by { hide Queued, RefreshShaped; }
    hide Inv, Shaped, RefreshFrom, SendFrom;
    SameInv(cfg, d, d1, 0);
    RefreshFromInv(cfg, d1, 0);
    RefreshFromShaped(cfg, d1, 0);
    var d2 := RunRefresh(cfg, d);
    Refresh.FawRanks(cfg, d2);
    SendFromSame(cfg, d2, 0, ActCounts(d2));
    SameInv(cfg, d2, Run(cfg, d), cfg.g.NumRanks());
  }
}
