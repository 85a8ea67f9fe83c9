/** All bank objects of the device with the wiring of groups, ranks and channels between
    them, updated in place and proved to do what the value-level device does. */
module DeviceObject {
  import opened Arith
  import opened Dram
  import opened BankMachine
  import opened BankObject
  import D = Device

  class Banks {
    const p: Params
    const g: Geometry
    const banks: seq<BankInfo>
    var cycle: nat
    ghost var trace: seq<D.Issue>

    ghost predicate Valid() {
      && p.Valid() && g.Valid() && |banks| == g.NumBanks()
      && forall i, j | 0 <= i < j < |banks| :: banks[i] != banks[j]
    }

    ghost function Value(): D.Device
      reads this, banks
    {
      D.Device(cycle, Values(banks), trace)
    }

    constructor (p: Params, g: Geometry)
      requires p.Valid() && g.Valid()
      ensures Valid() && this.p == p && this.g == g && Value() == D.Initial(g)
      ensures fresh(banks)
    {
      var made: seq<BankInfo> := [];
      for i := 0 to g.NumBanks()
        invariant |made| == i && fresh(made) && forall j | 0 <= j < i :: made[j].Value() == INITIAL
        invariant forall j, k | 0 <= j < k < i :: made[j] != made[k]
      {
        var bank := new BankInfo();
        made := made + [bank];
      }
      this.p, this.g, banks := p, g, made;
      cycle, trace := 0, [];
    }

    /** The banks part of c_DeviceDriver::update. */
    method Clock()
      requires Valid()
      modifies this, banks
      ensures Value() == D.Clock(p, old(Value()))
    {
      hide Tick;
      ghost var was := Values(banks);
      cycle := cycle + 1;
      for i := 0 to |banks|
        invariant cycle == old(cycle) + 1 && trace == old(trace)
        invariant forall j | 0 <= j < i :: banks[j].Value() == Tick(p, was[j], cycle)
        invariant forall j | i <= j < |banks| :: banks[j].Value() == was[j]
      {
        banks[i].ClockTic(p, cycle);
      }
    }

    /** Tell the banks of a range, except one, of a command that they see in relation `rel`. */
    method TellRange(lo: nat, hi: nat, skip: nat, rel: Relation, k: Kind)
      requires Valid() && lo <= hi <= |banks|
      modifies banks
      ensures forall i | 0 <= i < |banks| ::
        banks[i].Value() == if lo <= i < hi && i != skip then Raise(p, old(banks[i].Value()), rel, k, cycle) else old(banks[i].Value())
    {
      hide Raise;
      ghost var was := Values(banks);
      for i := lo to hi
        invariant forall j | 0 <= j < |banks| ::
          banks[j].Value() == if lo <= j < i && j != skip then Raise(p, was[j], rel, k, cycle) else was[j]
      {
        if i != skip { banks[i].Learn(p, rel, k, cycle); }
      }
    }

    /** c_BankGroup::updateOtherBanksNextCommandCycles, for the siblings of a bank. */
    method UpdateGroup(bank: nat, k: Kind)
      requires Valid() && bank < |banks|
      modifies banks
      ensures forall i | 0 <= i < |banks| ::
        banks[i].Value() == if Sibling(g, bank, i) then Raise(p, old(banks[i].Value()), Group, k, cycle) else old(banks[i].Value())
    {
      hide Raise;
      var grp := g.GroupOf(bank);
      GroupRange(g, grp, bank);
      ghost var was := Values(banks);
      TellRange(GroupStart(g, grp), GroupStart(g, grp) + g.banks, bank, Group, k);
      forall i | 0 <= i < |banks|
        ensures banks[i].Value() == if Sibling(g, bank, i) then Raise(p, was[i], Group, k, cycle) else was[i]
      {
        GroupBlock(g, i, grp);
      }
    }

    /** c_Rank::updateOtherBanksNextCommandCycles, for the banks of the other groups of a rank. */
    method UpdateRank(bank: nat, k: Kind)
      requires Valid() && bank < |banks|
      modifies banks
      ensures forall i | 0 <= i < |banks| ::
        banks[i].Value() == if OtherGroup(g, bank, i) then Raise(p, old(banks[i].Value()), Rank, k, cycle) else old(banks[i].Value())
    {
      hide Raise, Geometry.GroupOf, Geometry.RankOf, Geometry.NumBanks, GroupStart, FirstGroup;
      var grp, rank := g.GroupOf(bank), g.RankOf(bank);
      var first := FirstGroup(g, rank);
      RankRange(g, bank);
      ghost var was := Values(banks);
      for n := first to first + g.groups
        invariant forall i | 0 <= i < |banks| ::
          banks[i].Value() == if first <= g.GroupOf(i) < n && g.GroupOf(i) != grp then Raise(p, was[i], Rank, k, cycle) else was[i]
      {
        if n != grp {
          GroupFits(g, rank, n);
          ghost var mid := Values(banks);
          TellRange(GroupStart(g, n), GroupStart(g, n) + g.banks, |banks|, Rank, k);
          forall i | 0 <= i < |banks|
            ensures banks[i].Value() == if g.GroupOf(i) == n then Raise(p, mid[i], Rank, k, cycle) else mid[i]
          {
            GroupBlock(g, i, n);
          }
        }
      }
      forall i | 0 <= i < |banks|
        ensures first <= g.GroupOf(i) < first + g.groups <==> g.RankOf(i) == rank
      {
        GroupsOfRank(g, i, rank);
      }
    }

    /** c_Channel::updateOtherBanksNextCommandCycles, for the banks of the other ranks of a pseudo
        channel. */
    method UpdateChannel(bank: nat, k: Kind)
      requires Valid() && bank < |banks|
      modifies banks
      ensures forall i | 0 <= i < |banks| ::
        banks[i].Value() == if OtherRank(g, bank, i) then Raise(p, old(banks[i].Value()), Pseudo, k, cycle) else old(banks[i].Value())
    {
      hide Raise, Geometry.RankOf, Geometry.PseudoOf, Geometry.NumBanks, RankStart, FirstRank, RankSize;
      var rank, pch := g.RankOf(bank), g.PseudoOf(bank);
      var first := FirstRank(g, pch);
      PseudoRange(g, bank);
      ghost var was := Values(banks);
      for n := first to first + g.ranks
        invariant forall i | 0 <= i < |banks| ::
          banks[i].Value() == if first <= g.RankOf(i) < n && g.RankOf(i) != rank then Raise(p, was[i], Pseudo, k, cycle) else was[i]
      {
        if n != rank {
          RankFits(g, pch, n);
          ghost var mid := Values(banks);
          TellRange(RankStart(g, n), RankStart(g, n) + RankSize(g), |banks|, Pseudo, k);
          forall i | 0 <= i < |banks|
            ensures banks[i].Value() == if g.RankOf(i) == n then Raise(p, mid[i], Pseudo, k, cycle) else mid[i]
          {
            RankBlock(g, i, n);
          }
        }
      }
      forall i | 0 <= i < |banks|
        ensures first <= g.RankOf(i) < first + g.ranks <==> g.PseudoOf(i) == pch
      {
        RanksOfPseudo(g, i, pch);
      }
    }

    /** The group's, the rank's and the channel's loops together tell every other bank of the pseudo
        channel once, in its nearest relation, and no other bank. */
    method UpdateOthers(bank: nat, k: Kind)
      requires Valid() && bank < |banks|
      modifies banks
      ensures forall i | 0 <= i < |banks| ::
        banks[i].Value() == Raise(p, old(banks[i].Value()), g.Relation(bank, i), k, cycle)
    {
      UpdateGroup(bank, k);
      UpdateRank(bank, k);
      UpdateChannel(bank, k);
      hide Geometry.GroupOf, ColumnGap;
    }

    /** sendCommand with c_BankInfo::handleCommand. */
    method SendCommand(bank: nat, c: Cmd, ghost refresh: bool) returns (ok: bool)
      requires Valid() && bank < |banks|
      modifies this, banks
      ensures ok == D.CanSend(old(Value()), bank, c.kind)
      ensures Value() == if ok then D.Send(p, g, old(Value()), bank, c, refresh) else old(Value())
    {
      ok := banks[bank].IsCommandAllowed(c.kind, cycle);
      if ok {
        ghost var bk := banks[bank].Value();
        ghost var was := Values(banks);
        banks[bank].HandleCommand(c, cycle);
        UpdateOthers(bank, c.kind);
        trace := trace + [D.Issue(cycle, bank, c, bk.rowOpen, bk.openRow, refresh)];
        SendValues(was, Values(banks), bank, c);
      }
    }

    lemma SendValues(was: seq<Bank>, now: seq<Bank>, bank: nat, c: Cmd)
      requires Valid() && |was| == |now| == |banks| && bank < |banks| && Allowed(was[bank], c.kind, cycle)
      requires forall i | 0 <= i < |banks| ::
        now[i] == Raise(p, if i == bank then Handle(was[bank], c, cycle) else was[i], g.Relation(bank, i), c.kind, cycle)
      ensures now == D.Send(p, g, D.Device(cycle, was, []), bank, c, false).banks
    {
      hide Handle;
    }
  }

  // ---- The wiring

  predicate Sibling(g: Geometry, bank: nat, i: nat)
    requires g.Valid()
  {
    i != bank && g.GroupOf(i) == g.GroupOf(bank)
  }

  predicate OtherGroup(g: Geometry, bank: nat, i: nat)
    requires g.Valid()
  {
    g.RankOf(i) == g.RankOf(bank) && g.GroupOf(i) != g.GroupOf(bank)
  }

  predicate OtherRank(g: Geometry, bank: nat, i: nat)
    requires g.Valid()
  {
    g.PseudoOf(i) == g.PseudoOf(bank) && g.RankOf(i) != g.RankOf(bank)
  }

  lemma Block(x: nat, q: nat, d: nat)
    requires d >= 1
    ensures q * d <= x < q * d + d <==> x / d == q
  {
    if q * d <= x < q * d + d { DivUnique(x, d, q, x - q * d); }
  }

  /** The first bank of a group and of a rank, the first group of a rank and the first rank of a
      pseudo channel. */
  function GroupStart(g: Geometry, n: nat): nat { n * g.banks }

  function RankSize(g: Geometry): nat { g.groups * g.banks }

  function RankStart(g: Geometry, n: nat): nat { n * RankSize(g) }

  function FirstGroup(g: Geometry, rank: nat): nat { rank * g.groups }

  function FirstRank(g: Geometry, pch: nat): nat { pch * g.ranks }

  lemma GroupsOfRank(g: Geometry, i: nat, rank: nat)
    requires g.Valid()
    ensures FirstGroup(g, rank) <= g.GroupOf(i) < FirstGroup(g, rank) + g.groups <==> g.RankOf(i) == rank
  {
    Block(g.GroupOf(i), rank, g.groups);
  }

  lemma RanksOfPseudo(g: Geometry, i: nat, pch: nat)
    requires g.Valid()
    ensures FirstRank(g, pch) <= g.RankOf(i) < FirstRank(g, pch) + g.ranks <==> g.PseudoOf(i) == pch
  {
    Block(g.RankOf(i), pch, g.ranks);
  }

  lemma GroupBlock(g: Geometry, i: nat, n: nat)
    requires g.Valid()
    ensures GroupStart(g, n) <= i < GroupStart(g, n) + g.banks <==> g.GroupOf(i) == n
  {
    Block(i, n, g.banks);
  }

  lemma RankBlock(g: Geometry, i: nat, n: nat)
    requires g.Valid()
    ensures RankStart(g, n) <= i < RankStart(g, n) + RankSize(g) <==> g.RankOf(i) == n
  {
    DivDiv(i, g.banks, g.groups);
    Block(i, n, g.groups * g.banks);
  }

  /** A group of an existing bank is within the device. */
  lemma GroupRange(g: Geometry, grp: nat, bank: nat)
    requires g.Valid() && bank < g.NumBanks() && grp == g.GroupOf(bank)
    ensures GroupStart(g, grp) + g.banks <= g.NumBanks()
  {
    assert g.NumBanks() == g.NumRanks() * g.groups * g.banks;
    DivBound(bank, g.NumRanks() * g.groups, g.banks);
    MulMono(grp + 1, g.NumRanks() * g.groups, g.banks);
  }

  lemma RankRange(g: Geometry, bank: nat)
    requires g.Valid() && bank < g.NumBanks()
    ensures g.RankOf(bank) < g.NumRanks()
  {
    g.RankInRange(bank);
  }

  lemma GroupFits(g: Geometry, rank: nat, n: nat)
    requires g.Valid() && rank < g.NumRanks() && n < FirstGroup(g, rank) + g.groups
    ensures GroupStart(g, n) + g.banks <= g.NumBanks()
  {
    assert g.NumBanks() == g.NumRanks() * g.groups * g.banks;
    MulMono(rank + 1, g.NumRanks(), g.groups);
    MulMono(n + 1, g.NumRanks() * g.groups, g.banks);
  }

  lemma PseudoRange(g: Geometry, bank: nat)
    requires g.Valid() && bank < g.NumBanks()
    ensures g.PseudoOf(bank) < g.channels * g.pchannels
  {
    g.RankInRange(bank);
    DivBound(g.RankOf(bank), g.channels * g.pchannels, g.ranks);
  }

  lemma RankFits(g: Geometry, pch: nat, n: nat)
    requires g.Valid() && pch < g.channels * g.pchannels && n < FirstRank(g, pch) + g.ranks
    ensures RankStart(g, n) + RankSize(g) <= g.NumBanks()
  {
    var size := g.groups * g.banks;
    MulMono(pch + 1, g.channels * g.pchannels, g.ranks);
    MulAssoc(g.NumRanks(), g.groups, g.banks);
    assert g.NumBanks() == g.NumRanks() * size;
    MulMono(n + 1, g.NumRanks(), size);
  }

  ghost function Values(banks: seq<BankInfo>): seq<Bank>
    reads banks
  {
    seq(|banks|, i requires 0 <= i < |banks| reads banks => banks[i].Value())
  }
}
