/** The device driver (c_DeviceDriver) on values: the input queue, the command buses, the
    four-activate window and the refresh engine around the banks. */
module DriverMachine {
  import opened Arith
  import opened Dram
  import opened BankMachine
  import D = Device

  datatype Config = Config(
    p: Params, g: Geometry, dualBus: bool, multiCycleAct: bool, useRefresh: bool, singleBank: bool)
  {
    predicate Valid() { p.Valid() && g.Valid() }
  }

  /** A refresh-engine command: PRE or REF for every bank of a vector at once. */
  datatype RefreshCmd = RefreshCmd(kind: Kind, channel: nat, banks: seq<nat>)

  /** createRefreshCmds ran for `rank` in a cycle, when the device had accepted `at` commands. */
  datatype Creation = Creation(rank: nat, at: nat, cycle: nat, banks: seq<nat>)

  /** A queued command that sendRequest took out without sending it, with the state of its bank. */
  datatype Discard = Discard(cmd: Cmd, state: State)

  datatype Driver = Driver(
    dev: D.Device,
    inputQ: seq<Cmd>,
    blocked: seq<bool>,
    inflight: set<nat>,
    colBus: seq<nat>,
    rowBus: seq<nat>,
    faw: seq<seq<nat>>,
    actIssued: seq<bool>,
    refi: seq<nat>,
    refreshQ: seq<seq<RefreshCmd>>,
    nextRefresh: seq<nat>,
    created: seq<Creation>,
    discarded: seq<Discard>)

  function BanksPerRank(g: Geometry): nat { g.groups * g.banks }

  predicate RefreshShaped(cfg: Config, rank: nat, r: RefreshCmd)
    requires cfg.Valid()
  {
    && (r.kind.PRE? || r.kind.REF?)
    && r.channel == RefreshChannel(cfg.g, rank) < cfg.g.channels
    && r.banks != []
    && (forall i | 0 <= i < |r.banks| :: r.banks[i] < cfg.g.NumBanks() && cfg.g.RankOf(r.banks[i]) == rank)
    && (forall i, j | 0 <= i < j < |r.banks| :: r.banks[i] != r.banks[j])
  }

  /** Sizes, and well-formed commands in the queues. */
  predicate Shaped(cfg: Config, d: Driver)
    requires cfg.Valid()
  {
    var ranks := cfg.g.NumRanks();
    && |d.dev.banks| == |d.blocked| == cfg.g.NumBanks()
    && |d.colBus| == |d.rowBus| == cfg.g.channels
    && |d.faw| == |d.actIssued| == |d.refi| == |d.refreshQ| == |d.nextRefresh| == ranks
    && (forall r | 0 <= r < ranks :: |d.faw[r]| == cfg.p.nFAW - 1 && d.nextRefresh[r] < BanksPerRank(cfg.g))
    && (forall i | 0 <= i < |d.inputQ| :: Queued(cfg, d.inputQ[i]))
    && (forall r, i | 0 <= r < ranks && 0 <= i < |d.refreshQ[r]| :: RefreshShaped(cfg, r, d.refreshQ[r][i]))
  }

  /** A request command: it names an existing bank, rank and channel. */
  predicate Queued(cfg: Config, c: Cmd)
    requires cfg.Valid()
  {
    cfg.g.WellFormed(c) && c.rank < cfg.g.NumRanks() && c.channel < cfg.g.channels && !c.kind.REF?
  }

  function Repeat<T>(n: nat, x: T): seq<T> { seq(n, i => x) }

  /** initRefresh: the ranks start their refresh intervals at different times. */
  function FirstRefresh(p: Params, rank: nat): nat { p.nREFI / (rank + 1) }

  function Initial(cfg: Config): Driver
    requires cfg.Valid()
  {
    var g, ranks := cfg.g, cfg.g.NumRanks();
    Driver(D.Initial(g), [], Repeat(g.NumBanks(), false), {},
           Repeat(g.channels, 0), Repeat(g.channels, 0),
           Repeat(ranks, Repeat(cfg.p.nFAW - 1, 0)), Repeat(ranks, false),
           seq(ranks, r requires 0 <= r => FirstRefresh(cfg.p, r)), Repeat(ranks, []), Repeat(ranks, 0), [], [])
  }

  // ---- Command bus

  function Release(bus: seq<nat>): (r: seq<nat>)
    ensures |r| == |bus|
  {
    seq(|bus|, i requires 0 <= i < |bus| => if bus[i] > 0 then bus[i] - 1 else 0)
  }

  /** isCommandBusAvailable */
  predicate BusFree(d: Driver, k: Kind, channel: nat)
    requires channel < |d.colBus| && channel < |d.rowBus|
  {
    if k.IsColumn() then d.colBus[channel] == 0 else d.rowBus[channel] == 0
  }

  /** occupyCommandBus */
  function Occupy(cfg: Config, d: Driver, k: Kind, channel: nat): Driver
    requires channel < |d.colBus| && channel < |d.rowBus|
  {
    var cycles := if k.ACT? && cfg.multiCycleAct then 2 else 1;
    if !cfg.dualBus then d.(colBus := d.colBus[channel := 1], rowBus := d.rowBus[channel := 1])
    else if k.IsColumn() then d.(colBus := d.colBus[channel := cycles])
    else d.(rowBus := d.rowBus[channel := cycles])
  }

  predicate AllBusy(d: Driver) {
    (forall i | 0 <= i < |d.colBus| :: d.colBus[i] != 0) && (forall i | 0 <= i < |d.rowBus| :: d.rowBus[i] != 0)
  }

  // ---- Start of a cycle

  /** Each activate tracker takes in the flag of the last cycle and drops its oldest entry. */
  function Shift(faw: seq<seq<nat>>, issued: seq<bool>): seq<seq<nat>>
    requires |issued| == |faw|
  {
    seq(|faw|, r requires 0 <= r < |faw| => (faw[r] + [if issued[r] then 1 else 0])[1..])
  }

  /** update: clock the banks, shift the activate trackers, reset the per-cycle flags. */
  function Update(cfg: Config, d: Driver): Driver
    requires cfg.Valid() && |d.actIssued| == |d.faw|
  {
    d.(dev := D.Clock(cfg.p, d.dev),
       faw := Shift(d.faw, d.actIssued),
       inflight := {},
       blocked := Repeat(|d.blocked|, false),
       colBus := Release(d.colBus), rowBus := Release(d.rowBus),
       actIssued := Repeat(|d.actIssued|, false))
  }

  lemma UpdateShaped(cfg: Config, d: Driver)
    requires cfg.Valid() && Shaped(cfg, d)
    ensures Shaped(cfg, Update(cfg, d))
  {
    hide Queued, RefreshShaped, Tick;
  }

  // ---- Requests from the command scheduler

  predicate RefreshPending(cfg: Config, d: Driver, rank: nat)
    requires rank < |d.refreshQ|
  {
    cfg.useRefresh && d.refreshQ[rank] != []
  }

  predicate HasAct(q: seq<Cmd>, bank: nat) {
    exists i | 0 <= i < |q| :: q[i].bank == bank && q[i].kind.ACT?
  }

  /** isCmdAllowed, which can also queue an ACT for a closed bank. */
  function IsCmdAllowed(cfg: Config, d: Driver, c: Cmd): (Driver, bool)
    requires cfg.Valid() && Shaped(cfg, d) && Queued(cfg, c)
  {
    if RefreshPending(cfg, d, c.rank) then (d, false)
    else if c.kind.IsColumn() && d.dev.banks[c.bank].state.Closed() then
      (if HasAct(d.inputQ, c.bank) then d else d.(inputQ := d.inputQ + [c.(kind := ACT)]), false)
    else (d, BusFree(d, c.kind, c.channel) && Allowed(d.dev.banks[c.bank], c.kind, d.dev.cycle))
  }

  const QUEUE_CAPACITY := 32

  function Push(cfg: Config, d: Driver, c: Cmd): (Driver, bool)
    requires cfg.Valid() && Shaped(cfg, d) && Queued(cfg, c)
  {
    if |d.inputQ| < QUEUE_CAPACITY then
      (Occupy(cfg, d.(inputQ := d.inputQ + [c]), c.kind, c.channel), true)
    else (d, false)
  }

  // ---- Sending requests

  function Sum(s: seq<nat>): nat {
    if s == [] then 0 else Sum(s[..|s| - 1]) + s[|s| - 1]
  }

  /** getNumIssuedACTinFAW for every rank. */
  function ActCounts(d: Driver): (counts: seq<nat>)
    ensures |counts| == |d.faw|
  {
    seq(|d.faw|, r requires 0 <= r < |d.faw| => Sum(d.faw[r]))
  }

  const TWO32: nat := 0x1_0000_0000

  /** m_inflightWrites holds 32-bit addresses. */
  function Low32(addr: nat): nat { addr % TWO32 }

  datatype Decision = Skip | Halt | Drop | Go

  /** What sendRequest does with the queue entry at `i`. */
  function Decide(cfg: Config, d: Driver, i: nat, counts: seq<nat>): Decision
    requires cfg.Valid() && Shaped(cfg, d) && i < |d.inputQ| && |counts| == cfg.g.NumRanks()
  {
    var c := d.inputQ[i];
    if RefreshPending(cfg, d, c.rank) then Skip
    else if c.kind.REF? then Halt
    else if d.blocked[c.bank] || (c.kind.ACT? && counts[c.rank] >= 4) || Low32(c.addr) in d.inflight then Skip
    else if !BusFree(d, c.kind, c.channel) then Skip
    else if c.kind.PRE? && d.dev.banks[c.bank].state.Closed() then Drop
    else if D.CanSend(d.dev, c.bank, c.kind) then Go
    else Skip
  }

  /** The per-cycle marks that visiting the entry leaves behind. */
  function Mark(cfg: Config, d: Driver, i: nat): Driver
    requires cfg.Valid() && Shaped(cfg, d) && i < |d.inputQ|
  {
    var c := d.inputQ[i];
    if RefreshPending(cfg, d, c.rank) then d
    else d.(blocked := d.blocked[c.bank := true],
            inflight := if c.kind.WRITE? || c.kind.WRITEA? then d.inflight + {Low32(c.addr)} else d.inflight)
  }

  lemma MarkShaped(cfg: Config, d: Driver, i: nat)
    requires cfg.Valid() && Shaped(cfg, d) && i < |d.inputQ|
    ensures Shaped(cfg, Mark(cfg, d, i))
  {
  }

  function Remove<T>(q: seq<T>, i: nat): seq<T>
    requires i < |q|
  {
    q[..i] + q[i + 1..]
  }

  /** The command at `i` goes to its bank. */
  function Sent(cfg: Config, d: Driver, i: nat): Driver
    requires cfg.Valid() && Shaped(cfg, d) && i < |d.inputQ| && D.CanSend(d.dev, d.inputQ[i].bank, d.inputQ[i].kind)
  {
    var c := d.inputQ[i];
    Occupy(cfg,
           d.(dev := D.Send(cfg.p, cfg.g, d.dev, c.bank, c, false),
              inputQ := Remove(d.inputQ, i),
              actIssued := if c.kind.ACT? then d.actIssued[c.rank := true] else d.actIssued),
           c.kind, c.channel)
  }

  /** The driver, the next position and whether the scan stops. */
  datatype Scan = Scan(d: Driver, i: nat, stop: bool)

  function SendStep(cfg: Config, d: Driver, i: nat, counts: seq<nat>): Scan
    requires cfg.Valid() && Shaped(cfg, d) && i < |d.inputQ| && |counts| == cfg.g.NumRanks()
  {
    var d1 := Mark(cfg, d, i);
    match Decide(cfg, d, i, counts)
    case Skip => Scan(d1, i + 1, false)
    case Halt => Scan(d1, i, true)
    case Drop =>
      var c := d.inputQ[i];
      Scan(d1.(inputQ := Remove(d.inputQ, i), discarded := d.discarded + [Discard(c, d.dev.banks[c.bank].state)]), i, false)
    case Go =>
      var d2 := Sent(cfg, d1, i);
      Scan(d2, i, AllBusy(d2))
  }

  lemma SendStepShaped(cfg: Config, d: Driver, i: nat, counts: seq<nat>)
    requires cfg.Valid() && Shaped(cfg, d) && i < |d.inputQ| && |counts| == cfg.g.NumRanks()
    ensures
      var s := SendStep(cfg, d, i, counts);
      && Shaped(cfg, s.d) && s.i <= |s.d.inputQ|
      && (!s.stop ==> |s.d.inputQ| - s.i < |d.inputQ| - i)
      && s.d.faw == d.faw && s.d.refreshQ == d.refreshQ
      && s.d.refi == d.refi && s.d.nextRefresh == d.nextRefresh && s.d.created == d.created && s.d.dev.cycle == d.dev.cycle
  {
    hide RefreshShaped, Handle, Raise, Geometry.NumBanks, Geometry.NumRanks, Geometry.Relation;
  }

  function SendFrom(cfg: Config, d: Driver, i: nat, counts: seq<nat>): Driver
    requires cfg.Valid() && Shaped(cfg, d) && i <= |d.inputQ| && |counts| == cfg.g.NumRanks()
    decreases |d.inputQ| - i
  {
    if i == |d.inputQ| then d
    else
      SendStepShaped(cfg, d, i, counts);
      var s := SendStep(cfg, d, i, counts);
      if s.stop then s.d else SendFrom(cfg, s.d, s.i, counts)
  }

  /** sendRequest */
  function SendRequest(cfg: Config, d: Driver): Driver
    requires cfg.Valid() && Shaped(cfg, d)
  {
    SendFrom(cfg, d, 0, ActCounts(d))
  }

  // ---- Refresh

  function RankBanks(g: Geometry, rank: nat): seq<nat> {
    seq(BanksPerRank(g), k requires 0 <= k => rank * BanksPerRank(g) + k)
  }

  function RefreshTargets(cfg: Config, d: Driver, rank: nat): seq<nat>
    requires rank < |d.nextRefresh|
  {
    if cfg.singleBank then [rank * BanksPerRank(cfg.g) + d.nextRefresh[rank]] else RankBanks(cfg.g, rank)
  }

  /** The channel whose command bus the refresh engine uses for a rank. */
  function RefreshChannel(g: Geometry, rank: nat): nat
    requires g.Valid()
  {
    if g.channels * g.pchannels > 1 then (rank / g.ranks) % g.channels else rank / g.ranks
  }

  function OpenOnes(d: Driver, banks: seq<nat>): seq<nat>
    requires forall i | 0 <= i < |banks| :: banks[i] < |d.dev.banks|
  {
    if banks == [] then []
    else (if d.dev.banks[banks[0]].state.Closed() then [] else [banks[0]]) + OpenOnes(d, banks[1..])
  }

  function FirstOf(q: seq<Cmd>, bank: nat): Option<Cmd> {
    if q == [] then None
    else if q[0].bank == bank then Some(q[0])
    else FirstOf(q[1..], bank)
  }

  /** Queue an ACT in front for every bank whose first queued command is a column command. */
  function ReopenActs(q: seq<Cmd>, banks: seq<nat>): seq<Cmd>
    decreases |banks|
  {
    if banks == [] then q
    else
      var first := FirstOf(q, banks[0]);
      ReopenActs(if first.Some? && first.value.kind.IsColumn() then [first.value.(kind := ACT)] + q else q, banks[1..])
  }

  /** The bank of a rank that a single-bank refresh picks after bank `k`. */
  function NextBank(g: Geometry, k: nat): (r: nat)
    requires g.Valid()
    ensures r < BanksPerRank(g)
  {
    assert BanksPerRank(g) >= 1;
    (k + 1) % BanksPerRank(g)
  }

  /** createRefreshCmds */
  function CreateRefresh(cfg: Config, d: Driver, rank: nat): Driver
    requires cfg.Valid() && rank < |d.refreshQ| == |d.nextRefresh|
    requires forall i | 0 <= i < |RefreshTargets(cfg, d, rank)| :: RefreshTargets(cfg, d, rank)[i] < |d.dev.banks|
  {
    var targets := RefreshTargets(cfg, d, rank);
    var ch := RefreshChannel(cfg.g, rank);
    var open := OpenOnes(d, targets);
    var cmds := (if open != [] then [RefreshCmd(PRE, ch, open)] else []) + [RefreshCmd(REF, ch, targets)];
    d.(refreshQ := d.refreshQ[rank := cmds],
       nextRefresh := if cfg.singleBank then d.nextRefresh[rank := NextBank(cfg.g, d.nextRefresh[rank])] else d.nextRefresh,
       inputQ := ReopenActs(d.inputQ, targets),
       created := d.created + [Creation(rank, |d.dev.trace|, d.dev.cycle, targets)])
  }

  function RefreshIssue(r: RefreshCmd, rank: nat, bank: nat): Cmd {
    Cmd(r.kind, 0, r.channel, rank, bank, 0)
  }

  /** sendCommand for each bank of the vector; a bank that does not allow it is left alone. */
  function SendAll(cfg: Config, dev: D.Device, r: RefreshCmd, rank: nat, banks: seq<nat>): D.Device
    requires cfg.Valid()
    decreases |banks|
  {
    if banks == [] then dev
    else
      var c := RefreshIssue(r, rank, banks[0]);
      SendAll(cfg, if D.CanSend(dev, banks[0], c.kind) then D.Send(cfg.p, cfg.g, dev, banks[0], c, true) else dev,
              r, rank, banks[1..])
  }

  /** sendRefresh */
  function SendRefresh(cfg: Config, d: Driver, rank: nat): Driver
    requires cfg.Valid() && Shaped(cfg, d) && rank < |d.refreshQ| && d.refreshQ[rank] != []
  {
    var r := d.refreshQ[rank][0];
    assert RefreshShaped(cfg, rank, r);
    if (forall i | 0 <= i < |r.banks| :: D.CanSend(d.dev, r.banks[i], r.kind)) && BusFree(d, r.kind, r.channel) then
      Occupy(cfg, d.(dev := SendAll(cfg, d.dev, r, rank, r.banks),
                     refreshQ := d.refreshQ[rank := d.refreshQ[rank][1..]]),
             r.kind, r.channel)
    else d
  }

  lemma TargetsInRange(cfg: Config, d: Driver, rank: nat)
    requires cfg.Valid() && Shaped(cfg, d) && rank < cfg.g.NumRanks()
    ensures
      var targets := RefreshTargets(cfg, d, rank);
      && targets != []
      && (forall i | 0 <= i < |targets| :: targets[i] < cfg.g.NumBanks() && cfg.g.RankOf(targets[i]) == rank)
      && (forall i, j | 0 <= i < j < |targets| :: targets[i] != targets[j])
    ensures RefreshChannel(cfg.g, rank) < cfg.g.channels
  {
    var g, n, targets := cfg.g, BanksPerRank(cfg.g), RefreshTargets(cfg, d, rank);
    assert n >= 1;
    forall i | 0 <= i < |targets|
      ensures targets[i] < g.NumBanks() && g.RankOf(targets[i]) == rank
    {
      BankOfRank(g, rank, targets[i] - rank * n);
    }
    if g.channels * g.pchannels <= 1 {
      assert g.channels == 1 && g.pchannels == 1;
      DivBound(rank, 1, g.ranks);
    }
  }

  lemma BankOfRank(g: Geometry, rank: nat, k: nat)
    requires g.Valid() && rank < g.NumRanks() && k < BanksPerRank(g)
    ensures rank * BanksPerRank(g) + k < g.NumBanks()
    ensures g.RankOf(rank * BanksPerRank(g) + k) == rank
  {
    var n, b := BanksPerRank(g), rank * BanksPerRank(g) + k;
    MulAssoc(g.NumRanks(), g.groups, g.banks);
    MulMono(rank + 1, g.NumRanks(), n);
    MulAssoc(rank, g.groups, g.banks);
    DivBound(k, g.groups, g.banks);
    SplitRank(rank, g.groups, g.banks, k);
  }

  lemma SplitRank(rank: nat, groups: nat, banks: nat, k: nat)
    requires groups >= 1 && banks >= 1 && k / banks < groups
    ensures (rank * groups * banks + k) / banks / groups == rank
  {
    DivOffset(rank * groups, banks, k);
    DivOffset(rank, groups, k / banks);
    DivUnique(k / banks, groups, 0, k / banks);
  }

  /** The refresh work of one rank in `run`. */
  function RefreshRank(cfg: Config, d: Driver, rank: nat): Driver
    requires cfg.Valid() && Shaped(cfg, d) && rank < cfg.g.NumRanks()
  {
    TargetsInRange(cfg, d, rank);
    var d1 := if d.refi[rank] > 0 then d.(refi := d.refi[rank := d.refi[rank] - 1])
              else CreateRefresh(cfg, d, rank).(refi := d.refi[rank := cfg.p.nREFI]);
    CreateShaped(cfg, d, rank);
    if d1.refreshQ[rank] != [] then SendRefresh(cfg, d1, rank) else d1
  }

  lemma OpenOnesSubset(d: Driver, banks: seq<nat>)
    requires forall i | 0 <= i < |banks| :: banks[i] < |d.dev.banks|
    ensures forall b | b in OpenOnes(d, banks) :: b in banks
    ensures (forall i, j | 0 <= i < j < |banks| :: banks[i] != banks[j]) ==>
              var o := OpenOnes(d, banks); forall i, j | 0 <= i < j < |o| :: o[i] != o[j]
  {
    if banks != [] {
      OpenOnesSubset(d, banks[1..]);
      assert forall b | b in banks[1..] :: b in banks;
      if forall i, j | 0 <= i < j < |banks| :: banks[i] != banks[j] {
        assert banks[0] !in banks[1..];
      }
    }
  }

  lemma ReopenQueued(cfg: Config, q: seq<Cmd>, banks: seq<nat>)
    requires cfg.Valid() && forall i | 0 <= i < |q| :: Queued(cfg, q[i])
    ensures forall i | 0 <= i < |ReopenActs(q, banks)| :: Queued(cfg, ReopenActs(q, banks)[i])
    decreases |banks|
  {
    if banks != [] {
      var first := FirstOf(q, banks[0]);
      FirstOfIn(q, banks[0]);
      ReopenQueued(cfg, if first.Some? && first.value.kind.IsColumn() then [first.value.(kind := ACT)] + q else q, banks[1..]);
    }
  }

  lemma FirstOfIn(q: seq<Cmd>, bank: nat)
    ensures FirstOf(q, bank).Some? ==> FirstOf(q, bank).value in q && FirstOf(q, bank).value.bank == bank
  {
  }

  lemma CreateShaped(cfg: Config, d: Driver, rank: nat)
    requires cfg.Valid() && Shaped(cfg, d) && rank < cfg.g.NumRanks()
    ensures forall i | 0 <= i < |RefreshTargets(cfg, d, rank)| :: RefreshTargets(cfg, d, rank)[i] < |d.dev.banks|
    ensures Shaped(cfg, CreateRefresh(cfg, d, rank))
  {
    hide RefreshShaped, Queued, BanksPerRank, RefreshTargets, OpenOnes, ReopenActs, RefreshChannel, NextBank;
    hide Geometry.NumBanks, Geometry.NumRanks;
    TargetsInRange(cfg, d, rank);
    RefreshCmdsShaped(cfg, d, rank);
    var d' := CreateRefresh(cfg, d, rank);
    ReopenQueued(cfg, d.inputQ, RefreshTargets(cfg, d, rank));
    WithRefreshShaped(cfg, d, rank, d'.refreshQ[rank], d'.nextRefresh[rank], d'.inputQ);
    assert d'.nextRefresh == d.nextRefresh[rank := d'.nextRefresh[rank]];
  }

  lemma WithRefreshShaped(cfg: Config, d: Driver, rank: nat, cmds: seq<RefreshCmd>, next: nat, q: seq<Cmd>)
    requires cfg.Valid() && Shaped(cfg, d) && rank < cfg.g.NumRanks()
    requires forall i | 0 <= i < |cmds| :: RefreshShaped(cfg, rank, cmds[i])
    requires next < BanksPerRank(cfg.g)
    requires forall i | 0 <= i < |q| :: Queued(cfg, q[i])
    ensures Shaped(cfg, d.(refreshQ := d.refreshQ[rank := cmds], nextRefresh := d.nextRefresh[rank := next], inputQ := q))
  {
    hide RefreshShaped, Queued, BanksPerRank;
  }

  lemma RefreshCmdsShaped(cfg: Config, d: Driver, rank: nat)
    requires cfg.Valid() && Shaped(cfg, d) && rank < cfg.g.NumRanks()
    requires forall i | 0 <= i < |RefreshTargets(cfg, d, rank)| :: RefreshTargets(cfg, d, rank)[i] < |d.dev.banks|
    ensures
      var targets := RefreshTargets(cfg, d, rank);
      var ch, open := RefreshChannel(cfg.g, rank), OpenOnes(d, targets);
      && (open != [] ==> RefreshShaped(cfg, rank, RefreshCmd(PRE, ch, open)))
      && RefreshShaped(cfg, rank, RefreshCmd(REF, ch, targets))
  {
    TargetsInRange(cfg, d, rank);
    var targets := RefreshTargets(cfg, d, rank);
    var open := OpenOnes(d, targets);
    OpenOnesSubset(d, targets);
    hide RefreshTargets, OpenOnes, RefreshChannel;
    forall i | 0 <= i < |open|
      ensures open[i] < cfg.g.NumBanks() && cfg.g.RankOf(open[i]) == rank
    {
      assert open[i] in targets;
    }
  }

  lemma SendAllBanks(cfg: Config, dev: D.Device, r: RefreshCmd, rank: nat, banks: seq<nat>)
    requires cfg.Valid()
    ensures |SendAll(cfg, dev, r, rank, banks).banks| == |dev.banks|
    decreases |banks|
  {
    if banks != [] {
      var c := RefreshIssue(r, rank, banks[0]);
      SendAllBanks(cfg, if D.CanSend(dev, banks[0], c.kind) then D.Send(cfg.p, cfg.g, dev, banks[0], c, true) else dev,
                   r, rank, banks[1..]);
    }
  }

  lemma RefreshRankShaped(cfg: Config, d: Driver, rank: nat)
    requires cfg.Valid() && Shaped(cfg, d) && rank < cfg.g.NumRanks()
    ensures Shaped(cfg, RefreshRank(cfg, d, rank))
  {
    CreateShaped(cfg, d, rank);
    hide CreateRefresh, RefreshTargets;
    var d1 := if d.refi[rank] > 0 then d.(refi := d.refi[rank := d.refi[rank] - 1])
              else CreateRefresh(cfg, d, rank).(refi := d.refi[rank := cfg.p.nREFI]);
    if d1.refreshQ[rank] != [] {
      SendRefreshShaped(cfg, d1, rank);
    }
  }

  lemma SendRefreshShaped(cfg: Config, d: Driver, rank: nat)
    requires cfg.Valid() && Shaped(cfg, d) && rank < |d.refreshQ| && d.refreshQ[rank] != []
    ensures Shaped(cfg, SendRefresh(cfg, d, rank))
  {
    hide Queued;
    var r := d.refreshQ[rank][0];
    SendAllBanks(cfg, d.dev, r, rank, r.banks);
  }

  /** The refresh loop over the ranks from `rank` on. */
  function RefreshFrom(cfg: Config, d: Driver, rank: nat): Driver
    requires cfg.Valid() && Shaped(cfg, d) && rank <= cfg.g.NumRanks()
    decreases cfg.g.NumRanks() - rank
  {
    if rank == cfg.g.NumRanks() then d
    else
      RefreshRankShaped(cfg, d, rank);
      RefreshFrom(cfg, RefreshRank(cfg, d, rank), rank + 1)
  }

  function Released(d: Driver): Driver {
    d.(colBus := Release(d.colBus), rowBus := Release(d.rowBus))
  }

  lemma RefreshFromShaped(cfg: Config, d: Driver, rank: nat)
    requires cfg.Valid() && Shaped(cfg, d) && rank <= cfg.g.NumRanks()
    ensures Shaped(cfg, RefreshFrom(cfg, d, rank))
    decreases cfg.g.NumRanks() - rank
  {
    if rank < cfg.g.NumRanks() {
      RefreshRankShaped(cfg, d, rank);
      RefreshFromShaped(cfg, RefreshRank(cfg, d, rank), rank + 1);
    }
  }

  /** The refresh part of `run`. */
  function RunRefresh(cfg: Config, d: Driver): Driver
    requires cfg.Valid() && Shaped(cfg, d)
  {
    if cfg.useRefresh then RefreshFrom(cfg, Released(d), 0) else Released(d)
  }

  /** run, up to the forwarding of finished commands. */
  function Run(cfg: Config, d: Driver): Driver
    requires cfg.Valid() && Shaped(cfg, d)
  {
    RefreshFromShaped(cfg, Released(d), 0);
    SendRequest(cfg, RunRefresh(cfg, d))
  }
}
