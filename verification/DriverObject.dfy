/** The device driver object (c_DeviceDriver), updated in place and proved to do what the
    value-level driver does. */
module DriverObject {
  import opened Dram
  import opened BankMachine
  import D = Device
  import opened DeviceObject
  import opened DriverMachine
  import Safety = DriverSafety
  import Refresh

  class DeviceDriver {
    const cfg: Config
    const dev: Banks
    var inputQ: seq<Cmd>
    var blocked: seq<bool>
    var inflight: set<nat>
    var colBus: seq<nat>
    var rowBus: seq<nat>
    var faw: seq<seq<nat>>
    var actIssued: seq<bool>
    var refi: seq<nat>
    var refreshQ: seq<seq<RefreshCmd>>
    var nextRefresh: seq<nat>
    ghost var created: seq<Creation>
    ghost var discarded: seq<Discard>

    ghost predicate Valid()
      reads this, dev, dev.banks
    {
      cfg.Valid() && dev.Valid() && dev.p == cfg.p && dev.g == cfg.g && Shaped(cfg, State())
    }

    ghost function State(): Driver
      reads this, dev, dev.banks
    {
      Driver(dev.Value(), inputQ, blocked, inflight, colBus, rowBus, faw, actIssued, refi, refreshQ, nextRefresh, created, discarded)
    }

    constructor (cfg: Config)
      requires cfg.Valid()
      ensures Valid() && this.cfg == cfg && State() == Initial(cfg)
      ensures fresh(dev) && fresh(dev.banks)
    {
      var ranks := cfg.g.NumRanks();
      this.cfg := cfg;
      dev := new Banks(cfg.p, cfg.g);
      inputQ, blocked, inflight := [], Repeat(cfg.g.NumBanks(), false), {};
      colBus, rowBus := Repeat(cfg.g.channels, 0), Repeat(cfg.g.channels, 0);
      faw, actIssued := Repeat(ranks, Repeat(cfg.p.nFAW - 1, 0)), Repeat(ranks, false);
      refi := seq(ranks, r requires 0 <= r => FirstRefresh(cfg.p, r));
      refreshQ, nextRefresh, created, discarded := Repeat(ranks, []), Repeat(ranks, 0), [], [];
      Refresh.InitialInv(cfg);
    }

    // ---- Command bus

    method ReleaseCommandBus()
      requires Valid()
      modifies this
      ensures Valid() && State() == Released(old(State()))
    {
      hide Queued, RefreshShaped;
      for i := 0 to |colBus|
        invariant State() == old(State()).(colBus := colBus) && |colBus| == |old(colBus)|
        invariant forall j | 0 <= j < |colBus| :: colBus[j] == if j < i && old(colBus)[j] > 0 then old(colBus)[j] - 1 else old(colBus)[j]
      {
        if colBus[i] > 0 { colBus := colBus[i := colBus[i] - 1]; }
      }
      assert colBus == Release(old(colBus));
      for i := 0 to |rowBus|
        invariant State() == old(State()).(colBus := colBus, rowBus := rowBus) && |rowBus| == |old(rowBus)|
        invariant colBus == Release(old(colBus))
        invariant forall j | 0 <= j < |rowBus| :: rowBus[j] == if j < i && old(rowBus)[j] > 0 then old(rowBus)[j] - 1 else old(rowBus)[j]
      {
        if rowBus[i] > 0 { rowBus := rowBus[i := rowBus[i] - 1]; }
      }
      assert rowBus == Release(old(rowBus));
    }

    method IsCommandBusAvailable(k: Kind, channel: nat) returns (free: bool)
      requires channel < |colBus| == |rowBus|
      ensures free == BusFree(State(), k, channel)
    {
      free := if k.IsColumn() then colBus[channel] == 0 else rowBus[channel] == 0;
    }

    /** occupyCommandBus */
    method OccupyCommandBus(k: Kind, channel: nat)
      requires Valid() && channel < |colBus| == |rowBus|
      modifies this`colBus, this`rowBus
      ensures Valid() && State() == Occupy(cfg, old(State()), k, channel)
    {
      hide Queued, RefreshShaped;
      var cycles := if k.ACT? && cfg.multiCycleAct then 2 else 1;
      if cfg.dualBus {
        if k.IsColumn() { colBus := colBus[channel := cycles]; } else { rowBus := rowBus[channel := cycles]; }
      } else {
        colBus, rowBus := colBus[channel := 1], rowBus[channel := 1];
      }
    }

    /** What occupyCommandBus returns: no bus is free. */
    method AllBusesTaken() returns (taken: bool)
      ensures taken == AllBusy(State())
    {
      var available := 0;
      for i := 0 to |colBus|
        invariant available >= 0 && (available == 0 <==> forall j | 0 <= j < i :: colBus[j] != 0)
      {
        if colBus[i] == 0 { available := available + 1; }
      }
      for i := 0 to |rowBus|
        invariant available >= 0
        invariant available == 0 <==>
          (forall j | 0 <= j < |colBus| :: colBus[j] != 0) && (forall j | 0 <= j < i :: rowBus[j] != 0)
      {
        if rowBus[i] == 0 { available := available + 1; }
      }
      taken := available == 0;
    }

    // ---- Start of a cycle

    method ShiftTrackers()
      requires |actIssued| == |faw|
      modifies this`faw
      ensures faw == Shift(old(faw), actIssued)
    {
      for r := 0 to |faw|
        invariant |faw| == |old(faw)|
        invariant forall j | 0 <= j < r :: faw[j] == (old(faw)[j] + [if actIssued[j] then 1 else 0])[1..]
        invariant forall j | r <= j < |faw| :: faw[j] == old(faw)[j]
      {
        faw := faw[r := faw[r] + [if actIssued[r] then 1 else 0]];
        faw := faw[r := faw[r][1..]];
      }
    }

    /** c_DeviceDriver::update */
    method BeginCycle()
      requires Valid()
      modifies this, dev, dev.banks
      ensures Valid() && State() == Update(cfg, old(State()))
    {
      hide Shaped, D.Clock, Shift, Release, Repeat;
      UpdateShaped(cfg, State());
      Refresh.ActRanks(cfg, State());
      dev.Clock();
      ShiftTrackers();
      inflight := {};
      blocked := Repeat(|blocked|, false);
      colBus, rowBus := Release(colBus), Release(rowBus);
      actIssued := Repeat(|actIssued|, false);
    }

    // ---- Requests from the command scheduler

    method IsAllowed(c: Cmd) returns (ok: bool)
      requires Valid() && Queued(cfg, c)
      modifies this`inputQ
      ensures Valid() && (State(), ok) == IsCmdAllowed(cfg, old(State()), c)
    {
      assert c.bank < |dev.banks| && c.rank < |refreshQ| && c.channel < |colBus| == |rowBus|;
      Safety.RequestShaped(cfg, State(), c);
      hide Shaped, Queued;
      if cfg.useRefresh && refreshQ[c.rank] != [] { return false; }
      if c.kind.IsColumn() && dev.banks[c.bank].state.Closed() {
        for i := 0 to |inputQ|
          invariant forall j | 0 <= j < i :: !(inputQ[j].bank == c.bank && inputQ[j].kind.ACT?)
        {
          if inputQ[i].bank == c.bank && inputQ[i].kind.ACT? { return false; }
        }
        inputQ := inputQ + [c.(kind := ACT)];
        return false;
      }
      ok := IsCommandBusAvailable(c.kind, c.channel);
      if ok { ok := dev.banks[c.bank].IsCommandAllowed(c.kind, dev.cycle); }
    }

    method PushCommand(c: Cmd) returns (ok: bool)
      requires Valid() && Queued(cfg, c)
      modifies this`inputQ, this`colBus, this`rowBus
      ensures Valid() && (State(), ok) == Push(cfg, old(State()), c)
    {
      assert c.channel < |colBus| == |rowBus|;
      Safety.RequestShaped(cfg, State(), c);
      ok := |inputQ| < QUEUE_CAPACITY;
      if ok {
        inputQ := inputQ + [c];
        hide Shaped, Queued;
        PushedShaped(cfg, old(State()), c);
        OccupyCommandBus(c.kind, c.channel);
      }
    }

    // ---- Sending requests

    /** getNumIssuedACTinFAW */
    method IssuedActs(rank: nat) returns (count: nat)
      requires rank < |faw|
      ensures count == Sum(faw[rank])
    {
      count := 0;
      for i := 0 to |faw[rank]|
        invariant count == Sum(faw[rank][..i])
      {
        assert faw[rank][..i + 1][..i] == faw[rank][..i];
        count := count + faw[rank][i];
      }
      assert faw[rank][..|faw[rank]|] == faw[rank];
    }

    method CountActs() returns (counts: seq<nat>)
      ensures counts == ActCounts(State())
    {
      counts := [];
      for r := 0 to |faw|
        invariant |counts| == r && forall j | 0 <= j < r :: counts[j] == Sum(faw[j])
      {
        var count := IssuedActs(r);
        counts := counts + [count];
      }
    }

    /** Send the entry to its bank if the bank allows it, and occupy the bus. */
    method TrySend(i: nat) returns (sent: bool)
      requires Valid() && i < |inputQ|
      modifies this, dev, dev.banks
      ensures Valid() && sent == D.CanSend(old(State()).dev, old(inputQ[i].bank), old(inputQ[i].kind))
      ensures State() == if sent then Sent(cfg, old(State()), i) else old(State())
    {
      ghost var was := State();
      var c := inputQ[i];
      EntryRanges(cfg, was, i);
      hide Shaped, Queued, D.Send, D.CanSend, Occupy, Remove;
      sent := dev.SendCommand(c.bank, c, false);
      if sent {
        inputQ := Remove(inputQ, i);
        if c.kind.ACT? { actIssued := actIssued[c.rank := true]; }
        SentShaped(cfg, was, i);
        OccupyCommandBus(c.kind, c.channel);
      }
    }

    /** Leave the marks of a visited entry and say whether the entry may proceed. */
    method MarkEntry(i: nat, counts: seq<nat>) returns (proceed: bool)
      requires Valid() && i < |inputQ| && |counts| == cfg.g.NumRanks()
      requires inputQ[i].rank < |refreshQ| && !RefreshPending(cfg, State(), inputQ[i].rank)
      modifies this`blocked, this`inflight
      ensures Valid() && State() == Mark(cfg, old(State()), i)
      ensures var c := inputQ[i];
        c.bank < |old(blocked)| && c.rank < |counts|
        && proceed == !(old(blocked)[c.bank] || (c.kind.ACT? && counts[c.rank] >= 4) || Low32(c.addr) in old(inflight))
    {
      ghost var was := State();
      var c := inputQ[i];
      EntryRanges(cfg, was, i);
      MarkShaped(cfg, was, i);
      hide Shaped, Queued;
      proceed := !blocked[c.bank];
      blocked := blocked[c.bank := true];
      if c.kind.ACT? && counts[c.rank] >= 4 { proceed := false; }
      if Low32(c.addr) in inflight { proceed := false; }
      if c.kind.WRITE? || c.kind.WRITEA? { inflight := inflight + {Low32(c.addr)}; }
    }

    /** The body of sendRequest's loop: the next position and whether the loop stops. */
    method VisitEntry(i: nat, counts: seq<nat>) returns (next: nat, stop: bool)
      requires Valid() && i < |inputQ| && |counts| == cfg.g.NumRanks()
      modifies this, dev, dev.banks
      ensures Valid() && Scan(State(), next, stop) == SendStep(cfg, old(State()), i, counts)
    {
      hide Shaped, Queued, D.CanSend, Sent, Mark, Remove, AllBusy, BusFree, Low32, Geometry.NumRanks, Geometry.NumBanks;
      ghost var was := State();
      var c := inputQ[i];
      EntryRanges(cfg, was, i);
      SendStepShaped(cfg, was, i, counts);
      if cfg.useRefresh && refreshQ[c.rank] != [] {
        MarkedAlone(cfg, was, i);
        return i + 1, false;
      }
      var proceed := MarkEntry(i, counts);
      MarkEffect(cfg, was, i, c.kind, c.channel);
      if c.kind.REF? { return i, true; }
      if proceed {
        var free := IsCommandBusAvailable(c.kind, c.channel);
        if free {
          if c.kind.PRE? && dev.banks[c.bank].state.Closed() {
            discarded := discarded + [Discard(c, dev.banks[c.bank].state)];
            inputQ := Remove(inputQ, i);
            return i, false;
          }
          var sent := TrySend(i);
          if sent {
            stop := AllBusesTaken();
            return i, stop;
          }
        }
      }
      return i + 1, false;
    }

    method SendRequests()
      requires Valid()
      modifies this, dev, dev.banks
      ensures Valid() && State() == SendRequest(cfg, old(State()))
    {
      ghost var was := State();
      hide Shaped, SendStep;
      Refresh.FawRanks(cfg, was);
      var counts := CountActs();
      var i, stop := 0, false;
      while i < |inputQ| && !stop
        invariant Valid() && 0 <= i <= |inputQ| && |counts| == cfg.g.NumRanks()
        invariant SendFrom(cfg, was, 0, counts) == if stop then State() else SendFrom(cfg, State(), i, counts)
        decreases !stop, |inputQ| - i
      {
        SendStepShaped(cfg, State(), i, counts);
        i, stop := VisitEntry(i, counts);
      }
    }

    // ---- Refresh

    /** The banks of the list that are not closed. */
    method OpenBanks(targets: seq<nat>) returns (open: seq<nat>)
      requires forall i | 0 <= i < |targets| :: targets[i] < |dev.banks|
      ensures open == OpenOnes(State(), targets)
    {
      open := [];
      for i := 0 to |targets|
        invariant open + OpenOnes(State(), targets[i..]) == OpenOnes(State(), targets)
      {
        assert targets[i..][1..] == targets[i + 1..];
        if !dev.banks[targets[i]].state.Closed() { open := open + [targets[i]]; }
      }
    }

    /** The first queued command of a bank. */
    method FirstQueued(bank: nat) returns (first: Option<Cmd>)
      ensures first == FirstOf(inputQ, bank)
    {
      for i := 0 to |inputQ|
        invariant FirstOf(inputQ, bank) == FirstOf(inputQ[i..], bank)
      {
        assert inputQ[i..][1..] == inputQ[i + 1..];
        if inputQ[i].bank == bank { return Some(inputQ[i]); }
      }
      first := None;
    }

    /** Put an ACT in front of the queue for each listed bank that a column command waits for. */
    method QueueActs(targets: seq<nat>)
      modifies this`inputQ
      ensures inputQ == ReopenActs(old(inputQ), targets)
    {
      for i := 0 to |targets|
        invariant ReopenActs(inputQ, targets[i..]) == ReopenActs(old(inputQ), targets)
      {
        assert targets[i..][1..] == targets[i + 1..];
        var first := FirstQueued(targets[i]);
        if first.Some? && first.value.kind.IsColumn() { inputQ := [first.value.(kind := ACT)] + inputQ; }
      }
    }

    method FillRefreshQueue(rank: nat, ch: nat, open: seq<nat>, targets: seq<nat>)
      requires rank < |refreshQ|
      modifies this`refreshQ
      ensures refreshQ == old(refreshQ)[rank :=
        (if open != [] then [RefreshCmd(PRE, ch, open)] else []) + [RefreshCmd(REF, ch, targets)]]
    {
      var cmds := [];
      if open != [] { cmds := cmds + [RefreshCmd(PRE, ch, open)]; }
      assert cmds == if open != [] then [RefreshCmd(PRE, ch, open)] else [];
      refreshQ := refreshQ[rank := cmds + [RefreshCmd(REF, ch, targets)]];
    }

    /** The banks that the next refresh of a rank covers. */
    method Targets(rank: nat) returns (targets: seq<nat>)
      requires rank < |nextRefresh|
      ensures targets == RefreshTargets(cfg, State(), rank)
    {
      var n := BanksPerRank(cfg.g);
      if cfg.singleBank {
        targets := [rank * n + nextRefresh[rank]];
      } else {
        targets := [];
        for k := 0 to n
          invariant |targets| == k && forall j | 0 <= j < k :: targets[j] == rank * n + j
        {
          targets := targets + [rank * n + k];
        }
      }
    }

    method CreateRefreshCmds(rank: nat)
      requires Valid() && rank < cfg.g.NumRanks()
      requires forall i | 0 <= i < |RefreshTargets(cfg, State(), rank)| :: RefreshTargets(cfg, State(), rank)[i] < |dev.banks|
      modifies this`nextRefresh, this`refreshQ, this`inputQ, this`created
      ensures Valid() && State() == CreateRefresh(cfg, old(State()), rank)
    {
      hide Shaped, RefreshChannel, NextBank, OpenOnes, ReopenActs, RefreshTargets, Geometry.NumRanks, Geometry.NumBanks;
      CreateShaped(cfg, State(), rank);
      RefiRanges(cfg, State());
      var ch := RefreshChannel(cfg.g, rank);
      var targets := Targets(rank);
      var open := OpenBanks(targets);
      if cfg.singleBank { nextRefresh := nextRefresh[rank := NextBank(cfg.g, nextRefresh[rank])]; }
      FillRefreshQueue(rank, ch, open, targets);
      QueueActs(targets);
      created := created + [Creation(rank, |dev.trace|, dev.cycle, targets)];
    }

    /** sendCommand for every bank of a refresh command. */
    method SendToAll(r: RefreshCmd, rank: nat)
      requires dev.Valid() && cfg.Valid() && dev.p == cfg.p && dev.g == cfg.g
      requires forall i | 0 <= i < |r.banks| :: r.banks[i] < |dev.banks|
      modifies dev, dev.banks
      ensures dev.Value() == SendAll(cfg, old(dev.Value()), r, rank, r.banks)
    {
      hide D.Send, D.CanSend;
      ghost var was := dev.Value();
      for i := 0 to |r.banks|
        invariant SendAll(cfg, dev.Value(), r, rank, r.banks[i..]) == SendAll(cfg, was, r, rank, r.banks)
      {
        assert r.banks[i..][1..] == r.banks[i + 1..];
        var _ := dev.SendCommand(r.banks[i], RefreshIssue(r, rank, r.banks[i]), true);
      }
    }

    method AllAllow(r: RefreshCmd) returns (ok: bool)
      requires forall i | 0 <= i < |r.banks| :: r.banks[i] < |dev.banks|
      ensures ok == forall i | 0 <= i < |r.banks| :: D.CanSend(dev.Value(), r.banks[i], r.kind)
    {
      hide Allowed;
      for i := 0 to |r.banks|
        invariant forall j | 0 <= j < i :: D.CanSend(dev.Value(), r.banks[j], r.kind)
      {
        ok := dev.banks[r.banks[i]].IsCommandAllowed(r.kind, dev.cycle);
        if !ok {
          assert !D.CanSend(dev.Value(), r.banks[i], r.kind);
          return;
        }
      }
      ok := true;
    }

    method SendRefreshCmd(rank: nat)
      requires Valid() && rank < |refreshQ| && refreshQ[rank] != []
      modifies this, dev, dev.banks
      ensures Valid() && State() == SendRefresh(cfg, old(State()), rank)
    {
      ghost var was := State();
      var r := refreshQ[rank][0];
      RefreshRanges(cfg, was, rank);
      SendRefreshShaped(cfg, was, rank);
      hide Shaped, SendAll, RefreshShaped, D.CanSend, BusFree, Occupy;
      var ready := AllAllow(r);
      if !ready { return; }
      var free := IsCommandBusAvailable(r.kind, r.channel);
      if free {
        SendToAll(r, rank);
        refreshQ := refreshQ[rank := refreshQ[rank][1..]];
        PoppedShaped(cfg, was, rank);
        OccupyCommandBus(r.kind, r.channel);
      }
    }

    method RefreshRanks()
      requires Valid()
      modifies this, dev, dev.banks
      ensures Valid() && State() == RefreshFrom(cfg, old(State()), 0)
    {
      ghost var was := State();
      hide Shaped, RefreshRank;
      for rank := 0 to cfg.g.NumRanks()
        invariant Valid() && RefreshFrom(cfg, State(), rank) == RefreshFrom(cfg, was, 0)
      {
        RefreshOne(rank);
      }
    }

    /** The refresh work of one rank in run. */
    method RefreshOne(rank: nat)
      requires Valid() && rank < cfg.g.NumRanks()
      modifies this, dev, dev.banks
      ensures Valid() && State() == RefreshRank(cfg, old(State()), rank)
    {
      hide Shaped, RefreshTargets, CreateRefresh, SendRefresh, RefreshChannel, Geometry.NumRanks, Geometry.NumBanks;
      ghost var was := State();
      TargetsInRange(cfg, was, rank);
      CreateShaped(cfg, was, rank);
      RefiRanges(cfg, was);
      if refi[rank] > 0 {
        refi := refi[rank := refi[rank] - 1];
        RefiShaped(cfg, was, refi);
      } else {
        CreateRefreshCmds(rank);
        ghost var made := State();
        RefiRanges(cfg, made);
        refi := refi[rank := cfg.p.nREFI];
        RefiShaped(cfg, made, refi);
      }
      RefiRanges(cfg, State());
      if refreshQ[rank] != [] { SendRefreshCmd(rank); }
    }

    /** c_DeviceDriver::run, up to the forwarding of finished commands. */
    method RunCycle()
      requires Valid()
      modifies this, dev, dev.banks
      ensures Valid() && State() == Run(cfg, old(State()))
    {
      hide Shaped, RefreshFrom, SendRequest;
      ReleaseCommandBus();
      if cfg.useRefresh { RefreshRanks(); }
      SendRequests();
    }
  }

  lemma RefreshRanges(cfg: Config, d: Driver, rank: nat)
    requires cfg.Valid() && Shaped(cfg, d) && rank < |d.refreshQ| && d.refreshQ[rank] != []
    ensures var r := d.refreshQ[rank][0];
      && r.channel < |d.colBus| == |d.rowBus|
      && forall i | 0 <= i < |r.banks| :: r.banks[i] < |d.dev.banks|
  {
    assert RefreshShaped(cfg, rank, d.refreshQ[rank][0]);
  }

  lemma PoppedShaped(cfg: Config, d: Driver, rank: nat)
    requires cfg.Valid() && Shaped(cfg, d) && rank < |d.refreshQ| && d.refreshQ[rank] != []
    ensures var r := d.refreshQ[rank][0];
      Shaped(cfg, d.(dev := SendAll(cfg, d.dev, r, rank, r.banks), refreshQ := d.refreshQ[rank := d.refreshQ[rank][1..]]))
  {
    hide Queued;
    var r := d.refreshQ[rank][0];
    SendAllBanks(cfg, d.dev, r, rank, r.banks);
  }

  lemma RefiRanges(cfg: Config, d: Driver)
    requires cfg.Valid() && Shaped(cfg, d)
    ensures |d.refi| == |d.refreshQ| == |d.nextRefresh| == cfg.g.NumRanks() && |d.dev.banks| == cfg.g.NumBanks()
  {
  }

  lemma RefiShaped(cfg: Config, d: Driver, refi: seq<nat>)
    requires cfg.Valid() && Shaped(cfg, d) && |refi| == |d.refi|
    ensures Shaped(cfg, d.(refi := refi))
  {
    hide Queued, RefreshShaped;
  }

  lemma MarkedAlone(cfg: Config, d: Driver, i: nat)
    requires cfg.Valid() && Shaped(cfg, d) && i < |d.inputQ| && d.inputQ[i].rank < |d.refreshQ|
    requires RefreshPending(cfg, d, d.inputQ[i].rank)
    ensures Mark(cfg, d, i) == d
  {
  }

  /** Marks change neither the banks nor the queue nor the buses. */
  lemma MarkEffect(cfg: Config, d: Driver, i: nat, k: Kind, channel: nat)
    requires cfg.Valid() && Shaped(cfg, d) && i < |d.inputQ| && channel < |d.colBus| == |d.rowBus|
    ensures var d' := Mark(cfg, d, i);
      && d'.dev == d.dev && d'.inputQ == d.inputQ && |d'.colBus| == |d.colBus| && |d'.rowBus| == |d.rowBus|
      && BusFree(d', k, channel) == BusFree(d, k, channel)
  {
  }

  lemma EntryRanges(cfg: Config, d: Driver, i: nat)
    requires cfg.Valid() && Shaped(cfg, d) && i < |d.inputQ|
    ensures var c := d.inputQ[i];
      && c.bank < |d.dev.banks| == |d.blocked| == cfg.g.NumBanks()
      && c.rank < |d.refreshQ| == |d.actIssued| == |d.faw| == cfg.g.NumRanks() && c.channel < |d.colBus| == |d.rowBus|
  {
  }

  lemma PushedShaped(cfg: Config, d: Driver, c: Cmd)
    requires cfg.Valid() && Shaped(cfg, d) && Queued(cfg, c)
    ensures Shaped(cfg, d.(inputQ := d.inputQ + [c]))
  {
    hide Queued, RefreshShaped;
  }

  /** The driver just before the bus is occupied for the sent command. */
  lemma SentShaped(cfg: Config, d: Driver, i: nat)
    requires cfg.Valid() && Shaped(cfg, d) && i < |d.inputQ| && D.CanSend(d.dev, d.inputQ[i].bank, d.inputQ[i].kind)
    requires d.inputQ[i].rank < |d.actIssued|
    ensures var c := d.inputQ[i];
      Shaped(cfg, d.(dev := D.Send(cfg.p, cfg.g, d.dev, c.bank, c, false), inputQ := Remove(d.inputQ, i),
                     actIssued := if c.kind.ACT? then d.actIssued[c.rank := true] else d.actIssued))
  {
    hide Queued, RefreshShaped, Handle, Raise, Geometry.Relation;
  }
}
