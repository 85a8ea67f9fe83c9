/** All banks of the device, and the timing theorem: whatever sequence of clock edges and
    send attempts the banks see, the accepted commands keep the distances that the timing
    parameters demand. */
module Device {
  import opened Arith
  import opened Dram
  import opened BankMachine

  /** A command accepted by a bank, with the row flag the bank showed at that moment.
      `refresh` marks the commands sent by the refresh engine. */
  datatype Issue = Issue(cycle: nat, bank: nat, cmd: Cmd, open: bool, openRow: nat, refresh: bool)

  datatype Device = Device(cycle: nat, banks: seq<Bank>, trace: seq<Issue>)

  function Initial(g: Geometry): Device {
    Device(0, seq(g.NumBanks(), i => INITIAL), [])
  }

  /** One clock edge of every bank. */
  function Clock(p: Params, d: Device): Device
    requires p.Valid()
  {
    var now := d.cycle + 1;
    Device(now, seq(|d.banks|, i requires 0 <= i < |d.banks| => Tick(p, d.banks[i], now)), d.trace)
  }

  predicate CanSend(d: Device, bank: nat, k: Kind) {
    bank < |d.banks| && Allowed(d.banks[bank], k, d.cycle)
  }

  /** c_BankInfo::handleCommand: the bank takes the command and the others on its pseudo
      channel raise their earliest cycles. */
  function Send(p: Params, g: Geometry, d: Device, bank: nat, c: Cmd, refresh: bool): Device
    requires g.Valid() && CanSend(d, bank, c.kind)
  {
    var bk := d.banks[bank];
    Device(d.cycle,
           seq(|d.banks|, i requires 0 <= i < |d.banks| =>
             if i == bank then Handle(bk, c, d.cycle)
             else Raise(p, d.banks[i], g.Relation(bank, i), c.kind, d.cycle)),
           d.trace + [Issue(d.cycle, bank, c, bk.rowOpen, bk.openRow, refresh)])
  }

  /** What can happen to the banks. A send attempt that is not allowed has no effect. */
  datatype Op = Edge | Attempt(bank: nat, cmd: Cmd, refresh: bool)

  ghost function Step(p: Params, g: Geometry, d: Device, op: Op): Device
    requires p.Valid() && g.Valid()
  {
    match op
    case Edge => Clock(p, d)
    case Attempt(bank, c, refresh) => if CanSend(d, bank, c.kind) then Send(p, g, d, bank, c, refresh) else d
  }

  ghost function Run(p: Params, g: Geometry, ops: seq<Op>): Device
    requires p.Valid() && g.Valid()
  {
    if ops == [] then Initial(g)
    else Step(p, g, Run(p, g, ops[..|ops| - 1]), ops[|ops| - 1])
  }

  /** Some run leads here. */
  ghost predicate Reached(p: Params, g: Geometry, d: Device)
    requires p.Valid() && g.Valid()
  {
    exists ops: seq<Op> :: d == Run(p, g, ops)
  }

  lemma ReachedStep(p: Params, g: Geometry, d: Device, op: Op)
    requires p.Valid() && g.Valid() && Reached(p, g, d)
    ensures Reached(p, g, Step(p, g, d, op))
  {
    var ops: seq<Op> :| d == Run(p, g, ops);
    assert (ops + [op])[..|ops|] == ops;
    assert Step(p, g, d, op) == Run(p, g, ops + [op]);
  }

  // ---- The demands

  /** No command is accepted before the first clock edge. */
  ghost predicate Late(trace: seq<Issue>) {
    forall i | 0 <= i < |trace| :: trace[i].cycle >= 1
  }

  ghost predicate NoAuto(trace: seq<Issue>) {
    forall i | 0 <= i < |trace| :: !trace[i].cmd.kind.IsAuto()
  }

  /** Distance between two column commands to one bank. */
  ghost function SameBankGap(p: Params, fromRead: bool, toRead: bool): int {
    if fromRead == toRead then p.nCCD_L
    else if fromRead then p.nCWL + p.nBL + p.nWTR
    else p.nCWL + p.nBL + p.nWTR_L
  }

  /** Distance between two column commands to different banks of a pseudo channel: within a bank
      group, within a rank, and between ranks. */
  ghost function TableGap(p: Params, rel: Relation, fromRead: bool, toRead: bool): int {
    var toWrite := p.nCL + p.nBL + p.nRTW - p.nCWL;
    var burst := Max(p.nBL, Min(p.nCCD_S, p.nCCD_L));
    match rel
    case Group => if fromRead == toRead then Max(p.nCCD_L, p.nBL) else if fromRead then toWrite else p.nCWL + p.nBL + p.nWTR_L
    case Rank => if fromRead == toRead then Max(p.nCCD_S, p.nBL) else if fromRead then toWrite else p.nCWL + p.nBL + p.nWTR_S
    case Pseudo =>
      if fromRead then (if toRead then burst + p.nERTR else p.nCL + burst + p.nERTW - p.nCWL)
      else if toRead then p.nCWL + burst + p.nEWTR - p.nCL else burst + p.nEWTW
    case _ => 0
  }

  /** The distance demanded of the later issue `f` by the earlier issue `e`. With `noAuto`
      the run contains no auto-precharge command. */
  ghost predicate Separated(p: Params, g: Geometry, noAuto: bool, e: Issue, f: Issue)
    requires g.Valid()
  {
    var rel := g.Relation(e.bank, f.bank);
    var k, l := e.cmd.kind, f.cmd.kind;
    && e.cycle <= f.cycle
    && (rel.Same? ==>
          && (k.ACT? && l.IsColumn() ==> f.cycle >= e.cycle + p.nRCD)
          && (k.ACT? && l.PRE? && f.open ==> f.cycle >= e.cycle + p.nRAS)
          && (k.READ? && l.PRE? ==> f.cycle >= e.cycle + p.nRTP)
          && (k.WRITE? && l.PRE? ==> f.cycle >= e.cycle + p.nCWL + p.nBL + p.nWR)
          && (k.PRE? ==> f.cycle >= e.cycle + p.nRP)
          && (k.REF? ==> f.cycle >= e.cycle + p.nRFC)
          && (noAuto && k.ACT? && l.ACT? ==> f.cycle >= e.cycle + p.nRAS + p.nRP)
          && (noAuto && k.IsColumn() && l.IsColumn() ==>
                f.cycle >= e.cycle + SameBankGap(p, k.IsRead(), l.IsRead())))
    && (rel.Group? && k.ACT? && l.ACT? ==> f.cycle >= e.cycle + p.nRRD_L)
    && (rel.Rank? && k.ACT? && l.ACT? ==> f.cycle >= e.cycle + p.nRRD_S)
    && (noAuto && (rel.Group? || rel.Rank? || rel.Pseudo?) && k.IsColumn() && l.IsColumn() ==>
          f.cycle >= e.cycle + TableGap(p, rel, k.IsRead(), l.IsRead()))
  }

  ghost predicate TimingSafe(p: Params, g: Geometry, trace: seq<Issue>)
    requires g.Valid()
  {
    forall i, j | 0 <= i < j < |trace| :: Separated(p, g, NoAuto(trace), trace[i], trace[j])
  }

  // ---- What a bank still remembers of an earlier issue

  /** Facts about one bank alone. */
  ghost predicate Sane(bk: Bank) {
    && (bk.rowOpen <==> !bk.state.Idle? && !bk.state.Precharging? && !bk.state.Refreshing?)
    && (bk.state.Activating? ==> bk.state.timer == 0 && bk.state.prev.kind.ACT?)
    && (bk.state.Idle? && bk.received.Some? ==> bk.state.timer == 1)
    && (bk.received.Some? && !bk.state.Fault? ==> Accepts(bk.state, bk.received.value.kind))
    && ((bk.state.Reading? || bk.state.Writing?) && bk.state.exit != 0 ==>
          bk.received.Some? && !bk.received.value.kind.IsAuto())
  }

  ghost predicate AutoFree(bk: Bank) {
    !bk.state.ReadingA? && !bk.state.WritingA? && !bk.Holds(READA) && !bk.Holds(WRITEA)
  }

  ghost predicate SeenAct(p: Params, noAuto: bool, bk: Bank, now: nat, t: nat) {
    && t <= bk.last.act
    && match bk.state
       case Idle(_) => bk.Holds(ACT) || (noAuto ==> t + p.nRAS + p.nRP <= now)
       case Activating(_, _) => t + 1 <= now
       case Active(_) => SeenActOpen(p, bk, now, t)
       case Reading(_, _) => SeenActOpen(p, bk, now, t)
       case Writing(_, _) => SeenActOpen(p, bk, now, t)
       case Precharging(timer) => noAuto ==> t + p.nRAS + p.nRP <= now + timer + 1
       case Refreshing(_) => noAuto ==> t + p.nRAS + p.nRP <= now
       case _ => true
  }

  ghost predicate SeenActOpen(p: Params, bk: Bank, now: nat, t: nat) {
    && t + p.nRCD <= bk.next.read && t + p.nRCD <= bk.next.reada
    && t + p.nRCD <= bk.next.write && t + p.nRCD <= bk.next.writea
    && t + p.nRAS <= (if bk.Holds(PRE) then now else Max(bk.next.pre, now))
  }

  /** A READ or WRITE at cycle `t` that forbids a precharge before `due`. */
  ghost predicate SeenColumn(bk: Bank, now: nat, k: Kind, due: int) {
    bk.state.Fault?
    || (bk.state.TakesColumn() && bk.Holds(k))
    || due <= now
    || ((bk.state.Reading? || bk.state.Writing?) && !bk.Holds(PRE) && due <= bk.next.pre)
  }

  ghost predicate SeenPre(p: Params, bk: Bank, now: nat, t: nat) {
    bk.state.Fault? || bk.Holds(PRE) || t + p.nRP <= now
    || (bk.state.Precharging? && t + p.nRP <= now + bk.state.timer + 1)
  }

  ghost predicate SeenRef(p: Params, bk: Bank, now: nat, t: nat) {
    bk.state.Fault? || bk.Holds(REF) || t + p.nRFC <= now
    || (bk.state.Refreshing? && t + p.nRFC <= now + bk.state.timer + 1)
  }

  ghost predicate SeenSelf(p: Params, noAuto: bool, bk: Bank, now: nat, e: Issue) {
    var t, k := e.cycle, e.cmd.kind;
    && (k.ACT? ==> SeenAct(p, noAuto, bk, now, t))
    && (k.READ? ==> t <= bk.last.read && SeenColumn(bk, now, READ, t + p.nRTP))
    && (k.WRITE? ==> t <= bk.last.write && SeenColumn(bk, now, WRITE, t + p.nCWL + p.nBL + p.nWR))
    && (k.PRE? ==> SeenPre(p, bk, now, t))
    && (k.REF? ==> SeenRef(p, bk, now, t))
    && (noAuto && (k.READ? || k.WRITE?) ==> SeenGap(p, bk, k, t))
  }

  /** A READ or WRITE at cycle `t` has pushed back the bank's next column commands, or is
      about to when the bank leaves its state. */
  ghost predicate SeenGap(p: Params, bk: Bank, k: Kind, t: nat) {
    bk.Holds(k) || ColumnsFrom(bk, t + SameBankGap(p, k.IsRead(), true), t + SameBankGap(p, k.IsRead(), false))
  }

  ghost predicate ColumnsFrom(bk: Bank, read: int, write: int) {
    read <= bk.next.read && read <= bk.next.reada && write <= bk.next.write && write <= bk.next.writea
  }

  ghost predicate SeenOther(p: Params, noAuto: bool, rel: Relation, bk: Bank, e: Issue) {
    var t, k := e.cycle, e.cmd.kind;
    && (rel.Group? && k.ACT? ==> t + p.nRRD_L <= bk.next.act)
    && (rel.Rank? && k.ACT? ==> t + p.nRRD_S <= bk.next.act)
    && (noAuto && (rel.Group? || rel.Rank? || rel.Pseudo?) && k.IsColumn() ==>
          ColumnsFrom(bk, t + TableGap(p, rel, k.IsRead(), true), t + TableGap(p, rel, k.IsRead(), false)))
  }

  ghost predicate Seen(p: Params, noAuto: bool, rel: Relation, bk: Bank, now: nat, e: Issue) {
    && e.cycle <= now
    && (rel.Same? ==> SeenSelf(p, noAuto, bk, now, e))
    && (!rel.Same? ==> SeenOther(p, noAuto, rel, bk, e))
  }

  // ---- One bank, one remembered issue

  lemma TickSane(p: Params, bk: Bank, now: nat)
    requires p.Valid() && Sane(bk)
    ensures Sane(Tick(p, bk, now))
    ensures AutoFree(bk) ==> AutoFree(Tick(p, bk, now))
  {
  }

  lemma TickKeepsActOpen(p: Params, noAuto: bool, bk: Bank, now: nat, t: nat)
    requires p.Valid() && Sane(bk) && (noAuto ==> AutoFree(bk)) && t <= now
    requires bk.state.TakesColumn() && SeenAct(p, noAuto, bk, now, t)
    ensures SeenAct(p, noAuto, Tick(p, bk, now + 1), now + 1, t)
  {
    hide Tick, SeenAct;
    if bk.state.Active? {
      TickKeepsActActive(p, noAuto, bk, now, t);
    } else if bk.state.Reading? {
      TickKeepsActReading(p, noAuto, bk, now, t);
    } else {
      TickKeepsActWriting(p, noAuto, bk, now, t);
    }
  }

  lemma TickKeepsActActive(p: Params, noAuto: bool, bk: Bank, now: nat, t: nat)
    requires p.Valid() && Sane(bk) && (noAuto ==> AutoFree(bk)) && t <= now
    requires bk.state.Active? && SeenAct(p, noAuto, bk, now, t)
    ensures SeenAct(p, noAuto, Tick(p, bk, now + 1), now + 1, t)
  {
    hide Leave, TickReadingA, TickWritingA, EnterIdle, EnterActive, EnterActivating, EnterRefreshing, Decrement64;
  }

  lemma TickKeepsActReading(p: Params, noAuto: bool, bk: Bank, now: nat, t: nat)
    requires p.Valid() && Sane(bk) && (noAuto ==> AutoFree(bk)) && t <= now
    requires bk.state.Reading? && SeenAct(p, noAuto, bk, now, t)
    ensures SeenAct(p, noAuto, Tick(p, bk, now + 1), now + 1, t)
  {
    hide WriteExit, TickReadingA, TickWritingA, EnterIdle, EnterActive, EnterActivating, EnterRefreshing, Decrement64;
  }

  lemma TickKeepsActWriting(p: Params, noAuto: bool, bk: Bank, now: nat, t: nat)
    requires p.Valid() && Sane(bk) && (noAuto ==> AutoFree(bk)) && t <= now
    requires bk.state.Writing? && SeenAct(p, noAuto, bk, now, t)
    ensures SeenAct(p, noAuto, Tick(p, bk, now + 1), now + 1, t)
  {
    hide ReadExit, TickReadingA, TickWritingA, EnterIdle, EnterActive, EnterActivating, EnterRefreshing, Decrement64;
  }

  lemma TickKeepsActClosed(p: Params, noAuto: bool, bk: Bank, now: nat, t: nat)
    requires p.Valid() && Sane(bk) && (noAuto ==> AutoFree(bk)) && t <= now
    requires !bk.state.TakesColumn() && SeenAct(p, noAuto, bk, now, t)
    ensures SeenAct(p, noAuto, Tick(p, bk, now + 1), now + 1, t)
  {
  }

  lemma TickKeepsAct(p: Params, noAuto: bool, bk: Bank, now: nat, t: nat)
    requires p.Valid() && Sane(bk) && (noAuto ==> AutoFree(bk)) && t <= now
    requires SeenAct(p, noAuto, bk, now, t)
    ensures SeenAct(p, noAuto, Tick(p, bk, now + 1), now + 1, t)
  {
    hide Tick, SeenAct, Sane, AutoFree;
    if bk.state.TakesColumn() {
      TickKeepsActOpen(p, noAuto, bk, now, t);
    } else {
      TickKeepsActClosed(p, noAuto, bk, now, t);
    }
  }

  lemma TickKeepsRead(p: Params, bk: Bank, now: nat, t: nat)
    requires p.Valid() && Sane(bk) && t <= bk.last.read && SeenColumn(bk, now, READ, t + p.nRTP)
    ensures t <= Tick(p, bk, now + 1).last.read
    ensures SeenColumn(Tick(p, bk, now + 1), now + 1, READ, t + p.nRTP)
  {
  }

  lemma TickKeepsWrite(p: Params, bk: Bank, now: nat, t: nat)
    requires p.Valid() && Sane(bk) && t <= bk.last.write
    requires SeenColumn(bk, now, WRITE, t + p.nCWL + p.nBL + p.nWR)
    ensures t <= Tick(p, bk, now + 1).last.write
    ensures SeenColumn(Tick(p, bk, now + 1), now + 1, WRITE, t + p.nCWL + p.nBL + p.nWR)
  {
  }

  lemma TickKeepsClosing(p: Params, bk: Bank, now: nat, t: nat)
    requires p.Valid() && Sane(bk) && t <= now
    ensures SeenPre(p, bk, now, t) ==> SeenPre(p, Tick(p, bk, now + 1), now + 1, t)
    ensures SeenRef(p, bk, now, t) ==> SeenRef(p, Tick(p, bk, now + 1), now + 1, t)
  {
  }

  lemma TickKeepsGap(p: Params, bk: Bank, now: nat, t: nat)
    requires p.Valid() && Sane(bk) && AutoFree(bk)
    ensures
      var b' := Tick(p, bk, now);
      && (t <= bk.last.read && SeenGap(p, bk, READ, t) ==> SeenGap(p, b', READ, t))
      && (t <= bk.last.write && SeenGap(p, bk, WRITE, t) ==> SeenGap(p, b', WRITE, t))
  {
    hide Tick;
    if t <= bk.last.read && SeenGap(p, bk, READ, t) { TickKeepsReadGap(p, bk, now, t); }
    if t <= bk.last.write && SeenGap(p, bk, WRITE, t) { TickKeepsWriteGap(p, bk, now, t); }
  }

  lemma TickKeepsReadGap(p: Params, bk: Bank, now: nat, t: nat)
    requires p.Valid() && Sane(bk) && AutoFree(bk) && t <= bk.last.read && SeenGap(p, bk, READ, t)
    ensures SeenGap(p, Tick(p, bk, now), READ, t)
  {
    hide TickReadingA, TickWritingA, Decrement64;
  }

  lemma TickKeepsWriteGap(p: Params, bk: Bank, now: nat, t: nat)
    requires p.Valid() && Sane(bk) && AutoFree(bk) && t <= bk.last.write && SeenGap(p, bk, WRITE, t)
    ensures SeenGap(p, Tick(p, bk, now), WRITE, t)
  {
    hide TickReadingA, TickWritingA, Decrement64;
  }

  lemma TickKeepsSelf(p: Params, noAuto: bool, bk: Bank, now: nat, e: Issue)
    requires p.Valid() && Sane(bk) && (noAuto ==> AutoFree(bk))
    requires SeenSelf(p, noAuto, bk, now, e) && e.cycle <= now
    ensures SeenSelf(p, noAuto, Tick(p, bk, now + 1), now + 1, e)
  {
    hide Tick, SeenAct, SeenColumn, SeenPre, SeenRef, SeenGap;
    var t, k := e.cycle, e.cmd.kind;
    if k.ACT? { TickKeepsAct(p, noAuto, bk, now, t); }
    if k.READ? { TickKeepsRead(p, bk, now, t); }
    if k.WRITE? { TickKeepsWrite(p, bk, now, t); }
    TickKeepsClosing(p, bk, now, t);
    if noAuto { TickKeepsGap(p, bk, now + 1, t); }
  }

  lemma TickKeepsOther(p: Params, noAuto: bool, rel: Relation, bk: Bank, now: nat, e: Issue)
    requires p.Valid() && Sane(bk) && (noAuto ==> AutoFree(bk))
    requires SeenOther(p, noAuto, rel, bk, e)
    ensures SeenOther(p, noAuto, rel, Tick(p, bk, now + 1), e)
  {
  }

  lemma HandleKeeps(p: Params, noAuto: bool, rel: Relation, bk: Bank, now: nat, c: Cmd, e: Issue)
    requires Sane(bk) && Allowed(bk, c.kind, now) && (noAuto ==> AutoFree(bk) && !c.kind.IsAuto())
    requires Seen(p, noAuto, rel, bk, now, e)
    ensures Sane(Handle(bk, c, now)) && (noAuto ==> AutoFree(Handle(bk, c, now)))
    ensures Seen(p, noAuto, rel, Handle(bk, c, now), now, e)
  {
  }

  lemma RaiseKeepsSelf(p: Params, noAuto: bool, bk: Bank, now: nat, via: Relation, k: Kind, e: Issue)
    requires SeenSelf(p, noAuto, bk, now, e)
    ensures SeenSelf(p, noAuto, Raise(p, bk, via, k, now), now, e)
  {
  }

  lemma RaiseKeepsOther(p: Params, noAuto: bool, rel: Relation, bk: Bank, now: nat, via: Relation, k: Kind, e: Issue)
    requires SeenOther(p, noAuto, rel, bk, e)
    ensures SeenOther(p, noAuto, rel, Raise(p, bk, via, k, now), e)
  {
  }

  lemma HandleSeen(p: Params, noAuto: bool, bk: Bank, now: nat, c: Cmd, e: Issue)
    requires Sane(bk) && Allowed(bk, c.kind, now) && e.cycle == now && e.cmd == c
    ensures SeenSelf(p, noAuto, Handle(bk, c, now), now, e)
  {
  }

  lemma RaiseSeen(p: Params, noAuto: bool, rel: Relation, bk: Bank, e: Issue)
    ensures SeenOther(p, noAuto, rel, Raise(p, bk, rel, e.cmd.kind, e.cycle), e)
  {
  }

  lemma SeenSeparates(p: Params, g: Geometry, noAuto: bool, bk: Bank, now: nat, e: Issue, f: Issue)
    requires g.Valid() && Sane(bk) && Seen(p, noAuto, g.Relation(e.bank, f.bank), bk, now, e)
    requires noAuto ==> !e.cmd.kind.IsAuto() && !f.cmd.kind.IsAuto()
    requires Allowed(bk, f.cmd.kind, now) && f.cycle == now && f.open == bk.rowOpen
    ensures Separated(p, g, noAuto, e, f)
  {
  }

  // ---- The whole device

  ghost predicate Valid(p: Params, g: Geometry, d: Device)
    requires g.Valid()
  {
    && p.Valid() && Reached(p, g, d)
    && |d.banks| == g.NumBanks()
    && (forall b | 0 <= b < |d.banks| :: Sane(d.banks[b]))
    && (NoAuto(d.trace) ==> forall b | 0 <= b < |d.banks| :: AutoFree(d.banks[b]))
    && (forall i | 0 <= i < |d.trace| :: d.trace[i].bank < |d.banks|)
    && (forall i, b | 0 <= i < |d.trace| && 0 <= b < |d.banks| ::
          Seen(p, NoAuto(d.trace), g.Relation(d.trace[i].bank, b), d.banks[b], d.cycle, d.trace[i]))
    && TimingSafe(p, g, d.trace)
  }

  /** Facts recorded for runs without auto-precharge stay true when that is given up. */
  lemma Weaken(p: Params, g: Geometry, rel: Relation, bk: Bank, now: nat, e: Issue)
    requires Seen(p, true, rel, bk, now, e)
    ensures Seen(p, false, rel, bk, now, e)
  {
  }

  lemma InitialValid(p: Params, g: Geometry)
    requires p.Valid() && g.Valid()
    ensures Valid(p, g, Initial(g))
  {
    assert Initial(g) == Run(p, g, []);
  }

  lemma ClockSeen(p: Params, g: Geometry, d: Device, i: nat, b: nat)
    requires p.Valid() && g.Valid() && Valid(p, g, d) && i < |d.trace| && b < |d.banks|
    ensures
      Seen(p, NoAuto(d.trace), g.Relation(d.trace[i].bank, b), Tick(p, d.banks[b], d.cycle + 1), d.cycle + 1, d.trace[i])
  {
    hide Tick, SeenSelf, SeenOther, TimingSafe;
    var rel := g.Relation(d.trace[i].bank, b);
    var noAuto := NoAuto(d.trace);
    assert Seen(p, noAuto, rel, d.banks[b], d.cycle, d.trace[i]);
    if rel.Same? {
      TickKeepsSelf(p, noAuto, d.banks[b], d.cycle, d.trace[i]);
    } else {
      TickKeepsOther(p, noAuto, rel, d.banks[b], d.cycle, d.trace[i]);
    }
  }

  lemma ClockValid(p: Params, g: Geometry, d: Device)
    requires p.Valid() && g.Valid() && Valid(p, g, d)
    ensures Valid(p, g, Clock(p, d))
  {
    hide Tick, Seen, Sane, AutoFree, TimingSafe, Run;
    ReachedStep(p, g, d, Edge);
    var d' := Clock(p, d);
    forall b | 0 <= b < |d.banks|
      ensures Sane(d'.banks[b]) && (AutoFree(d.banks[b]) ==> AutoFree(d'.banks[b]))
    {
      TickSane(p, d.banks[b], d'.cycle);
    }
    forall i, b | 0 <= i < |d.trace| && 0 <= b < |d.banks|
      ensures Seen(p, NoAuto(d.trace), g.Relation(d.trace[i].bank, b), d'.banks[b], d'.cycle, d.trace[i])
    {
      ClockSeen(p, g, d, i, b);
    }
  }

  /** One bank's view of one issue across a send. */
  lemma SendSeen(p: Params, g: Geometry, d: Device, bank: nat, c: Cmd, refresh: bool, i: nat, b: nat)
    requires g.Valid() && Valid(p, g, d) && CanSend(d, bank, c.kind) && b < |d.banks|
    requires i < |d.trace| + 1
    ensures
      var d' := Send(p, g, d, bank, c, refresh);
      Seen(p, NoAuto(d'.trace), g.Relation(d'.trace[i].bank, b), d'.banks[b], d'.cycle, d'.trace[i])
  {
    var d' := Send(p, g, d, bank, c, refresh);
    var e := d'.trace[i];
    var rel := g.Relation(e.bank, b);
    var noAuto := NoAuto(d'.trace);
    assert d'.trace[|d.trace|].cmd == c;
    assert noAuto ==> NoAuto(d.trace) by {
      if noAuto {
        assert forall j | 0 <= j < |d.trace| :: d.trace[j] == d'.trace[j];
      }
    }
    if i < |d.trace| {
      assert e == d.trace[i];
      assert Seen(p, NoAuto(d.trace), rel, d.banks[b], d.cycle, e);
      if !noAuto && NoAuto(d.trace) { Weaken(p, g, rel, d.banks[b], d.cycle, e); }
      if b == bank {
        HandleKeeps(p, noAuto, rel, d.banks[b], d.cycle, c, e);
      } else {
        if rel.Same? {
          RaiseKeepsSelf(p, noAuto, d.banks[b], d.cycle, g.Relation(bank, b), c.kind, e);
        } else {
          RaiseKeepsOther(p, noAuto, rel, d.banks[b], d.cycle, g.Relation(bank, b), c.kind, e);
        }
      }
    } else if b == bank {
      HandleSeen(p, noAuto, d.banks[b], d.cycle, c, e);
    } else {
      RaiseSeen(p, noAuto, rel, d.banks[b], e);
    }
  }

  lemma SendSeparates(p: Params, g: Geometry, d: Device, bank: nat, c: Cmd, refresh: bool, i: nat)
    requires g.Valid() && Valid(p, g, d) && CanSend(d, bank, c.kind) && i < |d.trace|
    ensures
      var trace' := Send(p, g, d, bank, c, refresh).trace;
      Separated(p, g, NoAuto(trace'), d.trace[i], trace'[|d.trace|])
  {
    var trace' := Send(p, g, d, bank, c, refresh).trace;
    var noAuto := NoAuto(trace');
    var e, f := d.trace[i], trace'[|d.trace|];
    assert trace'[i] == e;
    assert noAuto ==> NoAuto(d.trace) by {
      if noAuto {
        assert forall j | 0 <= j < |d.trace| :: d.trace[j] == trace'[j];
      }
    }
    assert Seen(p, NoAuto(d.trace), g.Relation(e.bank, bank), d.banks[bank], d.cycle, e);
    if !noAuto && NoAuto(d.trace) { Weaken(p, g, g.Relation(e.bank, bank), d.banks[bank], d.cycle, e); }
    SeenSeparates(p, g, noAuto, d.banks[bank], d.cycle, e, f);
  }

  lemma SendSane(p: Params, g: Geometry, d: Device, bank: nat, c: Cmd, refresh: bool, b: nat)
    requires g.Valid() && Valid(p, g, d) && CanSend(d, bank, c.kind) && b < |d.banks|
    ensures
      var d' := Send(p, g, d, bank, c, refresh);
      Sane(d'.banks[b]) && (NoAuto(d'.trace) ==> AutoFree(d'.banks[b]))
  {
    hide Seen, Separated, TimingSafe;
    var d' := Send(p, g, d, bank, c, refresh);
    assert d'.trace[|d.trace|].cmd == c;
    if NoAuto(d'.trace) {
      assert forall j | 0 <= j < |d.trace| :: d.trace[j] == d'.trace[j];
    }
  }

  lemma SendValid(p: Params, g: Geometry, d: Device, bank: nat, c: Cmd, refresh: bool)
    requires g.Valid() && Valid(p, g, d) && CanSend(d, bank, c.kind)
    ensures Valid(p, g, Send(p, g, d, bank, c, refresh))
  {
    var d' := Send(p, g, d, bank, c, refresh);
    assert NoAuto(d'.trace) ==> NoAuto(d.trace) by {
      assert forall i | 0 <= i < |d.trace| :: d'.trace[i] == d.trace[i];
    }
    hide NoAuto, Handle, Raise, Seen, Sane, AutoFree, Separated, Run;
    ReachedStep(p, g, d, Attempt(bank, c, refresh));
    forall b | 0 <= b < |d'.banks|
      ensures Sane(d'.banks[b]) && (NoAuto(d'.trace) ==> AutoFree(d'.banks[b]))
    {
      SendSane(p, g, d, bank, c, refresh, b);
    }
    forall i, b | 0 <= i < |d'.trace| && 0 <= b < |d'.banks|
      ensures Seen(p, NoAuto(d'.trace), g.Relation(d'.trace[i].bank, b), d'.banks[b], d'.cycle, d'.trace[i])
    {
      SendSeen(p, g, d, bank, c, refresh, i, b);
    }
    forall i, j | 0 <= i < j < |d'.trace|
      ensures Separated(p, g, NoAuto(d'.trace), d'.trace[i], d'.trace[j])
    {
      if j == |d.trace| {
        SendSeparates(p, g, d, bank, c, refresh, i);
      } else {
        SeparatedWeakens(p, g, NoAuto(d.trace), NoAuto(d'.trace), d.trace[i], d.trace[j]);
      }
    }
  }

  lemma SeparatedWeakens(p: Params, g: Geometry, noAuto: bool, weaker: bool, e: Issue, f: Issue)
    requires g.Valid() && Separated(p, g, noAuto, e, f) && (weaker ==> noAuto)
    ensures Separated(p, g, weaker, e, f)
  {
  }

  /** Every run of the banks, under any commands at any cycles, is timing safe. */
  lemma {:induction false} RunTimingSafe(p: Params, g: Geometry, ops: seq<Op>)
    requires p.Valid() && g.Valid()
    ensures Valid(p, g, Run(p, g, ops))
    ensures TimingSafe(p, g, Run(p, g, ops).trace)
  {
    if ops == [] {
      InitialValid(p, g);
    } else {
      var d := Run(p, g, ops[..|ops| - 1]);
      RunTimingSafe(p, g, ops[..|ops| - 1]);
      match ops[|ops| - 1]
      case Edge => ClockValid(p, g, d);
      case Attempt(bank, c, refresh) =>
        if CanSend(d, bank, c.kind) { SendValid(p, g, d, bank, c, refresh); }
    }
  }
}
