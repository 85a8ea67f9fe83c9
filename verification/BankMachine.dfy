/** The per-bank state machine (c_BankInfo and the c_BankState* classes).

    `Tick` and `Handle` specify one clock edge and the acceptance of one command on values;
    the class BankInfo of module BankObject updates its fields in place and is proved equal
    to them. */
module BankMachine {
  import opened Arith
  import opened Dram

  /** The state object of a bank with the timers that the object owns. `Fault` stands for
      the simulation having been aborted by a fatal error. */
  datatype State =
    | Idle(timer: nat)
    | Activating(timer: nat, prev: Cmd)
    | Active(timer: nat)
    | Reading(timer: nat, exit: int)
    | ReadingA(enter: nat, exit: int)
    | Writing(timer: nat, exit: int)
    | WritingA(enter: nat, exit: int)
    | Precharging(timer: nat)
    | Refreshing(timer: nat)
    | Fault
  {
    /** The states in which a column command can be taken. */
    predicate TakesColumn() { Active? || Reading? || Writing? }

    /** What `getCurrentState() == PRE || getCurrentState() == IDLE` tests. */
    predicate Closed() { Idle? || Precharging? }
  }

  datatype Bank = Bank(
    state: State,
    received: Option<Cmd>,
    rowOpen: bool,
    openRow: nat,
    autoPre: nat,
    last: Cycles,
    next: Cycles)
  {
    predicate Holds(k: Kind) { received.Some? && received.value.kind == k }
  }

  const TWO64: nat := 0x1_0000_0000_0000_0000

  /** A bank as constructed: the idle state is entered at cycle 0. */
  const INITIAL := Bank(Idle(0), None, false, 0, 0, ZERO_CYCLES, ZERO_CYCLES)

  predicate Accepts(state: State, k: Kind) {
    match state
    case Idle(_) => k.ACT? || k.REF? || k.PRE?
    case Active(_) => k.IsColumn() || k.PRE?
    case Reading(_, _) => k.IsColumn() || k.PRE?
    case Writing(_, _) => k.IsColumn() || k.PRE?
    case _ => false
  }

  /** c_BankInfo::isCommandAllowed */
  predicate Allowed(bk: Bank, k: Kind, now: nat) {
    bk.received.None? && Accepts(bk.state, k) && bk.next.At(k) <= now
  }

  /** `setLastCommandCycle` for the kinds that the state's `handleCommand` records. */
  function SetLast(last: Cycles, k: Kind, now: int): Cycles {
    match k
    case ACT => last.(act := now)
    case READ => last.(read := now)
    case READA => last.(reada := now)
    case WRITE => last.(write := now)
    case WRITEA => last.(writea := now)
    case PRE => last.(pre := now)
    case REF => last.(ref := now)
  }

  /** c_BankState*::handleCommand for an allowed command. */
  function Handle(bk: Bank, c: Cmd, now: nat): Bank
    requires Allowed(bk, c.kind, now)
  {
    bk.(state := if bk.state.Idle? then Idle(1) else bk.state,
        received := Some(c),
        last := SetLast(bk.last, c.kind, now))
  }

  // ---- Entering a state

  function EnterIdle(bk: Bank, now: nat): Bank {
    bk.(state := Idle(0), received := None, rowOpen := false,
        next := bk.next.(act := Max(bk.next.act, now), ref := Max(bk.next.ref, now), pre := Max(bk.next.pre, now)))
  }

  function EnterActivating(p: Params, bk: Bank, c: Cmd): Bank {
    bk.(state := Activating(0, c), received := None, rowOpen := true, openRow := c.row, autoPre := p.nRAS)
  }

  function EnterActive(p: Params, bk: Bank, c: Cmd, now: nat): Bank
    requires p.Valid()
  {
    var ready := now + p.nRCD - 2;
    bk.(state := Active(p.nCCD_L - 2), received := None, rowOpen := true, openRow := c.row,
        next := bk.next.(read := Max(bk.next.read, ready), reada := Max(bk.next.reada, ready),
                         write := Max(bk.next.write, ready), writea := Max(bk.next.writea, ready),
                         pre := Max(bk.next.pre, Max(bk.last.act + p.nRAS,
                                                     Max(bk.last.write + p.nWR, bk.last.read + p.nRTP)))))
  }

  function EnterReading(p: Params, bk: Bank): Bank
    requires p.Valid()
  {
    var again := bk.last.read + p.nCCD_L;
    var turn := bk.last.read + p.nCWL + p.nBL + p.nWTR;
    bk.(state := Reading(Max(p.nCCD_L, p.nBL) - 1, 0), received := None,
        next := bk.next.(read := Max(bk.next.read, again), reada := Max(bk.next.reada, again),
                         write := Max(bk.next.write, turn), writea := Max(bk.next.writea, turn),
                         pre := Max(bk.next.pre, Max(bk.last.act + p.nRAS,
                                                     Max(bk.last.reada + p.nRTP, bk.last.read + p.nRTP)))))
  }

  function EnterWriting(p: Params, bk: Bank): Bank {
    var again := bk.last.write + p.nCCD_L;
    var turn := bk.last.write + p.nCWL + p.nBL + p.nWTR_L;
    var recovery := p.nCWL + p.nBL + p.nWR;
    bk.(state := Writing(Max(p.nCCD_L, p.nBL), 0), received := None,
        next := bk.next.(read := Max(bk.next.read, turn), reada := Max(bk.next.reada, turn),
                         write := Max(bk.next.write, again), writea := Max(bk.next.writea, again),
                         pre := Max(bk.next.pre, Max(bk.last.act + p.nRAS,
                                                     Max(bk.last.writea + recovery, bk.last.write + recovery)))))
  }

  function EnterReadingA(p: Params, bk: Bank, now: nat): Bank
    requires p.Valid()
  {
    var again := bk.last.read + p.nCCD_L;
    var turn := bk.last.read + p.nCWL + p.nBL + p.nWTR;
    bk.(state := ReadingA(Max(p.nCCD_L, p.nBL) - 1, 0), received := None,
        last := bk.last.(reada := now),
        next := bk.next.(read := Max(bk.next.read, again) - 1, reada := Max(bk.next.reada, again) - 1,
                         write := Max(bk.next.write, turn) - 1, writea := Max(bk.next.writea, turn) - 1,
                         pre := Max(bk.next.pre, Max(bk.last.act + p.nRAS,
                                                     Max(now + p.nRTP, bk.last.read + p.nRTP))) - 1))
  }

  function EnterWritingA(p: Params, bk: Bank, now: nat): Bank
    requires p.Valid()
  {
    var turn := p.nCWL + p.nBL + p.nWR - p.nCL;
    bk.(state := WritingA(Max(p.nCCD_L, p.nBL) - 1, 0), received := None,
        last := bk.last.(writea := now),
        next := bk.next.(read := Max(bk.next.read, bk.last.write) + turn,
                         reada := Max(bk.next.reada, bk.last.write) + turn,
                         write := Max(bk.next.write, now + p.nCCD_L),
                         pre := Max(bk.next.pre, Max(bk.last.act + p.nRAS - 2,
                                                     Max(bk.last.write, bk.last.read + p.nRTP - 2))),
                         writea := Max(bk.next.act + p.nRAS, now + p.nCWL + p.nBL + p.nWR) - 2))
  }

  function EnterPrecharging(p: Params, bk: Bank): Bank
    requires p.Valid()
  {
    bk.(state := Precharging(p.nRP - 2), received := None, rowOpen := false)
  }

  function EnterRefreshing(p: Params, bk: Bank, now: nat): Bank
    requires p.Valid()
  {
    bk.(state := Refreshing(p.nRFC - 2), received := None,
        next := bk.next.(ref := Max(bk.next.ref + p.nREFI - 1, now + p.nREFI) - 1))
  }

  /** `m_nextStatePtr->enter(...)`: the state is chosen by the command received. */
  function EnterFor(p: Params, bk: Bank, c: Cmd, now: nat): Bank
    requires p.Valid()
  {
    match c.kind
    case ACT => EnterActivating(p, bk, c)
    case READ => EnterReading(p, bk)
    case READA => EnterReadingA(p, bk, now)
    case WRITE => EnterWriting(p, bk)
    case WRITEA => EnterWritingA(p, bk, now)
    case PRE => EnterPrecharging(p, bk)
    case REF => EnterRefreshing(p, bk, now)
  }

  // ---- One clock edge

  /** The exit timer of the read state; `None` is the fatal default case. */
  function ReadExit(p: Params, bk: Bank, k: Kind, now: nat): Option<int> {
    match k
    case WRITE =>
      Some(if now > bk.last.read then Max(p.nRTW - (now - bk.last.read), 0) else p.nRTW)
    case READ => Some(0)
    case PRE =>
      Some(if now > bk.last.read then Max(p.nRTP - (now - bk.last.read), 0) else p.nRTP - 1)
    case _ => None
  }

  /** The exit timer of the write state; `None` is the fatal default case. */
  function WriteExit(p: Params, bk: Bank, k: Kind, now: nat): Option<int> {
    match k
    case WRITE => Some(0)
    case READ =>
      var rest := p.nWR + p.nWTR;
      Some(if now > bk.last.write + rest then Max(rest - (now - (bk.last.write + rest)), 0) else rest)
    case PRE =>
      Some(if now > bk.last.write + p.nWR then Max(p.nWR - (now - (bk.last.write + p.nWR)), 0) else p.nWR)
    case _ => None
  }

  /** The part of a clock edge shared by the read and write states once their own timer has
      run out: load the exit timer if it is zero, then count it down or leave. */
  function Leave(p: Params, bk: Bank, c: Cmd, exit: int, now: nat): Bank
    requires p.Valid() && (bk.state.Reading? || bk.state.Writing?)
  {
    var loaded :=
      if exit != 0 then Some(exit)
      else if bk.state.Reading? then ReadExit(p, bk, c.kind, now)
      else WriteExit(p, bk, c.kind, now);
    match loaded
    case None => bk.(state := Fault)
    case Some(e) =>
      if e <= 1 then EnterFor(p, bk, c, now)
      else if bk.state.Reading? then bk.(state := Reading(bk.state.timer, e - 1))
      else bk.(state := Writing(bk.state.timer, e - 1))
  }

  function TickReadingA(p: Params, bk: Bank, now: nat): Bank
    requires p.Valid() && bk.state.ReadingA?
  {
    if 0 < bk.state.enter then bk.(state := ReadingA(bk.state.enter - 1, bk.state.exit))
    else
      var due := Max(bk.next.pre, Max(bk.last.act + p.nRAS,
                                      Max(bk.last.reada + p.nRTP, bk.last.read + p.nRTP))) - 1;
      var starts := bk.state.exit == 0;
      var exit := if starts then Max(due - now, 0) else bk.state.exit;
      var b1 := if starts then bk.(last := bk.last.(pre := now)) else bk;
      if 1 < exit then b1.(state := ReadingA(0, exit - 1)) else EnterPrecharging(p, b1)
  }

  function TickWritingA(p: Params, bk: Bank, now: nat): Bank
    requires p.Valid() && bk.state.WritingA?
  {
    if 0 < bk.state.enter then bk.(state := WritingA(bk.state.enter - 1, bk.state.exit))
    else
      var due := Max(bk.next.act + p.nRAS, now + p.nCWL + p.nBL + p.nWR) - 2;
      var starts := bk.state.exit == 0;
      var exit := if starts then Max(due - now, 0) else bk.state.exit;
      var b1 := if starts then bk.(last := bk.last.(writea := now)) else bk;
      if 1 < exit then b1.(state := WritingA(0, exit - 1)) else EnterPrecharging(p, b1)
  }

  /** The idle timer is an unsigned 64-bit counter that is decremented past zero while no
      command is held. */
  function Decrement64(timer: nat): nat { (timer + TWO64 - 1) % TWO64 }

  /** c_BankState*::clockTic at cycle `now`. */
  function TickState(p: Params, bk: Bank, now: nat): Bank
    requires p.Valid()
  {
    match bk.state
    case Idle(timer) =>
      var t := Decrement64(timer);
      if 2 < timer || t == 1 || bk.received.None? then bk.(state := Idle(t))
      else EnterFor(p, bk, bk.received.value, now)
    case Activating(timer, prev) =>
      if 0 < timer then bk.(state := Activating(timer - 1, prev)) else EnterActive(p, bk, prev, now)
    case Active(timer) =>
      if 0 < timer then bk.(state := Active(timer - 1))
      else if bk.received.Some? then EnterFor(p, bk, bk.received.value, now)
      else bk
    case Reading(timer, exit) =>
      if 0 < timer then bk.(state := Reading(timer - 1, exit))
      else if bk.received.Some? then Leave(p, bk, bk.received.value, exit, now)
      else bk
    case Writing(timer, exit) =>
      if 0 < timer then bk.(state := Writing(timer - 1, exit))
      else if bk.received.Some? then Leave(p, bk, bk.received.value, exit, now)
      else bk
    case ReadingA(_, _) => TickReadingA(p, bk, now)
    case WritingA(_, _) => TickWritingA(p, bk, now)
    case Precharging(timer) =>
      if 0 < timer then bk.(state := Precharging(timer - 1)) else EnterIdle(bk, now)
    case Refreshing(timer) =>
      if 0 < timer then bk.(state := Refreshing(timer - 1)) else EnterIdle(bk, now)
    case Fault => bk
  }

  /** c_BankInfo::clockTic */
  function Tick(p: Params, bk: Bank, now: nat): Bank
    requires p.Valid()
  {
    TickState(p, bk.(autoPre := if 0 < bk.autoPre then bk.autoPre - 1 else 0), now)
  }

  // ---- What other banks learn from a command

  /** Extra distance that a column command of class `from` imposes on a later column command
      of class `to` at a bank in relation `rel`. */
  function ColumnGap(p: Params, rel: Relation, fromRead: bool, toRead: bool): int
    requires rel.Group? || rel.Rank? || rel.Pseudo?
  {
    var burst := Max(p.nBL, Min(p.nCCD_S, p.nCCD_L));
    match rel
    case Group =>
      if fromRead == toRead then Max(p.nCCD_L, p.nBL)
      else if fromRead then p.nCL + p.nBL + p.nRTW - p.nCWL
      else p.nCWL + p.nBL + p.nWTR_L
    case Rank =>
      if fromRead == toRead then Max(p.nCCD_S, p.nBL)
      else if fromRead then p.nCL + p.nBL + p.nRTW - p.nCWL
      else p.nCWL + p.nBL + p.nWTR_S
    case Pseudo =>
      if fromRead && toRead then burst + p.nERTR
      else if fromRead then p.nCL + burst + p.nERTW - p.nCWL
      else if toRead then p.nCWL + burst + p.nEWTR - p.nCL
      else burst + p.nEWTW
  }

  /** updateOtherBanksNextCommandCycles of the group, rank and channel, for one other bank. */
  function Raise(p: Params, bk: Bank, rel: Relation, k: Kind, now: nat): Bank {
    if rel.Same? || rel.Far? then bk
    else if k.ACT? && rel.Group? then bk.(next := bk.next.(act := Max(bk.next.act, now + p.nRRD_L)))
    else if k.ACT? && rel.Rank? then bk.(next := bk.next.(act := Max(bk.next.act, now + p.nRRD_S)))
    else if k.IsColumn() then
      var r := Max(Max(bk.next.read, bk.next.reada), now + ColumnGap(p, rel, k.IsRead(), true));
      var w := Max(Max(bk.next.write, bk.next.writea), now + ColumnGap(p, rel, k.IsRead(), false));
      bk.(next := bk.next.(read := r, reada := r, write := w, writea := w))
    else bk
  }
}
