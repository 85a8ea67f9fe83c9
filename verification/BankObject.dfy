/** The bank object (c_BankInfo with its current c_BankState* object), updated in place and
    proved to do what the value-level bank machine does. */
module BankObject {
  import opened Arith
  import opened Dram
  import opened BankMachine

  class BankInfo {
    var state: State
    var received: Option<Cmd>
    var rowOpen: bool
    var openRow: nat
    var autoPre: nat
    var last: Cycles
    var next: Cycles

    function Value(): Bank
      reads this
    {
      Bank(state, received, rowOpen, openRow, autoPre, last, next)
    }

    constructor ()
      ensures Value() == INITIAL
    {
      state, received := Idle(0), None;
      rowOpen, openRow, autoPre := false, 0, 0;
      last, next := ZERO_CYCLES, ZERO_CYCLES;
    }

    method IsCommandAllowed(k: Kind, now: nat) returns (ok: bool)
      ensures ok == Allowed(Value(), k, now)
    {
      if received.Some? || !Accepts(state, k) { return false; }
      ok := next.At(k) <= now;
    }

    method HandleCommand(c: Cmd, now: nat)
      requires Allowed(Value(), c.kind, now)
      modifies this
      ensures Value() == Handle(old(Value()), c, now)
    {
      if state.Idle? { state := Idle(1); }
      received := Some(c);
      last := SetLast(last, c.kind, now);
    }

    method EnterIdleState(now: nat)
      modifies this
      ensures Value() == EnterIdle(old(Value()), now)
    {
      state, received, rowOpen := Idle(0), None, false;
      next := next.(act := Max(next.act, now));
      next := next.(ref := Max(next.ref, now));
      next := next.(pre := Max(next.pre, now));
    }

    method EnterActiveState(p: Params, c: Cmd, now: nat)
      requires p.Valid()
      modifies this
      ensures Value() == EnterActive(p, old(Value()), c, now)
    {
      state, received, rowOpen, openRow := Active(p.nCCD_L - 2), None, true, c.row;
      var ready := now + p.nRCD - 2;
      next := next.(read := Max(next.read, ready), reada := Max(next.reada, ready));
      next := next.(write := Max(next.write, ready), writea := Max(next.writea, ready));
      var open := Max(last.act + p.nRAS, Max(last.write + p.nWR, last.read + p.nRTP));
      next := next.(pre := Max(next.pre, open));
    }

    method EnterReadState(p: Params)
      requires p.Valid()
      modifies this
      ensures Value() == EnterReading(p, old(Value()))
    {
      state, received := Reading(Max(p.nCCD_L, p.nBL) - 1, 0), None;
      var again, turn := last.read + p.nCCD_L, last.read + p.nCWL + p.nBL + p.nWTR;
      next := next.(read := Max(next.read, again), reada := Max(next.reada, again));
      next := next.(write := Max(next.write, turn), writea := Max(next.writea, turn));
      var open := Max(last.act + p.nRAS, Max(last.reada + p.nRTP, last.read + p.nRTP));
      next := next.(pre := Max(next.pre, open));
    }

    method EnterWriteState(p: Params)
      requires p.Valid()
      modifies this
      ensures Value() == EnterWriting(p, old(Value()))
    {
      state, received := Writing(Max(p.nCCD_L, p.nBL), 0), None;
      var again, turn := last.write + p.nCCD_L, last.write + p.nCWL + p.nBL + p.nWTR_L;
      next := next.(read := Max(next.read, turn), reada := Max(next.reada, turn));
      next := next.(write := Max(next.write, again), writea := Max(next.writea, again));
      var recovery := p.nCWL + p.nBL + p.nWR;
      var open := Max(last.act + p.nRAS, Max(last.writea + recovery, last.write + recovery));
      next := next.(pre := Max(next.pre, open));
    }

    method EnterReadAState(p: Params, now: nat)
      requires p.Valid()
      modifies this
      ensures Value() == EnterReadingA(p, old(Value()), now)
    {
      state, received := ReadingA(Max(p.nCCD_L, p.nBL) - 1, 0), None;
      last := last.(reada := now);
      var again, turn := last.read + p.nCCD_L, last.read + p.nCWL + p.nBL + p.nWTR;
      next := next.(read := Max(next.read, again) - 1, reada := Max(next.reada, again) - 1);
      next := next.(write := Max(next.write, turn) - 1, writea := Max(next.writea, turn) - 1);
      var open := Max(last.act + p.nRAS, Max(last.reada + p.nRTP, last.read + p.nRTP));
      next := next.(pre := Max(next.pre, open) - 1);
    }

    method EnterWriteAState(p: Params, now: nat)
      requires p.Valid()
      modifies this
      ensures Value() == EnterWritingA(p, old(Value()), now)
    {
      state, received := WritingA(Max(p.nCCD_L, p.nBL) - 1, 0), None;
      last := last.(writea := now);
      var turn := p.nCWL + p.nBL + p.nWR - p.nCL;
      next := next.(read := Max(next.read, last.write) + turn, reada := Max(next.reada, last.write) + turn);
      next := next.(write := Max(next.write, now + p.nCCD_L));
      next := next.(pre := Max(next.pre, Max(last.act + p.nRAS - 2, Max(last.write, last.read + p.nRTP - 2))));
      next := next.(writea := Max(next.act + p.nRAS, now + p.nCWL + p.nBL + p.nWR) - 2);
    }

    /** The transition on the received command. */
    method Enter(p: Params, c: Cmd, now: nat)
      requires p.Valid()
      modifies this
      ensures Value() == EnterFor(p, old(Value()), c, now)
    {
      match c.kind
      case ACT =>
        state, received, rowOpen := Activating(0, c), None, true;
        openRow, autoPre := c.row, p.nRAS;
      case READ => EnterReadState(p);
      case READA => EnterReadAState(p, now);
      case WRITE => EnterWriteState(p);
      case WRITEA => EnterWriteAState(p, now);
      case PRE => state, received, rowOpen := Precharging(p.nRP - 2), None, false;
      case REF =>
        state, received := Refreshing(p.nRFC - 2), None;
        next := next.(ref := Max(next.ref + p.nREFI - 1, now + p.nREFI) - 1);
    }

    /** The read and write states leave through an exit timer that they load on demand. */
    method LeaveState(p: Params, c: Cmd, now: nat)
      requires p.Valid() && (state.Reading? || state.Writing?)
      modifies this
      ensures Value() == Leave(p, old(Value()), c, old(state.exit), now)
    {
      var exit := state.exit;
      if exit == 0 {
        var loaded := if state.Reading? then ReadExit(p, Value(), c.kind, now) else WriteExit(p, Value(), c.kind, now);
        if loaded.None? {
          state := Fault;
          return;
        }
        exit := loaded.value;
      }
      if exit > 1 {
        state := if state.Reading? then Reading(state.timer, exit - 1) else Writing(state.timer, exit - 1);
      } else {
        Enter(p, c, now);
      }
    }

    /** The auto-precharge states count down twice and then precharge. */
    method AutoPrecharge(p: Params, now: nat)
      requires p.Valid() && (state.ReadingA? || state.WritingA?)
      modifies this
      ensures Value() == if old(state).ReadingA? then TickReadingA(p, old(Value()), now) else TickWritingA(p, old(Value()), now)
    {
      if 0 < state.enter {
        state := if state.ReadingA? then ReadingA(state.enter - 1, state.exit) else WritingA(state.enter - 1, state.exit);
        return;
      }
      var exit := state.exit;
      if exit == 0 {
        if state.ReadingA? {
          var due := Max(next.pre, Max(last.act + p.nRAS, Max(last.reada + p.nRTP, last.read + p.nRTP))) - 1;
          exit := Max(due - now, 0);
          last := last.(pre := now);
        } else {
          var due := Max(next.act + p.nRAS, now + p.nCWL + p.nBL + p.nWR) - 2;
          exit := Max(due - now, 0);
          last := last.(writea := now);
        }
      }
      if 1 < exit {
        state := if state.ReadingA? then ReadingA(0, exit - 1) else WritingA(0, exit - 1);
      } else {
        state, received, rowOpen := Precharging(p.nRP - 2), None, false;
      }
    }

    method ClockTic(p: Params, now: nat)
      requires p.Valid()
      modifies this
      ensures Value() == Tick(p, old(Value()), now)
    {
      hide EnterFor, EnterActive, EnterIdle, Leave, TickReadingA, TickWritingA, Decrement64;
      autoPre := if 0 < autoPre then autoPre - 1 else 0;
      match state {
        case Idle(timer) =>
          var t := Decrement64(timer);
          if 2 < timer || t == 1 || received.None? { state := Idle(t); } else { Enter(p, received.value, now); }
        case Activating(timer, prev) =>
          if 0 < timer { state := Activating(timer - 1, prev); } else { EnterActiveState(p, prev, now); }
        case Active(timer) =>
          if 0 < timer { state := Active(timer - 1); } else if received.Some? { Enter(p, received.value, now); }
        case Reading(timer, exit) =>
          if 0 < timer { state := Reading(timer - 1, exit); } else if received.Some? { LeaveState(p, received.value, now); }
        case Writing(timer, exit) =>
          if 0 < timer { state := Writing(timer - 1, exit); } else if received.Some? { LeaveState(p, received.value, now); }
        case ReadingA(_, _) => AutoPrecharge(p, now);
        case WritingA(_, _) => AutoPrecharge(p, now);
        case Precharging(timer) =>
          if 0 < timer { state := Precharging(timer - 1); } else { EnterIdleState(now); }
        case Refreshing(timer) =>
          if 0 < timer { state := Refreshing(timer - 1); } else { EnterIdleState(now); }
        case Fault =>
      }
    }

    /** A command of kind `k` was sent to a bank that sees this one in relation `rel`. */
    method Learn(p: Params, rel: Relation, k: Kind, now: nat)
      modifies this
      ensures Value() == Raise(p, old(Value()), rel, k, now)
    {
      if k.ACT? {
        if rel.Group? { next := next.(act := Max(next.act, now + p.nRRD_L)); }
        if rel.Rank? { next := next.(act := Max(next.act, now + p.nRRD_S)); }
      } else if k.IsColumn() && !rel.Same? && !rel.Far? {
        next := next.(read := Max(Max(next.read, next.reada), now + ColumnGap(p, rel, k.IsRead(), true)));
        next := next.(reada := next.read);
        next := next.(write := Max(Max(next.write, next.writea), now + ColumnGap(p, rel, k.IsRead(), false)));
        next := next.(writea := next.write);
      }
    }
  }
}
