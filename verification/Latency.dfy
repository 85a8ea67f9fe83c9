/** The timers are tight: left alone, a bank accepts the next command from exactly the cycle
    that the timing parameter names, not earlier and not later. */
module Latency {
  import opened Arith
  import opened Dram
  import opened BankMachine

  /** The bank after `k` clock edges with no further command, the last command having been
      handled in cycle `now`. */
  function Ticks(p: Params, bk: Bank, now: nat, k: nat): Bank
    requires p.Valid()
  {
    if k == 0 then bk else Tick(p, Ticks(p, bk, now, k - 1), now + k)
  }

  lemma {:induction false} TicksSplit(p: Params, bk: Bank, now: nat, j: nat, k: nat)
    requires p.Valid()
    ensures Ticks(p, bk, now, j + k) == Ticks(p, Ticks(p, bk, now, j), now + j, k)
  {
    if k > 0 {
      TicksSplit(p, bk, now, j, k - 1);
      assert now + (j + k) == (now + j) + k;
      assert j + k - 1 == j + (k - 1);
    }
  }

  /** A countdown state runs down its timer and then enters the idle state. */
  lemma {:induction false} CountsDown(p: Params, bk: Bank, now: nat, k: nat)
    requires p.Valid() && (bk.state.Precharging? || bk.state.Refreshing?) && bk.received.None?
    ensures
      var b, t := Ticks(p, bk, now, k), bk.state.timer;
      && b.received.None?
      && (k <= t ==> b.state == (if bk.state.Precharging? then Precharging(t - k) else Refreshing(t - k)) && b.next == bk.next)
      && (k > t ==> b.state.Idle? && b.next.act == Max(bk.next.act, now + t + 1))
  {
    if k > 0 { CountsDown(p, bk, now, k - 1); }
  }

  /** An idle bank that accepts REF accepts ACT again exactly nRFC cycles later, or later still if
      another bank's ACT forbids it. */
  lemma RefreshExact(p: Params, bk: Bank, c: Cmd, now: nat, k: nat)
    requires p.Valid() && bk.state.Idle? && c.kind.REF? && Allowed(bk, REF, now)
    ensures Allowed(Ticks(p, Handle(bk, c, now), now, k), ACT, now + k) <==> k >= p.nRFC && bk.next.act <= now + k
  {
    hide Tick;
    var b := Handle(bk, c, now);
    var b1 := Tick(p, b, now + 1);
    assert Ticks(p, b, now, 0) == b && Ticks(p, b, now, 1) == b1;
    OneEdge(p, b, now + 1);
    if k > 0 {
      TicksSplit(p, b, now, 1, k - 1);
      CountsDown(p, b1, now + 1, k - 1);
    }
  }

  /** The clock edge that takes up a held REF. */
  lemma OneEdge(p: Params, b: Bank, now: nat)
    requires p.Valid() && b.state == Idle(1) && b.Holds(REF)
    ensures var b1 := Tick(p, b, now); b1.state == Refreshing(p.nRFC - 2) && b1.received.None? && b1.next.act == b.next.act
  {
  }

  // ---- Precharge from an open state

  /** The exit timer that a state loads for a held PRE when its own timer has run out at `at`. */
  function ExitTimer(p: Params, bk: Bank, at: nat): int
    requires bk.state.TakesColumn()
  {
    if bk.state.Reading? then ReadExit(p, bk, PRE, at).value
    else if bk.state.Writing? then WriteExit(p, bk, PRE, at).value
    else 0
  }

  /** Cycles from the acceptance of PRE to the precharging state: the state's own timer, then its
      exit timer, one edge at least. */
  function Leaving(p: Params, bk: Bank, now: nat): nat
    requires bk.state.TakesColumn()
  {
    bk.state.timer + Max(ExitTimer(p, bk, now + bk.state.timer + 1), 1)
  }

  /** Nothing but the timers changes. */
  predicate Waits(b: Bank, bk: Bank, s: State) {
    b.state == s && b.received == bk.received && b.last == bk.last && b.next == bk.next
  }

  function WithTimer(s: State, t: nat): State
    requires s.TakesColumn()
  {
    match s
    case Active(_) => Active(t)
    case Reading(_, e) => Reading(t, e)
    case Writing(_, e) => Writing(t, e)
  }

  lemma {:induction false} OwnTimer(p: Params, bk: Bank, now: nat, k: nat)
    requires p.Valid() && bk.state.TakesColumn() && k <= bk.state.timer
    ensures Waits(Ticks(p, bk, now, k), bk, WithTimer(bk.state, bk.state.timer - k))
  {
    if k > 0 { OwnTimer(p, bk, now, k - 1); }
  }

  /** With the exit timer running, `k` edges short of its end. */
  lemma {:induction false} ExitCounts(p: Params, bk: Bank, now: nat, k: nat)
    requires p.Valid() && (bk.state.Reading? || bk.state.Writing?) && bk.state.timer == 0 && bk.state.exit >= 1 && bk.Holds(PRE)
    requires k < bk.state.exit
    ensures var e := bk.state.exit - k;
      Waits(Ticks(p, bk, now, k), bk, if bk.state.Reading? then Reading(0, e) else Writing(0, e))
  {
    if k > 0 { ExitCounts(p, bk, now, k - 1); }
  }

  /** The last edge in an open state. */
  lemma LastEdge(p: Params, b: Bank, now: nat)
    requires p.Valid() && b.state.TakesColumn() && b.state.timer == 0 && b.Holds(PRE)
    requires !b.state.Active? ==> (if b.state.exit == 0 then ExitTimer(p, b, now) <= 1 else b.state.exit == 1)
    ensures var b1 := Tick(p, b, now); b1.state == Precharging(p.nRP - 2) && b1.received.None? && b1.next.act == b.next.act
  {
  }

  /** The edge that loads the exit timer. */
  lemma LoadEdge(p: Params, b: Bank, now: nat)
    requires p.Valid() && (b.state.Reading? || b.state.Writing?) && b.state.timer == 0 && b.state.exit == 0 && b.Holds(PRE)
    requires ExitTimer(p, b, now) > 1
    ensures var e := ExitTimer(p, b, now) - 1;
      Waits(Tick(p, b, now), b, if b.state.Reading? then Reading(0, e) else Writing(0, e))
  {
  }

  /** The bank with a held PRE until it precharges. */
  lemma LeavesAt(p: Params, b: Bank, now: nat, k: nat)
    requires p.Valid() && b.state.TakesColumn() && b.Holds(PRE) && (!b.state.Active? ==> b.state.exit == 0)
    ensures var n, bk := Leaving(p, b, now), Ticks(p, b, now, k);
      && (k < n ==> bk.state.TakesColumn())
      && (k == n ==> bk.state == Precharging(p.nRP - 2) && bk.received.None? && bk.next.act == b.next.act)
  {
    hide Tick, ReadExit, WriteExit;
    var t := b.state.timer;
    var e := ExitTimer(p, b, now + t + 1);
    OwnTimer(p, b, now, if k <= t then k else t);
    if k > t {
      var b0 := Ticks(p, b, now, t);
      SameExit(p, b, b0, now + t + 1);
      var b1 := Tick(p, b0, now + t + 1);
      assert b1 == Ticks(p, b, now, t + 1);
      if e <= 1 {
        LastEdge(p, b0, now + t + 1);
      } else {
        LoadEdge(p, b0, now + t + 1);
        TicksSplit(p, b, now, t + 1, k - t - 1);
        if k < t + e {
          ExitCounts(p, b1, now + t + 1, k - t - 1);
        } else if k == t + e {
          ExitCounts(p, b1, now + t + 1, e - 2);
          var b2 := Ticks(p, b1, now + t + 1, e - 2);
          LastEdge(p, b2, now + t + 1 + (e - 1));
        }
      }
    }
  }

  lemma SameExit(p: Params, b: Bank, b0: Bank, at: nat)
    requires b.state.TakesColumn() && Waits(b0, b, WithTimer(b.state, 0))
    ensures b0.state.TakesColumn() && ExitTimer(p, b0, at) == ExitTimer(p, b, at)
  {
  }

  /** A bank with a row open that accepts PRE accepts ACT again exactly when its own timer, its exit
      timer and nRP have passed, or later still if another bank's ACT forbids it. */
  lemma PrechargeExact(p: Params, bk: Bank, c: Cmd, now: nat, k: nat)
    requires p.Valid() && bk.state.TakesColumn() && (!bk.state.Active? ==> bk.state.exit == 0) && c.kind.PRE? && Allowed(bk, PRE, now)
    ensures var due := Leaving(p, Handle(bk, c, now), now) + p.nRP - 1;
      Allowed(Ticks(p, Handle(bk, c, now), now, k), ACT, now + k) <==> k >= due && bk.next.act <= now + k
  {
    hide Tick, ReadExit, WriteExit;
    var b := Handle(bk, c, now);
    var n := Leaving(p, b, now);
    LeavesAt(p, b, now, if k <= n then k else n);
    if k > n {
      TicksSplit(p, b, now, n, k - n);
      CountsDown(p, Ticks(p, b, now, n), now + n, k - n);
    }
  }

  lemma {:induction false} StaysActive(p: Params, bk: Bank, now: nat, k: nat)
    requires p.Valid() && bk.state.Active? && bk.received.None?
    ensures var b := Ticks(p, bk, now, k);
            && b.state == Active(if k >= bk.state.timer then 0 else bk.state.timer - k) && b.received.None?
            && b.next == bk.next && b.last == bk.last && b.rowOpen == bk.rowOpen && b.openRow == bk.openRow
  {
    if k > 0 { StaysActive(p, bk, now, k - 1); }
  }

  /** Two clock edges take an ACT through the activating state. */
  lemma TwoEdges(p: Params, bk: Bank, c: Cmd, now: nat)
    requires p.Valid() && bk.state.Idle? && c.kind.ACT? && Allowed(bk, ACT, now)
    ensures
      var b := Handle(bk, c, now);
      var b1 := Tick(p, b, now + 1);
      var b2 := Tick(p, b1, now + 2);
      && b.received.Some? && b1.state.Activating?
      && b2.state == Active(p.nCCD_L - 2) && b2.received.None? && b2.rowOpen && b2.openRow == c.row
      && (forall k: Kind | k.IsColumn() :: b2.next.At(k) == Max(bk.next.At(k), now + p.nRCD))
      && b2.next.pre == Max(bk.next.pre, Max(now + p.nRAS, Max(bk.last.write + p.nWR, bk.last.read + p.nRTP)))
  {
  }

  /** An idle bank that accepts ACT accepts a column command exactly nRCD cycles later (two clock
      edges at least), and PRE exactly nRAS cycles later, or later still if earlier commands forbid
      it, with the ACT's row open. */
  lemma ActivateExact(p: Params, bk: Bank, c: Cmd, now: nat, k: nat, column: Kind)
    requires p.Valid() && bk.state.Idle? && c.kind.ACT? && Allowed(bk, ACT, now) && column.IsColumn()
    ensures var b := Ticks(p, Handle(bk, c, now), now, k);
            && (Allowed(b, column, now + k) <==> k >= Max(2, p.nRCD) && bk.next.At(column) <= now + k)
            && (Allowed(b, PRE, now + k) <==>
                  k >= Max(2, p.nRAS) && Max(bk.next.pre, Max(bk.last.write + p.nWR, bk.last.read + p.nRTP)) <= now + k)
            && (k >= 2 ==> b.rowOpen && b.openRow == c.row)
  {
    hide Tick, Handle;
    var b := Handle(bk, c, now);
    var b1, b2 := Tick(p, b, now + 1), Tick(p, Tick(p, b, now + 1), now + 2);
    TwoEdges(p, bk, c, now);
    assert Ticks(p, b, now, 0) == b;
    assert Ticks(p, b, now, 1) == b1;
    assert Ticks(p, b, now, 2) == b2;
    if k >= 2 {
      TicksSplit(p, b, now, 2, k - 2);
      StaysActive(p, b2, now + 2, k - 2);
    }
  }
}
