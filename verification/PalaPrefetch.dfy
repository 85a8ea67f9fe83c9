/** The Palacharla prefetcher: a table of stride filters with a least-recently-used queue, and
    the history of issued prefetches. */
module PalaPrefetch {
  import opened Arith
  import opened Dram
  import opened PagePool

  datatype Confidence = Invalid | Pending | Valid

  datatype Filter = Filter(last: nat, stride: int, lastStride: int, state: Confidence)

  /** The conversion of an address difference to a 32-bit signed integer. */
  function Int32(d: int): int { (d + 0x8000_0000) % 0x1_0000_0000 - 0x8000_0000 }

  /** What another access under the same tag does to a filter. */
  function Observe(f: Filter, addr: nat): Filter {
    var d := Int32(addr - f.last);
    var same := f.lastStride == d;
    match f.state
    case Invalid => Filter(addr, f.stride, d, if same then Pending else Invalid)
    case Pending => if same then Filter(addr, d, d, Valid) else Filter(addr, f.stride, d, Pending)
    case Valid => Filter(addr, f.stride, d, if same then Valid else Pending)
  }

  function ObserveAll(f: Filter, addrs: seq<nat>): Filter {
    if addrs == [] then f else Observe(ObserveAll(f, addrs[..|addrs| - 1]), addrs[|addrs| - 1])
  }

  /** Accesses at a constant distance; three steps after a fresh entry the stride is known, and
      it stays known. */
  lemma {:induction false} StrideDetected(first: nat, d: int, block: int, addrs: seq<nat>)
    requires -0x8000_0000 <= d < 0x8000_0000 && d != 0
    requires forall i | 0 <= i < |addrs| :: addrs[i] == first + (i + 1) * d
    ensures var f := ObserveAll(Filter(first, block, 0, Invalid), addrs);
      && f.last == (if addrs == [] then first else addrs[|addrs| - 1])
      && (|addrs| >= 1 ==> f.lastStride == d)
      && (|addrs| == 1 ==> f.state.Invalid?) && (|addrs| == 2 ==> f.state.Pending?)
      && (|addrs| >= 3 ==> f.state.Valid? && f.stride == d)
  {
    hide Int32;
    SmallStride(d);
    if addrs != [] {
      var n := |addrs| - 1;
      StrideDetected(first, d, block, addrs[..n]);
      StepApart(first, d, n);
    }
  }

  lemma SmallStride(d: int)
    requires -0x8000_0000 <= d < 0x8000_0000
    ensures Int32(d) == d
  {
  }

  lemma StepApart(first: nat, d: int, n: nat)
    ensures first + (n + 1) * d - (first + n * d) == d
  {
  }

  // ---- Recency

  function Drop(q: seq<nat>, t: nat): seq<nat> {
    if q == [] then [] else (if q[0] == t then [] else [q[0]]) + Drop(q[1..], t)
  }

  /** The distinct tags of a history, most recent first. */
  function Recent(history: seq<nat>): seq<nat> {
    if history == [] then []
    else [history[|history| - 1]] + Drop(Recent(history[..|history| - 1]), history[|history| - 1])
  }

  function Take(q: seq<nat>, n: nat): seq<nat> { if |q| <= n then q else q[..n] }

  lemma {:induction false} DropAbsent(q: seq<nat>, t: nat)
    requires t !in q
    ensures Drop(q, t) == q
  {
    if q != [] {
      DropAbsent(q[1..], t);
      assert q == [q[0]] + q[1..];
    }
  }

  lemma {:induction false} DropAt(q: seq<nat>, i: nat)
    requires i < |q| && NoDup(q)
    ensures Drop(q, q[i]) == q[..i] + q[i + 1..]
  {
    if i == 0 {
      DropAbsent(q[1..], q[0]);
    } else {
      DropAt(q[1..], i - 1);
      assert q[1..][i - 1] == q[i] && q[1..][..i - 1] == q[1..i] && q[1..][i..] == q[i + 1..];
      assert [q[0]] + (q[1..i] + q[i + 1..]) == q[..i] + q[i + 1..];
    }
  }

  lemma {:induction false} DropKeeps(q: seq<nat>, t: nat)
    ensures (forall x :: x in Drop(q, t) <==> x in q && x != t) && (NoDup(q) ==> NoDup(Drop(q, t))) && |Drop(q, t)| <= |q|
  {
    if q != [] {
      DropKeeps(q[1..], t);
      assert q == [q[0]] + q[1..];
      if NoDup(q) {
        assert q[0] !in q[1..];
        NoDupCons(q[0], Drop(q[1..], t));
      }
    }
  }

  lemma NoDupCons(x: nat, q: seq<nat>)
    ensures NoDup(q) && x !in q ==> NoDup([x] + q)
  {
  }

  lemma {:induction false} RecentDistinct(history: seq<nat>)
    ensures NoDup(Recent(history)) && forall x :: x in Recent(history) <==> x in history
  {
    if history != [] {
      var n := |history| - 1;
      RecentDistinct(history[..n]);
      DropKeeps(Recent(history[..n]), history[n]);
      NoDupCons(history[n], Drop(Recent(history[..n]), history[n]));
      assert history == history[..n] + [history[n]];
    }
  }

  /** Dropping a tag and then keeping n - 1 entries needs only the first n entries. */
  lemma {:induction false} DropTake(q: seq<nat>, t: nat, n: nat)
    requires NoDup(q)
    ensures Take(Drop(Take(q, n + 1), t), n) == Take(Drop(q, t), n)
  {
    if |q| > n + 1 {
      if q[0] == t {
        DropAbsent(q[1..], t);
        assert q[..n + 1][1..] == q[1..][..n];
        DropAbsent(q[1..][..n], t);
      } else if n > 0 {
        DropTake(q[1..], t, n - 1);
        assert Take(q, n + 1)[1..] == Take(q[1..], n);
        TakeCons(q[0], Drop(q[1..], t), n);
        TakeCons(q[0], Drop(Take(q[1..], n), t), n);
      }
    }
  }

  lemma TakeCons(x: nat, q: seq<nat>, n: nat)
    requires n >= 1
    ensures Take([x] + q, n) == [x] + Take(q, n - 1)
  {
  }

  /** Touching the truncated queue is truncating the touched queue: the queue always holds the
      most recent tags of the whole history. */
  lemma TouchRecent(history: seq<nat>, t: nat, n: nat)
    requires n >= 1
    ensures Take([t] + Drop(Take(Recent(history), n), t), n) == Take(Recent(history + [t]), n)
  {
    var q := Recent(history);
    assert (history + [t])[..|history|] == history;
    RecentDistinct(history);
    DropTake(q, t, n - 1);
    TakeCons(t, Drop(Take(q, n), t), n);
    TakeCons(t, Drop(q, t), n);
  }

  /** The address a prefetch aims at: the reach is an unsigned 32-bit number, so a negative
      stride turns into a jump of almost 4 GiB. */
  function Target(addr: nat, reach: nat, stride: int): nat {
    (addr + (reach * stride) % 0x1_0000_0000) % 0x1_0000_0000_0000_0000
  }

  /** The cache line of an address. */
  function Line(x: nat, block: nat): nat
    requires block >= 1
  {
    x - x % block
  }

  // ---- The prefetcher object

  datatype Options = Options(count: nat, block: nat, shift: nat, range: nat, reach: nat, page: nat, history: nat, overrun: bool) {
    predicate Valid() { count >= 2 && block >= 1 && shift >= 1 && range >= 1 && page >= 1 && history >= 1 }
  }

  class PalaPrefetcher {
    const options: Options
    var table: map<nat, Filter>
    var queue: seq<nat>
    var countdown: nat
    var prefetched: seq<nat>
    ghost var history: seq<nat>

    /** The table and its queue hold exactly the last count - 1 distinct tags, most recent first. */
    ghost predicate Consistent()
      reads this
    {
      && options.Valid()
      && queue == Take(Recent(history), options.count - 1) && table.Keys == Elements(queue)
      && NoDup(prefetched) && |prefetched| <= options.history
    }

    constructor (options: Options)
      requires options.Valid()
      ensures Consistent() && this.options == options && history == [] && prefetched == []
    {
      this.options := options;
      table, queue, countdown, prefetched, history := map[], [], 0, [], [];
    }

    /** Move a tag of the queue to its front. */
    method MoveToFront(tag: nat)
      requires tag in queue && NoDup(queue)
      modifies this`queue
      ensures queue == [tag] + Drop(old(queue), tag)
    {
      var i := 0;
      while queue[i] != tag
        invariant 0 <= i < |queue| && queue == old(queue) && tag !in queue[..i]
        decreases |queue| - i
      {
        assert queue[..i + 1] == queue[..i] + [queue[i]];
        assert queue == queue[..i + 1] + queue[i + 1..];
        i := i + 1;
      }
      DropAt(queue, i);
      queue := [tag] + (queue[..i] + queue[i + 1..]);
    }

    /** notifyAccess without its dispatch: the filter of the tag, the recency queue and the
        eviction of the oldest entry. */
    method NotifyAccess(addr: nat) returns (dispatch: bool)
      requires Consistent()
      modifies this`table, this`queue, this`countdown, this`history
      ensures Consistent() && history == old(history) + [addr / options.shift]
      ensures var tag := addr / options.shift;
        && tag in table
        && table[tag] == (if tag in old(table) then Observe(old(table)[tag], addr) else Filter(addr, options.block, 0, Invalid))
        && forall t | t in table && t != tag :: t in old(table) && table[t] == old(table)[t]
      ensures countdown == (old(countdown) + 1) % options.range && dispatch == (countdown == 0)
    {
      hide Recent, Take, Drop, Elements, NoDup;
      var tag := addr / options.shift;
      ghost var before := queue;
      RecentDistinct(history);
      TakeDistinct(Recent(history), options.count - 1);
      TouchRecent(history, tag, options.count - 1);
      TakeLength(Recent(history), options.count - 1);
      Touch(tag, addr);
      TouchedDistinct(before, tag);
      Evict();
      history := history + [tag];
      countdown := (countdown + 1) % options.range;
      dispatch := countdown == 0;
    }

    /** Update or create the filter of a tag and put the tag in front. */
    method Touch(tag: nat, addr: nat)
      requires NoDup(queue) && table.Keys == Elements(queue)
      modifies this`table, this`queue
      ensures queue == [tag] + Drop(old(queue), tag) && table.Keys == Elements(queue)
      ensures table == old(table)[tag := if tag in old(table) then Observe(old(table)[tag], addr) else Filter(addr, options.block, 0, Invalid)]
    {
      ghost var before := queue;
      assert tag in table <==> tag in queue;
      TouchedElements(before, tag);
      if tag in table {
        table := table[tag := Observe(table[tag], addr)];
        DropAtFront(queue, tag);
        if queue[0] != tag { MoveToFront(tag); }
      } else {
        table := table[tag := Filter(addr, options.block, 0, Invalid)];
        DropAbsent(queue, tag);
        queue := [tag] + queue;
      }
    }

    /** A table that has reached its count loses its oldest entry. */
    method Evict()
      requires queue != [] && NoDup(queue) && table.Keys == Elements(queue) && 2 <= options.count && |queue| <= options.count
      modifies this`table, this`queue
      ensures queue == Take(old(queue), options.count - 1) && table.Keys == Elements(queue)
      ensures forall t | t in table :: t in old(table) && table[t] == old(table)[t]
      ensures old(queue)[0] in table
    {
      TableSize(table, queue);
      LastOut(queue);
      if |table| >= options.count {
        table := table - {queue[|queue| - 1]};
        queue := queue[..|queue| - 1];
      }
      assert old(queue)[0] == queue[0] && queue[0] in Elements(queue);
    }

    /** DispatchRequest: a line not in the recent history is prefetched and remembered, the oldest
        remembered line making room; without overrun only within the page of the access. False is
        the failed assertion of the overrun mode, whose target need not be the start of a line. */
    method DispatchRequest(addr: nat) returns (ok: bool, line: Option<nat>)
      requires Consistent() && addr / options.shift in table
      modifies this`prefetched
      ensures Consistent()
      ensures ok == (!options.overrun || Target(addr, options.reach, table[addr / options.shift].stride) % options.block == 0)
      ensures line.Some? ==> line.value % options.block == 0
      ensures prefetched == if line.None? then old(prefetched)
                            else (if |old(prefetched)| == options.history then old(prefetched)[1..] else old(prefetched)) + [line.value]
      ensures var base := Line(Target(addr, options.reach, table[addr / options.shift].stride), options.block);
        line == if ok && (options.overrun || base / options.page == addr / options.page) && base !in old(prefetched) then Some(base) else None
    {
      hide Recent, Take, Elements, Target, Line;
      var target := Target(addr, options.reach, table[addr / options.shift].stride);
      var base := Line(target, options.block);
      Aligned(target, options.block);
      if options.overrun {
        if target % options.block != 0 { return false, None; }
      } else if base / options.page != addr / options.page {
        return true, None;
      }
      if base in prefetched { return true, None; }
      Remember(base);
      ok, line := true, Some(base);
    }

    /** The issued lines are remembered, the oldest one making room. */
    method Remember(base: nat)
      requires NoDup(prefetched) && |prefetched| <= options.history && options.history >= 1 && base !in prefetched
      modifies this`prefetched
      ensures NoDup(prefetched) && |prefetched| <= options.history
      ensures prefetched == (if |old(prefetched)| == options.history then old(prefetched)[1..] else old(prefetched)) + [base]
    {
      if |prefetched| == options.history { prefetched := prefetched[1..]; }
      prefetched := prefetched + [base];
    }
  }

  lemma Aligned(x: nat, d: nat)
    requires d >= 1
    ensures Line(x, d) % d == 0
  {
    assert x - x % d == (x / d) * d;
    DivUnique(x - x % d, d, x / d, 0);
  }

  lemma TakeLength(q: seq<nat>, n: nat)
    ensures |Take(q, n)| <= n
  {
  }

  lemma TakeDistinct(q: seq<nat>, n: nat)
    requires NoDup(q)
    ensures NoDup(Take(q, n))
  {
  }

  lemma TouchedDistinct(q: seq<nat>, t: nat)
    requires NoDup(q)
    ensures NoDup([t] + Drop(q, t)) && |[t] + Drop(q, t)| <= |q| + 1
  {
    DropKeeps(q, t);
    NoDupCons(t, Drop(q, t));
  }

  lemma TouchedElements(q: seq<nat>, t: nat)
    ensures Elements([t] + Drop(q, t)) == Elements(q) + {t}
  {
    DropKeeps(q, t);
  }

  lemma DropAtFront(q: seq<nat>, t: nat)
    requires t in q && NoDup(q)
    ensures q[0] == t ==> [t] + Drop(q, t) == q
  {
    if q[0] == t {
      DropAbsent(q[1..], t);
      assert q == [t] + q[1..];
    }
  }

  lemma TableSize(table: map<nat, Filter>, q: seq<nat>)
    requires NoDup(q) && table.Keys == Elements(q)
    ensures |table| == |q|
  {
    ElementsSize(q);
    assert |table| == |table.Keys|;
  }

  lemma {:induction false} ElementsSize(q: seq<nat>)
    requires NoDup(q)
    ensures |Elements(q)| == |q|
  {
    if q != [] {
      var n := |q| - 1;
      ElementsSize(q[..n]);
      assert q == q[..n] + [q[n]];
      assert Elements(q) == Elements(q[..n]) + {q[n]};
    }
  }

  lemma LastOut(q: seq<nat>)
    requires q != [] && NoDup(q)
    ensures Elements(q[..|q| - 1]) == Elements(q) - {q[|q| - 1]}
  {
    assert q == q[..|q| - 1] + [q[|q| - 1]];
  }
}
