/** The Ariel core's event queue, fence protocol and instruction limit, without accelerator
    acknowledgements and memory-manager interrupts. */
module ArielCore {
  import opened Arith
  import opened FenceLog

  /** Queued program events; `Other` stands for the DMA events, which only leave the queue. */
  datatype Event = NoOp | ReadAt(addr: nat, length: nat) | WriteAt(addr: nat, length: nat) | FlushAt(addr: nat, length: nat)
                 | FenceEvent | Exit | Other
                 | Malloc(addr: nat, length: nat, level: nat, site: nat) | Free(addr: nat)
                 | Mmap(addr: nat, length: nat, level: nat, site: nat, file: nat) | SwitchPool(pool: nat)

  /** A memory transaction as sent to the cache. */
  datatype Piece = Piece(phys: nat, virt: nat, length: nat)

  /** A limit of 0 instructions is no limit; it stops core 0 only. */
  datatype Settings = Settings(line: nat, maxPending: nat, maxQueue: nat, maxIssue: nat, maxInstructions: nat, core: nat) {
    predicate Valid() { line >= 1 }
  }

  /** The transactions of a read or write: the access is trimmed to a cache line and split where
      its physical address crosses a line boundary. */
  function Split(line: nat, translate: nat -> nat, addr: nat, length: nat): seq<Piece>
    requires line >= 1
  {
    var n := Min(length, line);
    var phys := translate(addr);
    var offset := phys % line;
    if offset + n <= line then if n > 0 then [Piece(phys, addr, n)] else []
    else
      var left := line - offset;
      var right := addr + line - offset;
      [Piece(phys, addr, left), Piece(translate(right), right, n - left)]
  }

  /** At most two pieces, non-empty, adjacent in virtual addresses, covering the trimmed access;
      the first one stays within its physical cache line. */
  lemma SplitCovers(line: nat, translate: nat -> nat, addr: nat, length: nat)
    requires line >= 1
    ensures var ps := Split(line, translate, addr, length);
      && |ps| <= 2 && (ps == [] <==> length == 0)
      && (forall i | 0 <= i < |ps| :: ps[i].length >= 1 && ps[i].phys == translate(ps[i].virt))
      && (|ps| >= 1 ==> ps[0].virt == addr && ps[0].phys % line + ps[0].length <= line)
      && (|ps| == 1 ==> ps[0].length == Min(length, line))
      && (|ps| == 2 ==> ps[1].virt == addr + ps[0].length && ps[0].length + ps[1].length == Min(length, line)
                        && (ps[0].phys + ps[0].length) % line == 0)
  {
    var ps := Split(line, translate, addr, length);
    if |ps| == 2 {
      var q := ps[0].phys / line;
      assert ps[0].phys + ps[0].length == (q + 1) * line;
      DivUnique((q + 1) * line, line, q + 1, 0);
    }
  }

  /** The transactions that an event sends. */
  function Pieces(line: nat, translate: nat -> nat, e: Event): seq<Piece>
    requires line >= 1
  {
    match e
    case ReadAt(addr, length) => Split(line, translate, addr, length)
    case WriteAt(addr, length) => Split(line, translate, addr, length)
    case FlushAt(addr, length) => if length > 0 then [Piece(translate(addr), addr, length)] else []
    case _ => []
  }

  function AllPieces(line: nat, translate: nat -> nat, events: seq<Event>): seq<Piece>
    requires line >= 1
  {
    if events == [] then []
    else AllPieces(line, translate, events[..|events| - 1]) + Pieces(line, translate, events[|events| - 1])
  }

  /** What the history records of the events: a fence, or the transactions, numbered from `id` on. */
  ghost function AllEntries(line: nat, translate: nat -> nat, id: nat, events: seq<Event>): seq<Entry>
    requires line >= 1
  {
    if events == [] then []
    else
      var before, e := events[..|events| - 1], events[|events| - 1];
      AllEntries(line, translate, id, before)
        + if e.FenceEvent? then [Fence] else Entries(id + |AllPieces(line, translate, before)|, |Pieces(line, translate, e)|)
  }

  /** The events of a trace of instructions, in order. */
  function Flat(trace: seq<seq<Event>>): seq<Event> { if trace == [] then [] else trace[0] + Flat(trace[1..]) }

  /** Events that wait for a free transaction slot. */
  predicate NeedsSlot(e: Event) { e.ReadAt? || e.WriteAt? || e.FlushAt? }

  /** Events that count as instructions, and events handed to the memory manager. */
  predicate Instruction(e: Event) { e.NoOp? || NeedsSlot(e) }

  predicate Managed(e: Event) { e.Malloc? || e.Free? || e.Mmap? || e.SwitchPool? }

  function Instructions(events: seq<Event>): nat {
    if events == [] then 0 else Instructions(events[..|events| - 1]) + if Instruction(events[|events| - 1]) then 1 else 0
  }

  function Requests(events: seq<Event>): seq<Event> {
    if events == [] then []
    else Requests(events[..|events| - 1]) + if Managed(events[|events| - 1]) then [events[|events| - 1]] else []
  }

  predicate LimitReached(s: Settings, instructions: nat) { instructions >= s.maxInstructions > 0 && s.core == 0 }

  class Core {
    const settings: Settings
    var queue: seq<Event>
    var pending: map<nat, Piece>
    var pendingCount: nat
    var fenced: bool
    var stalled: bool
    var halted: bool
    var nextId: nat
    var outbox: seq<Piece>
    var instructions: nat
    var requests: seq<Event>
    ghost var log: seq<Entry>

    /** Every run keeps this: the counter counts the outstanding transactions, a transaction from
        before a fence keeps the core stalled, and the history respects every fence. */
    ghost predicate Valid()
      reads this
    {
      && settings.Valid()
      && pendingCount == |pending| && pending.Keys == Outstanding(log)
      && (forall id | id in pending :: id < nextId)
      && (fenced ==> stalled) && (Fenced(log) != {} ==> fenced)
      && FenceSafe(log)
      && pendingCount <= settings.maxPending + 1
    }

    constructor (settings: Settings)
      requires settings.Valid()
      ensures Valid() && this.settings == settings && log == [] && queue == [] && outbox == []
      ensures instructions == 0 && requests == [] && !halted && !stalled
    {
      this.settings := settings;
      queue, pending, pendingCount := [], map[], 0;
      fenced, stalled, halted, nextId, outbox, log := false, false, false, 0, [], [];
      instructions, requests := 0, [];
    }

    /** commitReadEvent, commitWriteEvent and commitFlushEvent for a non-empty piece. */
    method Commit(p: Piece)
      requires settings.Valid() && pendingCount == |pending| && pending.Keys == Outstanding(log)
      requires (forall id | id in pending :: id < nextId) && FenceSafe(log) && Fenced(log) == {}
      modifies this`pending, this`pendingCount, this`nextId, this`outbox, this`log
      ensures pendingCount == old(pendingCount) + 1 == |pending| && pending.Keys == Outstanding(log)
      ensures (forall id | id in pending :: id < nextId) && FenceSafe(log) && Fenced(log) == {}
      ensures nextId == old(nextId) + 1 && log == old(log) + [Sent(old(nextId))] && outbox == old(outbox) + [p]
    {
      Snoc(log, Sent(nextId));
      pendingCount := pendingCount + 1;
      pending := pending[nextId := p];
      log := log + [Sent(nextId)];
      outbox := outbox + [p];
      nextId := nextId + 1;
    }

    /** A response: false is the fatal unknown transaction. */
    method HandleEvent(id: nat) returns (ok: bool)
      requires Valid()
      modifies this
      ensures Valid() && ok == (id in old(pending)) && queue == old(queue) && outbox == old(outbox)
      ensures log == if ok then old(log) + [Answer(id)] else old(log)
      ensures pending == if ok then old(pending) - {id} else old(pending)
      ensures var lifted := ok && old(fenced) && pending == map[];
        fenced == (old(fenced) && !lifted) && stalled == (old(stalled) && !lifted)
      ensures halted == old(halted) && nextId == old(nextId) && instructions == old(instructions) && requests == old(requests)
    {
      hide Outstanding, Fenced, FenceSafe;
      if id !in pending { return false; }
      Snoc(log, Answer(id));
      FencedOutstanding(log + [Answer(id)]);
      CountRemove(pending, id);
      pending := pending - {id};
      log := log + [Answer(id)];
      pendingCount := pendingCount - 1;
      if fenced && pendingCount == 0 { fenced, stalled := false, false; }
      ok := true;
    }

    method PassFence()
      requires Valid() && !stalled
      modifies this`fenced, this`stalled, this`log
      ensures Valid() && log == old(log) + [Fence]
      ensures stalled == fenced == (pending != map[])
    {
      Snoc(log, Fence);
      if pendingCount > 0 { fenced, stalled := true, true; }
      log := log + [Fence];
    }

    /** Refill the queue from the trace; false when the trace ran dry first. The events of one instruction
        come together, so the queue can grow past its length. */
    method Refill(trace: seq<seq<Event>>) returns (rest: seq<seq<Event>>, ok: bool)
      modifies this`queue
      ensures old(queue) + Flat(trace) == queue + Flat(rest)
      ensures ok == (|queue| >= settings.maxQueue) && (!ok ==> rest == [])
      ensures exists k | 0 <= k <= |trace| :: rest == trace[k..] && (k > 0 ==> |old(queue)| + |Flat(trace[..k - 1])| < settings.maxQueue)
    {
      rest := trace;
      ghost var k := 0;
      assert Flat(trace[..0]) == [];
      while |queue| < settings.maxQueue
        invariant 0 <= k <= |trace| && rest == trace[k..] && queue == old(queue) + Flat(trace[..k])
        invariant k > 0 ==> |old(queue)| + |Flat(trace[..k - 1])| < settings.maxQueue
        decreases |rest|
      {
        FlatSplit(trace, k);
        if rest == [] { return rest, false; }
        assert trace[..k + 1] == trace[..k] + [rest[0]];
        FlatSnoc(trace[..k], rest[0]);
        queue, rest := queue + rest[0], rest[1..];
        k := k + 1;
      }
      FlatSplit(trace, k);
      ok := true;
    }

    /** The pieces of an access are sent one after the other. */
    method CommitAll(ps: seq<Piece>)
      requires Valid() && !stalled && |ps| <= 2 && pendingCount < settings.maxPending
      modifies this`pending, this`pendingCount, this`nextId, this`outbox, this`log
      ensures Valid() && outbox == old(outbox) + ps
      ensures nextId == old(nextId) + |ps| && log == old(log) + Entries(old(nextId), |ps|)
    {
      hide Outstanding, Fenced, FenceSafe, Entries;
      EntriesNone(nextId);
      assert ps[..0] == [];
      for i := 0 to |ps|
        invariant settings.Valid() && pendingCount == |pending| && pending.Keys == Outstanding(log)
        invariant (forall id | id in pending :: id < nextId) && FenceSafe(log) && Fenced(log) == {}
        invariant pendingCount == old(pendingCount) + i && outbox == old(outbox) + ps[..i]
        invariant nextId == old(nextId) + i && log == old(log) + Entries(old(nextId), i)
      {
        Commit(ps[i]);
        assert ps[..i + 1] == ps[..i] + [ps[i]];
        EntriesMore(old(nextId), i);
      }
      assert ps[..|ps|] == ps;
    }

    /** processNextEvent: whether an event was taken up. A processed event has sent its
        transactions or passed its fence; otherwise the trace ran dry or all slots are taken. */
    method ProcessNextEvent(translate: nat -> nat, trace: seq<seq<Event>>) returns (rest: seq<seq<Event>>, processed: bool)
      requires Valid() && !stalled && !halted && settings.maxQueue >= 1
      modifies this
      ensures Valid()
      ensures var all := old(queue) + Flat(trace);
        if processed then
          && all != []
          && queue + Flat(rest) == (if all[0].Exit? then all else all[1..]) && halted == all[0].Exit?
          && outbox == old(outbox) + Pieces(settings.line, translate, all[0])
          && nextId == old(nextId) + |Pieces(settings.line, translate, all[0])|
          && stalled == fenced == (all[0].FenceEvent? && pending != map[])
          && log == old(log) + (if all[0].FenceEvent? then [Fence] else Entries(old(nextId), |Pieces(settings.line, translate, all[0])|))
          && instructions == old(instructions) + (if Instruction(all[0]) then 1 else 0)
          && requests == old(requests) + (if Managed(all[0]) then [all[0]] else [])
        else
          && queue + Flat(rest) == all && !halted && !stalled && outbox == old(outbox) && log == old(log) && nextId == old(nextId)
          && instructions == old(instructions) && requests == old(requests)
          && (|all| < settings.maxQueue || (NeedsSlot(all[0]) && pendingCount >= settings.maxPending))
    {
      hide Outstanding, Fenced, FenceSafe, Entries, Pieces, Instruction, Managed, Flat;
      rest := trace;
      if queue == [] {
        var filled;
        rest, filled := Refill(trace);
        FlatNone();
        if !filled { return rest, false; }
      }
      var next := queue[0];
      assert queue + Flat(rest) == [next] + (queue[1..] + Flat(rest));
      if NeedsSlot(next) && pendingCount >= settings.maxPending { return rest, false; }
      Serve(translate, next);
      if !next.Exit? { queue := queue[1..]; }
      processed := true;
    }

    /** What an event does, once it is taken up. */
    method Serve(translate: nat -> nat, e: Event)
      requires Valid() && !stalled && !halted && (NeedsSlot(e) ==> pendingCount < settings.maxPending)
      modifies this`pending, this`pendingCount, this`fenced, this`stalled, this`halted, this`nextId, this`outbox
      modifies this`instructions, this`requests, this`log
      ensures Valid() && halted == e.Exit?
      ensures outbox == old(outbox) + Pieces(settings.line, translate, e)
      ensures nextId == old(nextId) + |Pieces(settings.line, translate, e)|
      ensures stalled == fenced == (e.FenceEvent? && pending != map[])
      ensures log == old(log) + (if e.FenceEvent? then [Fence] else Entries(old(nextId), |Pieces(settings.line, translate, e)|))
      ensures instructions == old(instructions) + (if Instruction(e) then 1 else 0)
      ensures requests == old(requests) + (if Managed(e) then [e] else [])
    {
      hide Outstanding, Fenced, FenceSafe, Entries, Pieces;
      NoPieces(settings.line, translate);
      EntriesNone(nextId);
      if NeedsSlot(e) {
        PiecesFew(settings.line, translate, e);
        CommitAll(Pieces(settings.line, translate, e));
      } else if e.FenceEvent? {
        PassFence();
      } else if e.Exit? {
        halted := true;
      } else if Managed(e) {
        requests := requests + [e];
      }
      if Instruction(e) { instructions := instructions + 1; }
    }

    /** A fence holds at every moment of every run: a transaction sent after it comes after the
        answers to all those sent before it. */
    lemma FencesHold(r: nat, p: nat, q: nat)
      requires Valid() && r < p < q < |log| && log[r].Sent? && log[p] == Fence && log[q].Sent?
      ensures AnsweredBetween(log, r, q, log[r].id)
    {
      FenceOrders(log, r, p, q);
    }

    /** A cycle takes up the events `done`, in order; it sends exactly their transactions and hands
        exactly their allocations to the memory manager. It takes up as many events as it may
        issue, unless the core halts, stalls, runs out of events or out of transaction slots. It
        halts at an exit event or when the instruction limit is reached. */
    method Tick(translate: nat -> nat, trace: seq<seq<Event>>) returns (rest: seq<seq<Event>>, ghost done: seq<Event>)
      requires Valid() && settings.maxQueue >= 1
      modifies this
      ensures Valid() && old(queue) + Flat(trace) == done + (queue + Flat(rest)) && |done| <= settings.maxIssue
      ensures outbox == old(outbox) + AllPieces(settings.line, translate, done)
      ensures log == old(log) + AllEntries(settings.line, translate, old(nextId), done)
      ensures instructions == old(instructions) + Instructions(done) && requests == old(requests) + Requests(done)
      ensures old(halted) || LimitReached(settings, instructions) ==> halted
      ensures halted ==> old(halted) || LimitReached(settings, instructions) || (queue + Flat(rest) != [] && (queue + Flat(rest))[0].Exit?)
      ensures old(halted) || old(stalled) ==> done == []
      ensures |done| == settings.maxIssue || halted || stalled || |queue + Flat(rest)| < settings.maxQueue
        || (NeedsSlot((queue + Flat(rest))[0]) && pendingCount >= settings.maxPending)
    {
      rest, done := Issue(translate, trace);
      if LimitReached(settings, instructions) { halted := true; }
    }

    /** The issue loop of a cycle. */
    method Issue(translate: nat -> nat, trace: seq<seq<Event>>) returns (rest: seq<seq<Event>>, ghost done: seq<Event>)
      requires Valid() && settings.maxQueue >= 1
      modifies this
      ensures Valid() && old(queue) + Flat(trace) == done + (queue + Flat(rest)) && |done| <= settings.maxIssue
      ensures outbox == old(outbox) + AllPieces(settings.line, translate, done)
      ensures log == old(log) + AllEntries(settings.line, translate, old(nextId), done)
      ensures instructions == old(instructions) + Instructions(done) && requests == old(requests) + Requests(done)
      ensures old(halted) ==> halted
      ensures halted ==> old(halted) || (queue + Flat(rest) != [] && (queue + Flat(rest))[0].Exit?)
      ensures old(halted) || old(stalled) ==> done == []
      ensures |done| == settings.maxIssue || halted || stalled || |queue + Flat(rest)| < settings.maxQueue
        || (NeedsSlot((queue + Flat(rest))[0]) && pendingCount >= settings.maxPending)
    {
      hide Outstanding, Fenced, FenceSafe, Entries, Pieces, AllPieces, AllEntries, Instructions, Requests, Flat;
      AllPiecesNone(settings.line, translate);
      AllEntriesNone(settings.line, translate, nextId);
      NothingCounted();
      NoPieces(settings.line, translate);
      EntriesNone(nextId);
      rest, done := trace, [];
      if halted || stalled { return; }
      var i := 0;
      while i < settings.maxIssue
        invariant 0 <= i <= settings.maxIssue && |done| == i
        invariant Valid() && !halted && !stalled
        invariant nextId == old(nextId) + |AllPieces(settings.line, translate, done)|
        invariant log == old(log) + AllEntries(settings.line, translate, old(nextId), done)
        invariant instructions == old(instructions) + Instructions(done) && requests == old(requests) + Requests(done)
        invariant old(queue) + Flat(trace) == done + (queue + Flat(rest))
        invariant outbox == old(outbox) + AllPieces(settings.line, translate, done)
      {
        ghost var all := queue + Flat(rest);
        ghost var sent := outbox;
        var processed;
        rest, processed := ProcessNextEvent(translate, rest);
        if !processed { return; }
        assert outbox == sent + Pieces(settings.line, translate, all[0]);
        if halted { EntriesNone(nextId); return; }
        assert done + all == (done + [all[0]]) + all[1..];
        AllPiecesMore(settings.line, translate, done, all[0]);
        AllEntriesMore(settings.line, translate, old(nextId), done, all[0]);
        CountedMore(done, all[0]);
        done := done + [all[0]];
        if stalled { return; }
        i := i + 1;
      }
    }
  }

  lemma {:induction false} FlatSnoc(trace: seq<seq<Event>>, last: seq<Event>)
    ensures Flat(trace + [last]) == Flat(trace) + last
  {
    if trace == [] {
      assert [last][1..] == [];
    } else {
      FlatSnoc(trace[1..], last);
      assert (trace + [last])[1..] == trace[1..] + [last];
    }
  }

  lemma {:induction false} FlatSplit(trace: seq<seq<Event>>, k: nat)
    requires k <= |trace|
    ensures Flat(trace) == Flat(trace[..k]) + Flat(trace[k..])
    decreases |trace| - k
  {
    if k < |trace| {
      FlatSplit(trace, k + 1);
      FlatSnoc(trace[..k], trace[k]);
      assert trace[..k + 1] == trace[..k] + [trace[k]] && trace[k..][1..] == trace[k + 1..];
    } else {
      assert trace[..k] == trace && trace[k..] == [];
    }
  }

  lemma FlatNone()
    ensures Flat([]) == []
  {
  }

  lemma NothingCounted()
    ensures Instructions([]) == 0 && Requests([]) == []
  {
  }

  lemma CountedMore(events: seq<Event>, e: Event)
    ensures Instructions(events + [e]) == Instructions(events) + if Instruction(e) then 1 else 0
    ensures Requests(events + [e]) == Requests(events) + if Managed(e) then [e] else []
  {
    assert (events + [e])[..|events|] == events;
  }

  lemma EntriesNone(id: nat)
    ensures Entries(id, 0) == []
  {
  }

  lemma EntriesMore(id: nat, n: nat)
    ensures Entries(id, n + 1) == Entries(id, n) + [Sent(id + n)]
  {
  }

  lemma NoPieces(line: nat, translate: nat -> nat)
    requires line >= 1
    ensures forall e: Event | !NeedsSlot(e) :: Pieces(line, translate, e) == []
  {
  }

  lemma AllPiecesNone(line: nat, translate: nat -> nat)
    requires line >= 1
    ensures AllPieces(line, translate, []) == []
  {
  }

  lemma AllPiecesMore(line: nat, translate: nat -> nat, events: seq<Event>, e: Event)
    requires line >= 1
    ensures AllPieces(line, translate, events + [e]) == AllPieces(line, translate, events) + Pieces(line, translate, e)
  {
    assert (events + [e])[..|events|] == events;
  }

  lemma AllEntriesNone(line: nat, translate: nat -> nat, id: nat)
    requires line >= 1
    ensures AllEntries(line, translate, id, []) == []
  {
  }

  lemma AllEntriesMore(line: nat, translate: nat -> nat, id: nat, events: seq<Event>, e: Event)
    requires line >= 1
    ensures AllEntries(line, translate, id, events + [e]) == AllEntries(line, translate, id, events)
      + if e.FenceEvent? then [Fence] else Entries(id + |AllPieces(line, translate, events)|, |Pieces(line, translate, e)|)
  {
    assert (events + [e])[..|events|] == events;
  }

  lemma PiecesFew(line: nat, translate: nat -> nat, e: Event)
    requires line >= 1
    ensures |Pieces(line, translate, e)| <= 2
  {
  }

  function Entries(id: nat, n: nat): seq<Entry> { seq(n, i requires 0 <= i => Sent(id + i)) }

  lemma CountRemove(m: map<nat, Piece>, id: nat)
    requires id in m
    ensures |m - {id}| == |m| - 1 && (m - {id}).Keys == m.Keys - {id}
  {
    assert (m - {id}).Keys == m.Keys - {id};
    assert |m| == |m.Keys| && |m - {id}| == |(m - {id}).Keys|;
  }
}
