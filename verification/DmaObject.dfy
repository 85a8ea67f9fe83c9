/** The DMA engine object, updated in place and proved to do what the value-level engine does,
    with the bytes it moves. */
module DmaObject {
  import opened Dram
  import opened DmaEngine

  newtype Byte = x: int | 0 <= x < 256

  /** What the engine sends to the memory system. */
  datatype MemRequest = Write(id: nat, addr: nat, data: seq<Byte>) | Read(id: nat, addr: nat, size: nat)

  type Memory = map<nat, Byte>

  function At(m: Memory, a: nat): Byte { if a in m then m[a] else 0 }

  /** The bytes from address `a` on. */
  function Slice(m: Memory, a: nat, n: nat): seq<Byte> { seq(n, i requires 0 <= i => At(m, a + i)) }

  /** The memory with the bytes stored from address `a` on. */
  ghost predicate Stored(m: Memory, m': Memory, a: nat, data: seq<Byte>) {
    forall x: nat :: At(m', x) == if a <= x < a + |data| then data[x - a] else At(m, x)
  }

  /** A memory request as the log of issued blocks describes it. */
  predicate Describes(accepted: seq<Job>, c: Chunk, id: nat, m: MemRequest) {
    && c.key < |accepted| && m.id == id && m.addr == accepted[c.key].sst + c.begin
    && (if accepted[c.key].dir.SimToSst? then m.Write? && |m.data| == c.size else m.Read? && m.size == c.size)
  }

  /** The requests sent are the blocks issued, in order. */
  ghost predicate SentAre(accepted: seq<Job>, issued: seq<Chunk>, outbox: seq<MemRequest>) {
    |outbox| == |issued| && forall id | 0 <= id < |issued| :: Describes(accepted, issued[id], id, outbox[id])
  }

  /** The writes sent from position `from` on carry the bytes that the memory holds. */
  ghost predicate CarryFrom(m: Memory, accepted: seq<Job>, issued: seq<Chunk>, outbox: seq<MemRequest>, from: nat)
    requires SentAre(accepted, issued, outbox)
  {
    forall id | from <= id < |outbox| && outbox[id].Write? ::
      Describes(accepted, issued[id], id, outbox[id])
      && outbox[id].data == Slice(m, accepted[issued[id].key].sim + issued[id].begin, issued[id].size)
  }

  class DMAEngine {
    var jobs: seq<Job>
    var owner: map<nat, nat>
    var nextId: nat
    var nextKey: nat
    var memory: Memory
    var outbox: seq<MemRequest>
    var answered: seq<nat>
    ghost var accepted: seq<Job>
    ghost var issued: seq<Chunk>
    ghost var landed: seq<nat>

    ghost function State(): Engine
      reads this
    {
      Engine(jobs, owner, accepted, issued, landed, answered)
    }

    ghost predicate Valid()
      reads this
    {
      nextId == |issued| && nextKey == |accepted| && Inv(State(), 0) && SentAre(accepted, issued, outbox)
    }

    constructor (memory: Memory)
      ensures Valid() && State() == INITIAL && this.memory == memory && outbox == []
    {
      jobs, owner, nextId, nextKey := [], map[], 0, 0;
      this.memory, outbox, answered := memory, [], [];
      accepted, issued, landed := [], [], [];
      StartInv();
    }

    /** The Write handler: false is the division by a transfer size of zero or the fatal overlap. */
    method HandleWrite(dir: Direction, sim: nat, sst: nat, size: nat, transfer: nat, posted: bool) returns (ok: bool)
      requires Valid()
      modifies this
      ensures Valid() && memory == old(memory) && outbox == old(outbox)
      ensures var r := Accept(old(State()), dir, sim, sst, size, transfer, posted);
        ok == r.Some? && State() == if ok then r.value else old(State())
    {
      hide Inv, Overlap;
      if transfer == 0 { return false; }
      AcceptInv(State(), dir, sim, sst, size, transfer, posted);
      var j := Job(nextKey, dir, sim, sst, size, transfer, posted, 0, 0, Busy);
      for i := 0 to |jobs|
        invariant forall k | 0 <= k < i :: !Overlap(j, jobs[k])
      {
        if Overlap(j, jobs[i]) { return false; }
      }
      jobs, nextKey := jobs + [j], nextKey + 1;
      accepted := accepted + [j];
      ok := true;
    }

    /** The copy loop of the simulator-to-SST direction. */
    method Gather(a: nat, n: nat) returns (data: seq<Byte>)
      ensures data == Slice(memory, a, n)
    {
      data := [];
      for i := 0 to n
        invariant |data| == i && forall k | 0 <= k < i :: data[k] == At(memory, a + k)
      {
        data := data + [At(memory, a + i)];
      }
    }

    /** One busy transfer sends its next memory request: the bytes at its offset, or a read. */
    method IssueNext(i: nat)
      requires i < |jobs| && nextId == |issued| && SentAre(accepted, issued, outbox)
      requires jobs[i].key < |accepted| && SameTransfer(jobs[i], accepted[jobs[i].key])
      modifies this`jobs, this`owner, this`nextId, this`outbox, this`issued
      ensures State() == Issue(old(State()), i) && nextId == |issued| == old(nextId) + 1
      ensures old(outbox) <= outbox && old(issued) <= issued
      ensures SentAre(accepted, issued, outbox) && CarryFrom(memory, accepted, issued, outbox, old(nextId))
    {
      hide SentAre, CarryFrom, Slice;
      SentCount(accepted, issued, outbox);
      var j := jobs[i];
      var actual := j.transfer;
      if j.size < j.transfer { actual := j.size; }
      ghost var was := outbox;
      if j.dir.SimToSst? {
        var data := Gather(j.sim + j.offset, actual);
        outbox := outbox + [Write(nextId, j.sst + j.offset, data)];
      } else {
        outbox := outbox + [Read(nextId, j.sst + j.offset, actual)];
      }
      assert |Slice(memory, j.sim + j.offset, actual)| == actual by { SliceSize(memory, j.sim + j.offset, actual); }
      SentMore(memory, accepted, issued, was, Chunk(j.key, j.offset, actual), outbox[|was|]);
      var offset := j.offset + actual;
      jobs := jobs[i := j.(offset := offset, ongoing := j.ongoing + 1, status := if offset >= j.size then Waiting else j.status)];
      owner := owner[nextId := j.key];
      issued := issued + [Chunk(j.key, j.offset, actual)];
      nextId := nextId + 1;
    }

    method ClockTick()
      requires Valid()
      modifies this
      ensures Valid() && State() == Tick(old(State())) && memory == old(memory) && old(outbox) <= outbox
      ensures CarryFrom(memory, accepted, issued, outbox, |old(outbox)|)
    {
      hide Inv, Issue, VisitFrom, Live, Step, SentAre, CarryFrom;
      ghost var was := State();
      TickInv(was);
      VisitsAccept(was, 0);
      SentCount(accepted, issued, outbox);
      NothingCarried(memory, accepted, issued, outbox);
      for i := 0 to |jobs|
        invariant |jobs| == |was.jobs| && nextId == |issued| && nextKey == old(nextKey) && memory == old(memory)
        invariant VisitFrom(State(), i) == VisitFrom(was, 0) && Inv(State(), i) && accepted == old(accepted)
        invariant SentAre(accepted, issued, outbox) && old(outbox) <= outbox && CarryFrom(memory, accepted, issued, outbox, |old(outbox)|)
      {
        VisitUnfold(State(), i);
        VisitInv(State(), i);
        match jobs[i].status {
          case Busy =>
            SizeKept(State(), i);
            QueuedTransfer(State(), i);
            ghost var so := State();
            ghost var box := outbox;
            SentCount(accepted, issued, outbox);
            IssueNext(i);
            CarriedMore(memory, accepted, so.issued, issued, box, outbox, |old(outbox)|);
          case Waiting =>
          case Done => if !jobs[i].posted { answered := answered + [jobs[i].key]; }
        }
      }
      VisitEnd(State());
      EraseDone();
    }

    /** Drop the finished transfers from the queue. */
    method EraseDone()
      modifies this`jobs
      ensures jobs == Live(old(jobs))
    {
      var live: seq<Job> := [];
      for i := 0 to |jobs|
        invariant jobs == old(jobs) && live == Live(jobs[..i])
      {
        assert jobs[..i + 1][..i] == jobs[..i];
        if !jobs[i].status.Done? { live := live + [jobs[i]]; }
      }
      assert jobs[..|jobs|] == jobs;
      jobs := live;
    }

    method Find(key: nat) returns (at: nat)
      requires Queued(jobs, key)
      ensures IndexOf(jobs, key) == Some(at) && at < |jobs| && jobs[at].key == key
    {
      IndexFinds(jobs, key);
      var i := |jobs|;
      assert jobs[..i] == jobs;
      while i > 0
        invariant 0 <= i <= |jobs| && IndexOf(jobs[..i], key) == IndexOf(jobs, key)
      {
        i := i - 1;
        assert jobs[..i + 1][..i] == jobs[..i];
        if jobs[i].key == key { return i; }
      }
      assert false;
    }

    /** The bookkeeping shared by both response handlers. */
    method Settle(id: nat)
      requires Valid() && id in owner
      modifies this`jobs, this`owner, this`landed
      ensures Valid() && Some(State()) == Respond(old(State()), id)
    {
      hide Inv, Queued, IndexOf;
      OwnerQueued(State(), id);
      RespondInv(State(), id);
      var at := Find(owner[id]);
      var j := jobs[at];
      var left := j.ongoing - 1;
      jobs := jobs[at := j.(ongoing := left, status := if j.status.Waiting? && left == 0 then Done else j.status)];
      owner := owner - {id};
      landed := landed + [id];
    }

    /** The WriteResp handler: false is the fatal unknown identifier. */
    method HandleWriteResp(id: nat) returns (ok: bool)
      requires Valid()
      modifies this
      ensures Valid() && ok == (id in old(owner)) && memory == old(memory) && outbox == old(outbox)
      ensures if ok then Some(State()) == Respond(old(State()), id) else State() == old(State())
    {
      if id !in owner { return false; }
      hide Inv, Respond;
      Settle(id);
      ok := true;
    }

    method CopyIn(target: nat, data: seq<Byte>)
      modifies this`memory
      ensures Stored(old(memory), memory, target, data)
    {
      for i := 0 to |data|
        invariant forall x: nat :: At(memory, x) == if target <= x < target + i then data[x - target] else At(old(memory), x)
      {
        memory := memory[target + i := data[i]];
      }
    }

    /** The ReadResp handler: the data lands at the transfer's simulator address plus the
        response's distance from the transfer's SST address, wrapping below zero. */
    method HandleReadResp(id: nat, addr: nat, data: seq<Byte>) returns (ok: bool)
      requires Valid()
      modifies this
      ensures Valid() && ok == (id in old(owner)) && outbox == old(outbox)
      ensures if ok then Some(State()) == Respond(old(State()), id) else State() == old(State()) && memory == old(memory)
      ensures ok ==> var j := Target(old(jobs), old(owner)[id]); Stored(old(memory), memory, Landing(j, addr), data)
    {
      hide Inv, Respond, Stored, IndexOf, Queued;
      if id !in owner { return false; }
      OwnerQueued(State(), id);
      var at := Find(owner[id]);
      CopyIn(Landing(jobs[at], addr), data);
      Settle(id);
      ok := true;
    }
  }

  /** The queued transfer with the given key. */
  function Target(jobs: seq<Job>, key: nat): Job {
    var at := IndexOf(jobs, key);
    if at.Some? && at.value < |jobs| then jobs[at.value] else Job(key, SimToSst, 0, 0, 0, 1, true, 0, 0, Busy)
  }

  /** Where the data of a response goes; the pointer arithmetic is unsigned, in 64 bits. */
  function Landing(j: Job, addr: nat): nat {
    var a := j.sim + addr - j.sst;
    if a >= 0 then a else a % 0x1_0000_0000_0000_0000
  }

  /** The parameters of a transfer, which never change. */
  predicate SameTransfer(j: Job, k: Job) {
    j.key == k.key && j.dir == k.dir && j.sim == k.sim && j.sst == k.sst && j.size == k.size && j.transfer == k.transfer && j.posted == k.posted
  }

  lemma QueuedTransfer(e: Engine, i: nat)
    requires i < |e.jobs| && Inv(e, i)
    ensures e.jobs[i].key < |e.accepted| && SameTransfer(e.jobs[i], e.accepted[e.jobs[i].key])
  {
    assert JobOk(e, e.jobs[i]);
  }

  lemma SentCount(accepted: seq<Job>, issued: seq<Chunk>, outbox: seq<MemRequest>)
    requires SentAre(accepted, issued, outbox)
    ensures |outbox| == |issued|
  {
  }

  lemma SliceSize(m: Memory, a: nat, n: nat)
    ensures |Slice(m, a, n)| == n
  {
  }

  lemma SentMore(m: Memory, accepted: seq<Job>, issued: seq<Chunk>, outbox: seq<MemRequest>, c: Chunk, r: MemRequest)
    requires SentAre(accepted, issued, outbox) && Describes(accepted, c, |outbox|, r)
    requires r.Write? ==> r.data == Slice(m, accepted[c.key].sim + c.begin, c.size)
    ensures SentAre(accepted, issued + [c], outbox + [r]) && CarryFrom(m, accepted, issued + [c], outbox + [r], |outbox|)
  {
    hide Slice;
  }

  lemma NothingCarried(m: Memory, accepted: seq<Job>, issued: seq<Chunk>, outbox: seq<MemRequest>)
    requires SentAre(accepted, issued, outbox)
    ensures CarryFrom(m, accepted, issued, outbox, |outbox|)
  {
  }

  lemma CarriedMore(m: Memory, accepted: seq<Job>, issued: seq<Chunk>, issued': seq<Chunk>,
                    outbox: seq<MemRequest>, outbox': seq<MemRequest>, from: nat)
    requires SentAre(accepted, issued, outbox) && SentAre(accepted, issued', outbox') && issued <= issued' && outbox <= outbox'
    requires CarryFrom(m, accepted, issued, outbox, from) && CarryFrom(m, accepted, issued', outbox', |outbox|)
    ensures CarryFrom(m, accepted, issued', outbox', from)
  {
    forall id | from <= id < |outbox'| && outbox'[id].Write?
      ensures Describes(accepted, issued'[id], id, outbox'[id])
        && outbox'[id].data == Slice(m, accepted[issued'[id].key].sim + issued'[id].begin, issued'[id].size)
    {
      if id < |outbox| { assert outbox'[id] == outbox[id] && issued'[id] == issued[id]; }
    }
  }

  lemma VisitUnfold(e: Engine, i: nat)
    requires i < |e.jobs|
    ensures |Visit(e, i).jobs| == |e.jobs| && VisitFrom(e, i) == VisitFrom(Visit(e, i), i + 1)
  {
  }

  lemma SizeKept(e: Engine, i: nat)
    requires i < |e.jobs|
    ensures |Issue(e, i).jobs| == |e.jobs|
  {
  }

  lemma VisitEnd(e: Engine)
    ensures VisitFrom(e, |e.jobs|) == e
  {
  }
}
