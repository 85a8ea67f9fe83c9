/** The bytes that the DMA engine moves, over every run: a finished transfer into the simulator's
    memory has delivered the bytes that its responses brought, and one out of it has sent the bytes
    that its range held when it was accepted. */
module DmaData {
  import opened Arith
  import opened Dram
  import opened DmaEngine
  import opened DmaObject

  /** `brought` is the data of the read responses, by identifier. */
  datatype System = System(engine: Engine, memory: Memory, outbox: seq<MemRequest>, brought: map<nat, seq<Byte>>)

  /** A response that stores data in the simulator's memory. */
  predicate Stores(e: Engine, v: Event) {
    && v.Response? && v.id < |e.issued| && e.issued[v.id].key < |e.accepted|
    && e.accepted[e.issued[v.id].key].dir.SstToSim?
  }

  /** What an event sends: the requests of the blocks it issues, with the bytes in memory. */
  ghost predicate Sends(s: System, s': System) {
    && s.outbox <= s'.outbox && SentAre(s'.engine.accepted, s'.engine.issued, s'.outbox)
    && CarryFrom(s.memory, s'.engine.accepted, s'.engine.issued, s'.outbox, |s.outbox|)
  }

  /** One event. A read response brings any bytes, as many as were asked for. */
  ghost predicate Moves(s: System, v: Event, s': System) {
    && Next(s.engine, v) == Some(s'.engine) && Sends(s, s')
    && if Stores(s.engine, v) then
         var c := s.engine.issued[v.id];
         && v.id in s'.brought && |s'.brought[v.id]| == c.size && s'.brought == s.brought[v.id := s'.brought[v.id]]
         && Stored(s.memory, s'.memory, s.engine.accepted[c.key].sim + c.begin, s'.brought[v.id])
       else
         s'.memory == s.memory && s'.brought == s.brought
  }

  ghost predicate History(ss: seq<System>, vs: seq<Event>) {
    && |ss| == |vs| + 1 && ss[0].engine == INITIAL && ss[0].outbox == []
    && forall i | 0 <= i < |vs| :: Moves(ss[i], vs[i], ss[i + 1])
  }

  /** The transfers into the simulator's memory have aligned sizes. */
  predicate InboundAligned(e: Engine) {
    forall k | 0 <= k < |e.accepted| && e.accepted[k].dir.SstToSim? :: Aligned(e.accepted[k])
  }

  // ---- Blocks lie within their transfer

  lemma {:induction false} ChunkListed(log: seq<Chunk>, id: nat)
    requires id < |log|
    ensures log[id] in ChunksOf(log, log[id].key)
  {
    if id < |log| - 1 { ChunkListed(log[..|log| - 1], id); }
  }

  lemma BlockWithin(key: nat, step: nat, n: nat, c: Chunk)
    requires c in Blocks(key, step, n)
    ensures c.begin + c.size <= n * step
  {
    var m :| 0 <= m < n && c == Chunk(key, m * step, step);
    Distribute(m, 1, step);
    MulMono(m + 1, n, step);
  }

  /** The blocks issued for a queued transfer of an aligned size stay within it. */
  lemma ChunkInside(e: Engine, k: nat, id: nat)
    requires Inv(e, 0) && k < |e.jobs| && id < |e.issued| && e.issued[id].key == e.jobs[k].key && Aligned(e.jobs[k])
    ensures e.issued[id].begin + e.issued[id].size <= e.jobs[k].size
  {
    var j := e.jobs[k];
    assert JobOk(e, j);
    hide Inv, ChunksOf, Blocks;
    var n: nat :| Issued(e, j, n) && j.offset == n * Step(j)
               && (if j.status.Busy? then n == 0 || j.offset < j.size else Enough(j, n));
    ChunkListed(e.issued, id);
    BlockWithin(j.key, Step(j), n, e.issued[id]);
    if !j.status.Busy? { EnoughExact(j, n); }
  }

  // ---- What a clock edge keeps

  lemma {:induction false} VisitsKeep(e: Engine, i: nat)
    requires i <= |e.jobs|
    ensures var e' := VisitFrom(e, i);
      && |e'.jobs| == |e.jobs| && (forall k | 0 <= k < |e.jobs| :: e'.jobs[k].key == e.jobs[k].key)
      && e.issued <= e'.issued && e'.landed == e.landed && e'.accepted == e.accepted
    decreases |e.jobs| - i
  {
    if i < |e.jobs| { VisitsKeep(Visit(e, i), i + 1); }
  }

  /** What any event keeps. */
  lemma EventKeeps(e: Engine, v: Event)
    requires Inv(e, 0) && Next(e, v).Some?
    ensures var e' := Next(e, v).value;
      && Inv(e', 0) && e.issued <= e'.issued && e.accepted <= e'.accepted
      && e'.landed == e.landed + (if v.Response? then [v.id] else [])
      && (v.Response? ==> v.id in e.owner)
      && (forall key | 0 <= key < |e.accepted| && Queued(e'.jobs, key) :: Queued(e.jobs, key))
  {
    var e' := Next(e, v).value;
    match v {
      case Clock =>
        TickInv(e);
        VisitsKeep(e, 0);
        ClockQueue(e);
      case Request(dir, sim, sst, size, transfer, posted) =>
        AcceptInv(e, dir, sim, sst, size, transfer, posted);
        RequestQueue(e, e');
      case Response(id) =>
        RespondSome(e, id);
        ResponseQueue(e, id);
    }
  }

  lemma ClockQueue(e: Engine)
    ensures forall key: nat | Queued(Tick(e).jobs, key) :: Queued(e.jobs, key)
  {
    VisitsKeep(e, 0);
    var e1 := VisitFrom(e, 0);
    LiveAre(e1.jobs);
    forall key: nat | Queued(Tick(e).jobs, key)
      ensures Queued(e.jobs, key)
    {
      var i :| 0 <= i < |Tick(e).jobs| && Tick(e).jobs[i].key == key;
      assert Tick(e).jobs[i] in Live(e1.jobs);
      var k :| 0 <= k < |e1.jobs| && e1.jobs[k] == Tick(e).jobs[i];
      assert e.jobs[k].key == key;
    }
  }

  lemma RequestQueue(e: Engine, e': Engine)
    requires |e'.jobs| == |e.jobs| + 1 && e'.jobs[..|e.jobs|] == e.jobs && e'.jobs[|e.jobs|].key == |e.accepted|
    ensures forall key | 0 <= key < |e.accepted| && Queued(e'.jobs, key) :: Queued(e.jobs, key)
  {
    forall key | 0 <= key < |e.accepted| && Queued(e'.jobs, key)
      ensures Queued(e.jobs, key)
    {
      var i :| 0 <= i < |e'.jobs| && e'.jobs[i].key == key;
      assert e.jobs[i].key == key;
    }
  }

  lemma ResponseQueue(e: Engine, id: nat)
    requires Respond(e, id).Some?
    ensures var e' := Respond(e, id).value;
      && e'.landed == e.landed + [id] && e'.issued == e.issued && e'.accepted == e.accepted && id in e.owner
      && forall key: nat | Queued(e'.jobs, key) :: Queued(e.jobs, key)
  {
    hide IndexOf;
    var e' := Respond(e, id).value;
    forall key: nat | Queued(e'.jobs, key)
      ensures Queued(e.jobs, key)
    {
      var i :| 0 <= i < |e'.jobs| && e'.jobs[i].key == key;
      assert e.jobs[i].key == key;
    }
  }

  // ---- Where a response stores

  /** The memory that an event may write: nothing, or part of the range of one queued transfer
      into the simulator's memory. */
  lemma StoreInside(e: Engine, v: Event)
    requires Inv(e, 0) && InboundAligned(e) && Next(e, v).Some? && Stores(e, v)
    ensures var c := e.issued[v.id]; Queued(e.jobs, c.key) && c.begin + c.size <= e.accepted[c.key].size
  {
    RespondSome(e, v.id);
    OwnerQueued(e, v.id);
    var c := e.issued[v.id];
    assert e.owner[v.id] == c.key;
    var k :| 0 <= k < |e.jobs| && e.jobs[k].key == c.key;
    assert JobOk(e, e.jobs[k]);
    ChunkInside(e, k, v.id);
  }

  /** Two queued transfers share no byte of the simulator's memory. */
  lemma QueuedApart(e: Engine, a: nat, b: nat)
    requires Inv(e, 0) && a < |e.accepted| && b < |e.accepted| && a != b && Queued(e.jobs, a) && Queued(e.jobs, b)
    ensures var j, k := e.accepted[a], e.accepted[b]; j.sim + j.size < k.sim || k.sim + k.size < j.sim
  {
    var i :| 0 <= i < |e.jobs| && e.jobs[i].key == a;
    var k :| 0 <= k < |e.jobs| && e.jobs[k].key == b;
    assert JobOk(e, e.jobs[i]) && JobOk(e, e.jobs[k]);
    assert !Overlap(e.jobs[i], e.jobs[k]);
  }

  /** A byte in the range of a queued transfer changes only by that transfer's own responses. */
  lemma OnlyOwn(s: System, v: Event, s': System, key: nat, x: nat)
    requires Inv(s.engine, 0) && InboundAligned(s.engine) && Moves(s, v, s')
    requires key < |s.engine.accepted| && Queued(s.engine.jobs, key) && x < s.engine.accepted[key].size
    requires !(Stores(s.engine, v) && s.engine.issued[v.id].key == key)
    ensures var a := s.engine.accepted[key].sim + x; At(s'.memory, a) == At(s.memory, a)
  {
    hide Inv, Queued, Next, Aligned;
    if Stores(s.engine, v) {
      StoreInside(s.engine, v);
      QueuedApart(s.engine, key, s.engine.issued[v.id].key);
    }
  }

  // ---- What has arrived

  /** Every block that has landed for a queued transfer into the simulator's memory is there. */
  ghost predicate Arrived(s: System) {
    forall id, x: nat | id in s.engine.landed && Landed(s.engine, id) && x < s.engine.issued[id].size :: Equal(s, id, x)
  }

  predicate Landed(e: Engine, id: nat) {
    && id < |e.issued| && e.issued[id].key < |e.accepted|
    && e.accepted[e.issued[id].key].dir.SstToSim? && Queued(e.jobs, e.issued[id].key)
  }

  predicate Equal(s: System, id: nat, x: nat)
    requires Landed(s.engine, id)
  {
    var c := s.engine.issued[id];
    var j := s.engine.accepted[c.key];
    id in s.brought && |s.brought[id]| == c.size && x < c.size && At(s.memory, j.sim + (c.begin + x)) == s.brought[id][x]
  }

  lemma MoveKeeps(s: System, v: Event, s': System)
    requires Inv(s.engine, 0) && InboundAligned(s'.engine) && Moves(s, v, s') && Arrived(s)
    ensures Inv(s'.engine, 0) && InboundAligned(s.engine) && Arrived(s')
  {
    EventKeeps(s.engine, v);
    hide Inv, Queued, Next, Aligned;
    assert forall k | 0 <= k < |s.engine.accepted| :: s'.engine.accepted[k] == s.engine.accepted[k];
    forall id, x: nat | id in s'.engine.landed && Landed(s'.engine, id) && x < s'.engine.issued[id].size
      ensures Equal(s', id, x)
    {
      LandedBlock(s, v, s', id, x);
    }
  }

  lemma LandedBlock(s: System, v: Event, s': System, id: nat, x: nat)
    requires Inv(s.engine, 0) && InboundAligned(s.engine) && Moves(s, v, s') && Arrived(s)
    requires s.engine.issued <= s'.engine.issued && s.engine.accepted <= s'.engine.accepted
    requires s'.engine.landed == s.engine.landed + (if v.Response? then [v.id] else []) && (v.Response? ==> v.id in s.engine.owner)
    requires forall key | 0 <= key < |s.engine.accepted| && Queued(s'.engine.jobs, key) :: Queued(s.engine.jobs, key)
    requires id in s'.engine.landed && Landed(s'.engine, id) && x < s'.engine.issued[id].size
    ensures Equal(s', id, x)
  {
    hide Inv, Next, Aligned, Arrived, Stored;
    KnownBlock(s.engine, v, id);
    var c := s.engine.issued[id];
    assert Landed(s.engine, id);
    BlockInside(s.engine, id);
    if id in s.engine.landed { ThereBefore(s, id, x); }
    if Stores(s.engine, v) && s.engine.issued[v.id].key == c.key {
      OwnStore(s, v, s', id, x);
    } else {
      OnlyOwn(s, v, s', c.key, c.begin + x);
    }
  }

  lemma ThereBefore(s: System, id: nat, x: nat)
    requires Arrived(s) && id in s.engine.landed && Landed(s.engine, id) && x < s.engine.issued[id].size
    ensures Equal(s, id, x)
  {
  }

  /** The blocks of any transfer are consecutive. */
  lemma IssuedBlocks(e: Engine, key: nat) returns (step: nat, n: nat)
    requires Inv(e, 0) && key < |e.accepted|
    ensures ChunksOf(e.issued, key) == Blocks(key, step, n)
  {
    if Queued(e.jobs, key) {
      var k :| 0 <= k < |e.jobs| && e.jobs[k].key == key;
      var j := e.jobs[k];
      assert JobOk(e, j);
      hide Inv, ChunksOf, Blocks;
      n :| Issued(e, j, n);
      step := Step(j);
    } else {
      var j := e.accepted[key];
      assert Complete(e, key) && j.key == key;
      hide Inv, ChunksOf, Blocks;
      n :| Issued(e, j, n);
      step := Step(j);
    }
  }

  /** No byte of a transfer is in two blocks. */
  lemma BlocksApart(e: Engine, a: nat, b: nat, x: nat)
    requires Inv(e, 0) && a < |e.issued| && b < |e.issued| && a != b && e.issued[a].key == e.issued[b].key < |e.accepted|
    requires Covers(e.issued[b], x)
    ensures !Covers(e.issued[a], x)
  {
    hide Inv, ChunksOf, Blocks;
    var key := e.issued[a].key;
    var step, n := IssuedBlocks(e, key);
    IssuedHits(e.issued, key, x);
    BlocksHit(key, step, n, x);
    assert |{a, b}| == 2;
    if Covers(e.issued[a], x) {
      Subset({a, b}, IssuedFor(e.issued, key, x));
      assert false;
    }
  }

  lemma {:induction false} Subset(a: set<nat>, b: set<nat>)
    requires a <= b
    ensures |a| <= |b|
  {
    if a != {} {
      var x :| x in a;
      Subset(a - {x}, b - {x});
    }
  }

  /** A response of the same transfer either writes the byte or, being for another block, leaves it. */
  lemma OwnStore(s: System, v: Event, s': System, id: nat, x: nat)
    requires Inv(s.engine, 0) && Moves(s, v, s') && Stores(s.engine, v) && Landed(s.engine, id) && x < s.engine.issued[id].size
    requires s.engine.issued[v.id].key == s.engine.issued[id].key && (v.id == id || (id in s.engine.landed && Equal(s, id, x)))
    ensures var c := s.engine.issued[id];
      var j := s.engine.accepted[c.key];
      && id in s'.brought && |s'.brought[id]| == c.size
      && At(s'.memory, j.sim + (c.begin + x)) == s'.brought[id][x]
  {
    hide Next, Queued, Inv, Sends;
    if v.id != id { BlocksApart(s.engine, v.id, id, s.engine.issued[id].begin + x); }
  }

  /** A landed block was issued before. */
  lemma KnownBlock(e: Engine, v: Event, id: nat)
    requires Inv(e, 0) && (id in e.landed || (v.Response? && v.id == id && id in e.owner))
    ensures id < |e.issued| && e.issued[id].key < |e.accepted|
  {
  }

  lemma BlockInside(e: Engine, id: nat)
    requires Inv(e, 0) && InboundAligned(e) && Landed(e, id)
    ensures e.issued[id].begin + e.issued[id].size <= e.accepted[e.issued[id].key].size
  {
    var k :| 0 <= k < |e.jobs| && e.jobs[k].key == e.issued[id].key;
    assert JobOk(e, e.jobs[k]);
    ChunkInside(e, k, id);
  }

  // ---- Whole runs

  lemma {:induction false} HistoryKeeps(ss: seq<System>, vs: seq<Event>)
    requires History(ss, vs) && InboundAligned(ss[|vs|].engine)
    ensures Inv(ss[|vs|].engine, 0) && Arrived(ss[|vs|])
  {
    hide Moves, Arrived, Inv, Aligned;
    if vs == [] {
      StartInv();
      NothingArrived(ss[0]);
    } else {
      var n := |vs| - 1;
      HistoryPrefix(ss, vs, n);
      EarlierAligned(ss, vs, n);
      HistoryKeeps(ss[..n + 1], vs[..n]);
      assert Moves(ss[n], vs[n], ss[n + 1]);
      MoveKeeps(ss[n], vs[n], ss[n + 1]);
    }
  }

  lemma NothingArrived(s: System)
    requires s.engine == INITIAL
    ensures Arrived(s)
  {
  }

  lemma HistoryPrefix(ss: seq<System>, vs: seq<Event>, n: nat)
    requires History(ss, vs) && n <= |vs|
    ensures History(ss[..n + 1], vs[..n])
  {
    hide Moves;
  }

  lemma {:induction false} EarlierAligned(ss: seq<System>, vs: seq<Event>, n: nat)
    requires History(ss, vs) && n <= |vs| && InboundAligned(ss[|vs|].engine)
    ensures InboundAligned(ss[n].engine) && ss[n].engine.accepted <= ss[|vs|].engine.accepted
    decreases |vs| - n
  {
    if n < |vs| {
      EarlierAligned(ss, vs, n + 1);
      assert Moves(ss[n], vs[n], ss[n + 1]);
      AcceptedGrows(ss[n].engine, vs[n]);
    }
  }

  /** When a transfer into the simulator's memory is done, which is before it is answered, each byte of
      its range holds what the one response that carried the byte has brought. */
  lemma DoneDelivers(ss: seq<System>, vs: seq<Event>, k: nat, x: nat) returns (id: nat)
    requires History(ss, vs) && InboundAligned(ss[|vs|].engine)
    requires var e := ss[|vs|].engine; k < |e.jobs| && e.jobs[k].status.Done? && e.jobs[k].dir.SstToSim? && x < e.jobs[k].size
    ensures var s := ss[|vs|];
      var j := s.engine.jobs[k];
      && id < |s.engine.issued| && Carriers(s.engine, j.key, x) == {id} && id in s.brought
      && s.engine.issued[id].begin <= x < s.engine.issued[id].begin + |s.brought[id]|
      && At(s.memory, j.sim + x) == s.brought[id][x - s.engine.issued[id].begin]
  {
    HistoryKeeps(ss, vs);
    var s := ss[|vs|];
    var e, j := s.engine, s.engine.jobs[k];
    hide History;
    assert Aligned(j) by { assert JobOk(e, j); }
    id := Carrier(e, k, x);
    assert Landed(e, id);
    assert Equal(s, id, x - e.issued[id].begin);
  }

  /** In particular, a transfer whose responses bring what the SST side holds copies it. */
  lemma DoneCopies(remote: nat -> Byte, ss: seq<System>, vs: seq<Event>, k: nat, x: nat)
    requires History(ss, vs) && InboundAligned(ss[|vs|].engine)
    requires var e := ss[|vs|].engine; k < |e.jobs| && e.jobs[k].status.Done? && e.jobs[k].dir.SstToSim? && x < e.jobs[k].size
    requires var s := ss[|vs|];
      forall id, y: nat | id in s.brought && id < |s.engine.issued| && s.engine.issued[id].key == s.engine.jobs[k].key && y < |s.brought[id]| ::
        s.brought[id][y] == remote(s.engine.jobs[k].sst + (s.engine.issued[id].begin + y))
    ensures var s := ss[|vs|]; var j := s.engine.jobs[k]; At(s.memory, j.sim + x) == remote(j.sst + x)
  {
    var id := DoneDelivers(ss, vs, k, x);
    hide History;
    var s := ss[|vs|];
    assert id in Carriers(s.engine, s.engine.jobs[k].key, x);
    var y := x - s.engine.issued[id].begin;
    assert s.brought[id][y] == remote(s.engine.jobs[k].sst + (s.engine.issued[id].begin + y));
  }

  /** Each byte of a finished transfer has landed with some block. */
  lemma Carrier(e: Engine, k: nat, x: nat) returns (id: nat)
    requires Inv(e, 0) && k < |e.jobs| && e.jobs[k].status.Done? && Aligned(e.jobs[k]) && x < e.jobs[k].size
    ensures id in e.landed && id < |e.issued| && e.issued[id].key == e.jobs[k].key < |e.accepted| && Covers(e.issued[id], x)
    ensures SameTransfer(e.jobs[k], e.accepted[e.jobs[k].key]) && Queued(e.jobs, e.jobs[k].key)
    ensures Carriers(e, e.jobs[k].key, x) == {id}
  {
    var j := e.jobs[k];
    assert JobOk(e, j) && Tracked(e);
    hide Inv, ChunksOf, Blocks;
    var n: nat :| Issued(e, j, n) && Enough(j, n);
    EnoughExact(j, n);
    IssuedHits(e.issued, j.key, x);
    BlocksHit(j.key, Step(j), n, x);
    id := OneElement(IssuedFor(e.issued, j.key, x));
    assert id in IssuedFor(e.issued, j.key, x);
    assert id !in Ids(e.owner, j.key);
    assert Carriers(e, j.key, x) <= IssuedFor(e.issued, j.key, x);
  }

  /** While a transfer out of the simulator's memory is queued, the bytes that it reads stay what
      they were at any earlier moment since it was accepted. */
  lemma {:induction false} SourceKept(ss: seq<System>, vs: seq<Event>, i: nat, key: nat, x: nat)
    requires History(ss, vs) && InboundAligned(ss[|vs|].engine) && i <= |vs|
    requires key < |ss[i].engine.accepted| && Queued(ss[|vs|].engine.jobs, key)
    requires var j := ss[i].engine.accepted[key]; j.dir.SimToSst? && x < j.size
    ensures var a := ss[i].engine.accepted[key].sim + x; At(ss[|vs|].memory, a) == At(ss[i].memory, a)
    decreases |vs|
  {
    hide Moves, Arrived, Inv, Aligned, Queued;
    if i < |vs| {
      var n := |vs| - 1;
      HistoryPrefix(ss, vs, n);
      EarlierAligned(ss, vs, n);
      HistoryKeeps(ss[..n + 1], vs[..n]);
      Grows(ss[..n + 1], vs[..n], i);
      assert Moves(ss[n], vs[n], ss[n + 1]);
      MoveQueue(ss[n], vs[n], ss[n + 1], key);
      SourceKept(ss[..n + 1], vs[..n], i, key, x);
      OnlyOwn(ss[n], vs[n], ss[n + 1], key, x);
    }
  }

  lemma {:induction false} Grows(ss: seq<System>, vs: seq<Event>, i: nat)
    requires History(ss, vs) && i <= |vs|
    ensures ss[i].engine.accepted <= ss[|vs|].engine.accepted
    decreases |vs| - i
  {
    if i < |vs| {
      assert Moves(ss[i], vs[i], ss[i + 1]);
      AcceptedGrows(ss[i].engine, vs[i]);
      Grows(ss, vs, i + 1);
    }
  }

  lemma MoveQueue(s: System, v: Event, s': System, key: nat)
    requires Inv(s.engine, 0) && Moves(s, v, s') && key < |s.engine.accepted| && Queued(s'.engine.jobs, key)
    ensures Queued(s.engine.jobs, key)
  {
    EventKeeps(s.engine, v);
  }

  // ---- What has been sent

  /** The blocks that a clock edge issues belong to queued transfers. */
  lemma {:induction false} VisitsIssue(e: Engine, i: nat, id: nat)
    requires i <= |e.jobs| && |e.issued| <= id < |VisitFrom(e, i).issued|
    ensures Queued(e.jobs, VisitFrom(e, i).issued[id].key)
    decreases |e.jobs| - i
  {
    var e1 := Visit(e, i);
    VisitsKeep(e1, i + 1);
    if id < |e1.issued| {
      assert e1.issued[id].key == e.jobs[i].key;
    } else {
      VisitsIssue(e1, i + 1, id);
      var key := VisitFrom(e, i).issued[id].key;
      var k :| 0 <= k < |e1.jobs| && e1.jobs[k].key == key;
      assert e.jobs[k].key == key;
    }
  }

  lemma NewBlock(e: Engine, v: Event, id: nat)
    requires Inv(e, 0) && Next(e, v).Some? && |e.issued| <= id < |Next(e, v).value.issued|
    ensures v.Clock? && Queued(e.jobs, Next(e, v).value.issued[id].key) && Next(e, v).value.accepted == e.accepted
  {
    hide Inv;
    match v {
      case Clock =>
        VisitsKeep(e, 0);
        VisitsIssue(e, 0, id);
      case Request(_, _, _, _, _, _) => assert false;
      case Response(_) =>
        ResponseQueue(e, v.id);
        assert false;
    }
  }

  /** Every block sent out of the simulator's memory carries the bytes that its part of the range
      held when the transfer was accepted. */
  lemma {:induction false} SentOriginal(ss: seq<System>, vs: seq<Event>, i: nat, id: nat, x: nat)
    requires History(ss, vs) && InboundAligned(ss[|vs|].engine) && i < |vs| && vs[i].Request?
    requires var e := ss[|vs|].engine;
      && id < |e.issued| && x < e.issued[id].size && e.issued[id].key == |ss[i].engine.accepted| < |e.accepted|
      && e.accepted[e.issued[id].key].dir.SimToSst? && e.issued[id].begin + x < e.accepted[e.issued[id].key].size
    ensures var s := ss[|vs|];
      var c := s.engine.issued[id];
      var j := s.engine.accepted[c.key];
      && id < |s.outbox| && Describes(s.engine.accepted, c, id, s.outbox[id])
      && s.outbox[id].data[x] == At(ss[i].memory, j.sim + (c.begin + x))
    decreases |vs|
  {
    hide Moves, Arrived, Inv, Aligned, Queued, Stored, Slice;
    var n := |vs| - 1;
    var s, s' := ss[n], ss[n + 1];
    HistoryPrefix(ss, vs, n);
    EarlierAligned(ss, vs, n);
    HistoryKeeps(ss[..n + 1], vs[..n]);
    assert Moves(s, vs[n], s');
    SentStep(s, vs[n], s', id);
    if id < |s.engine.issued| {
      assert i < n;
      SentOriginal(ss[..n + 1], vs[..n], i, id, x);
    } else {
      SentNow(ss, vs, i, id, x);
    }
  }

  /** The two ways a block can be in the outbox after an event. */
  lemma SentStep(s: System, v: Event, s': System, id: nat)
    requires Inv(s.engine, 0) && Moves(s, v, s') && id < |s'.engine.issued|
    ensures s.engine.issued <= s'.engine.issued && s.engine.accepted <= s'.engine.accepted && id < |s'.outbox| && s.outbox <= s'.outbox
    ensures s'.engine.issued[id].key < |s'.engine.accepted| && Describes(s'.engine.accepted, s'.engine.issued[id], id, s'.outbox[id])
    ensures id < |s.engine.issued| ==> s.engine.issued[id].key < |s.engine.accepted|
    ensures id >= |s.engine.issued| ==> Queued(s.engine.jobs, s'.engine.issued[id].key) && v.Clock? && s'.engine.accepted == s.engine.accepted
  {
    EventKeeps(s.engine, v);
    hide Next, JobOk, Queued, Stored, CarryFrom;
    assert Tracked(s.engine) && Tracked(s'.engine);
    hide Inv;
    if id >= |s.engine.issued| { NewBlock(s.engine, v, id); }
  }

  lemma OutboxCount(ss: seq<System>, vs: seq<Event>)
    requires History(ss, vs)
    ensures |ss[|vs|].outbox| == |ss[|vs|].engine.issued|
  {
    hide Next, CarryFrom, Stored;
    if vs != [] {
      var n := |vs| - 1;
      assert Moves(ss[n], vs[n], ss[n + 1]);
    }
  }

  lemma RequestAccepts(s: System, v: Event, s': System)
    requires Moves(s, v, s') && v.Request?
    ensures |s'.engine.accepted| == |s.engine.accepted| + 1 && s'.memory == s.memory
  {
    hide Sends;
  }

  /** A block sent by the last clock edge carries what was there from the start. */
  lemma SentNow(ss: seq<System>, vs: seq<Event>, i: nat, id: nat, x: nat)
    requires History(ss, vs) && InboundAligned(ss[|vs|].engine) && i < |vs| && vs[i].Request?
    requires var e := ss[|vs|].engine;
      && |ss[|vs| - 1].engine.issued| <= id < |e.issued| && x < e.issued[id].size
      && e.issued[id].key == |ss[i].engine.accepted| < |e.accepted| && e.accepted[e.issued[id].key].dir.SimToSst?
      && e.issued[id].begin + x < e.accepted[e.issued[id].key].size
    ensures var s := ss[|vs|];
      var c := s.engine.issued[id];
      id < |s.outbox| && s.outbox[id].Write? && x < |s.outbox[id].data|
      && s.outbox[id].data[x] == At(ss[i].memory, s.engine.accepted[c.key].sim + (c.begin + x))
  {
    hide Moves, Arrived, Inv, Aligned, Queued;
    var n := |vs| - 1;
    var s, s' := ss[n], ss[n + 1];
    HistoryPrefix(ss, vs, n);
    EarlierAligned(ss, vs, n);
    HistoryKeeps(ss[..n + 1], vs[..n]);
    OutboxCount(ss[..n + 1], vs[..n]);
    assert Moves(s, vs[n], s');
    SentStep(s, vs[n], s', id);
    var c := s'.engine.issued[id];
    assert i < n;
    assert Moves(ss[i], vs[i], ss[i + 1]);
    RequestAccepts(ss[i], vs[i], ss[i + 1]);
    Grows(ss[..n + 1], vs[..n], i + 1);
    SourceKept(ss[..n + 1], vs[..n], i + 1, c.key, c.begin + x);
    SentBytes(s, vs[n], s', id, x);
  }

  lemma SentBytes(s: System, v: Event, s': System, id: nat, x: nat)
    requires Moves(s, v, s') && |s.outbox| <= id < |s'.engine.issued| && x < s'.engine.issued[id].size
    requires s'.engine.issued[id].key < |s'.engine.accepted| && s'.engine.accepted[s'.engine.issued[id].key].dir.SimToSst?
    ensures var c := s'.engine.issued[id];
      id < |s'.outbox| && s'.outbox[id].Write? && x < |s'.outbox[id].data|
      && s'.outbox[id].data[x] == At(s.memory, s'.engine.accepted[c.key].sim + (c.begin + x))
  {
    hide Next, Stored;
    var c := s'.engine.issued[id];
    assert Describes(s'.engine.accepted, c, id, s'.outbox[id]);
    assert s'.outbox[id].data == Slice(s.memory, s'.engine.accepted[c.key].sim + c.begin, c.size);
  }

  lemma OneElement(a: set<nat>) returns (x: nat)
    requires |a| == 1
    ensures a == {x}
  {
    x :| x in a;
    assert |a - {x}| == 0;
  }

  /** In every run, a finished transfer out of the simulator's memory has written every byte of its
      range exactly once, at its place on the SST side, with the value that the byte had when the
      transfer was accepted. */
  lemma FinishedSent(ss: seq<System>, vs: seq<Event>, i: nat, b: nat) returns (id: nat)
    requires History(ss, vs) && InboundAligned(ss[|vs|].engine) && i < |vs| && vs[i].Request?
    requires var e, key := ss[|vs|].engine, |ss[i].engine.accepted|;
      key < |e.accepted| && !Queued(e.jobs, key) && e.accepted[key].dir.SimToSst? && b < e.accepted[key].size
    ensures var s, key := ss[|vs|], |ss[i].engine.accepted|;
      var j := s.engine.accepted[key];
      && Carriers(s.engine, key, b) == {id} && id < |s.outbox| && s.outbox[id].Write?
      && s.outbox[id].addr <= j.sst + b < s.outbox[id].addr + |s.outbox[id].data|
      && s.outbox[id].data[j.sst + b - s.outbox[id].addr] == At(ss[i].memory, j.sim + b)
  {
    var e, key := ss[|vs|].engine, |ss[i].engine.accepted|;
    HistoryKeeps(ss, vs);
    assert Complete(e, key) && Tracked(e) && e.accepted[key].key == key;
    hide Inv, History, Complete;
    var n := CarriedOnce(e, key, b);
    assert b < n * Step(e.accepted[key]);
    id := OneElement(Carriers(e, key, b));
    assert id in Carriers(e, key, b);
    SentOriginal(ss, vs, i, id, b - e.issued[id].begin);
  }
}
