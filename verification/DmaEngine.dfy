/** The balar DMA engine on values: transfers are cut into memory requests whose responses may
    arrive in any order, for any set of concurrently accepted transfers. */
module DmaEngine {
  import opened Arith
  import opened Dram

  datatype Direction = SimToSst | SstToSim

  datatype Status = Busy | Waiting | Done

  /** A transfer in the queue; `key` is its identity. */
  datatype Job = Job(key: nat, dir: Direction, sim: nat, sst: nat, size: nat, transfer: nat, posted: bool,
                     offset: nat, ongoing: int, status: Status)

  /** A memory request: `begin` is its offset within the transfer. */
  datatype Chunk = Chunk(key: nat, begin: nat, size: nat)

  /** `owner` maps the identifiers of outstanding memory requests to their transfers. The logs
      hold the transfers `accepted` (by key), the memory requests `issued` (by identifier), the
      identifiers that have `landed`, and the keys of the transfers `answered`. */
  datatype Engine = Engine(
    jobs: seq<Job>, owner: map<nat, nat>,
    accepted: seq<Job>, issued: seq<Chunk>, landed: seq<nat>, answered: seq<nat>)

  const INITIAL := Engine([], map[], [], [], [], [])

  /** Bytes per memory request. */
  function Step(j: Job): nat { if j.size < j.transfer then j.size else j.transfer }

  // ---- The operations

  function RangesOverlap(start1: nat, end1: nat, start2: nat, end2: nat): bool { start1 <= end2 && end1 >= start2 }

  predicate Overlap(a: Job, b: Job) {
    || RangesOverlap(a.sst, a.sst + a.size, b.sst, b.sst + b.size)
    || RangesOverlap(a.sim, a.sim + a.size, b.sim, b.sim + b.size)
  }

  /** A write to the control registers. A transfer size of zero is a division by zero, an
      overlap with a queued transfer a fatal error. */
  function Accept(e: Engine, dir: Direction, sim: nat, sst: nat, size: nat, transfer: nat, posted: bool): Option<Engine> {
    var j := Job(|e.accepted|, dir, sim, sst, size, transfer, posted, 0, 0, Busy);
    if transfer == 0 || exists i | 0 <= i < |e.jobs| :: Overlap(j, e.jobs[i]) then None
    else Some(e.(jobs := e.jobs + [j], accepted := e.accepted + [j]))
  }

  /** The next memory request of a busy transfer. */
  function Issue(e: Engine, i: nat): Engine
    requires i < |e.jobs|
  {
    var j, a := e.jobs[i], Step(e.jobs[i]);
    var j' := j.(offset := j.offset + a, ongoing := j.ongoing + 1, status := if j.offset + a >= j.size then Waiting else j.status);
    e.(jobs := e.jobs[i := j'], owner := e.owner[|e.issued| := j.key], issued := e.issued + [Chunk(j.key, j.offset, a)])
  }

  /** What a clock edge does with one queued transfer. */
  function Visit(e: Engine, i: nat): Engine
    requires i < |e.jobs|
  {
    match e.jobs[i].status
    case Busy => Issue(e, i)
    case Waiting => e
    case Done => if e.jobs[i].posted then e else e.(answered := e.answered + [e.jobs[i].key])
  }

  function VisitFrom(e: Engine, i: nat): Engine
    requires i <= |e.jobs|
    decreases |e.jobs| - i
  {
    if i == |e.jobs| then e else VisitFrom(Visit(e, i), i + 1)
  }

  function Live(jobs: seq<Job>): seq<Job> {
    if jobs == [] then []
    else Live(jobs[..|jobs| - 1]) + if jobs[|jobs| - 1].status.Done? then [] else [jobs[|jobs| - 1]]
  }

  function Tick(e: Engine): Engine {
    var e1 := VisitFrom(e, 0);
    e1.(jobs := Live(e1.jobs))
  }

  function IndexOf(jobs: seq<Job>, key: nat): Option<nat> {
    if jobs == [] then None
    else if jobs[|jobs| - 1].key == key then Some(|jobs| - 1)
    else IndexOf(jobs[..|jobs| - 1], key)
  }

  /** A response to a memory request; an unknown identifier is fatal. */
  function Respond(e: Engine, id: nat): Option<Engine> {
    if id !in e.owner then None
    else
      var at := IndexOf(e.jobs, e.owner[id]);
      if at.None? || at.value >= |e.jobs| then None
      else
        var j := e.jobs[at.value];
        var left := j.ongoing - 1;
        var j' := j.(ongoing := left, status := if j.status.Waiting? && left == 0 then Done else j.status);
        Some(e.(jobs := e.jobs[at.value := j'], owner := e.owner - {id}, landed := e.landed + [id]))
  }

  datatype Event = Clock | Request(dir: Direction, sim: nat, sst: nat, size: nat, transfer: nat, posted: bool) | Response(id: nat)

  function Next(e: Engine, v: Event): Option<Engine> {
    match v
    case Clock => Some(Tick(e))
    case Request(dir, sim, sst, size, transfer, posted) => Accept(e, dir, sim, sst, size, transfer, posted)
    case Response(id) => Respond(e, id)
  }

  /** The engine after a run, unless the run ends in a fatal error. */
  function Run(events: seq<Event>): Option<Engine> {
    if events == [] then Some(INITIAL)
    else
      var before := Run(events[..|events| - 1]);
      if before.None? then None else Next(before.value, events[|events| - 1])
  }

  // ---- What a run keeps

  /** The identifiers outstanding for a transfer. */
  function Ids(owner: map<nat, nat>, key: nat): set<nat> { set id | id in owner && owner[id] == key }

  function ChunksOf(log: seq<Chunk>, key: nat): seq<Chunk> {
    if log == [] then []
    else ChunksOf(log[..|log| - 1], key) + if log[|log| - 1].key == key then [log[|log| - 1]] else []
  }

  /** The first `n` memory requests of a transfer: consecutive blocks from offset 0. */
  function Blocks(key: nat, step: nat, n: nat): seq<Chunk> { seq(n, i requires 0 <= i => Chunk(key, i * step, step)) }

  /** The memory requests of a transfer are its first `n` blocks. */
  ghost predicate Issued(e: Engine, j: Job, n: nat) { ChunksOf(e.issued, j.key) == Blocks(j.key, Step(j), n) }

  /** The blocks issued reach the end of the transfer, the last one being needed. */
  predicate Enough(j: Job, n: nat) { n >= 1 && n * Step(j) >= j.size && (n == 1 || (n - 1) * Step(j) < j.size) }

  ghost predicate JobOk(e: Engine, j: Job) {
    && j.key < |e.accepted| && j.transfer >= 1
    && j.(offset := 0, ongoing := 0, status := Busy) == e.accepted[j.key]
    && (exists n: nat :: Issued(e, j, n) && j.offset == n * Step(j)
          && (if j.status.Busy? then n == 0 || j.offset < j.size else Enough(j, n)))
    && j.ongoing == |Ids(e.owner, j.key)|
    && (j.status.Waiting? ==> j.ongoing > 0) && (j.status.Done? ==> j.ongoing == 0)
  }

  /** A transfer that has left the queue: all of its blocks were issued and have landed. */
  ghost predicate Complete(e: Engine, key: nat)
    requires key < |e.accepted|
  {
    && (exists n: nat :: Issued(e, e.accepted[key], n) && Enough(e.accepted[key], n))
    && Ids(e.owner, key) == {}
  }

  predicate Queued(jobs: seq<Job>, key: nat) { exists i | 0 <= i < |jobs| :: jobs[i].key == key }

  /** A clock edge that has reached position `i` has dealt with this transfer for good. */
  predicate Retired(jobs: seq<Job>, i: nat, key: nat) {
    forall k | 0 <= k < |jobs| && jobs[k].key == key :: k < i && jobs[k].status.Done?
  }

  function Times(log: seq<nat>, key: nat): nat {
    if log == [] then 0 else Times(log[..|log| - 1], key) + if log[|log| - 1] == key then 1 else 0
  }

  ghost predicate Keyed(jobs: seq<Job>) {
    forall i, k | 0 <= i < k < |jobs| :: jobs[i].key != jobs[k].key && !Overlap(jobs[i], jobs[k]) && !Overlap(jobs[k], jobs[i])
  }

  /** Outstanding identifiers are those issued and not landed; none has landed twice. */
  ghost predicate Tracked(e: Engine) {
    && (forall id: nat :: id in e.owner <==> id < |e.issued| && id !in e.landed)
    && (forall id | id in e.owner :: e.owner[id] == e.issued[id].key)
    && (forall id | 0 <= id < |e.issued| :: e.issued[id].key < |e.accepted|)
    && (forall k | 0 <= k < |e.landed| :: e.landed[k] < |e.issued|)
    && (forall k, m | 0 <= k < m < |e.landed| :: e.landed[k] != e.landed[m])
  }

  /** The invariant while a clock edge has visited the first `i` transfers; 0 between events. */
  ghost predicate Inv(e: Engine, i: nat) {
    && Keyed(e.jobs) && Tracked(e)
    && (forall k | 0 <= k < |e.jobs| :: JobOk(e, e.jobs[k]))
    && (forall key | 0 <= key < |e.accepted| && !Queued(e.jobs, key) :: Complete(e, key))
    && (forall key: nat ::
          Times(e.answered, key) == if key < |e.accepted| && Retired(e.jobs, i, key) && !e.accepted[key].posted then 1 else 0)
    && (forall key | 0 <= key < |e.accepted| :: e.accepted[key].key == key)
  }

  // ---- Small steps

  lemma ChunksSnoc(log: seq<Chunk>, c: Chunk, key: nat)
    ensures ChunksOf(log + [c], key) == ChunksOf(log, key) + if c.key == key then [c] else []
  {
    assert (log + [c])[..|log|] == log;
  }

  lemma {:induction false} ChunksNone(log: seq<Chunk>, key: nat)
    requires forall i | 0 <= i < |log| :: log[i].key != key
    ensures ChunksOf(log, key) == []
  {
    if log != [] { ChunksNone(log[..|log| - 1], key); }
  }

  lemma TimesSnoc(log: seq<nat>, k: nat, key: nat)
    ensures Times(log + [k], key) == Times(log, key) + if k == key then 1 else 0
  {
    assert (log + [k])[..|log|] == log;
  }

  lemma IdsAdd(owner: map<nat, nat>, id: nat, k: nat, key: nat)
    requires id !in owner
    ensures Ids(owner[id := k], key) == Ids(owner, key) + if k == key then {id} else {}
    ensures |Ids(owner[id := k], key)| == |Ids(owner, key)| + if k == key then 1 else 0
  {
    assert Ids(owner[id := k], key) == Ids(owner, key) + if k == key then {id} else {};
  }

  lemma IdsRemove(owner: map<nat, nat>, id: nat, key: nat)
    requires id in owner
    ensures Ids(owner - {id}, key) == Ids(owner, key) - {id}
    ensures |Ids(owner - {id}, key)| == |Ids(owner, key)| - if owner[id] == key then 1 else 0
  {
    assert Ids(owner - {id}, key) == Ids(owner, key) - {id};
  }

  lemma BlocksSnoc(key: nat, step: nat, n: nat)
    ensures Blocks(key, step, n + 1) == Blocks(key, step, n) + [Chunk(key, n * step, step)]
  {
  }

  // ---- Accepting

  lemma AcceptInv(e: Engine, dir: Direction, sim: nat, sst: nat, size: nat, transfer: nat, posted: bool)
    requires Inv(e, 0)
    ensures var r := Accept(e, dir, sim, sst, size, transfer, posted); r.Some? ==> Inv(r.value, 0)
  {
    var r := Accept(e, dir, sim, sst, size, transfer, posted);
    hide ChunksOf, Times, Overlap, Enough, JobOk, Complete;
    if r.Some? {
      var e', key := r.value, |e.accepted|;
      var j := e'.jobs[|e.jobs|];
      NewJob(e, e', j);
      AcceptOthers(e, e', j);
      forall k | 0 <= k < |e.jobs|
        ensures !Overlap(j, e.jobs[k]) && !Overlap(e.jobs[k], j)
      {
        OverlapSymmetric(j, e.jobs[k]);
      }
      hide Ids;
      forall k: nat
        ensures Times(e'.answered, k) == if k < |e'.accepted| && Retired(e'.jobs, 0, k) && !e'.accepted[k].posted then 1 else 0
      {
        if k == key {
          assert e'.jobs[|e.jobs|].key == k;
        } else {
          RetiredMore(e.jobs, j, k);
        }
      }
    }
  }

  lemma OverlapSymmetric(a: Job, b: Job)
    ensures Overlap(a, b) == Overlap(b, a)
  {
  }

  lemma NewJob(e: Engine, e': Engine, j: Job)
    requires Tracked(e) && e' == e.(jobs := e.jobs + [j], accepted := e.accepted + [j]) && j.transfer >= 1
    requires j.key == |e.accepted| && j.offset == 0 && j.ongoing == 0 && j.status.Busy?
    ensures JobOk(e', j)
  {
    ChunksNone(e.issued, j.key);
    assert Ids(e.owner, j.key) == {};
    assert Issued(e', j, 0);
  }

  lemma RetiredMore(jobs: seq<Job>, j: Job, key: nat)
    requires j.key != key
    ensures Retired(jobs + [j], 0, key) == Retired(jobs, 0, key) && Queued(jobs + [j], key) == Queued(jobs, key)
  {
    assert forall k | 0 <= k < |jobs| :: (jobs + [j])[k] == jobs[k];
    if Queued(jobs, key) {
      var k :| 0 <= k < |jobs| && jobs[k].key == key;
      assert (jobs + [j])[k].key == key;
    }
  }

  lemma AcceptOthers(e: Engine, e': Engine, j: Job)
    requires Inv(e, 0) && j.key == |e.accepted|
    requires e' == e.(jobs := e.jobs + [j], accepted := e.accepted + [j])
    ensures forall k | 0 <= k < |e.jobs| :: JobOk(e', e.jobs[k]) && e.jobs[k].key != j.key
    ensures forall key | 0 <= key < |e'.accepted| && !Queued(e'.jobs, key) :: Complete(e', key)
  {
    hide ChunksOf, Ids, Times, Overlap, Enough, Step;
    forall k | 0 <= k < |e.jobs|
      ensures JobOk(e', e.jobs[k]) && e.jobs[k].key != j.key
    {
      JobKept(e, e', e.jobs[k]);
    }
    forall key | 0 <= key < |e'.accepted| && !Queued(e'.jobs, key)
      ensures Complete(e', key)
    {
      assert e'.jobs[|e.jobs|].key == j.key;
      RetiredMore(e.jobs, j, key);
      CompleteKept(e, e', key);
    }
  }

  /** A transfer whose own logs do not change keeps its invariant. */
  lemma JobKept(e: Engine, e': Engine, j: Job)
    requires JobOk(e, j) && e.accepted <= e'.accepted
    requires ChunksOf(e'.issued, j.key) == ChunksOf(e.issued, j.key) && Ids(e'.owner, j.key) == Ids(e.owner, j.key)
    ensures JobOk(e', j)
  {
    hide ChunksOf, Ids, Enough, Step;
    var n: nat :| Issued(e, j, n) && j.offset == n * Step(j)
        && (if j.status.Busy? then n == 0 || j.offset < j.size else Enough(j, n));
    assert Issued(e', j, n);
  }

  lemma CompleteKept(e: Engine, e': Engine, key: nat)
    requires key < |e.accepted| && Complete(e, key) && e.accepted <= e'.accepted && e.accepted[key].key == key
    requires ChunksOf(e'.issued, key) == ChunksOf(e.issued, key) && Ids(e'.owner, key) == Ids(e.owner, key)
    ensures Complete(e', key)
  {
    hide ChunksOf, Ids, Enough, Step;
    var n: nat :| Issued(e, e.accepted[key], n) && Enough(e.accepted[key], n);
    assert Issued(e', e'.accepted[key], n);
  }

  // ---- A clock edge

  /** The job whose request was just issued. */
  lemma IssuedJob(e: Engine, i: nat)
    requires i < |e.jobs| && JobOk(e, e.jobs[i]) && e.jobs[i].status.Busy? && |e.issued| !in e.owner
    ensures JobOk(Issue(e, i), Issue(e, i).jobs[i])
  {
    var j, e' := e.jobs[i], Issue(e, i);
    var j', a := e'.jobs[i], Step(e.jobs[i]);
    var n: nat :| Issued(e, j, n) && j.offset == n * a && (n == 0 || j.offset < j.size);
    ChunksSnoc(e.issued, Chunk(j.key, j.offset, a), j.key);
    BlocksSnoc(j.key, a, n);
    IdsAdd(e.owner, |e.issued|, j.key, j.key);
    hide ChunksOf, Blocks, Ids;
    Distribute(n, 1, a);
    assert Issued(e', j', n + 1) && j'.offset == (n + 1) * Step(j');
    assert Step(j') == a && j'.offset == j.offset + a;
    if !j'.status.Busy? {
      assert (n + 1 == 1 || (n + 1 - 1) * a < j'.size);
      assert Enough(j', n + 1);
    }
  }

  lemma UnusedId(e: Engine)
    requires Tracked(e)
    ensures |e.issued| !in e.owner
  {
  }

  lemma JobKey(e: Engine, j: Job)
    requires JobOk(e, j)
    ensures j.key < |e.accepted|
  {
  }

  lemma IssueTracked(e: Engine, i: nat)
    requires i < |e.jobs| && Tracked(e) && e.jobs[i].key < |e.accepted|
    ensures Tracked(Issue(e, i))
  {
    hide Step;
  }

  lemma IssueInv(e: Engine, i: nat)
    requires i < |e.jobs| && Inv(e, i) && e.jobs[i].status.Busy?
    ensures Inv(Issue(e, i), i)
  {
    hide ChunksOf, Ids, Enough, Step, Times, Tracked, JobOk, Complete, Overlap;
    var j, e' := e.jobs[i], Issue(e, i);
    var c := Chunk(j.key, j.offset, Step(j));
    UnusedId(e);
    JobKey(e, j);
    IssuedJob(e, i);
    IssueTracked(e, i);
    forall key | key != j.key
      ensures ChunksOf(e'.issued, key) == ChunksOf(e.issued, key) && Ids(e'.owner, key) == Ids(e.owner, key)
    {
      ChunksSnoc(e.issued, c, key);
      IdsAdd(e.owner, |e.issued|, j.key, key);
    }
    forall k | 0 <= k < |e'.jobs|
      ensures JobOk(e', e'.jobs[k])
    {
      if k != i { JobKept(e, e', e.jobs[k]); }
    }
    SameKeys(e.jobs, e'.jobs, i);
    forall key | 0 <= key < |e'.accepted| && !Queued(e'.jobs, key)
      ensures Complete(e', key)
    {
      assert e.jobs[i].key == j.key;
      CompleteKept(e, e', key);
    }
    IssueKeyed(e.jobs, e'.jobs, i);
  }

  lemma SameKeys(jobs: seq<Job>, jobs': seq<Job>, i: nat)
    requires i < |jobs| == |jobs'| && jobs' == jobs[i := jobs'[i]] && jobs'[i].key == jobs[i].key
    ensures forall key: nat :: Queued(jobs', key) == Queued(jobs, key)
    ensures jobs[i].status.Done? == jobs'[i].status.Done? ==> forall p: nat, key: nat :: Retired(jobs', p, key) == Retired(jobs, p, key)
  {
    forall key: nat
      ensures Queued(jobs', key) == Queued(jobs, key)
    {
      if Queued(jobs, key) {
        var k :| 0 <= k < |jobs| && jobs[k].key == key;
        assert jobs'[k].key == key;
      }
      if Queued(jobs', key) {
        var k :| 0 <= k < |jobs'| && jobs'[k].key == key;
        assert jobs[k].key == key;
      }
    }
    if jobs[i].status.Done? == jobs'[i].status.Done? {
      forall p: nat, key: nat
        ensures Retired(jobs', p, key) == Retired(jobs, p, key)
      {
        assert forall k | 0 <= k < |jobs| :: jobs'[k].key == jobs[k].key && jobs'[k].status.Done? == jobs[k].status.Done?;
      }
    }
  }

  lemma IssueKeyed(jobs: seq<Job>, jobs': seq<Job>, i: nat)
    requires i < |jobs| == |jobs'| && jobs' == jobs[i := jobs'[i]] && Keyed(jobs)
    requires jobs'[i] == jobs[i].(offset := jobs'[i].offset, ongoing := jobs'[i].ongoing, status := jobs'[i].status)
    ensures Keyed(jobs')
  {
    forall k, m | 0 <= k < m < |jobs'|
      ensures jobs'[k].key != jobs'[m].key && !Overlap(jobs'[k], jobs'[m]) && !Overlap(jobs'[m], jobs'[k])
    {
      assert jobs[k].key != jobs[m].key && !Overlap(jobs[k], jobs[m]) && !Overlap(jobs[m], jobs[k]);
    }
  }

  /** Position `i` is passed: only a finished transfer changes its standing. */
  lemma RetiredNext(jobs: seq<Job>, i: nat, key: nat)
    requires i < |jobs| && Keyed(jobs)
    ensures Retired(jobs, i + 1, key) <==> Retired(jobs, i, key) || (jobs[i].key == key && jobs[i].status.Done?)
    ensures jobs[i].key == key ==> !Retired(jobs, i, key)
  {
    hide Overlap;
    if jobs[i].key == key && jobs[i].status.Done? {
      assert forall k | 0 <= k < |jobs| && jobs[k].key == key :: k == i;
    }
  }

  lemma VisitInv(e: Engine, i: nat)
    requires i < |e.jobs| && Inv(e, i)
    ensures Inv(Visit(e, i), i + 1) && |Visit(e, i).jobs| == |e.jobs|
  {
    var e', j := Visit(e, i), e.jobs[i];
    if j.status.Busy? { IssueInv(e, i); }
    assert JobOk(e, j);
    hide Issue, ChunksOf, Ids, Enough, Step, Overlap;
    var e1 := if j.status.Busy? then e' else e;
    assert |e1.jobs| == |e.jobs| && e1.jobs[i].key == j.key && (e1.jobs[i].status.Done? ==> e1 == e) by { IssueEffect(e, i); }
    forall key: nat
      ensures Times(e'.answered, key) == if key < |e'.accepted| && Retired(e'.jobs, i + 1, key) && !e'.accepted[key].posted then 1 else 0
    {
      RetiredNext(e1.jobs, i, key);
      TimesSnoc(e.answered, j.key, key);
    }
    hide JobOk, Complete, Tracked, Keyed, Times;
    AnswerKeeps(e1, e');
  }

  lemma IssueEffect(e: Engine, i: nat)
    requires i < |e.jobs|
    ensures var e' := Issue(e, i); |e'.jobs| == |e.jobs| && e'.jobs[i].key == e.jobs[i].key
    ensures e.jobs[i].status.Busy? ==> !Issue(e, i).jobs[i].status.Done?
  {
  }

  /** Answering changes nothing else. */
  lemma AnswerKeeps(e: Engine, e': Engine)
    requires e' == e.(answered := e'.answered)
    requires Keyed(e.jobs) && Tracked(e)
    requires forall k | 0 <= k < |e.jobs| :: JobOk(e, e.jobs[k])
    requires forall key | 0 <= key < |e.accepted| && !Queued(e.jobs, key) :: Complete(e, key)
    ensures Keyed(e'.jobs) && Tracked(e')
    ensures forall k | 0 <= k < |e'.jobs| :: JobOk(e', e'.jobs[k])
    ensures forall key | 0 <= key < |e'.accepted| && !Queued(e'.jobs, key) :: Complete(e', key)
  {
    hide ChunksOf, Ids, Enough, Step, Overlap;
    forall k | 0 <= k < |e'.jobs|
      ensures JobOk(e', e'.jobs[k])
    {
      JobKept(e, e', e.jobs[k]);
    }
    forall key | 0 <= key < |e'.accepted| && !Queued(e'.jobs, key)
      ensures Complete(e', key)
    {
      assert Complete(e, key);
      var n: nat :| Issued(e, e.accepted[key], n) && Enough(e.accepted[key], n);
      assert Issued(e', e'.accepted[key], n);
    }
  }

  lemma {:induction false} VisitFromInv(e: Engine, i: nat)
    requires i <= |e.jobs| && Inv(e, i)
    ensures var e' := VisitFrom(e, i); |e'.jobs| == |e.jobs| && Inv(e', |e.jobs|)
    decreases |e.jobs| - i
  {
    hide Inv, Visit;
    if i < |e.jobs| {
      VisitInv(e, i);
      VisitFromInv(Visit(e, i), i + 1);
    }
  }

  lemma {:induction false} LiveAre(jobs: seq<Job>)
    ensures forall x | x in Live(jobs) :: x in jobs && !x.status.Done?
    ensures forall x | x in jobs && !x.status.Done? :: x in Live(jobs)
  {
    if jobs != [] {
      var n := |jobs| - 1;
      LiveAre(jobs[..n]);
      assert jobs == jobs[..n] + [jobs[n]];
    }
  }

  lemma {:induction false} LiveKeyed(jobs: seq<Job>)
    requires Keyed(jobs)
    ensures Keyed(Live(jobs))
  {
    hide Overlap;
    if jobs != [] {
      var n := |jobs| - 1;
      LiveKeyed(jobs[..n]);
      LiveAre(jobs[..n]);
      var l := Live(jobs[..n]);
      forall k | 0 <= k < |l|
        ensures l[k].key != jobs[n].key && !Overlap(l[k], jobs[n]) && !Overlap(jobs[n], l[k])
      {
        assert l[k] in jobs[..n];
        var m :| 0 <= m < n && jobs[m] == l[k];
      }
    }
  }

  lemma LiveQueued(jobs: seq<Job>, key: nat)
    ensures !Queued(Live(jobs), key) <==> Retired(jobs, |jobs|, key)
    ensures Retired(Live(jobs), 0, key) <==> !Queued(Live(jobs), key)
  {
    hide Live;
    LiveAre(jobs);
    var l := Live(jobs);
    if Queued(l, key) {
      var k :| 0 <= k < |l| && l[k].key == key;
      assert l[k] in jobs;
      var m :| 0 <= m < |jobs| && jobs[m] == l[k];
    }
    if !Retired(jobs, |jobs|, key) {
      var m :| 0 <= m < |jobs| && jobs[m].key == key && !jobs[m].status.Done?;
      assert jobs[m] in l;
    }
  }

  lemma EraseInv(e: Engine)
    requires Inv(e, |e.jobs|)
    ensures Inv(e.(jobs := Live(e.jobs)), 0)
  {
    hide Live, ChunksOf, Ids, Enough, Step, Overlap, Times, Keyed, JobOk, Complete, Retired, Queued;
    var e' := e.(jobs := Live(e.jobs));
    LiveKeyed(e.jobs);
    EraseJobs(e, e');
    forall key: nat
      ensures Retired(e'.jobs, 0, key) == Retired(e.jobs, |e.jobs|, key)
    {
      LiveQueued(e.jobs, key);
    }
    forall key | 0 <= key < |e'.accepted| && !Queued(e'.jobs, key)
      ensures Complete(e', key)
    {
      LiveQueued(e.jobs, key);
      RetiredComplete(e, key);
      CompleteKept(e, e', key);
    }
  }

  lemma EraseJobs(e: Engine, e': Engine)
    requires e' == e.(jobs := Live(e.jobs)) && forall k | 0 <= k < |e.jobs| :: JobOk(e, e.jobs[k])
    ensures forall k | 0 <= k < |e'.jobs| :: JobOk(e', e'.jobs[k])
  {
    hide Live, ChunksOf, Ids, Enough, Step, JobOk;
    LiveAre(e.jobs);
    forall k | 0 <= k < |e'.jobs|
      ensures JobOk(e', e'.jobs[k])
    {
      assert e'.jobs[k] in e.jobs;
      var m :| 0 <= m < |e.jobs| && e.jobs[m] == e'.jobs[k];
      JobKept(e, e', e.jobs[m]);
    }
  }

  lemma RetiredComplete(e: Engine, key: nat)
    requires Inv(e, |e.jobs|) && key < |e.accepted| && Retired(e.jobs, |e.jobs|, key)
    ensures Complete(e, key)
  {
    hide ChunksOf, Ids, Overlap, Times, Keyed, Tracked, Blocks;
    if Queued(e.jobs, key) {
      var k :| 0 <= k < |e.jobs| && e.jobs[k].key == key;
      var j, a := e.jobs[k], e.accepted[key];
      assert JobOk(e, j) && j.status.Done?;
      var n: nat :| Issued(e, j, n) && j.offset == n * Step(j) && Enough(j, n);
      assert Issued(e, a, n) && Enough(a, n);
    }
  }

  lemma TickInv(e: Engine)
    requires Inv(e, 0)
    ensures Inv(Tick(e), 0)
  {
    hide Inv, VisitFrom, Live;
    VisitFromInv(e, 0);
    EraseInv(VisitFrom(e, 0));
  }

  // ---- Responses

  lemma {:induction false} IndexFinds(jobs: seq<Job>, key: nat)
    ensures var r := IndexOf(jobs, key);
      if Queued(jobs, key) then r.Some? && r.value < |jobs| && jobs[r.value].key == key else r.None?
  {
    if jobs != [] {
      var n := |jobs| - 1;
      IndexFinds(jobs[..n], key);
      if Queued(jobs, key) && jobs[n].key != key {
        var k :| 0 <= k < |jobs| && jobs[k].key == key;
        assert jobs[..n][k].key == key;
      }
    }
  }

  /** The transfer of an outstanding identifier is still queued: a response never meets a
      transfer that is gone. */
  lemma OwnerQueued(e: Engine, id: nat)
    requires Inv(e, 0) && id in e.owner
    ensures Queued(e.jobs, e.owner[id])
  {
    hide JobOk, Times, ChunksOf, Overlap;
    var key := e.owner[id];
    assert key < |e.accepted| && id in Ids(e.owner, key);
    assert !Queued(e.jobs, key) ==> Complete(e, key);
  }

  lemma RespondInv(e: Engine, id: nat)
    requires Inv(e, 0) && id in e.owner
    ensures Respond(e, id).Some? && Inv(Respond(e, id).value, 0)
  {
    hide ChunksOf, Enough, Step, Times, Tracked, JobOk, Complete, IndexOf, Overlap;
    OwnerQueued(e, id);
    IndexFinds(e.jobs, e.owner[id]);
    var i := IndexOf(e.jobs, e.owner[id]).value;
    var e', j := Respond(e, id).value, e.jobs[i];
    RespondedJob(e, id, i);
    RespondTracked(e, id, e');
    hide Respond;
    forall key | key != j.key
      ensures Ids(e'.owner, key) == Ids(e.owner, key)
    {
      IdsRemove(e.owner, id, key);
    }
    hide Ids;
    forall k | 0 <= k < |e'.jobs|
      ensures JobOk(e', e'.jobs[k])
    {
      if k != i { JobKept(e, e', e.jobs[k]); }
    }
    SameKeys(e.jobs, e'.jobs, i);
    RespondRetired(e, e', i);
    forall key | 0 <= key < |e'.accepted| && !Queued(e'.jobs, key)
      ensures Complete(e', key)
    {
      assert e.jobs[i].key == j.key;
      CompleteKept(e, e', key);
    }
    IssueKeyed(e.jobs, e'.jobs, i);
  }

  lemma RespondRetired(e: Engine, e': Engine, i: nat)
    requires i < |e.jobs| == |e'.jobs| && e'.jobs == e.jobs[i := e'.jobs[i]] && e'.jobs[i].key == e.jobs[i].key
    ensures forall key: nat :: Retired(e'.jobs, 0, key) == Retired(e.jobs, 0, key)
  {
    forall key: nat
      ensures Retired(e'.jobs, 0, key) == Retired(e.jobs, 0, key)
    {
      assert forall k | 0 <= k < |e.jobs| :: e'.jobs[k].key == e.jobs[k].key;
    }
  }

  lemma RespondTracked(e: Engine, id: nat, e': Engine)
    requires Tracked(e) && id in e.owner && e'.owner == e.owner - {id} && e'.landed == e.landed + [id]
    requires e'.issued == e.issued && e'.accepted == e.accepted
    ensures Tracked(e')
  {
  }

  lemma RespondedJob(e: Engine, id: nat, i: nat)
    requires i < |e.jobs| && id in e.owner && e.jobs[i].key == e.owner[id] && JobOk(e, e.jobs[i])
    requires IndexOf(e.jobs, e.owner[id]) == Some(i)
    ensures var e' := Respond(e, id).value;
      && |e'.jobs| == |e.jobs| && e'.jobs == e.jobs[i := e'.jobs[i]] && JobOk(e', e'.jobs[i])
      && e'.jobs[i] == e.jobs[i].(ongoing := e'.jobs[i].ongoing, status := e'.jobs[i].status)
      && e'.owner == e.owner - {id} && e'.landed == e.landed + [id] && e'.issued == e.issued
      && e'.accepted == e.accepted && e'.answered == e.answered
  {
    var e', j := Respond(e, id).value, e.jobs[i];
    var j' := e'.jobs[i];
    IdsRemove(e.owner, id, j.key);
    assert id in Ids(e.owner, j.key);
    hide ChunksOf, Ids;
    var n: nat :| Issued(e, j, n) && j.offset == n * Step(j)
        && (if j.status.Busy? then n == 0 || j.offset < j.size else Enough(j, n));
    assert Issued(e', j', n) && Step(j') == Step(j);
    assert !j'.status.Busy? ==> Enough(j', n);
  }

  // ---- Every run

  lemma {:induction false} RunInv(events: seq<Event>)
    ensures Run(events).Some? ==> Inv(Run(events).value, 0)
  {
    if events == [] {
      StartInv();
    } else {
      hide Inv, Tick, Accept, Respond;
      var n := |events| - 1;
      RunInv(events[..n]);
      if Run(events[..n]).Some? {
        var e := Run(events[..n]).value;
        match events[n]
        case Clock => TickInv(e);
        case Request(dir, sim, sst, size, transfer, posted) => AcceptInv(e, dir, sim, sst, size, transfer, posted);
        case Response(id) => RespondSome(e, id);
      }
    }
  }

  lemma RespondSome(e: Engine, id: nat)
    requires Inv(e, 0)
    ensures Respond(e, id).Some? <==> id in e.owner
    ensures Respond(e, id).Some? ==> Inv(Respond(e, id).value, 0)
  {
    if id in e.owner { RespondInv(e, id); }
  }

  lemma StartInv()
    ensures Inv(INITIAL, 0)
  {
  }

  // ---- Bytes

  predicate Covers(c: Chunk, b: nat) { c.begin <= b < c.begin + c.size }

  function Hits(log: seq<Chunk>, b: nat): nat {
    if log == [] then 0 else Hits(log[..|log| - 1], b) + if Covers(log[|log| - 1], b) then 1 else 0
  }

  /** The landed memory requests of a transfer that carried byte `b`. */
  function Carriers(e: Engine, key: nat, b: nat): set<nat> {
    set id | id in e.landed && id < |e.issued| && e.issued[id].key == key && Covers(e.issued[id], b)
  }

  function IssuedFor(log: seq<Chunk>, key: nat, b: nat): set<nat> {
    set id | 0 <= id < |log| && log[id].key == key && Covers(log[id], b)
  }

  lemma {:induction false} IssuedHits(log: seq<Chunk>, key: nat, b: nat)
    ensures |IssuedFor(log, key, b)| == Hits(ChunksOf(log, key), b)
  {
    if log != [] {
      var n := |log| - 1;
      IssuedHits(log[..n], key, b);
      var here := if log[n].key == key && Covers(log[n], b) then {n} else {};
      assert IssuedFor(log, key, b) == IssuedFor(log[..n], key, b) + here;
      var l := ChunksOf(log[..n], key);
      if log[n].key == key {
        assert ChunksOf(log, key) == l + [log[n]] && (l + [log[n]])[..|l|] == l;
      } else {
        assert ChunksOf(log, key) == l;
      }
    }
  }

  /** Consecutive blocks carry every byte below their end once. */
  lemma {:induction false} BlocksHit(key: nat, a: nat, n: nat, b: nat)
    ensures Hits(Blocks(key, a, n), b) == if b < n * a then 1 else 0
  {
    if n > 0 {
      BlocksHit(key, a, n - 1, b);
      BlocksSnoc(key, a, n - 1);
      Distribute(n - 1, 1, a);
      assert Blocks(key, a, n)[..n - 1] == Blocks(key, a, n - 1);
    }
  }

  predicate Aligned(j: Job) { j.size < j.transfer || (j.transfer >= 1 && j.size % j.transfer == 0) }

  lemma EnoughExact(j: Job, n: nat)
    requires j.transfer >= 1 && Enough(j, n)
    ensures n * Step(j) == j.size <==> Aligned(j)
  {
    var a := Step(j);
    if j.size < j.transfer {
      if n > 1 { MulMono(1, n - 1, a); }
    } else {
      var q, r := j.size / a, j.size % a;
      assert j.size == q * a + r;
      if n * a == j.size { DivUnique(j.size, a, n, 0); }
      if r == 0 && n * a != j.size {
        if n <= q { MulMono(n, q, a); } else { MulMono(q, n - 1, a); }
      }
    }
  }

  /** A finished transfer has carried each byte below the end of its last block once. */
  lemma CarriedOnce(e: Engine, key: nat, b: nat) returns (n: nat)
    requires Tracked(e) && key < |e.accepted| && e.accepted[key].key == key && Complete(e, key)
    ensures Enough(e.accepted[key], n)
    ensures |Carriers(e, key, b)| == if b < n * Step(e.accepted[key]) then 1 else 0
  {
    var j := e.accepted[key];
    n :| Issued(e, j, n) && Enough(j, n);
    IssuedHits(e.issued, key, b);
    BlocksHit(key, Step(j), n, b);
    hide ChunksOf, Hits, Blocks, Enough, Covers;
    assert Carriers(e, key, b) == IssuedFor(e.issued, key, b) by {
      forall id | id in IssuedFor(e.issued, key, b)
        ensures id in e.landed
      {
        assert id !in Ids(e.owner, key);
      }
    }
  }

  /** In every run, a transfer that has left the queue carried every byte of its range exactly
      once and no other byte, if and only if its size is a multiple of the transfer size or
      smaller than it; and it was answered exactly once, unless posted. */
  lemma EveryTransferExact(events: seq<Event>, key: nat)
    requires Run(events).Some? && key < |Run(events).value.accepted| && !Queued(Run(events).value.jobs, key)
    ensures var e := Run(events).value;
      var j := e.accepted[key];
      && ((forall b: nat :: |Carriers(e, key, b)| == if b < j.size then 1 else 0) <==> Aligned(j))
      && Times(e.answered, key) == if j.posted then 0 else 1
  {
    RunInv(events);
    var e := Run(events).value;
    var j := e.accepted[key];
    assert Complete(e, key) && Retired(e.jobs, 0, key);
    AcceptedSized(events, key);
    hide Run, Inv, Carriers, Complete, Retired;
    var n := CarriedOnce(e, key, 0);
    EnoughExact(j, n);
    CarriedExactly(e, key, n);
  }

  lemma RunSnoc(events: seq<Event>, v: Event)
    ensures Run(events + [v]) == if Run(events).None? then None else Next(Run(events).value, v)
  {
    assert (events + [v])[..|events|] == events;
  }

  lemma TickOne(e: Engine, j: Job)
    requires e.jobs == [j]
    ensures Tick(e) == var e1 := Visit(e, 0); e1.(jobs := if e1.jobs[0].status.Done? then [] else e1.jobs)
  {
    var e1 := Visit(e, 0);
    assert |e1.jobs| == 1 && e1.jobs == [e1.jobs[0]];
    assert VisitFrom(e1, 1) == e1;
    var none := e1.jobs[..0];
    assert Live(none) == [];
  }

  lemma SameEngine(a: Engine, b: Engine)
    requires a.jobs == b.jobs && a.owner == b.owner && a.accepted == b.accepted
    requires a.issued == b.issued && a.landed == b.landed && a.answered == b.answered
    ensures a == b
  {
  }

  /** Five bytes, four at a time. */
  const OVERRUN := [Request(SimToSst, 0, 100, 5, 4, false), Clock, Clock, Response(0), Response(1), Clock]

  function OverrunAfter(n: nat): Engine {
    var j := Job(0, SimToSst, 0, 100, 5, 4, false, 0, 0, Busy);
    var last := j.(offset := 8, ongoing := 2, status := Waiting);
    var sent := [Chunk(0, 0, 4), Chunk(0, 4, 4)];
    match n
    case 0 => INITIAL
    case 1 => Engine([j], map[], [j], [], [], [])
    case 2 => Engine([j.(offset := 4, ongoing := 1)], map[0 := 0], [j], [Chunk(0, 0, 4)], [], [])
    case 3 => Engine([last], map[0 := 0, 1 := 0], [j], sent, [], [])
    case 4 => Engine([last.(ongoing := 1)], map[1 := 0], [j], sent, [0], [])
    case 5 => Engine([last.(ongoing := 0, status := Done)], map[], [j], sent, [0, 1], [])
    case _ => Engine([], map[], [j], sent, [0, 1], [0])
  }

  lemma OverrunTick(n: nat)
    requires n == 1 || n == 2 || n == 5
    ensures Tick(OverrunAfter(n)) == OverrunAfter(n + 1)
  {
    hide Tick;
    var e := OverrunAfter(n);
    TickOne(e, e.jobs[0]);
    SameEngine(Tick(e), OverrunAfter(n + 1));
  }

  lemma OverrunStep(n: nat)
    requires n < 6
    ensures Next(OverrunAfter(n), OVERRUN[n]) == Some(OverrunAfter(n + 1))
  {
    hide Tick;
    if OVERRUN[n].Clock? {
      OverrunTick(n);
    } else {
      var e := OverrunAfter(n);
      assert n > 0 ==> IndexOf(e.jobs, 0) == Some(0);
      assert Next(e, OVERRUN[n]).Some?;
      SameEngine(Next(e, OVERRUN[n]).value, OverrunAfter(n + 1));
    }
  }

  lemma {:induction false} OverrunRuns(n: nat)
    requires n <= 6
    ensures Run(OVERRUN[..n]) == Some(OverrunAfter(n))
  {
    if n > 0 {
      OverrunRuns(n - 1);
      OverrunStep(n - 1);
      hide Next, OverrunAfter;
      assert OVERRUN[..n] == OVERRUN[..n - 1] + [OVERRUN[n - 1]];
      RunSnoc(OVERRUN[..n - 1], OVERRUN[n - 1]);
    }
  }

  /** A run in which the property fails: the second request is four bytes long as well, so byte 5,
      past the end of the range, is carried once. */
  lemma Overrun()
    ensures Run(OVERRUN).Some? && var e := Run(OVERRUN).value;
      |e.accepted| == 1 && !Queued(e.jobs, 0) && e.accepted[0].size == 5 && |Carriers(e, 0, 5)| == 1
  {
    OverrunRuns(6);
    assert OVERRUN[..6] == OVERRUN;
    hide Run;
    assert Carriers(OverrunAfter(6), 0, 5) == {1};
  }

  lemma CarriedExactly(e: Engine, key: nat, n: nat)
    requires Tracked(e) && key < |e.accepted| && e.accepted[key].key == key && Complete(e, key)
    requires e.accepted[key].transfer >= 1 && Enough(e.accepted[key], n)
    ensures (forall b: nat :: |Carriers(e, key, b)| == if b < e.accepted[key].size then 1 else 0)
            <==> n * Step(e.accepted[key]) == e.accepted[key].size
  {
    var j := e.accepted[key];
    forall b: nat
      ensures |Carriers(e, key, b)| == if b < n * Step(j) then 1 else 0
    {
      var m := CarriedOnce(e, key, b);
      SameEnough(j, n, m);
    }
    hide Carriers, Complete, Tracked;
    if n * Step(j) != j.size {
      assert |Carriers(e, key, j.size)| == 1;
    }
  }

  lemma SameEnough(j: Job, n: nat, m: nat)
    requires j.transfer >= 1 && Enough(j, n) && Enough(j, m)
    ensures n * Step(j) == m * Step(j)
  {
    var a := Step(j);
    if n < m { MulMono(n, m - 1, a); }
    if m < n { MulMono(m, n - 1, a); }
  }

  lemma {:induction false} AcceptedSized(events: seq<Event>, key: nat)
    requires Run(events).Some? && key < |Run(events).value.accepted|
    ensures Run(events).value.accepted[key].transfer >= 1
  {
    if events != [] {
      var n := |events| - 1;
      var before := Run(events[..n]).value;
      AcceptedGrows(before, events[n]);
      if key < |before.accepted| { AcceptedSized(events[..n], key); }
    }
  }

  lemma AcceptedGrows(e: Engine, v: Event)
    requires Next(e, v).Some?
    ensures var e' := Next(e, v).value;
      e.accepted <= e'.accepted && forall k | |e.accepted| <= k < |e'.accepted| :: e'.accepted[k].transfer >= 1
  {
    if v.Clock? { VisitsAccept(e, 0); }
  }

  lemma {:induction false} VisitsAccept(e: Engine, i: nat)
    requires i <= |e.jobs|
    ensures VisitFrom(e, i).accepted == e.accepted
    decreases |e.jobs| - i
  {
    if i < |e.jobs| { VisitsAccept(Visit(e, i), i + 1); }
  }

  /** In every run the counter of a queued transfer is the number of its outstanding memory
      requests, which are issued in consecutive blocks, and a queued transfer is not answered. */
  lemma EveryRunCounts(events: seq<Event>, k: nat)
    requires Run(events).Some? && k < |Run(events).value.jobs|
    ensures var e := Run(events).value;
      var j := e.jobs[k];
      && j.ongoing == |set id | 0 <= id < |e.issued| && id !in e.landed && e.issued[id].key == j.key|
      && (j.status.Done? ==> j.ongoing == 0 && j.offset >= j.size)
      && Times(e.answered, j.key) == 0
      && (exists n: nat :: ChunksOf(e.issued, j.key) == Blocks(j.key, Step(j), n))
  {
    RunInv(events);
    var e := Run(events).value;
    var j := e.jobs[k];
    hide Run;
    assert JobOk(e, j) && !Retired(e.jobs, 0, j.key);
    hide Times, ChunksOf, Blocks, Keyed;
    assert Ids(e.owner, j.key) == set id | 0 <= id < |e.issued| && id !in e.landed && e.issued[id].key == j.key;
  }
}
