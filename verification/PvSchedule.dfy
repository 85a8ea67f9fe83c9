/** The PV half of the cluster timeline and the whole of build_schedule: softmax blocks are
    batched in pairs on the PV workers; coverage, order and the floors of the result. */
module PvSchedule {
  import opened Arith
  import opened Schedule

  /** A softmax block waiting for a PV worker; `window` is its place in the window list. */
  datatype Input = Input(block: nat, ready: nat, window: nat)

  datatype Batch = Batch(kv: nat, key: nat, worker: nat, vReady: nat, start: nat, end: nat, items: seq<Input>)

  datatype Pv = Pv(ready: seq<nat>, done: map<(nat, nat), nat>, batches: seq<Batch>)

  const PV_CYCLES: nat := 512

  lemma PvDuration(n: nat)
    ensures Duration(TILE * n, HEAD_DIM, KEY_TILE) == PV_CYCLES * n
  {
    assert TILE * n * HEAD_DIM * KEY_TILE == ARRAY_MACS * (PV_CYCLES * n);
    CeilLeast(ARRAY_MACS * (PV_CYCLES * n), ARRAY_MACS, PV_CYCLES * n);
    if n > 0 { CeilLeast(ARRAY_MACS * (PV_CYCLES * n), ARRAY_MACS, PV_CYCLES * n - 1); }
  }

  /** The PV worker of a row block. */
  function PvWorkerOf(sh: Shape, block: nat): (w: nat)
    requires sh.Valid()
    ensures w < sh.PvWorkers()
  {
    block % sh.PvWorkers()
  }

  /** The first row block of a key/value head. */
  function Base(sh: Shape, kv: nat): nat
    requires sh.Valid()
  {
    kv * sh.Group() * sh.queryLength / TILE
  }

  lemma BaseStep(sh: Shape, kv: nat)
    requires sh.Valid()
    ensures Base(sh, kv) == kv * (2 * sh.RowWindows()) && Base(sh, kv + 1) == Base(sh, kv) + 2 * sh.RowWindows()
  {
    var a, g := sh.queryLength / 128, sh.Group();
    assert sh.queryLength == 128 * a;
    assert g * sh.queryLength == (2 * (g * a)) * TILE;
    DivUnique(g * sh.queryLength, TILE, 2 * (g * a), 0);
    assert sh.RowWindows() == g * a;
    BaseProduct(kv, g, a);
    BaseProduct(kv + 1, g, a);
    Distribute(kv, 1, 2 * (g * a));
  }

  lemma BaseProduct(kv: nat, g: nat, a: nat)
    ensures kv * g * (128 * a) / TILE == kv * (2 * (g * a))
  {
    assert kv * g * (128 * a) == (kv * (2 * (g * a))) * TILE by { MulAssoc(kv, g, 128 * a); MulAssoc(kv, 2 * (g * a), TILE); }
    DivUnique(kv * g * (128 * a), TILE, kv * (2 * (g * a)), 0);
  }

  // ---- Inputs of one head

  /** An input and the window that produced it. */
  predicate Produced(sh: Shape, ws: seq<Window>, kv: nat, key: nat, worker: nat, x: Input)
    requires sh.Valid()
  {
    && PvWorkerOf(sh, x.block) == worker
    && x.window < |ws| && ws[x.window].kv == kv && ws[x.window].key == key
    && (x.block == Base(sh, kv) + 2 * ws[x.window].row || x.block == Base(sh, kv) + 2 * ws[x.window].row + 1)
    && x.ready == ws[x.window].sfuEnd + sh.LinkCycles()
  }

  /** The inputs of one key window and worker: blocks ascending, all produced. */
  predicate ListOk(sh: Shape, ws: seq<Window>, kv: nat, key: nat, worker: nat, l: seq<Input>)
    requires sh.Valid()
  {
    && (forall i | 0 <= i < |l| :: Produced(sh, ws, kv, key, worker, l[i]))
    && (forall i, j | 0 <= i < j < |l| :: l[i].block < l[j].block)
  }

  predicate Has(l: seq<Input>, block: nat) { exists i | 0 <= i < |l| :: l[i].block == block }

  function Lengths(lists: seq<seq<Input>>): seq<nat> {
    seq(|lists|, i requires 0 <= i < |lists| => |lists[i]|)
  }

  /** The inputs of one key window once the first `blocks` row blocks of the head are in. */
  ghost predicate Filled(sh: Shape, ws: seq<Window>, kv: nat, key: nat, blocks: nat, lists: seq<seq<Input>>)
    requires sh.Valid()
  {
    && |lists| == sh.PvWorkers()
    && (forall w | 0 <= w < |lists| :: ListOk(sh, ws, kv, key, w, lists[w]))
    && (forall w, i | 0 <= w < |lists| && 0 <= i < |lists[w]| ::
          Base(sh, kv) <= lists[w][i].block < Base(sh, kv) + blocks)
    && (forall b: nat | Base(sh, kv) <= b < Base(sh, kv) + blocks :: Has(lists[PvWorkerOf(sh, b)], b))
    && Total(Lengths(lists)) == blocks
  }

  function Append(sh: Shape, lists: seq<seq<Input>>, x: Input): seq<seq<Input>>
    requires sh.Valid() && |lists| == sh.PvWorkers()
  {
    var w := PvWorkerOf(sh, x.block);
    lists[w := lists[w] + [x]]
  }

  lemma FillNone(sh: Shape, ws: seq<Window>, kv: nat, key: nat, lists: seq<seq<Input>>)
    requires sh.Valid() && |lists| == sh.PvWorkers() && forall w | 0 <= w < |lists| :: lists[w] == []
    ensures Filled(sh, ws, kv, key, 0, lists)
  {
    TotalZero(Lengths(lists));
  }

  lemma FillOne(sh: Shape, ws: seq<Window>, kv: nat, key: nat, blocks: nat, lists: seq<seq<Input>>, x: Input)
    requires sh.Valid() && Filled(sh, ws, kv, key, blocks, lists) && x.block == Base(sh, kv) + blocks
    requires Produced(sh, ws, kv, key, PvWorkerOf(sh, x.block), x)
    ensures Filled(sh, ws, kv, key, blocks + 1, Append(sh, lists, x))
  {
    hide Produced, Base, PvWorkerOf, Total;
    var w, lists' := PvWorkerOf(sh, x.block), Append(sh, lists, x);
    assert ListOk(sh, ws, kv, key, w, lists[w]);
    assert ListOk(sh, ws, kv, key, w, lists'[w]);
    forall b: nat | Base(sh, kv) <= b < Base(sh, kv) + blocks + 1
      ensures Has(lists'[PvWorkerOf(sh, b)], b)
    {
      FillHas(sh, kv, blocks, lists, x, b);
    }
    assert Lengths(lists') == Lengths(lists)[w := Lengths(lists)[w] + 1];
    TotalRaised(Lengths(lists), w, 1);
  }

  lemma FillHas(sh: Shape, kv: nat, blocks: nat, lists: seq<seq<Input>>, x: Input, b: nat)
    requires sh.Valid() && |lists| == sh.PvWorkers() && x.block == Base(sh, kv) + blocks
    requires Base(sh, kv) <= b < Base(sh, kv) + blocks ==> Has(lists[PvWorkerOf(sh, b)], b)
    requires Base(sh, kv) <= b < Base(sh, kv) + blocks + 1
    ensures Has(Append(sh, lists, x)[PvWorkerOf(sh, b)], b)
  {
    hide Base, PvWorkerOf;
    var lists', v := Append(sh, lists, x), PvWorkerOf(sh, b);
    if b < Base(sh, kv) + blocks {
      var i :| 0 <= i < |lists[v]| && lists[v][i].block == b;
      assert lists'[v][i] == lists[v][i];
    } else {
      assert lists'[v][|lists[v]|] == x;
    }
  }

  lemma FilledLater(sh: Shape, ws: seq<Window>, ws': seq<Window>, kv: nat, key: nat, blocks: nat, lists: seq<seq<Input>>)
    requires sh.Valid() && ws <= ws' && Filled(sh, ws, kv, key, blocks, lists)
    ensures Filled(sh, ws', kv, key, blocks, lists)
  {
    hide Base;
    forall w | 0 <= w < |lists|
      ensures ListOk(sh, ws', kv, key, w, lists[w])
    {
      assert ListOk(sh, ws, kv, key, w, lists[w]);
    }
  }

  // ---- The QK loops

  lemma RankNext(sh: Shape, kv: nat, key: nat)
    requires sh.Valid()
    ensures Rank(sh, kv, key, sh.RowWindows()) == Rank(sh, kv, key + 1, 0)
    ensures Rank(sh, kv, sh.KeyWindows(), 0) == Rank(sh, kv + 1, 0, 0)
  {
    Distribute(kv * sh.KeyWindows() + key, 1, sh.RowWindows());
    Distribute(kv, 1, sh.KeyWindows());
  }

  /** All row windows of one key window. */
  method QkKey(sh: Shape, q0: Qk, kv: nat, key: nat, qDone: seq<nat>, kReady: nat) returns (q: Qk, lists: seq<seq<Input>>)
    requires sh.Valid() && Lanes(sh, q0) && Listed(sh, q0.windows) && kv < sh.kvHeads && key < sh.KeyWindows()
    requires |q0.windows| == Rank(sh, kv, key, 0) && |qDone| == sh.QkWorkers()
    ensures Lanes(sh, q) && Listed(sh, q.windows) && q0.windows <= q.windows && |q.windows| == Rank(sh, kv, key + 1, 0)
    ensures Filled(sh, q.windows, kv, key, 2 * sh.RowWindows(), lists)
  {
    hide Lanes, Listed, Filled, Rank;
    q := q0;
    lists := seq(sh.PvWorkers(), w => []);
    FillNone(sh, q.windows, kv, key, lists);
    for row := 0 to sh.RowWindows()
      invariant Lanes(sh, q) && Listed(sh, q.windows) && q0.windows <= q.windows
      invariant |q.windows| == Rank(sh, kv, key, row) && Filled(sh, q.windows, kv, key, 2 * row, lists)
    {
      q, lists := QkRow(sh, q, kv, key, row, qDone[row % sh.QkWorkers()], kReady, lists);
    }
    RankNext(sh, kv, key);
  }

  /** One window: its product, its softmax and its two softmax blocks. */
  method QkRow(sh: Shape, q0: Qk, kv: nat, key: nat, row: nat, qReady: nat, kReady: nat, lists0: seq<seq<Input>>)
    returns (q: Qk, lists: seq<seq<Input>>)
    requires sh.Valid() && Lanes(sh, q0) && Listed(sh, q0.windows) && kv < sh.kvHeads && key < sh.KeyWindows()
    requires row < sh.RowWindows() && |q0.windows| == Rank(sh, kv, key, row)
    requires Filled(sh, q0.windows, kv, key, 2 * row, lists0)
    ensures Lanes(sh, q) && Listed(sh, q.windows) && q0.windows <= q.windows && |q.windows| == Rank(sh, kv, key, row + 1)
    ensures Filled(sh, q.windows, kv, key, 2 * (row + 1), lists)
  {
    assert Rank(sh, kv, key, row + 1) == Rank(sh, kv, key, row) + 1;
    PlaceKeeps(sh, q0, kv, key, row, qReady, kReady);
    hide Lanes, Rank, Listed;
    var w := Timed(sh, q0, kv, key, row, qReady, kReady);
    q := Place(sh, q0, w);
    ListedOne(sh, q0.windows, w);
    FilledLater(sh, q0.windows, q.windows, kv, key, 2 * row, lists0);
    lists := lists0;
    for half := 0 to 2
      invariant Filled(sh, q.windows, kv, key, 2 * row + half, lists)
    {
      var x := Input(Base(sh, kv) + 2 * row + half, w.sfuEnd + sh.LinkCycles(), |q0.windows|);
      FillOne(sh, q.windows, kv, key, 2 * row + half, lists, x);
      lists := Append(sh, lists, x);
    }
  }

  /** When each worker has its share of the head's Q rows. */
  function QDone(sh: Shape, ready: seq<nat>): (done: seq<nat>)
    requires sh.Valid() && |ready| == sh.QkWorkers()
    ensures |done| == |ready|
  {
    var bytes := CeilDiv(sh.Group() * sh.queryLength, sh.QkWorkers()) * HEAD_DIM * ELEM_BYTES;
    seq(|ready|, w requires 0 <= w < |ready| => Max(ready[w], MinOf(ready)) + CeilDiv(bytes, sh.localBytes))
  }

  /** One key/value head: prefetch of Q, broadcast of each K window, then the windows. */
  method QkHead(sh: Shape, q0: Qk, kv: nat) returns (q: Qk, inputs: seq<seq<seq<Input>>>)
    requires sh.Valid() && Lanes(sh, q0) && Listed(sh, q0.windows) && kv < sh.kvHeads && |q0.windows| == Rank(sh, kv, 0, 0)
    ensures Lanes(sh, q) && Listed(sh, q.windows) && q0.windows <= q.windows && |q.windows| == Rank(sh, kv + 1, 0, 0)
    ensures |inputs| == sh.KeyWindows()
    ensures forall key | 0 <= key < |inputs| :: Filled(sh, q.windows, kv, key, 2 * sh.RowWindows(), inputs[key])
  {
    hide Lanes, Listed, Filled, Rank, MinOf, CeilDiv, QDone;
    LaneSizes(sh, q0);
    var broadcast := CeilDiv(KEY_TILE * HEAD_DIM * ELEM_BYTES, sh.broadcastBytes);
    var qDone := QDone(sh, q0.ready);
    var previous := MinOf(qDone);
    q, inputs := q0, [];
    for key := 0 to sh.KeyWindows()
      invariant Lanes(sh, q) && Listed(sh, q.windows) && q0.windows <= q.windows && |q.windows| == Rank(sh, kv, key, 0)
      invariant |inputs| == key && 0 <= previous
      invariant forall k | 0 <= k < key :: Filled(sh, q.windows, kv, k, 2 * sh.RowWindows(), inputs[k])
    {
      var kReady := Max(previous, MinOf(qDone)) + broadcast;
      previous := kReady;
      ghost var before := q.windows;
      var lists;
      q, lists := QkKey(sh, q, kv, key, qDone, kReady);
      forall k | 0 <= k < key
        ensures Filled(sh, q.windows, kv, k, 2 * sh.RowWindows(), inputs[k])
      {
        FilledLater(sh, before, q.windows, kv, k, 2 * sh.RowWindows(), inputs[k]);
      }
      inputs := inputs + [lists];
    }
    RankNext(sh, kv, 0);
  }

  // ---- Batches

  function CountIn(l: seq<Input>, block: nat): nat {
    if l == [] then 0 else CountIn(l[..|l| - 1], block) + if l[|l| - 1].block == block then 1 else 0
  }

  /** How often a row block appears in the batches of a key window. */
  function Occurrences(bs: seq<Batch>, key: nat, block: nat): nat {
    if bs == [] then 0
    else
      var b := bs[|bs| - 1];
      Occurrences(bs[..|bs| - 1], key, block) + if b.key == key then CountIn(b.items, block) else 0
  }

  function Items(bs: seq<Batch>): nat {
    if bs == [] then 0 else Items(bs[..|bs| - 1]) + |bs[|bs| - 1].items|
  }

  function Work(bs: seq<Batch>, worker: nat): nat {
    if bs == [] then 0
    else
      var b := bs[|bs| - 1];
      Work(bs[..|bs| - 1], worker) + if b.worker == worker then PV_CYCLES * |b.items| else 0
  }

  lemma {:induction false} CountInConcat(l: seq<Input>, m: seq<Input>, block: nat)
    ensures CountIn(l + m, block) == CountIn(l, block) + CountIn(m, block)
  {
    if m == [] {
      assert l + m == l;
    } else {
      assert (l + m)[..|l + m| - 1] == l + m[..|m| - 1];
      CountInConcat(l, m[..|m| - 1], block);
    }
  }

  lemma {:induction false} CountInNone(l: seq<Input>, block: nat)
    requires !Has(l, block)
    ensures CountIn(l, block) == 0
  {
    if l != [] {
      var n := |l| - 1;
      assert forall i | 0 <= i < n :: l[..n][i] == l[i];
      CountInNone(l[..n], block);
    }
  }

  /** A block occurs once in an ascending list that has it. */
  lemma {:induction false} CountInOnce(l: seq<Input>, block: nat)
    requires Has(l, block) && forall i, j | 0 <= i < j < |l| :: l[i].block < l[j].block
    ensures CountIn(l, block) == 1
  {
    var n := |l| - 1;
    var i :| 0 <= i < |l| && l[i].block == block;
    if i == n {
      CountInNone(l[..n], block);
    } else {
      assert l[..n][i] == l[i];
      CountInOnce(l[..n], block);
    }
  }

  /** A batch's own times: it waits for V and for its inputs. */
  predicate BatchTimed(sh: Shape, b: Batch)
    requires sh.Valid()
  {
    && b.worker < sh.PvWorkers() && 1 <= |b.items| <= 2
    && b.vReady <= b.start && b.end == b.start + PV_CYCLES * |b.items|
    && forall i | 0 <= i < |b.items| :: b.items[i].ready <= b.start
  }

  ghost predicate PvLanes(sh: Shape, pv: Pv)
    requires sh.Valid()
  {
    && |pv.ready| == sh.PvWorkers()
    && (forall i | 0 <= i < |pv.batches| ::
          BatchTimed(sh, pv.batches[i]) && pv.batches[i].end <= pv.ready[pv.batches[i].worker])
    && (forall i, j | 0 <= i < j < |pv.batches| && pv.batches[i].worker == pv.batches[j].worker ::
          pv.batches[i].end <= pv.batches[j].start)
    && (forall w | 0 <= w < |pv.ready| :: Work(pv.batches, w) <= pv.ready[w])
  }

  /** Every batched input was produced by the window it names. */
  ghost predicate Sourced(sh: Shape, ws: seq<Window>, bs: seq<Batch>)
    requires sh.Valid()
  {
    forall i, p | 0 <= i < |bs| && 0 <= p < |bs[i].items| ::
      Produced(sh, ws, bs[i].kv, bs[i].key, bs[i].worker, bs[i].items[p])
  }

  /** The batches are listed by head, then key window, none beyond the given ones. */
  ghost predicate InOrder(bs: seq<Batch>, kv: nat, key: nat) {
    && (forall i | 0 <= i < |bs| :: bs[i].kv < kv || (bs[i].kv == kv && bs[i].key <= key))
    && (forall i, j | 0 <= i < j < |bs| :: bs[i].kv < bs[j].kv || (bs[i].kv == bs[j].kv && bs[i].key <= bs[j].key))
  }

  function Previous(done: map<(nat, nat), nat>, worker: nat, items: seq<Input>): nat {
    if items == [] then 0
    else
      var x := items[|items| - 1];
      Max(Previous(done, worker, items[..|items| - 1]), if (worker, x.block) in done then done[(worker, x.block)] else 0)
  }

  function Latest(items: seq<Input>): (m: nat)
    ensures forall i | 0 <= i < |items| :: items[i].ready <= m
  {
    if items == [] then 0 else Max(Latest(items[..|items| - 1]), items[|items| - 1].ready)
  }

  function Finish(done: map<(nat, nat), nat>, worker: nat, items: seq<Input>, end: nat): map<(nat, nat), nat> {
    if items == [] then done
    else Finish(done, worker, items[..|items| - 1], end)[(worker, items[|items| - 1].block) := end]
  }

  /** One batch on a PV worker. */
  function Timing(sh: Shape, pv: Pv, kv: nat, key: nat, worker: nat, vReady: nat, items: seq<Input>): Batch
    requires sh.Valid() && worker < |pv.ready|
  {
    var start := Max(Max(pv.ready[worker], vReady), Max(Previous(pv.done, worker, items), Latest(items)));
    Batch(kv, key, worker, vReady, start, start + Duration(TILE * |items|, HEAD_DIM, KEY_TILE), items)
  }

  function Enqueue(pv: Pv, b: Batch): Pv
    requires b.worker < |pv.ready|
  {
    Pv(pv.ready[b.worker := b.end], Finish(pv.done, b.worker, b.items, b.end), pv.batches + [b])
  }

  lemma EnqueueKeeps(sh: Shape, pv: Pv, kv: nat, key: nat, worker: nat, vReady: nat, items: seq<Input>)
    requires sh.Valid() && PvLanes(sh, pv) && worker < sh.PvWorkers() && 1 <= |items| <= 2
    ensures PvLanes(sh, Enqueue(pv, Timing(sh, pv, kv, key, worker, vReady, items)))
  {
    PvDuration(|items|);
    hide Duration, Previous, Finish, Work;
    var b := Timing(sh, pv, kv, key, worker, vReady, items);
    var pv' := Enqueue(pv, b);
    assert BatchTimed(sh, b);
    forall w | 0 <= w < |pv.ready|
      ensures Work(pv'.batches, w) <= pv'.ready[w]
    {
      WorkSnoc(pv.batches, b, w);
    }
  }

  lemma WorkSnoc(bs: seq<Batch>, b: Batch, worker: nat)
    ensures Work(bs + [b], worker) == Work(bs, worker) + if b.worker == worker then PV_CYCLES * |b.items| else 0
  {
    assert (bs + [b])[..|bs|] == bs;
  }

  lemma EnqueueCounts(bs: seq<Batch>, b: Batch)
    ensures Items(bs + [b]) == Items(bs) + |b.items|
    ensures forall key, block :: Occurrences(bs + [b], key, block) == Occurrences(bs, key, block) + if b.key == key then CountIn(b.items, block) else 0
  {
    assert (bs + [b])[..|bs|] == bs;
  }

  /** The batches grew by the inputs `l` of a key window. */
  ghost predicate Added(before: seq<Batch>, bs: seq<Batch>, key: nat, l: seq<Input>) {
    forall k: nat, block: nat :: Occurrences(bs, k, block) == Occurrences(before, k, block) + if k == key then CountIn(l, block) else 0
  }

  /** All batches of one key window on one worker. */
  method PvList(sh: Shape, pv0: Pv, ghost ws: seq<Window>, kv: nat, key: nat, worker: nat, vReady: nat, l: seq<Input>) returns (pv: Pv)
    requires sh.Valid() && PvLanes(sh, pv0) && worker < sh.PvWorkers() && ListOk(sh, ws, kv, key, worker, l)
    requires Sourced(sh, ws, pv0.batches) && InOrder(pv0.batches, kv, key)
    ensures PvLanes(sh, pv) && Sourced(sh, ws, pv.batches) && InOrder(pv.batches, kv, key)
    ensures Items(pv.batches) == Items(pv0.batches) + |l|
    ensures Added(pv0.batches, pv.batches, key, l)
  {
    hide Duration, Previous, Latest, Finish, PvLanes, Produced, CountIn, Items, Occurrences;
    pv := pv0;
    var offset := 0;
    assert l[..0] == [];
    CountInEmpty();
    while offset < |l|
      invariant 0 <= offset <= |l| && PvLanes(sh, pv) && Sourced(sh, ws, pv.batches) && InOrder(pv.batches, kv, key)
      invariant Items(pv.batches) == Items(pv0.batches) + offset
      invariant Added(pv0.batches, pv.batches, key, l[..offset])
    {
      var end := if offset + 2 <= |l| then offset + 2 else |l|;
      var items := l[offset..end];
      assert worker < |pv.ready| by { PvReadySize(sh, pv); }
      EnqueueKeeps(sh, pv, kv, key, worker, vReady, items);
      var b := Timing(sh, pv, kv, key, worker, vReady, items);
      EnqueueCounts(pv.batches, b);
      assert l[..end] == l[..offset] + items;
      forall block { CountInConcat(l[..offset], items, block); }
      pv := Enqueue(pv, b);
      offset := end;
    }
    assert l[..offset] == l;
  }

  lemma CountInEmpty()
    ensures forall block :: CountIn([], block) == 0
  {
  }

  lemma PvReadySize(sh: Shape, pv: Pv)
    requires sh.Valid() && PvLanes(sh, pv)
    ensures |pv.ready| == sh.PvWorkers()
  {
  }

  // ---- Coverage

  /** The (row block, key window) pairs batched when head `kv` has reached worker `w` of key
      window `key`. */
  predicate Done(sh: Shape, kv: nat, key: nat, w: nat, k: nat, block: nat)
    requires sh.Valid()
  {
    && k < sh.KeyWindows()
    && (block < Base(sh, kv)
        || (block < Base(sh, kv) + 2 * sh.RowWindows() && (k < key || (k == key && PvWorkerOf(sh, block) < w))))
  }

  /** Every done pair is in exactly one batch, every other pair in none. */
  ghost predicate Covered(sh: Shape, bs: seq<Batch>, kv: nat, key: nat, w: nat)
    requires sh.Valid()
  {
    forall k: nat, block: nat :: Occurrences(bs, k, block) == if Done(sh, kv, key, w, k, block) then 1 else 0
  }

  lemma ListCount(sh: Shape, ws: seq<Window>, kv: nat, key: nat, lists: seq<seq<Input>>, w: nat, block: nat)
    requires sh.Valid() && Filled(sh, ws, kv, key, 2 * sh.RowWindows(), lists) && w < sh.PvWorkers()
    ensures CountIn(lists[w], block) ==
            if Base(sh, kv) <= block < Base(sh, kv) + 2 * sh.RowWindows() && PvWorkerOf(sh, block) == w then 1 else 0
  {
    hide Base;
    assert ListOk(sh, ws, kv, key, w, lists[w]);
    if Has(lists[w], block) {
      CountInOnce(lists[w], block);
    } else {
      CountInNone(lists[w], block);
    }
  }

  /** All workers of one key window. */
  method PvKey(sh: Shape, pv0: Pv, ghost ws: seq<Window>, kv: nat, key: nat, lists: seq<seq<Input>>) returns (pv: Pv)
    requires sh.Valid() && PvLanes(sh, pv0) && key < sh.KeyWindows()
    requires Filled(sh, ws, kv, key, 2 * sh.RowWindows(), lists)
    requires Sourced(sh, ws, pv0.batches) && InOrder(pv0.batches, kv, key) && Covered(sh, pv0.batches, kv, key, 0)
    ensures PvLanes(sh, pv) && Sourced(sh, ws, pv.batches) && InOrder(pv.batches, kv, key)
    ensures Covered(sh, pv.batches, kv, key + 1, 0)
    ensures Items(pv.batches) == Items(pv0.batches) + 2 * sh.RowWindows()
  {
    PvReadySize(sh, pv0);
    hide PvLanes, Sourced, InOrder, MinOf, Items, Occurrences, CountIn, Base, CeilDiv, Total, ListOk, Filled, Covered, Added;
    FilledSize(sh, ws, kv, key, lists);
    FilledTotal(sh, ws, kv, key, lists);
    TotalNone();
    var m := sh.PvWorkers();
    var vReady := MinOf(pv0.ready) + CeilDiv(KEY_TILE * HEAD_DIM * ELEM_BYTES, sh.broadcastBytes);
    pv := pv0;
    ghost var sizes := Lengths(lists);
    for w := 0 to m
      invariant PvLanes(sh, pv) && Sourced(sh, ws, pv.batches) && InOrder(pv.batches, kv, key)
      invariant Covered(sh, pv.batches, kv, key, w)
      invariant Items(pv.batches) == Items(pv0.batches) + Total(sizes[..w])
    {
      ghost var before := pv.batches;
      FilledList(sh, ws, kv, key, lists, w);
      pv := PvList(sh, pv, ws, kv, key, w, vReady, lists[w]);
      CoveredNext(sh, ws, before, pv.batches, kv, key, w, lists);
      assert sizes[..w + 1] == sizes[..w] + [|lists[w]|];
      TotalSnoc(sizes[..w], |lists[w]|);
    }
    assert sizes[..m] == sizes;
    CoveredKey(sh, pv.batches, kv, key);
  }

  lemma CoveredKey(sh: Shape, bs: seq<Batch>, kv: nat, key: nat)
    requires sh.Valid() && Covered(sh, bs, kv, key, sh.PvWorkers())
    ensures Covered(sh, bs, kv, key + 1, 0)
  {
    hide Base, Occurrences;
    forall k: nat, block: nat
      ensures Done(sh, kv, key, sh.PvWorkers(), k, block) == Done(sh, kv, key + 1, 0, k, block)
    {
    }
  }

  lemma TotalNone()
    ensures Total([]) == 0
  {
  }

  lemma TotalSnoc(s: seq<nat>, x: nat)
    ensures Total(s + [x]) == Total(s) + x
  {
    assert (s + [x])[..|s|] == s;
  }

  lemma CoveredNext(sh: Shape, ws: seq<Window>, before: seq<Batch>, bs: seq<Batch>, kv: nat, key: nat, w: nat, lists: seq<seq<Input>>)
    requires sh.Valid() && w < sh.PvWorkers() && key < sh.KeyWindows() && Covered(sh, before, kv, key, w)
    requires Filled(sh, ws, kv, key, 2 * sh.RowWindows(), lists)
    requires Added(before, bs, key, lists[w])
    ensures Covered(sh, bs, kv, key, w + 1)
  {
    hide Occurrences, CountIn, Base, Filled;
    FilledSize(sh, ws, kv, key, lists);
    forall k: nat, block: nat
      ensures Occurrences(bs, k, block) == if Done(sh, kv, key, w + 1, k, block) then 1 else 0
    {
      ListCount(sh, ws, kv, key, lists, w, block);
    }
  }

  lemma FilledList(sh: Shape, ws: seq<Window>, kv: nat, key: nat, lists: seq<seq<Input>>, w: nat)
    requires sh.Valid() && Filled(sh, ws, kv, key, 2 * sh.RowWindows(), lists) && w < sh.PvWorkers()
    ensures |lists| == sh.PvWorkers() && ListOk(sh, ws, kv, key, w, lists[w])
  {
  }

  lemma FilledTotal(sh: Shape, ws: seq<Window>, kv: nat, key: nat, lists: seq<seq<Input>>)
    requires sh.Valid() && Filled(sh, ws, kv, key, 2 * sh.RowWindows(), lists)
    ensures Total(Lengths(lists)) == 2 * sh.RowWindows()
  {
  }

  lemma FilledSize(sh: Shape, ws: seq<Window>, kv: nat, key: nat, lists: seq<seq<Input>>)
    requires sh.Valid() && Filled(sh, ws, kv, key, 2 * sh.RowWindows(), lists)
    ensures |lists| == sh.PvWorkers()
  {
  }

  lemma SourcedLater(sh: Shape, ws: seq<Window>, ws': seq<Window>, bs: seq<Batch>)
    requires sh.Valid() && ws <= ws' && Sourced(sh, ws, bs)
    ensures Sourced(sh, ws', bs)
  {
    hide Base;
  }

  /** All key windows of one head. */
  method PvHead(sh: Shape, pv0: Pv, ghost ws: seq<Window>, kv: nat, inputs: seq<seq<seq<Input>>>) returns (pv: Pv)
    requires sh.Valid() && PvLanes(sh, pv0) && |inputs| == sh.KeyWindows()
    requires forall key | 0 <= key < |inputs| :: Filled(sh, ws, kv, key, 2 * sh.RowWindows(), inputs[key])
    requires Sourced(sh, ws, pv0.batches) && InOrder(pv0.batches, kv, 0) && Covered(sh, pv0.batches, kv, 0, 0)
    ensures PvLanes(sh, pv) && Sourced(sh, ws, pv.batches) && InOrder(pv.batches, kv + 1, 0)
    ensures Covered(sh, pv.batches, kv + 1, 0, 0)
    ensures Items(pv.batches) == Items(pv0.batches) + sh.KeyWindows() * (2 * sh.RowWindows())
  {
    hide PvLanes, Sourced, Covered, Filled, Items;
    pv := pv0;
    for key := 0 to sh.KeyWindows()
      invariant PvLanes(sh, pv) && Sourced(sh, ws, pv.batches) && InOrder(pv.batches, kv, key)
      invariant Covered(sh, pv.batches, kv, key, 0)
      invariant Items(pv.batches) == Items(pv0.batches) + key * (2 * sh.RowWindows())
    {
      pv := PvKey(sh, pv, ws, kv, key, inputs[key]);
      Distribute(key, 1, 2 * sh.RowWindows());
    }
    CoveredHead(sh, pv.batches, kv);
  }

  lemma CoveredHead(sh: Shape, bs: seq<Batch>, kv: nat)
    requires sh.Valid() && Covered(sh, bs, kv, sh.KeyWindows(), 0)
    ensures Covered(sh, bs, kv + 1, 0, 0)
  {
    BaseStep(sh, kv);
    hide Base, Occurrences;
    forall k: nat, block: nat
      ensures Done(sh, kv, sh.KeyWindows(), 0, k, block) == Done(sh, kv + 1, 0, 0, k, block)
    {
    }
  }

  // ---- The whole schedule

  /** Every row block of every head is in exactly one PV batch of every key window, and no other block is. */
  ghost predicate OnceEach(sh: Shape, pv: Pv)
    requires sh.Valid()
  {
    forall key: nat, block: nat | key < sh.KeyWindows() ::
      Occurrences(pv.batches, key, block) == if block < sh.heads * sh.queryLength / TILE then 1 else 0
  }

  /** The batch starts only after the softmax of the block's row window, of the same head and key window,
      has reached it. */
  predicate Fed(sh: Shape, q: Qk, b: Batch, x: Input)
    requires sh.Valid()
  {
    && x.window < |q.windows|
    && var w := q.windows[x.window];
       && w.kv == b.kv && w.key == b.key && w.row == (x.block - Base(sh, b.kv)) / 2
       && w.start + QK_CYCLES <= w.sfuStart && w.sfuEnd + sh.LinkCycles() <= b.start
  }

  predicate AllFed(sh: Shape, q: Qk, pv: Pv)
    requires sh.Valid()
  {
    forall i, p | 0 <= i < |pv.batches| && 0 <= p < |pv.batches[i].items| :: Fed(sh, q, pv.batches[i], pv.batches[i].items[p])
  }

  predicate Shares(a: Batch, b: Batch) {
    exists p, r | 0 <= p < |a.items| && 0 <= r < |b.items| :: a.items[p].block == b.items[r].block
  }

  /** The batches of a row block follow each other in key order. */
  predicate KeyOrdered(pv: Pv) {
    forall i, j | 0 <= i < j < |pv.batches| && Shares(pv.batches[i], pv.batches[j]) ::
      pv.batches[i].key < pv.batches[j].key && pv.batches[i].end <= pv.batches[j].start
  }

  /** The reported floors: the QK and PV floors always, the softmax floor when a window's softmax takes
      2048 cycles or more. */
  predicate FloorsBelow(sh: Shape, endCycle: nat)
    requires sh.Valid()
  {
    var macs := Scores(sh) * HEAD_DIM;
    && CeilDiv(macs, sh.QkWorkers() * ARRAY_MACS) <= endCycle
    && CeilDiv(macs, sh.PvWorkers() * ARRAY_MACS) <= endCycle
    && (sh.sfuCycles >= 2048 ==> CeilDiv(Scores(sh), sh.QkWorkers() * 16) <= endCycle)
  }

  /** build_schedule: the QK windows, the PV batches and the last cycle. */
  method BuildSchedule(sh: Shape) returns (q: Qk, pv: Pv, endCycle: nat)
    requires sh.Valid()
    ensures OnceEach(sh, pv) && AllFed(sh, q, pv) && KeyOrdered(pv) && FloorsBelow(sh, endCycle)
    ensures Lanes(sh, q) && Listed(sh, q.windows) && |q.windows| == Rank(sh, sh.kvHeads, 0, 0)
    ensures PvLanes(sh, pv) && Sourced(sh, q.windows, pv.batches) && InOrder(pv.batches, sh.kvHeads, 0)
    ensures Covered(sh, pv.batches, sh.kvHeads, 0, 0)
    ensures Items(pv.batches) == sh.kvHeads * (sh.KeyWindows() * (2 * sh.RowWindows()))
    ensures |q.ready| >= 1 && |pv.ready| >= 1
    ensures endCycle == Max(Max(MaxOf(q.ready), MaxOf(q.sfu)), MaxOf(pv.ready))
  {
    hide Lanes, Listed, PvLanes, Sourced, InOrder, Covered, Items, Rank, Filled, MaxOf, OnceEach, AllFed, KeyOrdered, FloorsBelow;
    var n, m := sh.QkWorkers(), sh.PvWorkers();
    q := Qk(seq(n, w => 0), seq(n, w => 0), seq(n, w => [0, 0]), []);
    pv := Pv(seq(m, w => 0), map[], []);
    StartCovered(sh);
    StartLanes(sh, q, pv);
    for kv := 0 to sh.kvHeads
      invariant Lanes(sh, q) && Listed(sh, q.windows) && |q.windows| == Rank(sh, kv, 0, 0)
      invariant PvLanes(sh, pv) && Sourced(sh, q.windows, pv.batches) && InOrder(pv.batches, kv, 0)
      invariant Covered(sh, pv.batches, kv, 0, 0)
      invariant Items(pv.batches) == kv * (sh.KeyWindows() * (2 * sh.RowWindows()))
    {
      ghost var before := q.windows;
      var inputs;
      q, inputs := QkHead(sh, q, kv);
      SourcedLater(sh, before, q.windows, pv.batches);
      pv := PvHead(sh, pv, q.windows, kv, inputs);
      Distribute(kv, 1, sh.KeyWindows() * (2 * sh.RowWindows()));
    }
    LaneSizes(sh, q);
    PvReadySize(sh, pv);
    endCycle := Max(Max(MaxOf(q.ready), MaxOf(q.sfu)), MaxOf(pv.ready));
    Guaranteed(sh, q, pv, endCycle);
  }

  lemma LaneSizes(sh: Shape, q: Qk)
    requires sh.Valid() && Lanes(sh, q)
    ensures |q.ready| == |q.sfu| == sh.QkWorkers()
  {
  }

  lemma StartCovered(sh: Shape)
    requires sh.Valid()
    ensures Covered(sh, [], 0, 0, 0)
  {
    BaseStep(sh, 0);
  }

  lemma StartLanes(sh: Shape, q: Qk, pv: Pv)
    requires sh.Valid() && Sized(sh, q) && q.windows == [] && |pv.ready| == sh.PvWorkers() && pv.batches == []
    ensures Lanes(sh, q) && Listed(sh, q.windows) && Rank(sh, 0, 0, 0) == 0
    ensures PvLanes(sh, pv) && Sourced(sh, q.windows, pv.batches) && InOrder(pv.batches, 0, 0) && Items(pv.batches) == 0
  {
  }

  // ---- What the schedule guarantees

  /** Every row block of every head is in exactly one PV batch of every key window. */
  lemma ExactlyOnce(sh: Shape, pv: Pv, key: nat, block: nat)
    requires sh.Valid() && Covered(sh, pv.batches, sh.kvHeads, 0, 0) && key < sh.KeyWindows()
    ensures Occurrences(pv.batches, key, block) == if block < sh.heads * sh.queryLength / TILE then 1 else 0
  {
    hide Occurrences;
    assert sh.kvHeads * sh.Group() == sh.heads;
    assert Done(sh, sh.kvHeads, 0, 0, key, block) <==> block < Base(sh, sh.kvHeads);
  }

  /** A PV batch starts only after the softmax of each of its blocks has reached it: the
      softmax of the same head and key window and of the block's row window. */
  lemma AfterProducers(sh: Shape, q: Qk, pv: Pv, i: nat, p: nat)
    requires sh.Valid() && Lanes(sh, q) && PvLanes(sh, pv) && Sourced(sh, q.windows, pv.batches)
    requires i < |pv.batches| && p < |pv.batches[i].items|
    ensures Fed(sh, q, pv.batches[i], pv.batches[i].items[p])
  {
    hide Base;
    var b, x := pv.batches[i], pv.batches[i].items[p];
    assert Produced(sh, q.windows, b.kv, b.key, b.worker, x) && BatchTimed(sh, b);
    assert Known(sh, q, q.windows[x.window]);
  }

  lemma {:induction false} OccursIn(bs: seq<Batch>, i: nat, p: nat)
    requires i < |bs| && p < |bs[i].items|
    ensures Occurrences(bs, bs[i].key, bs[i].items[p].block) >= 1
  {
    var n := |bs| - 1;
    if i < n { OccursIn(bs[..n], i, p); } else { CountAtLeast(bs[i].items, p); }
  }

  lemma {:induction false} CountAtLeast(l: seq<Input>, p: nat)
    requires p < |l|
    ensures CountIn(l, l[p].block) >= 1
  {
    var n := |l| - 1;
    if p < n { CountAtLeast(l[..n], p); }
  }

  lemma {:induction false} OccursTwice(bs: seq<Batch>, i: nat, j: nat, p: nat, r: nat)
    requires i < j < |bs| && p < |bs[i].items| && r < |bs[j].items|
    requires bs[i].key == bs[j].key && bs[i].items[p].block == bs[j].items[r].block
    ensures Occurrences(bs, bs[i].key, bs[i].items[p].block) >= 2
  {
    var n := |bs| - 1;
    if j < n {
      OccursTwice(bs[..n], i, j, p, r);
    } else {
      OccursIn(bs[..n], i, p);
      CountAtLeast(bs[j].items, r);
    }
  }

  /** The PV batches of a row block run on one worker, one after the other, in key order. */
  lemma BlockOrder(sh: Shape, q: Qk, pv: Pv, i: nat, j: nat, p: nat, r: nat)
    requires sh.Valid() && Listed(sh, q.windows) && PvLanes(sh, pv) && Sourced(sh, q.windows, pv.batches)
    requires InOrder(pv.batches, sh.kvHeads, 0) && Covered(sh, pv.batches, sh.kvHeads, 0, 0)
    requires i < j < |pv.batches| && p < |pv.batches[i].items| && r < |pv.batches[j].items|
    requires pv.batches[i].items[p].block == pv.batches[j].items[r].block
    ensures pv.batches[i].key < pv.batches[j].key && pv.batches[i].end <= pv.batches[j].start
  {
    hide Occurrences, Rank, Base;
    var a, b := pv.batches[i], pv.batches[j];
    assert Produced(sh, q.windows, a.kv, a.key, a.worker, a.items[p]);
    assert Produced(sh, q.windows, b.kv, b.key, b.worker, b.items[r]);
    if a.kv < b.kv { BaseApart(sh, a.kv, b.kv); }
    if b.kv < a.kv { BaseApart(sh, b.kv, a.kv); }
    if a.key == b.key { OccursTwice(pv.batches, i, j, p, r); }
  }

  lemma BaseApart(sh: Shape, a: nat, b: nat)
    requires sh.Valid() && a < b
    ensures Base(sh, a) + 2 * sh.RowWindows() <= Base(sh, b)
  {
    BaseStep(sh, a);
    BaseStep(sh, b);
    MulMono(a + 1, b, 2 * sh.RowWindows());
    Distribute(a, 1, 2 * sh.RowWindows());
  }

  function Works(bs: seq<Batch>, n: nat): seq<nat> { seq(n, w requires 0 <= w => Work(bs, w)) }

  lemma {:induction false} WorksTotal(bs: seq<Batch>, n: nat)
    requires forall i | 0 <= i < |bs| :: bs[i].worker < n
    ensures Total(Works(bs, n)) == PV_CYCLES * Items(bs)
  {
    if bs == [] {
      TotalZero(Works(bs, n));
    } else {
      var k := |bs| - 1;
      WorksTotal(bs[..k], n);
      var before := Works(bs[..k], n);
      var w := bs[k].worker;
      assert Works(bs, n) == before[w := before[w] + PV_CYCLES * |bs[k].items|];
      TotalRaised(before, w, PV_CYCLES * |bs[k].items|);
    }
  }

  lemma PvWork(sh: Shape, pv: Pv)
    requires sh.Valid() && PvLanes(sh, pv)
    ensures PV_CYCLES * Items(pv.batches) <= sh.PvWorkers() * MaxOf(pv.ready)
  {
    hide Work, Items;
    assert forall i | 0 <= i < |pv.batches| :: BatchTimed(sh, pv.batches[i]);
    WorksTotal(pv.batches, sh.PvWorkers());
    TotalMono(Works(pv.batches, sh.PvWorkers()), pv.ready);
    TotalAtMost(pv.ready, MaxOf(pv.ready));
  }

  /** softmax_elements: scores in the whole attention. */
  function Scores(sh: Shape): nat { sh.heads * sh.queryLength * sh.kvLength }

  /** The number of multiply-accumulates and of scores, in windows. */
  lemma MacsInWindows(sh: Shape)
    requires sh.Valid()
    ensures var n := Rank(sh, sh.kvHeads, 0, 0);
      && Scores(sh) * HEAD_DIM == n * QK_CYCLES * ARRAY_MACS
      && Scores(sh) == n * 2048 * 16
      && sh.kvHeads * (sh.KeyWindows() * (2 * sh.RowWindows())) == 2 * n
  {
    var h, g, a, c := sh.kvHeads, sh.Group(), sh.queryLength / 128, sh.KeyWindows();
    BaseStep(sh, 1);
    assert sh.RowWindows() == g * a by {
      assert g * sh.queryLength == (2 * (g * a)) * TILE;
      DivUnique(g * sh.queryLength, TILE, 2 * (g * a), 0);
    }
    assert sh.heads == h * g && sh.queryLength == 128 * a && sh.kvLength == 256 * c;
    Product(h, g, a, c);
  }

  lemma Product(h: nat, g: nat, a: nat, c: nat)
    ensures (h * g) * (128 * a) * (256 * c) == (h * c) * (g * a) * 32768
    ensures h * (c * (2 * (g * a))) == 2 * ((h * c) * (g * a))
  {
    var x := g * a;
    assert (h * g) * (128 * a) == 128 * (h * x) by { MulAssoc(h, g, 128 * a); MulAssoc(h, x, 128); }
    assert (128 * (h * x)) * (256 * c) == 32768 * ((h * x) * c);
    assert (h * x) * c == (h * c) * x by { MulAssoc(h, x, c); MulAssoc(h, c, x); }
    assert h * (c * (2 * x)) == 2 * ((h * c) * x) by { MulAssoc(h, c, 2 * x); }
  }

  /** The reported floors are lower bounds of the last cycle: the QK and PV floors always, the
      softmax floor when a window's softmax takes its 2048 cycles or more. */
  lemma FloorsHold(sh: Shape, q: Qk, pv: Pv, endCycle: nat)
    requires sh.Valid() && Lanes(sh, q) && PvLanes(sh, pv) && |q.windows| == Rank(sh, sh.kvHeads, 0, 0)
    requires Items(pv.batches) == sh.kvHeads * (sh.KeyWindows() * (2 * sh.RowWindows()))
    requires |q.ready| >= 1 && |q.sfu| >= 1 && |pv.ready| >= 1
    requires endCycle == Max(Max(MaxOf(q.ready), MaxOf(q.sfu)), MaxOf(pv.ready))
    ensures FloorsBelow(sh, endCycle)
  {
    hide Lanes, PvLanes, Items, MaxOf, Rank, Scores, CeilDiv;
    var n, x, y := Rank(sh, sh.kvHeads, 0, 0), sh.QkWorkers(), sh.PvWorkers();
    QkWork(sh, q);
    PvWork(sh, pv);
    MacsInWindows(sh);
    FloorOf(n * QK_CYCLES, x, MaxOf(q.ready), endCycle, ARRAY_MACS);
    FloorOf(n * QK_CYCLES, y, MaxOf(pv.ready), endCycle, ARRAY_MACS);
    if sh.sfuCycles >= 2048 {
      MulMono(2048, sh.sfuCycles, n);
      FloorOf(n * 2048, x, MaxOf(q.sfu), endCycle, 16);
    }
  }

  lemma Guaranteed(sh: Shape, q: Qk, pv: Pv, endCycle: nat)
    requires sh.Valid() && Lanes(sh, q) && Listed(sh, q.windows) && |q.windows| == Rank(sh, sh.kvHeads, 0, 0)
    requires PvLanes(sh, pv) && Sourced(sh, q.windows, pv.batches) && InOrder(pv.batches, sh.kvHeads, 0)
    requires Covered(sh, pv.batches, sh.kvHeads, 0, 0)
    requires Items(pv.batches) == sh.kvHeads * (sh.KeyWindows() * (2 * sh.RowWindows()))
    requires |q.ready| >= 1 && |q.sfu| >= 1 && |pv.ready| >= 1
    requires endCycle == Max(Max(MaxOf(q.ready), MaxOf(q.sfu)), MaxOf(pv.ready))
    ensures OnceEach(sh, pv) && AllFed(sh, q, pv) && KeyOrdered(pv) && FloorsBelow(sh, endCycle)
  {
    hide Lanes, Listed, PvLanes, Sourced, InOrder, Covered, Items, Rank, MaxOf, FloorsBelow, Fed, Occurrences;
    forall key: nat, block: nat | key < sh.KeyWindows()
      ensures Occurrences(pv.batches, key, block) == if block < sh.heads * sh.queryLength / TILE then 1 else 0
    {
      ExactlyOnce(sh, pv, key, block);
    }
    forall i, p | 0 <= i < |pv.batches| && 0 <= p < |pv.batches[i].items|
      ensures Fed(sh, q, pv.batches[i], pv.batches[i].items[p])
    {
      AfterProducers(sh, q, pv, i, p);
    }
    forall i, j | 0 <= i < j < |pv.batches| && Shares(pv.batches[i], pv.batches[j])
      ensures pv.batches[i].key < pv.batches[j].key && pv.batches[i].end <= pv.batches[j].start
    {
      var p, r :| 0 <= p < |pv.batches[i].items| && 0 <= r < |pv.batches[j].items| && pv.batches[i].items[p].block == pv.batches[j].items[r].block;
      BlockOrder(sh, q, pv, i, j, p, r);
    }
    FloorsHold(sh, q, pv, endCycle);
  }

  lemma FloorOf(work: nat, workers: nat, last: nat, end: nat, rate: nat)
    requires workers >= 1 && rate >= 1 && work <= workers * last && last <= end
    ensures workers * rate >= 1 && CeilDiv(work * rate, workers * rate) <= end
  {
    MulMono(last, end, workers);
    MulMono(work, workers * end, rate);
    assert (workers * end) * rate == (workers * rate) * end by { MulAssoc(workers, end, rate); MulAssoc(workers, rate, end); }
    CeilLeast(work * rate, workers * rate, end);
  }
}
