/** The QK half of the cluster timeline (build_schedule): score windows are computed on QK
    workers, held in two slots per worker and consumed by the worker's softmax unit. */
module Schedule {
  import opened Arith

  const TILE: nat := 64
  const KEY_TILE: nat := 256
  const HEAD_DIM: nat := 128
  const ELEM_BYTES: nat := 4
  const ARRAY_MACS: nat := 4096

  function CeilDiv(a: nat, b: nat): nat
    requires b >= 1
  {
    (a + b - 1) / b
  }

  /** The ceiling is the least number of `b`s that cover `a`. */
  lemma CeilLeast(a: nat, b: nat, e: nat)
    requires b >= 1
    ensures CeilDiv(a, b) <= e <==> a <= b * e
  {
    var c := CeilDiv(a, b);
    assert a + b - 1 == c * b + (a + b - 1) % b;
    if c <= e {
      MulMono(c, e, b);
    } else {
      MulMono(e + 1, c, b);
      Distribute(e, 1, b);
    }
  }

  /** _duration: cycles of an m x n x k product on one array. */
  function Duration(m: nat, n: nat, k: nat): nat { CeilDiv(m * n * k, ARRAY_MACS) }

  function MaxOf(s: seq<nat>): (m: nat)
    requires s != []
    ensures m in s && forall i | 0 <= i < |s| :: s[i] <= m
  {
    var n := |s| - 1;
    if n == 0 then s[0] else var m := MaxOf(s[..n]); if s[n] > m then s[n] else m
  }

  function MinOf(s: seq<nat>): (m: nat)
    requires s != []
    ensures m in s && forall i | 0 <= i < |s| :: s[i] >= m
  {
    var n := |s| - 1;
    if n == 0 then s[0] else var m := MinOf(s[..n]); if s[n] < m then s[n] else m
  }

  /** The arguments of build_schedule that validate accepts; the head dimension is fixed. */
  datatype Shape = Shape(
    heads: nat, kvHeads: nat, queryLength: nat, kvLength: nat, qkPerManager: nat,
    localBytes: nat, broadcastBytes: nat, linkBytes: nat, sfuCycles: nat)
  {
    predicate Valid() {
      && heads >= 1 && kvHeads >= 1 && queryLength >= 1 && kvLength >= 1
      && heads % kvHeads == 0 && heads / kvHeads in {1, 2, 4}
      && queryLength % 128 == 0 && kvLength % 256 == 0
      && qkPerManager in {1, 2}
      && localBytes >= 1 && broadcastBytes >= 1 && linkBytes >= 1 && sfuCycles >= 1
    }

    function QkWorkers(): nat { 4 * qkPerManager }

    function PvWorkers(): nat
      requires Valid()
    {
      16 - QkWorkers()
    }

    function Group(): nat
      requires Valid()
    {
      heads / kvHeads
    }

    function RowWindows(): nat
      requires Valid()
    {
      Group() * queryLength / TILE / 2
    }

    function KeyWindows(): nat { kvLength / KEY_TILE }

    /** Cycles to hand a softmax block to a PV worker. */
    function LinkCycles(): nat
      requires Valid()
    {
      CeilDiv(TILE * KEY_TILE * ELEM_BYTES, linkBytes)
    }
  }

  /** One score window of a key/value head: its QK product and its softmax. */
  datatype Window = Window(
    kv: nat, key: nat, row: nat, worker: nat, slot: nat, qReady: nat, kReady: nat,
    start: nat, qkEnd: nat, sfuStart: nat, sfuEnd: nat)

  /** When each QK worker, softmax unit and score slot is free, and the windows so far. */
  datatype Qk = Qk(ready: seq<nat>, sfu: seq<nat>, slots: seq<seq<nat>>, windows: seq<Window>)

  const QK_CYCLES: nat := 1024

  lemma QkDuration()
    ensures Duration(128, KEY_TILE, HEAD_DIM) == QK_CYCLES
  {
  }

  /** The position of a window in key-major order. */
  function Rank(sh: Shape, kv: nat, key: nat, row: nat): nat
    requires sh.Valid()
  {
    (kv * sh.KeyWindows() + key) * sh.RowWindows() + row
  }

  function Count(ws: seq<Window>, worker: nat): nat {
    if ws == [] then 0 else Count(ws[..|ws| - 1], worker) + if ws[|ws| - 1].worker == worker then 1 else 0
  }

  /** A window's own times: the product waits for its inputs, the softmax for the product. */
  predicate WindowTimed(sh: Shape, w: Window)
    requires sh.Valid()
  {
    && w.worker == w.row % sh.QkWorkers() && w.slot < 2
    && w.qReady <= w.start && w.kReady <= w.start
    && w.qkEnd == w.start + QK_CYCLES && w.qkEnd <= w.sfuStart && w.sfuEnd == w.sfuStart + sh.sfuCycles
  }

  /** Two windows of one worker: neither the products nor the softmaxes overlap, and a score
      slot is free again before the next product into it completes. */
  predicate Apart(a: Window, b: Window) {
    a.worker == b.worker ==> a.qkEnd <= b.start && a.sfuEnd <= b.sfuStart && (a.slot == b.slot ==> a.sfuEnd <= b.qkEnd)
  }

  predicate Sized(sh: Shape, q: Qk) {
    && |q.ready| == |q.sfu| == |q.slots| == sh.QkWorkers()
    && forall w | 0 <= w < |q.slots| :: |q.slots[w]| == 2
  }

  predicate Known(sh: Shape, q: Qk, w: Window)
    requires sh.Valid() && Sized(sh, q)
  {
    && WindowTimed(sh, w)
    && w.qkEnd <= q.ready[w.worker] && w.sfuEnd <= q.sfu[w.worker] && w.sfuEnd <= q.slots[w.worker][w.slot]
  }

  ghost predicate Lanes(sh: Shape, q: Qk)
    requires sh.Valid()
  {
    && Sized(sh, q)
    && (forall i | 0 <= i < |q.windows| :: Known(sh, q, q.windows[i]))
    && (forall i, j | 0 <= i < j < |q.windows| :: Apart(q.windows[i], q.windows[j]))
    && (forall w | 0 <= w < |q.ready| ::
          Count(q.windows, w) * QK_CYCLES <= q.ready[w] && Count(q.windows, w) * sh.sfuCycles <= q.sfu[w])
  }

  /** The window at position i is the i-th in key-major order. */
  ghost predicate Listed(sh: Shape, ws: seq<Window>)
    requires sh.Valid()
  {
    forall i | 0 <= i < |ws| ::
      && ws[i].kv < sh.kvHeads && ws[i].key < sh.KeyWindows() && ws[i].row < sh.RowWindows()
      && Rank(sh, ws[i].kv, ws[i].key, ws[i].row) == i
  }

  /** The timing of one window: the body of the QK loop. */
  function Timed(sh: Shape, q: Qk, kv: nat, key: nat, row: nat, qReady: nat, kReady: nat): Window
    requires sh.Valid() && Sized(sh, q)
  {
    var worker := row % sh.QkWorkers();
    var cycles := Duration(128, KEY_TILE, HEAD_DIM);
    var slot := if q.slots[worker][0] <= q.slots[worker][1] then 0 else 1;
    var start := Max(Max(q.ready[worker], qReady), Max(kReady, q.slots[worker][slot] - cycles));
    var sfuStart := Max(start + cycles, q.sfu[worker]);
    Window(kv, key, row, worker, slot, qReady, kReady, start, start + cycles, sfuStart, sfuStart + sh.sfuCycles)
  }

  function Place(sh: Shape, q: Qk, w: Window): Qk
    requires sh.Valid() && Sized(sh, q) && w.worker < |q.ready| && w.slot < 2
  {
    var pair: seq<nat> := q.slots[w.worker][w.slot := w.sfuEnd];
    Qk(q.ready[w.worker := w.qkEnd], q.sfu[w.worker := w.sfuEnd], q.slots[w.worker := pair], q.windows + [w])
  }

  lemma PlaceKeeps(sh: Shape, q: Qk, kv: nat, key: nat, row: nat, qReady: nat, kReady: nat)
    requires sh.Valid() && Lanes(sh, q)
    ensures var w := Timed(sh, q, kv, key, row, qReady, kReady);
            w.worker < |q.ready| && w.slot < 2 && Lanes(sh, Place(sh, q, w))
  {
    hide Timed, Count;
    var w := Timed(sh, q, kv, key, row, qReady, kReady);
    TimedFits(sh, q, kv, key, row, qReady, kReady);
    var q' := Place(sh, q, w);
    forall i | 0 <= i < |q'.windows|
      ensures Known(sh, q', q'.windows[i])
    {
      if i < |q.windows| { assert Known(sh, q, q.windows[i]); }
    }
    forall i, j | 0 <= i < j < |q'.windows|
      ensures Apart(q'.windows[i], q'.windows[j])
    {
      assert Known(sh, q, q.windows[i]);
    }
    forall v | 0 <= v < |q.ready|
      ensures Count(q'.windows, v) * QK_CYCLES <= q'.ready[v] && Count(q'.windows, v) * sh.sfuCycles <= q'.sfu[v]
    {
      CountSnoc(q.windows, w, v);
      Distribute(Count(q.windows, v), 1, sh.sfuCycles);
    }
  }

  lemma CountSnoc(ws: seq<Window>, w: Window, worker: nat)
    ensures Count(ws + [w], worker) == Count(ws, worker) + if w.worker == worker then 1 else 0
  {
    assert (ws + [w])[..|ws|] == ws;
  }

  /** A new window waits for its worker, its softmax unit and its slot. */
  lemma TimedFits(sh: Shape, q: Qk, kv: nat, key: nat, row: nat, qReady: nat, kReady: nat)
    requires sh.Valid() && Sized(sh, q)
    ensures var w := Timed(sh, q, kv, key, row, qReady, kReady);
      && WindowTimed(sh, w) && w.worker < |q.ready|
      && q.ready[w.worker] <= w.start && q.sfu[w.worker] <= w.sfuStart && q.slots[w.worker][w.slot] <= w.qkEnd
      && q.slots[w.worker][w.slot] <= w.sfuEnd
  {
    QkDuration();
    hide Duration;
  }

  lemma ListedOne(sh: Shape, ws: seq<Window>, w: Window)
    requires sh.Valid() && Listed(sh, ws) && w.kv < sh.kvHeads && w.key < sh.KeyWindows() && w.row < sh.RowWindows()
    requires |ws| == Rank(sh, w.kv, w.key, w.row)
    ensures Listed(sh, ws + [w])
  {
    hide Rank;
  }

  // ---- Consequences

  /** No three windows of a worker wait between product and softmax at one time. */
  lemma TwoScoreSlots(sh: Shape, q: Qk, i: nat, j: nat, k: nat, t: nat)
    requires sh.Valid() && Lanes(sh, q) && i < j < k < |q.windows|
    requires q.windows[i].worker == q.windows[j].worker == q.windows[k].worker
    ensures !(forall w | w in {q.windows[i], q.windows[j], q.windows[k]} :: w.qkEnd <= t < w.sfuEnd)
  {
    var a, b, c := q.windows[i], q.windows[j], q.windows[k];
    assert Known(sh, q, a) && Known(sh, q, b) && Known(sh, q, c);
    assert Apart(a, b) && Apart(a, c) && Apart(b, c);
    assert a.slot == b.slot || a.slot == c.slot || b.slot == c.slot;
  }

  lemma RankOrder(sh: Shape, kv: nat, a: nat, b: nat, row: nat)
    requires sh.Valid() && Rank(sh, kv, a, row) < Rank(sh, kv, b, row)
    ensures a < b
  {
    if b <= a { MulMono(kv * sh.KeyWindows() + b, kv * sh.KeyWindows() + a, sh.RowWindows()); }
  }

  /** The windows of one row window of a head are handled in key order on one worker: each
      softmax ends before the next one starts. */
  lemma KeyOrder(sh: Shape, q: Qk, i: nat, j: nat)
    requires sh.Valid() && Lanes(sh, q) && Listed(sh, q.windows) && i < j < |q.windows|
    requires q.windows[i].kv == q.windows[j].kv && q.windows[i].row == q.windows[j].row
    ensures q.windows[i].key < q.windows[j].key && q.windows[i].sfuEnd <= q.windows[j].sfuStart
  {
    var a, b := q.windows[i], q.windows[j];
    assert Known(sh, q, a) && Known(sh, q, b) && Apart(a, b);
    RankOrder(sh, a.kv, a.key, b.key, a.row);
  }

  /** The windows are one per key/value head, key window and row window. */
  lemma WindowCoverage(sh: Shape, ws: seq<Window>, kv: nat, key: nat, row: nat)
    requires sh.Valid() && Listed(sh, ws) && |ws| == Rank(sh, sh.kvHeads, 0, 0)
    requires kv < sh.kvHeads && key < sh.KeyWindows() && row < sh.RowWindows()
    ensures Rank(sh, kv, key, row) < |ws|
    ensures forall i | 0 <= i < |ws| :: (ws[i].kv, ws[i].key, ws[i].row) == (kv, key, row) <==> i == Rank(sh, kv, key, row)
  {
    var kw, rw := sh.KeyWindows(), sh.RowWindows();
    var n := Rank(sh, kv, key, row);
    MulMono(kv + 1, sh.kvHeads, kw);
    Distribute(kv, 1, kw);
    MulMono(kv * kw + key + 1, sh.kvHeads * kw, rw);
    Distribute(kv * kw + key, 1, rw);
    forall i | 0 <= i < |ws| && i == n
      ensures (ws[i].kv, ws[i].key, ws[i].row) == (kv, key, row)
    {
      RankUnique(sh, kv, key, row, ws[i].kv, ws[i].key, ws[i].row);
    }
  }

  lemma RankUnique(sh: Shape, kv: nat, key: nat, row: nat, kv': nat, key': nat, row': nat)
    requires sh.Valid() && key < sh.KeyWindows() && row < sh.RowWindows() && key' < sh.KeyWindows() && row' < sh.RowWindows()
    requires Rank(sh, kv, key, row) == Rank(sh, kv', key', row')
    ensures (kv, key, row) == (kv', key', row')
  {
    var kw, rw := sh.KeyWindows(), sh.RowWindows();
    DivUnique(Rank(sh, kv, key, row), rw, kv * kw + key, row);
    DivUnique(Rank(sh, kv, key, row), rw, kv' * kw + key', row');
    DivUnique(kv * kw + key, kw, kv, key);
    DivUnique(kv * kw + key, kw, kv', key');
  }

  // ---- Work

  function Total(s: seq<nat>): nat {
    if s == [] then 0 else Total(s[..|s| - 1]) + s[|s| - 1]
  }

  lemma {:induction false} TotalAtMost(s: seq<nat>, m: nat)
    requires forall i | 0 <= i < |s| :: s[i] <= m
    ensures Total(s) <= |s| * m
  {
    if s != [] {
      TotalAtMost(s[..|s| - 1], m);
      Distribute(|s| - 1, 1, m);
    }
  }

  lemma {:induction false} TotalMono(s: seq<nat>, t: seq<nat>)
    requires |s| == |t| && forall i | 0 <= i < |s| :: s[i] <= t[i]
    ensures Total(s) <= Total(t)
  {
    if s != [] { TotalMono(s[..|s| - 1], t[..|t| - 1]); }
  }

  function Counts(ws: seq<Window>, n: nat, c: nat): seq<nat> { seq(n, w requires 0 <= w => Count(ws, w) * c) }

  /** Every window is counted for one worker. */
  lemma {:induction false} CountsTotal(ws: seq<Window>, n: nat, c: nat)
    requires forall i | 0 <= i < |ws| :: ws[i].worker < n
    ensures Total(Counts(ws, n, c)) == |ws| * c
  {
    if ws == [] {
      TotalZero(Counts(ws, n, c));
    } else {
      var k := |ws| - 1;
      CountsTotal(ws[..k], n, c);
      var before, now := Counts(ws[..k], n, c), Counts(ws, n, c);
      var w := ws[k].worker;
      Distribute(Count(ws[..k], w), 1, c);
      assert now == before[w := before[w] + c];
      TotalRaised(before, w, c);
      Distribute(k, 1, c);
    }
  }

  lemma {:induction false} TotalZero(s: seq<nat>)
    requires forall i | 0 <= i < |s| :: s[i] == 0
    ensures Total(s) == 0
  {
    if s != [] { TotalZero(s[..|s| - 1]); }
  }

  lemma {:induction false} TotalRaised(s: seq<nat>, i: nat, c: nat)
    requires i < |s|
    ensures Total(s[i := s[i] + c]) == Total(s) + c
  {
    var n := |s| - 1;
    var t := s[i := s[i] + c];
    if i < n {
      assert t[..n] == s[..n][i := s[i] + c];
      TotalRaised(s[..n], i, c);
    } else {
      assert t[..n] == s[..n];
    }
  }

  /** Disjoint work cannot end before its share per worker. */
  lemma QkWork(sh: Shape, q: Qk)
    requires sh.Valid() && Lanes(sh, q)
    ensures |q.windows| * QK_CYCLES <= sh.QkWorkers() * MaxOf(q.ready)
    ensures |q.windows| * sh.sfuCycles <= sh.QkWorkers() * MaxOf(q.sfu)
  {
    var n := sh.QkWorkers();
    assert forall i | 0 <= i < |q.windows| :: Known(sh, q, q.windows[i]);
    CountsTotal(q.windows, n, QK_CYCLES);
    CountsTotal(q.windows, n, sh.sfuCycles);
    TotalMono(Counts(q.windows, n, QK_CYCLES), q.ready);
    TotalMono(Counts(q.windows, n, sh.sfuCycles), q.sfu);
    TotalAtMost(q.ready, MaxOf(q.ready));
    TotalAtMost(q.sfu, MaxOf(q.sfu));
  }
}
