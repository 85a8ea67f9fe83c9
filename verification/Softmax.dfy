/** Attention of one query row over the reals: the online softmax loop and the pairwise tree
    merge of window summaries both give plain softmax attention. The exponential is a
    parameter `e` of which only the homomorphism law and positivity are used. */
module Softmax {
  import opened Arith

  type Vec = seq<real>

  /** A key's score against the query row, with the key's value vector. */
  datatype Item = Item(score: real, value: Vec)

  datatype Max = NoMax | Max(value: real)

  /** The running (max, sum, out) triple of a row. */
  datatype Summary = Summary(max: Max, sum: real, out: Vec)

  /** The laws of the exponential at two points. */
  predicate Law(e: real -> real, a: real, b: real) { e(a) > 0.0 && e(a + b) == e(a) * e(b) }

  ghost predicate Exponential(e: real -> real) { forall a: real, b: real :: Law(e, a, b) }

  predicate Dimension(items: seq<Item>, dh: nat) { forall i | 0 <= i < |items| :: |items[i].value| == dh }

  // ---- Plain softmax

  predicate IsMax(items: seq<Item>, m: real) {
    (exists i | 0 <= i < |items| :: items[i].score == m) && (forall i | 0 <= i < |items| :: items[i].score <= m)
  }

  function MaxScore(items: seq<Item>): (m: real)
    requires items != []
    ensures IsMax(items, m)
  {
    var n := |items| - 1;
    if n == 0 then items[0].score
    else
      var m := MaxScore(items[..n]);
      if items[n].score > m then items[n].score else m
  }

  /** The sum of the exponentials of the scores less `c`. */
  function Mass(e: real -> real, items: seq<Item>, c: real): real {
    if items == [] then 0.0
    else Mass(e, items[..|items| - 1], c) + e(items[|items| - 1].score - c)
  }

  /** Component `d` of the value vectors, weighted by the same exponentials. */
  function Weighted(e: real -> real, items: seq<Item>, c: real, d: nat): real
    requires forall i | 0 <= i < |items| :: d < |items[i].value|
  {
    if items == [] then 0.0
    else
      var last := items[|items| - 1];
      Weighted(e, items[..|items| - 1], c, d) + e(last.score - c) * last.value[d]
  }

  /** The same with normalised probabilities. */
  function Expected(e: real -> real, items: seq<Item>, c: real, total: real, d: nat): real
    requires total != 0.0 && forall i | 0 <= i < |items| :: d < |items[i].value|
  {
    if items == [] then 0.0
    else
      var last := items[|items| - 1];
      Expected(e, items[..|items| - 1], c, total, d) + e(last.score - c) / total * last.value[d]
  }

  lemma {:induction false} MassPositive(e: real -> real, items: seq<Item>, c: real)
    requires Exponential(e)
    ensures Mass(e, items, c) >= 0.0 && (items != [] ==> Mass(e, items, c) > 0.0)
  {
    if items != [] {
      MassPositive(e, items[..|items| - 1], c);
      assert Law(e, items[|items| - 1].score - c, 0.0);
    }
  }

  /** full_attention for one row: subtract the maximum, exponentiate, normalise, then take the
      weighted values. */
  ghost function FullRow(e: real -> real, items: seq<Item>, dh: nat): Vec
    requires Exponential(e) && items != [] && Dimension(items, dh)
  {
    var m := MaxScore(items);
    MassPositive(e, items, m);
    seq(dh, d requires 0 <= d < dh => Expected(e, items, m, Mass(e, items, m), d))
  }

  // ---- Laws of the sums

  lemma {:induction false} MassConcat(e: real -> real, p: seq<Item>, q: seq<Item>, c: real)
    ensures Mass(e, p + q, c) == Mass(e, p, c) + Mass(e, q, c)
  {
    if q == [] {
      assert p + q == p;
    } else {
      assert (p + q)[..|p + q| - 1] == p + q[..|q| - 1];
      MassConcat(e, p, q[..|q| - 1], c);
    }
  }

  lemma {:induction false} WeightedConcat(e: real -> real, p: seq<Item>, q: seq<Item>, c: real, d: nat)
    requires forall i | 0 <= i < |p| :: d < |p[i].value|
    requires forall i | 0 <= i < |q| :: d < |q[i].value|
    ensures Weighted(e, p + q, c, d) == Weighted(e, p, c, d) + Weighted(e, q, c, d)
  {
    if q == [] {
      assert p + q == p;
    } else {
      assert (p + q)[..|p + q| - 1] == p + q[..|q| - 1];
      WeightedConcat(e, p, q[..|q| - 1], c, d);
    }
  }

  lemma Rescale(e: real -> real, score: real, c: real, c': real)
    requires Exponential(e)
    ensures e(score - c') == e(score - c) * e(c - c')
  {
    assert Law(e, score - c, c - c') && (score - c) + (c - c') == score - c';
  }

  /** Moving the reference point scales every sum by the same factor. */
  lemma {:induction false} MassShift(e: real -> real, items: seq<Item>, c: real, c': real)
    requires Exponential(e)
    ensures Mass(e, items, c') == Mass(e, items, c) * e(c - c')
  {
    if items != [] {
      var n := |items| - 1;
      MassShift(e, items[..n], c, c');
      Rescale(e, items[n].score, c, c');
      Spread(Mass(e, items[..n], c), e(items[n].score - c), e(c - c'));
    }
  }

  lemma {:induction false} WeightedShift(e: real -> real, items: seq<Item>, c: real, c': real, d: nat)
    requires Exponential(e) && forall i | 0 <= i < |items| :: d < |items[i].value|
    ensures Weighted(e, items, c', d) == Weighted(e, items, c, d) * e(c - c')
  {
    if items != [] {
      var n := |items| - 1;
      var x, v, f := e(items[n].score - c), items[n].value[d], e(c - c');
      WeightedShift(e, items[..n], c, c', d);
      Rescale(e, items[n].score, c, c');
      assert x * f * v == x * v * f;
      Spread(Weighted(e, items[..n], c, d), x * v, f);
    }
  }

  lemma Spread(a: real, b: real, f: real)
    ensures (a + b) * f == a * f + b * f
  {
  }

  lemma {:induction false} ExpectedIsQuotient(e: real -> real, items: seq<Item>, c: real, total: real, d: nat)
    requires total != 0.0 && forall i | 0 <= i < |items| :: d < |items[i].value|
    ensures Expected(e, items, c, total, d) == Weighted(e, items, c, d) / total
  {
    if items != [] {
      var n := |items| - 1;
      ExpectedIsQuotient(e, items[..n], c, total, d);
      QuotientSum(Weighted(e, items[..n], c, d), e(items[n].score - c), items[n].value[d], total);
    }
  }

  lemma QuotientSum(a: real, x: real, v: real, t: real)
    requires t != 0.0
    ensures a / t + x / t * v == (a + x * v) / t
  {
    assert x / t * v == x * v / t;
  }

  // ---- Summaries

  /** The triple summarises the items seen so far. */
  ghost predicate Represents(e: real -> real, items: seq<Item>, dh: nat, s: Summary)
    requires Dimension(items, dh)
  {
    && |s.out| == dh
    && (items == [] ==> s.max.NoMax? && s.sum == 0.0 && forall d | 0 <= d < dh :: s.out[d] == 0.0)
    && (items != [] ==>
          && s.max.Max? && IsMax(items, s.max.value)
          && s.sum == Mass(e, items, s.max.value)
          && forall d | 0 <= d < dh :: s.out[d] == Weighted(e, items, s.max.value, d))
  }

  lemma MaxUnique(items: seq<Item>, m: real, m': real)
    requires IsMax(items, m) && IsMax(items, m')
    ensures m == m'
  {
  }

  /** A summary of all items, divided by its normaliser, is plain softmax attention. */
  lemma Normalised(e: real -> real, items: seq<Item>, dh: nat, s: Summary)
    requires Exponential(e) && items != [] && Dimension(items, dh) && Represents(e, items, dh, s)
    ensures s.sum > 0.0
    ensures forall d | 0 <= d < dh :: s.out[d] / s.sum == FullRow(e, items, dh)[d]
  {
    var m := MaxScore(items);
    MaxUnique(items, m, s.max.value);
    MassPositive(e, items, m);
    forall d | 0 <= d < dh
      ensures s.out[d] / s.sum == FullRow(e, items, dh)[d]
    {
      ExpectedIsQuotient(e, items, m, Mass(e, items, m), d);
    }
  }

  /** exp(max - reference), which is zero before there is a maximum. */
  function Factor(e: real -> real, m: Max, reference: real): real {
    if m.NoMax? then 0.0 else e(m.value - reference)
  }

  function Larger(m: Max, x: real): real {
    if m.NoMax? || m.value < x then x else m.value
  }

  /** Rescaling a summary to a larger reference point gives the sums at that point. */
  lemma Rescaled(e: real -> real, items: seq<Item>, dh: nat, s: Summary, c: real)
    requires Exponential(e) && Dimension(items, dh) && Represents(e, items, dh, s)
    ensures s.sum * Factor(e, s.max, c) == Mass(e, items, c)
    ensures forall d | 0 <= d < dh :: s.out[d] * Factor(e, s.max, c) == Weighted(e, items, c, d)
  {
    if items != [] {
      MassShift(e, items, s.max.value, c);
      forall d | 0 <= d < dh
        ensures s.out[d] * Factor(e, s.max, c) == Weighted(e, items, c, d)
      {
        WeightedShift(e, items, s.max.value, c, d);
      }
    }
  }

  /** Items `p` summarised at a common reference with items `q`. */
  lemma Joined(e: real -> real, p: seq<Item>, q: seq<Item>, dh: nat, c: real, s: Summary)
    requires Dimension(p, dh) && Dimension(q, dh) && IsMax(p + q, c) && s.max == Max(c) && |s.out| == dh
    requires s.sum == Mass(e, p, c) + Mass(e, q, c)
    requires forall d | 0 <= d < dh :: s.out[d] == Weighted(e, p, c, d) + Weighted(e, q, c, d)
    ensures Represents(e, p + q, dh, s)
  {
    MassConcat(e, p, q, c);
    forall d | 0 <= d < dh
      ensures s.out[d] == Weighted(e, p + q, c, d)
    {
      WeightedConcat(e, p, q, c, d);
    }
  }

  lemma LargerIsMax(p: seq<Item>, q: seq<Item>, m: Max, x: real)
    requires IsMax(q, x) && (if p == [] then m.NoMax? else m.Max? && IsMax(p, m.value))
    ensures IsMax(p + q, Larger(m, x))
  {
    var c, r := Larger(m, x), p + q;
    if p != [] && m.value >= x {
      var i :| 0 <= i < |p| && p[i].score == c;
      assert r[i].score == c;
    } else {
      var i :| 0 <= i < |q| && q[i].score == c;
      assert r[|p| + i].score == c;
    }
  }

  // ---- One window

  method WindowMax(w: seq<Item>) returns (m: real)
    requires w != []
    ensures IsMax(w, m)
  {
    m := w[0].score;
    for i := 1 to |w|
      invariant exists j | 0 <= j < i :: w[j].score == m
      invariant forall j | 0 <= j < i :: w[j].score <= m
    {
      if w[i].score > m { m := w[i].score; }
    }
  }

  /** The sum of a window's exponentials. */
  method WindowSum(e: real -> real, w: seq<Item>, c: real) returns (sum: real)
    ensures sum == Mass(e, w, c)
  {
    sum := 0.0;
    for j := 0 to |w|
      invariant sum == Mass(e, w[..j], c)
    {
      assert w[..j + 1][..j] == w[..j];
      sum := sum + e(w[j].score - c);
    }
    assert w[..|w|] == w;
  }

  /** One component of the product of a window's exponentials with its values. */
  method WindowProduct(e: real -> real, w: seq<Item>, c: real, dh: nat, d: nat) returns (dot: real)
    requires Dimension(w, dh) && d < dh
    ensures dot == Weighted(e, w, c, d)
  {
    dot := 0.0;
    for j := 0 to |w|
      invariant dot == Weighted(e, w[..j], c, d)
    {
      assert w[..j + 1][..j] == w[..j];
      dot := dot + e(w[j].score - c) * w[j].value[d];
    }
    assert w[..|w|] == w;
  }

  // ---- The online loop

  /** One window of the online loop; `seen` are the items of the earlier windows. */
  method OnlineStep(e: real -> real, ghost seen: seq<Item>, run: Summary, w: seq<Item>, dh: nat) returns (next: Summary)
    requires Exponential(e) && w != [] && Dimension(w, dh) && Dimension(seen, dh) && Represents(e, seen, dh, run)
    ensures Dimension(seen + w, dh) && Represents(e, seen + w, dh, next)
  {
    hide Mass, Weighted;
    var tileMax := WindowMax(w);
    var merged := Larger(run.max, tileMax);
    var oldScale := Factor(e, run.max, merged);
    var tileSum := WindowSum(e, w, merged);
    var out: Vec := [];
    for d := 0 to dh
      invariant |out| == d
      invariant forall k | 0 <= k < d :: out[k] == run.out[k] * oldScale + Weighted(e, w, merged, k)
    {
      var dot := WindowProduct(e, w, merged, dh, d);
      out := out + [run.out[d] * oldScale + dot];
    }
    next := Summary(Max(merged), run.sum * oldScale + tileSum, out);
    LargerIsMax(seen, w, run.max, tileMax);
    Rescaled(e, seen, dh, run, merged);
    Joined(e, seen, w, dh, merged, next);
  }

  method Divide(s: Summary) returns (out: Vec)
    requires s.sum != 0.0
    ensures |out| == |s.out| && forall d | 0 <= d < |out| :: out[d] == s.out[d] / s.sum
  {
    out := [];
    for d := 0 to |s.out|
      invariant |out| == d && forall k | 0 <= k < d :: out[k] == s.out[k] / s.sum
    {
      out := out + [s.out[d] / s.sum];
    }
  }

  /** The windows put together again. */
  ghost function Flat(parts: seq<seq<Item>>): seq<Item> {
    if parts == [] then [] else Flat(parts[..|parts| - 1]) + parts[|parts| - 1]
  }

  lemma FlatNone()
    ensures Flat([]) == []
  {
  }

  lemma FlatSnoc(parts: seq<seq<Item>>, p: seq<Item>)
    ensures Flat(parts + [p]) == Flat(parts) + p
  {
    assert (parts + [p])[..|parts|] == parts;
  }

  /** At least one window, none empty. */
  predicate Windows(parts: seq<seq<Item>>, dh: nat) {
    parts != [] && forall i | 0 <= i < |parts| :: parts[i] != [] && Dimension(parts[i], dh)
  }

  lemma {:induction false} FlatShape(parts: seq<seq<Item>>, dh: nat)
    requires Windows(parts, dh)
    ensures Flat(parts) != [] && Dimension(Flat(parts), dh)
  {
    var n := |parts| - 1;
    if n > 0 { FlatShape(parts[..n], dh); }
  }

  /** The online loop over any cut of a row into windows gives plain softmax attention of the row. */
  method OnlineParts(e: real -> real, parts: seq<seq<Item>>, dh: nat) returns (out: Vec)
    requires Exponential(e) && Windows(parts, dh)
    ensures Flat(parts) != [] && Dimension(Flat(parts), dh) && out == FullRow(e, Flat(parts), dh)
  {
    FlatNone();
    FlatShape(parts, dh);
    var run := Summary(NoMax, 0.0, seq(dh, d => 0.0));
    assert parts[..0] == [];
    for i := 0 to |parts|
      invariant Dimension(Flat(parts[..i]), dh) && Represents(e, Flat(parts[..i]), dh, run)
    {
      assert parts[..i + 1] == parts[..i] + [parts[i]];
      FlatSnoc(parts[..i], parts[i]);
      run := OnlineStep(e, Flat(parts[..i]), run, parts[i], dh);
    }
    assert parts[..|parts|] == parts;
    Normalised(e, Flat(parts), dh, run);
    out := Divide(run);
  }

  /** Windows of one width, the last one possibly shorter. */
  method Cut(items: seq<Item>, dh: nat, width: nat) returns (parts: seq<seq<Item>>)
    requires items != [] && Dimension(items, dh) && width >= 1
    ensures Windows(parts, dh) && Flat(parts) == items
    ensures forall i | 0 <= i < |parts| :: if i < |parts| - 1 then |parts[i]| == width else |parts[i]| <= width
  {
    hide Flat;
    FlatNone();
    parts := [];
    var begin := 0;
    while begin < |items|
      invariant 0 <= begin <= |items| && Flat(parts) == items[..begin] && (begin > 0 ==> parts != [])
      invariant forall i | 0 <= i < |parts| :: parts[i] != [] && Dimension(parts[i], dh)
      invariant forall i | 0 <= i < |parts| :: |parts[i]| <= width && (|parts[i]| == width || (i == |parts| - 1 && begin == |items|))
    {
      var end := if begin + width < |items| then begin + width else |items|;
      FlatSnoc(parts, items[begin..end]);
      assert items[..end] == items[..begin] + items[begin..end];
      parts := parts + [items[begin..end]];
      begin := end;
    }
    assert items[..begin] == items;
  }

  /** A row of cluster_attention: the result is plain softmax attention for every window width. */
  method OnlineRow(e: real -> real, items: seq<Item>, dh: nat, width: nat) returns (out: Vec)
    requires Exponential(e) && items != [] && Dimension(items, dh) && width >= 1
    ensures out == FullRow(e, items, dh)
  {
    var parts := Cut(items, dh, width);
    out := OnlineParts(e, parts, dh);
  }

  // ---- The tree merge

  /** The summary of a single window. */
  method Summarise(e: real -> real, w: seq<Item>, dh: nat) returns (s: Summary)
    requires Exponential(e) && w != [] && Dimension(w, dh)
    ensures Represents(e, w, dh, s)
  {
    var m := WindowMax(w);
    var sum := WindowSum(e, w, m);
    var out: Vec := [];
    for d := 0 to dh
      invariant |out| == d && forall k | 0 <= k < d :: out[k] == Weighted(e, w, m, k)
    {
      var dot := WindowProduct(e, w, m, dh, d);
      out := out + [dot];
    }
    s := Summary(Max(m), sum, out);
  }

  /** Two summaries of neighbouring item lists become one. */
  method MergePair(e: real -> real, ghost p: seq<Item>, ghost q: seq<Item>, a: Summary, b: Summary, dh: nat)
    returns (s: Summary)
    requires Exponential(e) && p != [] && q != [] && Dimension(p, dh) && Dimension(q, dh)
    requires Represents(e, p, dh, a) && Represents(e, q, dh, b)
    ensures Dimension(p + q, dh) && Represents(e, p + q, dh, s)
  {
    var combined := Larger(a.max, b.max.value);
    var left, right := Factor(e, a.max, combined), Factor(e, b.max, combined);
    var out := ScaleAndAdd(a.out, left, b.out, right);
    s := Summary(Max(combined), a.sum * left + b.sum * right, out);
    Merged(e, p, q, a, b, dh, s);
  }

  method ScaleAndAdd(a: Vec, left: real, b: Vec, right: real) returns (out: Vec)
    requires |a| == |b|
    ensures |out| == |a| && forall d | 0 <= d < |a| :: out[d] == a[d] * left + b[d] * right
  {
    out := [];
    for d := 0 to |a|
      invariant |out| == d && forall k | 0 <= k < d :: out[k] == a[k] * left + b[k] * right
    {
      out := out + [a[d] * left + b[d] * right];
    }
  }

  lemma Merged(e: real -> real, p: seq<Item>, q: seq<Item>, a: Summary, b: Summary, dh: nat, s: Summary)
    requires Exponential(e) && p != [] && q != [] && Dimension(p, dh) && Dimension(q, dh)
    requires Represents(e, p, dh, a) && Represents(e, q, dh, b) && |s.out| == dh
    requires var c := Larger(a.max, b.max.value);
      && s.max == Max(c) && s.sum == a.sum * Factor(e, a.max, c) + b.sum * Factor(e, b.max, c)
      && forall d | 0 <= d < dh :: s.out[d] == a.out[d] * Factor(e, a.max, c) + b.out[d] * Factor(e, b.max, c)
    ensures Dimension(p + q, dh) && Represents(e, p + q, dh, s)
  {
    hide Mass, Weighted, Factor;
    var c := Larger(a.max, b.max.value);
    LargerIsMax(p, q, a.max, b.max.value);
    Rescaled(e, p, dh, a, c);
    Rescaled(e, q, dh, b, c);
    Joined(e, p, q, dh, c, s);
  }

  /** Each summary represents its part. */
  ghost predicate Covers(e: real -> real, parts: seq<seq<Item>>, dh: nat, summaries: seq<Summary>) {
    && |parts| == |summaries|
    && forall i | 0 <= i < |parts| :: parts[i] != [] && Dimension(parts[i], dh) && Represents(e, parts[i], dh, summaries[i])
  }

  /** One level of the tree: neighbours are merged, an odd last summary is kept. */
  method MergeLevel(e: real -> real, ghost parts: seq<seq<Item>>, summaries: seq<Summary>, dh: nat)
    returns (merged: seq<Summary>, ghost joined: seq<seq<Item>>)
    requires Exponential(e) && Covers(e, parts, dh, summaries)
    ensures Covers(e, joined, dh, merged) && Flat(joined) == Flat(parts)
    ensures |merged| == (|summaries| + 1) / 2
  {
    hide Represents, Flat;
    merged, joined := [], [];
    var index := 0;
    while index < |summaries|
      invariant 0 <= index <= |summaries| + 1 && index % 2 == 0
      invariant |merged| == index / 2 && Covers(e, joined, dh, merged)
      invariant Flat(joined) == Flat(if index <= |parts| then parts[..index] else parts)
    {
      if index + 1 == |summaries| {
        FlatSnoc(parts[..index], parts[index]);
        FlatSnoc(joined, parts[index]);
        assert parts[..index] + [parts[index]] == parts;
        merged, joined := merged + [summaries[index]], joined + [parts[index]];
      } else {
        var s := MergePair(e, parts[index], parts[index + 1], summaries[index], summaries[index + 1], dh);
        FlatTwo(parts, index);
        FlatSnoc(joined, parts[index] + parts[index + 1]);
        merged, joined := merged + [s], joined + [parts[index] + parts[index + 1]];
      }
      index := index + 2;
    }
    assert parts[..|parts|] == parts;
  }

  lemma FlatTwo(parts: seq<seq<Item>>, i: nat)
    requires i + 1 < |parts|
    ensures Flat(parts[..i + 2]) == Flat(parts[..i]) + (parts[i] + parts[i + 1])
  {
    hide Flat;
    FlatSnoc(parts[..i], parts[i]);
    FlatSnoc(parts[..i + 1], parts[i + 1]);
    assert parts[..i] + [parts[i]] == parts[..i + 1] && parts[..i + 1] + [parts[i + 1]] == parts[..i + 2];
  }

  /** The tree merge ends with one summary of everything. */
  method TreeMerge(e: real -> real, ghost parts: seq<seq<Item>>, summaries: seq<Summary>, dh: nat) returns (s: Summary)
    requires Exponential(e) && summaries != [] && Covers(e, parts, dh, summaries)
    ensures Dimension(Flat(parts), dh) && Represents(e, Flat(parts), dh, s)
  {
    var level := summaries;
    ghost var current := parts;
    while |level| > 1
      invariant level != [] && Covers(e, current, dh, level) && Flat(current) == Flat(parts)
      decreases |level|
    {
      level, current := MergeLevel(e, current, level, dh);
    }
    assert current[..0] == [] && Flat(current) == current[0];
    s := level[0];
  }

  /** Summarising and merging any cut of a row into windows gives plain softmax attention of the row. */
  method TreeParts(e: real -> real, parts: seq<seq<Item>>, dh: nat) returns (out: Vec)
    requires Exponential(e) && Windows(parts, dh)
    ensures Flat(parts) != [] && Dimension(Flat(parts), dh) && out == FullRow(e, Flat(parts), dh)
  {
    FlatShape(parts, dh);
    hide Represents, Flat;
    var summaries: seq<Summary> := [];
    for i := 0 to |parts|
      invariant Covers(e, parts[..i], dh, summaries)
    {
      var s := Summarise(e, parts[i], dh);
      summaries := summaries + [s];
    }
    assert parts[..|parts|] == parts;
    var total := TreeMerge(e, parts, summaries, dh);
    Normalised(e, Flat(parts), dh, total);
    out := Divide(total);
  }

  /** A row of online_window_attention: again plain softmax attention, for every window width. */
  method TreeRow(e: real -> real, items: seq<Item>, dh: nat, width: nat) returns (out: Vec)
    requires Exponential(e) && items != [] && Dimension(items, dh) && width >= 1
    ensures out == FullRow(e, items, dh)
  {
    var parts := Cut(items, dh, width);
    out := TreeParts(e, parts, dh);
  }

  // ---- All heads and rows

  function Dot(a: Vec, b: Vec): real
    requires |a| == |b|
  {
    if a == [] then 0.0 else Dot(a[..|a| - 1], b[..|b| - 1]) + a[|a| - 1] * b[|b| - 1]
  }

  predicate Matrix(m: seq<Vec>, dh: nat) { forall i | 0 <= i < |m| :: |m[i]| == dh }

  /** The scaled scores of a query row against the keys of its head, with the values. */
  function RowItems(scale: real, q: Vec, keys: seq<Vec>, values: seq<Vec>): (items: seq<Item>)
    requires |keys| == |values| && Matrix(keys, |q|)
  {
    seq(|keys|, j requires 0 <= j < |keys| => Item(Dot(q, keys[j]) * scale, values[j]))
  }

  method Score(scale: real, q: Vec, key: Vec) returns (score: real)
    requires |q| == |key|
    ensures score == Dot(q, key) * scale
  {
    var dot := 0.0;
    for c := 0 to |q|
      invariant dot == Dot(q[..c], key[..c])
    {
      assert q[..c + 1][..c] == q[..c] && key[..c + 1][..c] == key[..c];
      dot := dot + q[c] * key[c];
    }
    assert q[..|q|] == q && key[..|q|] == key;
    score := dot * scale;
  }

  method Scores(scale: real, q: Vec, keys: seq<Vec>, values: seq<Vec>) returns (items: seq<Item>)
    requires |keys| == |values| && Matrix(keys, |q|)
    ensures items == RowItems(scale, q, keys, values)
  {
    items := [];
    for j := 0 to |keys|
      invariant |items| == j && forall i | 0 <= i < j :: items[i] == Item(Dot(q, keys[i]) * scale, values[i])
    {
      var score := Score(scale, q, keys[j]);
      items := items + [Item(score, values[j])];
    }
    assert forall i | 0 <= i < |keys| :: items[i] == RowItems(scale, q, keys, values)[i];
  }

  /** Query heads, key heads and value heads of matching shapes; each key head serves a group
      of query heads. */
  ghost predicate Shapes(q: seq<seq<Vec>>, k: seq<seq<Vec>>, v: seq<seq<Vec>>, dh: nat) {
    && |k| == |v| >= 1 && |q| % |k| == 0
    && (forall h | 0 <= h < |q| :: Matrix(q[h], dh))
    && (forall h | 0 <= h < |k| :: Matrix(k[h], dh) && Matrix(v[h], dh) && |k[h]| == |v[h]| >= 1)
  }

  function KeyHead(hq: nat, hkv: nat, h: nat): (r: nat)
    requires hkv >= 1 && hq % hkv == 0 && h < hq
    ensures r < hkv
  {
    var group := hq / hkv;
    assert hq == group * hkv;
    assert h / group < hkv by { if h / group >= hkv { MulMono(hkv, h / group, group); } }
    h / group
  }

  /** full_attention */
  ghost function FullAttention(e: real -> real, scale: real, q: seq<seq<Vec>>, k: seq<seq<Vec>>, v: seq<seq<Vec>>,
                               dh: nat, h: nat, row: nat): Vec
    requires Exponential(e) && Shapes(q, k, v, dh) && h < |q| && row < |q[h]|
  {
    var kv := KeyHead(|q|, |k|, h);
    FullRow(e, RowItems(scale, q[h][row], k[kv], v[kv]), dh)
  }

  /** Row by row, for either way of combining windows, the output is full attention. */
  method Attention(e: real -> real, scale: real, q: seq<seq<Vec>>, k: seq<seq<Vec>>, v: seq<seq<Vec>>,
                   dh: nat, width: nat, tree: bool) returns (output: seq<seq<Vec>>)
    requires Exponential(e) && Shapes(q, k, v, dh) && width >= 1
    ensures |output| == |q|
    ensures forall h | 0 <= h < |q| :: |output[h]| == |q[h]|
    ensures forall h, row | 0 <= h < |q| && 0 <= row < |q[h]| ::
              output[h][row] == FullAttention(e, scale, q, k, v, dh, h, row)
  {
    output := [];
    for h := 0 to |q|
      invariant |output| == h && forall i | 0 <= i < h :: |output[i]| == |q[i]|
      invariant forall i, row | 0 <= i < h && 0 <= row < |q[i]| ::
                  output[i][row] == FullAttention(e, scale, q, k, v, dh, i, row)
    {
      var rows := AttentionHead(e, scale, q, k, v, dh, width, tree, h);
      output := output + [rows];
    }
  }

  method AttentionHead(e: real -> real, scale: real, q: seq<seq<Vec>>, k: seq<seq<Vec>>, v: seq<seq<Vec>>,
                       dh: nat, width: nat, tree: bool, h: nat) returns (rows: seq<Vec>)
    requires Exponential(e) && Shapes(q, k, v, dh) && width >= 1 && h < |q|
    ensures |rows| == |q[h]|
    ensures forall row | 0 <= row < |q[h]| :: rows[row] == FullAttention(e, scale, q, k, v, dh, h, row)
  {
    var kv := KeyHead(|q|, |k|, h);
    rows := [];
    for row := 0 to |q[h]|
      invariant |rows| == row
      invariant forall i | 0 <= i < row :: rows[i] == FullAttention(e, scale, q, k, v, dh, h, i)
    {
      var items := Scores(scale, q[h][row], k[kv], v[kv]);
      var out;
      if tree {
        out := TreeRow(e, items, dh, width);
      } else {
        out := OnlineRow(e, items, dh, width);
      }
      rows := rows + [out];
    }
  }
}
