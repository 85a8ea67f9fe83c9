/** Pools of physical pages (ArielMemoryManagerCache): their construction in linear or random
    order, and what keeps them usable as disjoint byte ranges. */
module PagePool {
  import opened Arith

  /** Page addresses in ascending order. */
  function Linear(count: nat, size: nat, start: nat): seq<nat> {
    seq(count, i requires 0 <= i => start + i * size)
  }

  predicate NoDup(s: seq<nat>) { forall i, j | 0 <= i < j < |s| :: s[i] != s[j] }

  /** Different pages share no byte. */
  predicate Apart(pages: set<nat>, size: nat) {
    forall p, q | p in pages && q in pages && p < q :: p + size <= q
  }

  function Elements(s: seq<nat>): set<nat> { set x | x in s }

  lemma LinearApart(count: nat, size: nat, start: nat)
    requires size >= 1
    ensures NoDup(Linear(count, size, start)) && Apart(Elements(Linear(count, size, start)), size)
  {
    var s := Linear(count, size, start);
    forall i, j | 0 <= i < j < |s|
      ensures s[i] + size <= s[j]
    {
      MulMono(i + 1, j, size);
      Distribute(i, 1, size);
    }
    forall p, q | p in Elements(s) && q in Elements(s) && p < q
      ensures p + size <= q
    {
      var i :| 0 <= i < |s| && s[i] == p;
      var j :| 0 <= j < |s| && s[j] == q;
      assert j < i ==> s[j] + size <= s[i];
    }
  }

  method MapPagesLinear(count: nat, size: nat, start: nat) returns (pages: seq<nat>)
    ensures pages == Linear(count, size, start)
  {
    pages := [];
    var next := start;
    for j := 0 to count
      invariant next == start + j * size && pages == Linear(j, size, start)
    {
      pages := pages + [next];
      Distribute(j, 1, size);
      next := next + size;
    }
  }

  /** Random order: whatever the generator yields, the result is a permutation. */
  method MapPagesRandom(count: nat, size: nat, start: nat, random: nat -> nat) returns (pages: seq<nat>)
    ensures multiset(pages) == multiset(Linear(count, size, start))
  {
    var order := new nat[count];
    var next := start;
    for j := 0 to count
      invariant next == start + j * size
      invariant forall k | 0 <= k < j :: order[k] == Linear(count, size, start)[k]
    {
      order[j] := next;
      Distribute(j, 1, size);
      next := next + size;
    }
    assert order[..] == Linear(count, size, start);
    for j := 0 to count * 2
      invariant multiset(order[..]) == multiset(Linear(count, size, start))
    {
      var left, right := random(2 * j) % count, random(2 * j + 1) % count;
      if left != right { order[left], order[right] := order[right], order[left]; }
    }
    pages := order[..];
  }

  /** A permutation of distinct pages has the same pages, each once. */
  lemma PermutationKeeps(s: seq<nat>, t: seq<nat>)
    requires NoDup(s) && multiset(t) == multiset(s)
    ensures NoDup(t) && Elements(t) == Elements(s)
  {
    forall x
      ensures x in t <==> x in s
    {
      assert x in multiset(t) <==> x in multiset(s);
    }
    forall i, j | 0 <= i < j < |t|
      ensures t[i] != t[j]
    {
      if t[i] == t[j] {
        Twice(t, i, j);
        Once(s, t[i]);
      }
    }
  }

  lemma {:induction false} Once(s: seq<nat>, x: nat)
    requires NoDup(s)
    ensures multiset(s)[x] <= 1
  {
    if s != [] {
      var n := |s| - 1;
      Once(s[..n], x);
      assert s == s[..n] + [s[n]];
      if s[n] == x { assert x !in s[..n]; }
    }
  }

  lemma Twice(t: seq<nat>, i: nat, j: nat)
    requires i < j < |t| && t[i] == t[j]
    ensures multiset(t)[t[i]] >= 2
  {
    assert t == t[..j] + ([t[j]] + t[j + 1..]);
    assert t[i] in t[..j];
  }
}
