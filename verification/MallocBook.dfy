/** The bookkeeping of live mallocs (ArielMemoryManagerMalloc): page keys, the lookup of the
    malloc that contains an address, and what allocating and freeing keep. */
module MallocBook {
  import opened Arith
  import opened Dram
  import opened PagePool
  import opened SimpleManager

  /** A live malloc: its size, its level and the virtual addresses of its pages. */
  datatype Info = Info(size: nat, level: nat, keys: set<nat>)

  /** `trans` maps page keys to physical pages, `primary` maps them to their malloc. */
  datatype Book = Book(trans: map<nat, nat>, primary: map<nat, nat>, info: map<nat, Info>)

  predicate Inside(b: Book, a: nat, v: nat)
    requires a in b.info
  {
    a <= v < a + b.info[a].size
  }

  /** Live mallocs are non-empty and share no address. */
  ghost predicate Disjoint(b: Book) {
    && (forall a | a in b.info :: b.info[a].size >= 1)
    && (forall a, c, v: nat | a in b.info && c in b.info && Inside(b, a, v) && Inside(b, c, v) :: a == c)
  }

  /** A malloc owns one key per page of its level, and every key belongs to one malloc. */
  ghost predicate BookOk(sizes: seq<nat>, b: Book) {
    (forall a | a in b.info :: InfoOk(sizes, a, b.info[a])) && KeysOk(b)
  }

  ghost predicate InfoOk(sizes: seq<nat>, a: nat, i: Info) {
    i.level < |sizes| && sizes[i.level] >= 1 && i.keys == Elements(Needed(i.size, sizes[i.level], a))
  }

  ghost predicate KeysOk(b: Book) {
    && b.trans.Keys == b.primary.Keys
    && (forall k | k in b.primary :: b.primary[k] in b.info && k in b.info[b.primary[k]].keys)
    && (forall a, k | a in b.info && k in b.info[a].keys :: k in b.primary && b.primary[k] == a)
  }

  /** The greatest key at or below an address: what upper_bound followed by a step back finds. */
  ghost predicate IsFloor(keys: set<nat>, v: nat, k: Option<nat>) {
    match k
    case None => forall x | x in keys :: x > v
    case Some(f) => f in keys && f <= v && forall x | x in keys && x <= v :: x <= f
  }

  method Floor(keys: set<nat>, v: nat) returns (k: Option<nat>)
    ensures IsFloor(keys, v, k)
  {
    k := None;
    var left := keys;
    while left != {}
      invariant left <= keys && IsFloor(keys - left, v, k)
      decreases left
    {
      var x :| x in left;
      assert keys - (left - {x}) == (keys - left) + {x};
      if x <= v && (k.None? || k.value < x) { k := Some(x); }
      left := left - {x};
    }
    assert keys - left == keys;
  }

  /** The key of the page that holds an address of a malloc. */
  function KeyOf(a: nat, size: nat, v: nat): nat
    requires size >= 1 && a <= v
  {
    a + (v - a) / size * size
  }

  lemma KeyBounds(a: nat, bytes: nat, size: nat, k: nat)
    requires size >= 1 && k in Needed(bytes, size, a)
    ensures a <= k < a + bytes
  {
    var n := Needed(bytes, size, a);
    var i :| 0 <= i < |n| && n[i] == k;
    MulMono(i + 1, |n|, size);
    Distribute(i, 1, size);
    Rounding(bytes, size);
  }

  lemma KeyHolds(a: nat, bytes: nat, size: nat, v: nat)
    requires size >= 1 && a <= v < a + bytes
    ensures KeyOf(a, size, v) in Needed(bytes, size, a) && KeyOf(a, size, v) <= v < KeyOf(a, size, v) + size
  {
    var n, i := Needed(bytes, size, a), (v - a) / size;
    assert v - a == i * size + (v - a) % size;
    Rounding(bytes, size);
    if i >= |n| { MulMono(|n|, i, size); }
    assert n[i] == KeyOf(a, size, v);
  }

  /** Keys of one malloc that are not above an address of it are not above that address's key. */
  lemma KeyIsFloor(a: nat, bytes: nat, size: nat, v: nat, k: nat)
    requires size >= 1 && a <= v < a + bytes && k in Needed(bytes, size, a) && k <= v
    ensures k <= KeyOf(a, size, v)
  {
    var n, i := Needed(bytes, size, a), (v - a) / size;
    var j :| 0 <= j < |n| && n[j] == k;
    assert v - a == i * size + (v - a) % size;
    if j > i { MulMono(i + 1, j, size); Distribute(i, 1, size); } else { MulMono(j, i, size); }
  }

  /** The lookup finds the malloc that contains an address exactly when there is one, and the
      page of it that holds the address. */
  lemma LookupExact(sizes: seq<nat>, b: Book, v: nat, f: Option<nat>)
    requires BookOk(sizes, b) && Disjoint(b) && IsFloor(b.trans.Keys, v, f)
    ensures (exists a | a in b.info :: Inside(b, a, v)) <==>
            f.Some? && v < b.primary[f.value] + b.info[b.primary[f.value]].size
    ensures forall a | a in b.info && Inside(b, a, v) ::
              f.Some? && b.primary[f.value] == a && f.value == KeyOf(a, sizes[b.info[a].level], v)
  {
    forall a | a in b.info && Inside(b, a, v)
      ensures f.Some? && b.primary[f.value] == a && f.value == KeyOf(a, sizes[b.info[a].level], v)
    {
      FloorInside(sizes, b, v, f, a);
    }
    if f.Some? {
      var a := b.primary[f.value];
      KeyBounds(a, b.info[a].size, sizes[b.info[a].level], f.value);
      assert v < a + b.info[a].size ==> Inside(b, a, v);
    }
  }

  lemma FloorInside(sizes: seq<nat>, b: Book, v: nat, f: Option<nat>, a: nat)
    requires BookOk(sizes, b) && Disjoint(b) && IsFloor(b.trans.Keys, v, f) && a in b.info && Inside(b, a, v)
    ensures f.Some? && b.primary[f.value] == a && f.value == KeyOf(a, sizes[b.info[a].level], v)
  {
    hide BookOk, Disjoint, Needed;
    Owned(sizes, b, a);
    var s := sizes[b.info[a].level];
    var k := KeyOf(a, s, v);
    KeyHolds(a, b.info[a].size, s, v);
    OwnsKey(sizes, b, a, k);
    assert k in b.trans.Keys;
    KeyOwner(sizes, b, f.value);
    var c := b.primary[f.value];
    SameMalloc(b, a, c, f.value);
    KeyIsFloor(a, b.info[a].size, s, v, f.value);
  }

  lemma Owned(sizes: seq<nat>, b: Book, a: nat)
    requires BookOk(sizes, b) && a in b.info
    ensures b.info[a].level < |sizes| && sizes[b.info[a].level] >= 1
    ensures b.info[a].keys == Elements(Needed(b.info[a].size, sizes[b.info[a].level], a))
    ensures b.trans.Keys == b.primary.Keys
  {
    hide Needed;
  }

  lemma OwnsKey(sizes: seq<nat>, b: Book, a: nat, k: nat)
    requires BookOk(sizes, b) && a in b.info && b.info[a].level < |sizes| && sizes[b.info[a].level] >= 1
    requires k in Needed(b.info[a].size, sizes[b.info[a].level], a)
    ensures k in b.trans && k in b.primary && b.primary[k] == a
  {
    hide Needed;
    assert k in b.info[a].keys;
    assert k in b.trans.Keys;
  }

  lemma KeyOwner(sizes: seq<nat>, b: Book, k: nat)
    requires BookOk(sizes, b) && k in b.trans
    ensures k in b.primary && b.primary[k] in b.info && Inside(b, b.primary[k], k)
    ensures var i := b.info[b.primary[k]];
      i.level < |sizes| && sizes[i.level] >= 1 && k in Needed(i.size, sizes[i.level], b.primary[k])
  {
    hide Needed;
    assert k in b.trans.Keys;
    var c := b.primary[k];
    KeyBounds(c, b.info[c].size, sizes[b.info[c].level], k);
  }

  lemma SameMalloc(b: Book, a: nat, c: nat, v: nat)
    requires Disjoint(b) && a in b.info && c in b.info && Inside(b, a, v) && Inside(b, c, v)
    ensures a == c
  {
  }

  // ---- Allocating and freeing

  /** The first `n` keys mapped to the values at their positions. */
  function Mapped(keys: seq<nat>, values: seq<nat>, n: nat): map<nat, nat>
    requires n <= |keys| && n <= |values|
  {
    if n == 0 then map[] else Mapped(keys, values, n - 1)[keys[n - 1] := values[n - 1]]
  }

  lemma {:induction false} MappedKeys(keys: seq<nat>, values: seq<nat>, n: nat)
    requires n <= |keys| && n <= |values|
    ensures Mapped(keys, values, n).Keys == Elements(keys[..n])
    ensures NoDup(keys) ==> forall i | 0 <= i < n :: Mapped(keys, values, n)[keys[i]] == values[i]
  {
    if n > 0 {
      MappedKeys(keys, values, n - 1);
      assert keys[..n] == keys[..n - 1] + [keys[n - 1]];
      assert Elements(keys[..n]) == Elements(keys[..n - 1]) + {keys[n - 1]};
    }
  }

  function Constantly(n: nat, a: nat): seq<nat> { seq(n, i => a) }

  /** The book with one more malloc whose pages are `phys`, in order. */
  function With(b: Book, a: nat, info: Info, keys: seq<nat>, phys: seq<nat>): Book
    requires |keys| <= |phys|
  {
    Book(b.trans + Mapped(keys, phys, |keys|), b.primary + Mapped(keys, Constantly(|keys|, a), |keys|), b.info[a := info])
  }

  function Without(b: Book, a: nat): Book
    requires a in b.info
  {
    Book(b.trans - b.info[a].keys, b.primary - b.info[a].keys, b.info - {a})
  }

  lemma WithoutOk(sizes: seq<nat>, b: Book, a: nat)
    requires BookOk(sizes, b) && Disjoint(b) && a in b.info
    ensures BookOk(sizes, Without(b, a)) && Disjoint(Without(b, a))
  {
    hide InfoOk, Disjoint, KeysOk;
    WithoutDisjoint(b, a);
    WithoutKeys(b, a);
  }

  lemma WithoutKeys(b: Book, a: nat)
    requires KeysOk(b) && a in b.info
    ensures KeysOk(Without(b, a))
  {
    var b' := Without(b, a);
    assert b'.trans.Keys == b.trans.Keys - b.info[a].keys && b'.primary.Keys == b.primary.Keys - b.info[a].keys;
    forall c, k | c in b'.info && k in b'.info[c].keys
      ensures k in b'.primary && b'.primary[k] == c
    {
      assert k in b.info[c].keys && b.primary[k] == c;
    }
  }

  lemma WithoutDisjoint(b: Book, a: nat)
    requires Disjoint(b) && a in b.info
    ensures Disjoint(Without(b, a))
  {
    var b' := Without(b, a);
    forall c, e, v: nat | c in b'.info && e in b'.info && Inside(b', c, v) && Inside(b', e, v)
      ensures c == e
    {
      assert Inside(b, c, v) && Inside(b, e, v);
    }
  }

  /** Room for a malloc: no live malloc shares an address with it. */
  ghost predicate Clear(b: Book, a: nat, size: nat) {
    forall c, v: nat | c in b.info && a <= v < a + size :: !Inside(b, c, v)
  }

  lemma WithOk(sizes: seq<nat>, b: Book, a: nat, size: nat, level: nat, phys: seq<nat>)
    requires BookOk(sizes, b) && Disjoint(b) && size >= 1 && level < |sizes| && sizes[level] >= 1 && Clear(b, a, size)
    requires |Needed(size, sizes[level], a)| <= |phys|
    ensures var keys := Needed(size, sizes[level], a);
      var b' := With(b, a, Info(size, level, Elements(keys)), keys, phys);
      && BookOk(sizes, b') && Disjoint(b') && a !in b.info && (forall k | k in keys :: k !in b.trans)
  {
    var keys := Needed(size, sizes[level], a);
    var b' := With(b, a, Info(size, level, Elements(keys)), keys, phys);
    KeysUnused(sizes, b, a, size, level);
    NeededDistinct(size, sizes[level], a);
    WithDisjoint(b, a, size, b');
    WithKeys(b, a, Info(size, level, Elements(keys)), keys, phys);
    hide Needed, Disjoint, Clear, Inside, KeysOk;
    assert forall c | c in b.info :: b'.info[c] == b.info[c];
  }

  lemma WithKeys(b: Book, a: nat, i: Info, keys: seq<nat>, phys: seq<nat>)
    requires KeysOk(b) && a !in b.info && i.keys == Elements(keys) && |keys| <= |phys| && forall k | k in keys :: k !in b.trans
    requires NoDup(keys)
    ensures KeysOk(With(b, a, i, keys, phys))
  {
    var b' := With(b, a, i, keys, phys);
    hide With;
    WithInfo(b, a, i, keys, phys);
    forall k
      ensures k in b'.trans <==> k in b'.primary
    {
      WithAt(b, a, i, keys, phys, k);
      assert k in b.trans.Keys <==> k in b.primary.Keys;
    }
    assert b'.trans.Keys == b'.primary.Keys;
    forall k | k in b'.primary
      ensures b'.primary[k] in b'.info && k in b'.info[b'.primary[k]].keys
    {
      WithAt(b, a, i, keys, phys, k);
    }
    forall c, k | c in b'.info && k in b'.info[c].keys
      ensures k in b'.primary && b'.primary[k] == c
    {
      WithAt(b, a, i, keys, phys, k);
      if c != a { assert k in b.info[c].keys && k in b.trans.Keys; }
    }
  }

  lemma WithInfo(b: Book, a: nat, i: Info, keys: seq<nat>, phys: seq<nat>)
    requires |keys| <= |phys|
    ensures With(b, a, i, keys, phys).info == b.info[a := i]
  {
  }

  /** The entry of one key in a book with one more malloc. */
  lemma WithAt(b: Book, a: nat, i: Info, keys: seq<nat>, phys: seq<nat>, k: nat)
    requires |keys| <= |phys| && NoDup(keys)
    ensures var b' := With(b, a, i, keys, phys);
      && (k in b'.trans <==> k in b.trans || k in keys) && (k in b'.primary <==> k in b.primary || k in keys)
      && (k in keys ==> b'.primary[k] == a && exists j | 0 <= j < |keys| :: keys[j] == k && b'.trans[k] == phys[j])
      && (k in b.trans && k !in keys ==> b'.trans[k] == b.trans[k])
      && (k in b.primary && k !in keys ==> b'.primary[k] == b.primary[k])
  {
    hide Mapped;
    MappedKeys(keys, phys, |keys|);
    MappedKeys(keys, Constantly(|keys|, a), |keys|);
    assert keys[..|keys|] == keys;
    if k in keys { var j :| 0 <= j < |keys| && keys[j] == k; }
  }

  lemma KeysUnused(sizes: seq<nat>, b: Book, a: nat, size: nat, level: nat)
    requires BookOk(sizes, b) && size >= 1 && level < |sizes| && sizes[level] >= 1 && Clear(b, a, size)
    ensures a !in b.info || b.info[a].size == 0
    ensures forall k | k in Needed(size, sizes[level], a) :: k !in b.trans
  {
    hide BookOk, Needed;
    assert a <= a < a + size;
    assert a in b.info ==> !Inside(b, a, a);
    forall k | k in Needed(size, sizes[level], a)
      ensures k !in b.trans
    {
      KeyBounds(a, size, sizes[level], k);
      if k in b.trans { KeyOwner(sizes, b, k); }
    }
  }

  lemma WithDisjoint(b: Book, a: nat, size: nat, b': Book)
    requires Disjoint(b) && size >= 1 && Clear(b, a, size) && a in b'.info && b'.info[a].size == size && b'.info == b.info[a := b'.info[a]]
    ensures Disjoint(b') && a !in b.info
  {
    assert a <= a < a + size;
    assert a in b.info ==> Inside(b, a, a);
    forall c, e, v: nat | c in b'.info && e in b'.info && Inside(b', c, v) && Inside(b', e, v)
      ensures c == e
    {
      if c != a { assert Inside(b, c, v); }
      if e != a { assert Inside(b, e, v); }
    }
  }
}
