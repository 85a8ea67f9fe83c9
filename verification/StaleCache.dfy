/** The translation cache in front of the malloc-aware memory manager. Its entries are never taken
    back, so each operation decides which of them go on being right. */
module StaleCache {
  import opened Dram
  import opened PagePool
  import S = SimpleManager
  import opened MallocBook
  import opened MallocManager

  /** The address walks to the physical address. */
  ghost predicate Right(sizes: seq<nat>, s: Pages, v: nat, phys: nat) {
    exists x: Spot :: Walks(sizes, s, v, x) && phys == x.page + x.offset
  }

  // ---- What a walk sees of the books

  lemma WithoutInside(b: Book, a: nat, v: nat)
    requires Disjoint(b) && a in b.info
    ensures InMalloc(Without(b, a), v) <==> InMalloc(b, v) && !Inside(b, a, v)
  {
    var b' := Without(b, a);
    if InMalloc(b', v) {
      var c :| c in b'.info && Inside(b', c, v);
      assert Inside(b, c, v);
    }
    if InMalloc(b, v) && !Inside(b, a, v) {
      var c :| c in b.info && Inside(b, c, v);
      assert Inside(b', c, v);
    }
  }

  lemma WithoutSpot(sizes: seq<nat>, b: Book, a: nat, v: nat, x: Spot)
    requires BookOk(sizes, b) && a in b.info && MallocSpot(sizes, b, v, x) && !Inside(b, a, v)
    ensures MallocSpot(sizes, Without(b, a), v, x)
  {
    var c :| c in b.info && Inside(b, c, v) && b.info[c].level == x.level && KeyOf(c, sizes[x.level], v) in b.trans
      && x.page == b.trans[KeyOf(c, sizes[x.level], v)] && x.offset == v - KeyOf(c, sizes[x.level], v);
    var k, b' := KeyOf(c, sizes[x.level], v), Without(b, a);
    KeyHolds(c, b.info[c].size, sizes[x.level], v);
    hide KeyOf;
    OwnsKey(sizes, b, c, k);
    assert k !in b.info[a].keys;
    assert b'.trans[k] == b.trans[k] && b'.info[c] == b.info[c] && Inside(b', c, v);
  }

  lemma WithInside(b: Book, a: nat, i: Info, keys: seq<nat>, phys: seq<nat>, v: nat)
    requires |keys| <= |phys| && a !in b.info
    ensures InMalloc(With(b, a, i, keys, phys), v) <==> InMalloc(b, v) || a <= v < a + i.size
  {
    hide Mapped;
    var b' := With(b, a, i, keys, phys);
    if InMalloc(b', v) {
      var c :| c in b'.info && Inside(b', c, v);
      assert c == a || Inside(b, c, v);
    }
    if InMalloc(b, v) {
      var c :| c in b.info && Inside(b, c, v);
      assert Inside(b', c, v);
    }
    if a <= v < a + i.size { assert Inside(b', a, v); }
  }

  lemma WithSpot(b: Book, a: nat, i: Info, keys: seq<nat>, phys: seq<nat>, sizes: seq<nat>, v: nat, x: Spot)
    requires |keys| <= |phys| && NoDup(keys) && a !in b.info && (forall k | k in keys :: k !in b.trans) && MallocSpot(sizes, b, v, x)
    ensures MallocSpot(sizes, With(b, a, i, keys, phys), v, x)
  {
    var c :| c in b.info && Inside(b, c, v) && b.info[c].level == x.level && KeyOf(c, sizes[x.level], v) in b.trans
      && x.page == b.trans[KeyOf(c, sizes[x.level], v)] && x.offset == v - KeyOf(c, sizes[x.level], v);
    var b' := With(b, a, i, keys, phys);
    WithAt(b, a, i, keys, phys, KeyOf(c, sizes[x.level], v));
    hide KeyOf, Mapped;
    assert b'.info[c] == b.info[c] && Inside(b', c, v);
  }

  /** A malloc page and a demand-mapped page are different bytes. */
  lemma MallocOrDemand(pools: seq<set<nat>>, sizes: seq<nat>, s: Pages, s': Pages, v: nat, x: Spot, y: Spot)
    requires StateOk(pools, sizes, s) && StateOk(pools, sizes, s') && s'.tables == s.tables
    requires Walks(sizes, s, v, x) && Walks(sizes, s', v, y) && InMalloc(s.book, v) != InMalloc(s'.book, v)
    ensures x.page + x.offset != y.page + y.offset
  {
    hide Walks, MallocPages, BookOk, Disjoint, LevelsApart, Apart, NoDup, S.Injective;
    SpotInPool(pools, sizes, s, v, x);
    SpotInPool(pools, sizes, s', v, y);
    assert LevelOk(pools[x.level], sizes[x.level], s.free[x.level], MallocPages(s.book, x.level), s.tables[x.level]);
    assert LevelOk(pools[x.level], sizes[x.level], s'.free[x.level], MallocPages(s'.book, x.level), s'.tables[x.level]);
    if x.page + x.offset == y.page + y.offset {
      SpotsApart(pools, sizes, s, x, y);
      assert false;
    }
  }

  // ---- Which entries stay right

  /** An entry that is right stays right when a malloc is freed, if and only if its address is not in
      that malloc. */
  lemma FreeExact(pools: seq<set<nat>>, sizes: seq<nat>, s: Pages, s': Pages, a: nat, v: nat, phys: nat)
    requires StateOk(pools, sizes, s) && StateOk(pools, sizes, s') && a in s.book.info
    requires s'.book == Without(s.book, a) && s'.tables == s.tables && Right(sizes, s, v, phys)
    ensures Right(sizes, s', v, phys) <==> !Inside(s.book, a, v)
  {
    hide StateOk, Without, DemandSpot, MallocSpot;
    var x: Spot :| Walks(sizes, s, v, x) && phys == x.page + x.offset;
    BooksOk(pools, sizes, s);
    WithoutInside(s.book, a, v);
    if Inside(s.book, a, v) {
      assert InMalloc(s.book, v);
      if Right(sizes, s', v, phys) {
        var y: Spot :| Walks(sizes, s', v, y) && phys == y.page + y.offset;
        MallocOrDemand(pools, sizes, s, s', v, x, y);
        assert false;
      }
    } else {
      if InMalloc(s.book, v) { WithoutSpot(sizes, s.book, a, v, x); }
      assert Walks(sizes, s', v, x);
    }
  }

  lemma BooksOk(pools: seq<set<nat>>, sizes: seq<nat>, s: Pages)
    requires StateOk(pools, sizes, s)
    ensures BookOk(sizes, s.book) && Disjoint(s.book)
  {
  }

  /** It stays right when a malloc is mapped, if and only if its address is not in the new malloc. */
  lemma MapExact(pools: seq<set<nat>>, sizes: seq<nat>, s: Pages, s': Pages, a: nat, size: nat, level: nat, v: nat, phys: nat)
    requires StateOk(pools, sizes, s) && StateOk(pools, sizes, s') && size >= 1 && level < |sizes| && sizes[level] >= 1 && level < |s.free|
    requires Clear(s.book, a, size) && |S.Needed(size, sizes[level], a)| <= |s.free[level]|
    requires var keys := S.Needed(size, sizes[level], a); s'.book == With(s.book, a, Info(size, level, Elements(keys)), keys, s.free[level])
    requires s'.tables == s.tables && Right(sizes, s, v, phys)
    ensures Right(sizes, s', v, phys) <==> !(a <= v < a + size)
  {
    hide StateOk, With, DemandSpot, MallocSpot, S.Needed;
    var x: Spot :| Walks(sizes, s, v, x) && phys == x.page + x.offset;
    var keys := S.Needed(size, sizes[level], a);
    var i := Info(size, level, Elements(keys));
    BooksOk(pools, sizes, s);
    WithOk(sizes, s.book, a, size, level, s.free[level]);
    S.NeededDistinct(size, sizes[level], a);
    WithInside(s.book, a, i, keys, s.free[level], v);
    if a <= v < a + size {
      assert !InMalloc(s.book, v) by { NotInside(s.book, a, size, v); }
      if Right(sizes, s', v, phys) {
        var y: Spot :| Walks(sizes, s', v, y) && phys == y.page + y.offset;
        MallocOrDemand(pools, sizes, s, s', v, x, y);
        assert false;
      }
    } else {
      if InMalloc(s.book, v) { WithSpot(s.book, a, i, keys, s.free[level], sizes, v, x); }
      assert Walks(sizes, s', v, x);
    }
  }

  lemma NotInside(b: Book, a: nat, size: nat, v: nat)
    requires Clear(b, a, size) && a <= v < a + size
    ensures !InMalloc(b, v)
  {
  }

  /** It stays right when a page is mapped on demand, if and only if the address is in a malloc, is mapped
      by an earlier level, or is not on that page. */
  lemma DemandExact(pools: seq<set<nat>>, sizes: seq<nat>, s: Pages, level: nat, p: nat, v: nat, x: Spot)
    requires StateOk(pools, sizes, s) && level < |sizes| && level < |s.free| == |s.tables| && s.free[level] != [] && sizes[level] >= 1
    requires p !in s.tables[level] && StateOk(pools, sizes, Demanded(s, level, p)) && Walks(sizes, s, v, x)
    ensures Right(sizes, Demanded(s, level, p), v, x.page + x.offset) <==>
            InMalloc(s.book, v) || x.level < level || S.Page(v, sizes[level]) != p
  {
    hide StateOk, MallocSpot, S.Page;
    var s' := Demanded(s, level, p);
    if InMalloc(s.book, v) || x.level < level || S.Page(v, sizes[level]) != p {
      assert Walks(sizes, s', v, x);
    } else if Right(sizes, s', v, x.page + x.offset) {
      var y: Spot :| Walks(sizes, s', v, y) && x.page + x.offset == y.page + y.offset;
      DemandMoves(pools, sizes, s, level, p, v, x, y);
      assert false;
    }
  }

  lemma DemandMoves(pools: seq<set<nat>>, sizes: seq<nat>, s: Pages, level: nat, p: nat, v: nat, x: Spot, y: Spot)
    requires StateOk(pools, sizes, s) && level < |sizes| && level < |s.free| == |s.tables| && s.free[level] != [] && sizes[level] >= 1
    requires p !in s.tables[level] && StateOk(pools, sizes, Demanded(s, level, p)) && Walks(sizes, s, v, x)
    requires !InMalloc(s.book, v) && x.level >= level && S.Page(v, sizes[level]) == p && Walks(sizes, Demanded(s, level, p), v, y)
    ensures x.page + x.offset != y.page + y.offset
  {
    hide MallocPages, BookOk, Disjoint, LevelsApart, Apart, NoDup, S.Injective, MallocSpot, S.Page;
    SpotInPool(pools, sizes, s, v, x);
    SpotInPool(pools, sizes, Demanded(s, level, p), v, y);
    assert y.level == level && y.page == s.free[level][0];
    assert LevelOk(pools[level], sizes[level], s.free[level], MallocPages(s.book, level), s.tables[level]);
    assert y.page in Elements(s.free[level]);
    if x.page + x.offset == y.page + y.offset {
      SpotsApart(pools, sizes, s, x, y);
      assert false;
    }
  }

  /** One page of eight bytes: free, and taken by a malloc at address 0. */
  const ONE_FREE := Pages([[0]], Book(map[], map[], map[]), [map[]])

  const ONE_TAKEN := Pages([[]], Book(map[0 := 0], map[0 := 0], map[0 := Info(8, 0, {0})]), [map[]])

  lemma OneFree()
    ensures StateOk([{0}], [8], ONE_FREE)
  {
    EmptyOk([{0}], [8], ONE_FREE);
  }

  lemma OneTaken()
    ensures StateOk([{0}], [8], ONE_TAKEN)
  {
    OneFree();
    S.OnePage(8, 0);
    hide StateOk;
    TakeKeeps([{0}], [8], ONE_FREE, 0, 8, 0);
    hide S.Needed;
    assert Elements([0]) == {0};
    assert Mapped([0], [0], 0) == map[] && Mapped([0], [0], 1) == map[0 := 0];
    assert Constantly(1, 0) == [0];
    assert With(ONE_FREE.book, 0, Info(8, 0, Elements([0])), [0], [0]) == ONE_TAKEN.book;
    assert ONE_FREE.free[0][1..] == ONE_TAKEN.free[0];
    assert ONE_FREE.free[0 := ONE_FREE.free[0][1..]] == ONE_TAKEN.free;
  }

  lemma SpotHere(sizes: seq<nat>, s: Pages, a: nat, v: nat, x: Spot)
    requires a in s.book.info && Inside(s.book, a, v) && s.book.info[a].level == x.level < |sizes| && sizes[x.level] >= 1
    requires KeyOf(a, sizes[x.level], v) in s.book.trans
    requires x.page == s.book.trans[KeyOf(a, sizes[x.level], v)] && x.offset == v - KeyOf(a, sizes[x.level], v)
    ensures Walks(sizes, s, v, x)
  {
    hide KeyOf, DemandSpot;
  }

  lemma OneRight()
    ensures Right([8], ONE_TAKEN, 0, 0)
  {
    hide Walks;
    var sizes, s := [8], ONE_TAKEN;
    FirstByte(sizes, s, Info(8, 0, {0}));
  }

  lemma FirstByte(sizes: seq<nat>, s: Pages, i: Info)
    requires sizes == [8] && i.size == 8 && i.level == 0 && 0 in s.book.info && s.book.info[0] == i && 0 in s.book.trans && s.book.trans[0] == 0
    ensures Right(sizes, s, 0, 0)
  {
    hide Walks, KeyOf, S.Needed;
    KeyHolds(0, 8, 8, 0);
    SpotHere(sizes, s, 0, 0, Spot(0, 0, 0));
  }

  /** A stale entry: the one page is malloced, address 0 is cached, and the malloc is freed. */
  lemma StaleHit()
    ensures StateOk([{0}], [8], ONE_TAKEN) && Right([8], ONE_TAKEN, 0, 0)
    ensures ONE_FREE.book == Without(ONE_TAKEN.book, 0) && StateOk([{0}], [8], ONE_FREE) && !Right([8], ONE_FREE, 0, 0)
  {
    OneFree();
    OneTaken();
    OneRight();
    hide StateOk, Right;
    assert ONE_FREE.book == Without(ONE_TAKEN.book, 0);
    FreeExact([{0}], [8], ONE_TAKEN, ONE_FREE, 0, 0, 0);
  }

  // ---- The cache object

  class CachedManager {
    const manager: Manager
    const entries: nat
    const enabled: bool
    var cache: map<nat, nat>

    ghost predicate Valid()
      reads this, manager
    {
      manager.Valid() && entries >= 1 && |cache| <= entries
    }

    constructor (manager: Manager, entries: nat, enabled: bool)
      requires manager.Valid() && entries >= 1
      ensures Valid() && this.manager == manager && this.entries == entries && this.enabled == enabled && cache == map[]
    {
      this.manager, this.entries, this.enabled, cache := manager, entries, enabled, map[];
    }

    /** freeMalloc leaves the cache alone: exactly the entries in the freed malloc stop being right. */
    method FreeMalloc(a: nat)
      requires Valid()
      modifies manager
      ensures Valid() && cache == old(cache)
      ensures forall v | v in cache && Right(manager.sizes, old(manager.State()), v, cache[v]) ::
        Right(manager.sizes, manager.State(), v, cache[v]) <==> !(a in old(manager.info) && a <= v < a + old(manager.info)[a].size)
    {
      ghost var s := manager.State();
      manager.FreeMalloc(a);
      ghost var s' := manager.State();
      hide StateOk, Right;
      forall v | v in cache && Right(manager.sizes, s, v, cache[v])
        ensures Right(manager.sizes, s', v, cache[v]) <==> !(a in s.book.info && a <= v < a + s.book.info[a].size)
      {
        if a in s.book.info { FreeExact(manager.pools, manager.sizes, s, s', a, v, cache[v]); }
      }
    }

    /** Mapping a malloc leaves the cache alone: exactly the entries in the new malloc stop being right. */
    method MapMalloc(size: nat, level: nat, a: nat) returns (ok: bool)
      requires Valid() && size >= 1 && level < |manager.sizes| == |manager.free| && Clear(manager.State().book, a, size)
      modifies manager
      ensures Valid() && cache == old(cache)
      ensures forall v | v in cache && Right(manager.sizes, old(manager.State()), v, cache[v]) ::
        Right(manager.sizes, manager.State(), v, cache[v]) <==> !(ok && a <= v < a + size)
    {
      ghost var s := manager.State();
      ok := manager.MapMalloc(size, level, a);
      ghost var s' := manager.State();
      hide StateOk, Right;
      forall v | v in cache && Right(manager.sizes, s, v, cache[v])
        ensures Right(manager.sizes, s', v, cache[v]) <==> !(ok && a <= v < a + size)
      {
        if ok { MapExact(manager.pools, manager.sizes, s, s', a, size, level, v, cache[v]); }
      }
    }

    /** translateAddress: a hit answers with the entry, right or not; a miss walks, maps a page if it must,
        and caches the answer, which is right. */
    method TranslateAddress(v: nat) returns (r: Option<nat>)
      requires Valid()
      modifies this`cache, manager
      ensures Valid()
      ensures !enabled ==> r == Some(v) && cache == old(cache) && manager.State() == old(manager.State())
      ensures enabled && v in old(cache) ==> r == Some(old(cache)[v]) && cache == old(cache) && manager.State() == old(manager.State())
      ensures enabled && v !in old(cache) && r.Some? ==>
        && Right(manager.sizes, manager.State(), v, r.value) && v in cache && cache[v] == r.value
        && forall u | u in cache && u != v :: u in old(cache) && cache[u] == old(cache)[u]
      ensures enabled && v !in old(cache) && r.None? ==> cache == old(cache) && forall l | 0 <= l < |manager.sizes| :: l < |old(manager.free)| && old(manager.free)[l] == []
    {
      if !enabled { return Some(v); }
      if v in cache { return Some(cache[v]); }
      FreeCount(manager.pools, manager.sizes, manager.State());
      r := Missed(v);
      if r.Some? { CacheTranslation(v, r.value); }
    }

    /** The walk behind the cache. */
    method Missed(v: nat) returns (r: Option<nat>)
      requires Valid()
      modifies manager
      ensures Valid() && cache == old(cache)
      ensures r.Some? ==> Right(manager.sizes, manager.State(), v, r.value)
      ensures r.None? ==> forall l | 0 <= l < |manager.sizes| :: l < |old(manager.free)| && old(manager.free)[l] == []
    {
      FreeCount(manager.pools, manager.sizes, manager.State());
      hide StateOk, Walks;
      r := manager.Translate(v);
    }

    /** cacheTranslation: some entry makes room when the cache is full. */
    method CacheTranslation(v: nat, phys: nat)
      requires Valid() && v !in cache
      modifies this`cache
      ensures Valid() && v in cache && cache[v] == phys
      ensures forall u | u in cache && u != v :: u in old(cache) && cache[u] == old(cache)[u]
      ensures |old(cache)| < entries ==> cache == old(cache)[v := phys]
    {
      hide StateOk;
      if |cache| == entries {
        var k :| k in cache;
        S.EvictSize(cache, k);
        cache := cache - {k};
      }
      cache := cache[v := phys];
    }
  }
}
