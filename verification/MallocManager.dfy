/** The malloc-aware Ariel memory manager: page accounting over several levels, malloc and free,
    and the page walk behind the translation cache. */
module MallocManager {
  import opened Arith
  import opened Dram
  import opened PagePool
  import opened SimpleManager
  import opened MallocBook

  /** The physical pages that live mallocs hold on a level. */
  ghost function MallocPages(b: Book, level: nat): set<nat> {
    set k | k in b.trans && k in b.primary && b.primary[k] in b.info && b.info[b.primary[k]].level == level :: b.trans[k]
  }

  ghost function Image(m: map<nat, nat>, keys: set<nat>): set<nat> { set k | k in keys && k in m :: m[k] }

  /** On one level every page of the pool is free, held by a malloc or mapped on demand, and only
      one of these. */
  ghost predicate LevelOk(pool: set<nat>, size: nat, free: seq<nat>, mallocs: set<nat>, table: map<nat, nat>) {
    && size >= 1 && Apart(pool, size)
    && NoDup(free) && Elements(free) !! mallocs && Elements(free) !! table.Values && mallocs !! table.Values
    && Elements(free) + mallocs + table.Values == pool
    && Injective(table) && (forall p | p in table :: p % size == 0)
  }

  /** Pages of different levels share no byte. */
  ghost predicate LevelsApart(pools: seq<set<nat>>, sizes: seq<nat>)
    requires |pools| == |sizes|
  {
    forall l, m, p, q | 0 <= l < m < |pools| && p in pools[l] && q in pools[m] :: p + sizes[l] <= q || q + sizes[m] <= p
  }

  // ---- How malloc and free move pages

  lemma FreedPages(sizes: seq<nat>, b: Book, a: nat, level: nat)
    requires BookOk(sizes, b) && Injective(b.trans) && a in b.info
    ensures var gone := Image(b.trans, b.info[a].keys);
      && MallocPages(Without(b, a), level) == (if level == b.info[a].level then MallocPages(b, level) - gone else MallocPages(b, level))
      && gone <= MallocPages(b, b.info[a].level) && Injective(Without(b, a).trans)
  {
    hide InfoOk;
    var b', keys := Without(b, a), b.info[a].keys;
    var gone := Image(b.trans, keys);
    assert forall k | k in b.trans :: k in b.primary by { assert b.trans.Keys == b.primary.Keys; }
    forall x | x in MallocPages(b, level) && (level == b.info[a].level ==> x !in gone)
      ensures x in MallocPages(b', level)
    {
      var k :| k in b.trans && k in b.primary && b.primary[k] in b.info && b.info[b.primary[k]].level == level && b.trans[k] == x;
      assert k !in keys;
      assert k in b'.trans && k in b'.primary && b'.primary[k] in b'.info;
    }
    forall x | x in MallocPages(b', level)
      ensures x in MallocPages(b, level) && x !in gone
    {
      var k :| k in b'.trans && k in b'.primary && b'.primary[k] in b'.info && b'.info[b'.primary[k]].level == level && b'.trans[k] == x;
      assert k in b.trans && b.trans[k] == x;
    }
  }

  lemma TakenPages(sizes: seq<nat>, b: Book, a: nat, i: Info, keys: seq<nat>, phys: seq<nat>, level: nat)
    requires BookOk(sizes, b) && a !in b.info && |keys| <= |phys| && NoDup(keys) && forall k | k in keys :: k !in b.trans
    ensures MallocPages(With(b, a, i, keys, phys), level) ==
            MallocPages(b, level) + if level == i.level then Elements(phys[..|keys|]) else {}
  {
    hide With, InfoOk, MallocPages;
    var b', n := With(b, a, i, keys, phys), |keys|;
    WithInfo(b, a, i, keys, phys);
    forall x | x in MallocPages(b', level)
      ensures x in MallocPages(b, level) || (level == i.level && x in phys[..n])
    {
      var k := PageKey(b', level, x);
      WithAt(b, a, i, keys, phys, k);
      if k in keys {
        var j :| 0 <= j < n && keys[j] == k && b'.trans[k] == phys[j];
        assert phys[..n][j] == x;
      } else {
        KeyPage(b, level, k);
      }
    }
    forall x | x in MallocPages(b, level)
      ensures x in MallocPages(b', level)
    {
      var k := PageKey(b, level, x);
      WithAt(b, a, i, keys, phys, k);
      KeyPage(b', level, k);
    }
    if level == i.level {
      forall x | x in phys[..n]
        ensures x in MallocPages(b', level)
      {
        var j :| 0 <= j < n && phys[j] == x;
        WithAt(b, a, i, keys, phys, keys[j]);
        KeyPage(b', level, keys[j]);
      }
    }
  }

  lemma PageKey(b: Book, level: nat, x: nat) returns (k: nat)
    requires x in MallocPages(b, level)
    ensures k in b.trans && k in b.primary && b.primary[k] in b.info && b.info[b.primary[k]].level == level && b.trans[k] == x
  {
    k :| k in b.trans && k in b.primary && b.primary[k] in b.info && b.info[b.primary[k]].level == level && b.trans[k] == x;
  }

  lemma KeyPage(b: Book, level: nat, k: nat)
    requires k in b.trans && k in b.primary && b.primary[k] in b.info && b.info[b.primary[k]].level == level
    ensures b.trans[k] in MallocPages(b, level)
  {
  }

  lemma TakenInjective(b: Book, keys: seq<nat>, phys: seq<nat>)
    requires |keys| <= |phys| && NoDup(keys) && NoDup(phys) && Injective(b.trans)
    requires forall x | x in phys :: x !in b.trans.Values
    ensures Injective(b.trans + Mapped(keys, phys, |keys|))
  {
    hide Mapped;
    var n := |keys|;
    var more := Mapped(keys, phys, n);
    MappedKeys(keys, phys, n);
    assert keys[..n] == keys;
    var m := b.trans + more;
    forall k, c | k in m && c in m && k != c
      ensures m[k] != m[c]
    {
      if k in more { MappedAt(keys, phys, k); } else { assert b.trans[k] in b.trans.Values; }
      if c in more { MappedAt(keys, phys, c); } else { assert b.trans[c] in b.trans.Values; }
    }
  }

  lemma MappedAt(keys: seq<nat>, phys: seq<nat>, k: nat)
    requires |keys| <= |phys| && NoDup(keys) && k in Mapped(keys, phys, |keys|)
    ensures exists j | 0 <= j < |keys| :: keys[j] == k && Mapped(keys, phys, |keys|)[k] == phys[j]
  {
    hide Mapped;
    MappedKeys(keys, phys, |keys|);
    assert keys[..|keys|] == keys;
    assert k in keys;
    var j :| 0 <= j < |keys| && keys[j] == k;
  }

  // ---- The invariant

  /** Free pages, mallocs and page tables of all levels. */
  datatype Pages = Pages(free: seq<seq<nat>>, book: Book, tables: seq<map<nat, nat>>)

  ghost predicate StateOk(pools: seq<set<nat>>, sizes: seq<nat>, s: Pages) {
    && |pools| == |sizes| == |s.free| == |s.tables|
    && BookOk(sizes, s.book) && Disjoint(s.book) && Injective(s.book.trans)
    && LevelsApart(pools, sizes)
    && forall l | 0 <= l < |sizes| :: LevelOk(pools[l], sizes[l], s.free[l], MallocPages(s.book, l), s.tables[l])
  }

  /** A physical page of a malloc is on its level. */
  lemma TransLevel(pools: seq<set<nat>>, sizes: seq<nat>, s: Pages, k: nat)
    requires StateOk(pools, sizes, s) && k in s.book.trans
    ensures k in s.book.primary && s.book.primary[k] in s.book.info
    ensures var l := s.book.info[s.book.primary[k]].level;
      l < |sizes| && s.book.trans[k] in MallocPages(s.book, l) && s.book.trans[k] in pools[l]
  {
    hide LevelsApart, Disjoint;
    KeyOwner(sizes, s.book, k);
    var l := s.book.info[s.book.primary[k]].level;
    assert s.book.trans[k] in MallocPages(s.book, l);
    assert LevelOk(pools[l], sizes[l], s.free[l], MallocPages(s.book, l), s.tables[l]);
  }

  lemma FreeNotMapped(pools: seq<set<nat>>, sizes: seq<nat>, s: Pages, level: nat, x: nat)
    requires StateOk(pools, sizes, s) && level < |sizes| && x in s.free[level]
    ensures x !in s.book.trans.Values
  {
    hide BookOk, Disjoint, MallocPages;
    assert LevelOk(pools[level], sizes[level], s.free[level], MallocPages(s.book, level), s.tables[level]);
    assert x in Elements(s.free[level]);
    forall k | k in s.book.trans
      ensures s.book.trans[k] != x
    {
      TransLevel(pools, sizes, s, k);
      var l := s.book.info[s.book.primary[k]].level;
      assert LevelOk(pools[l], sizes[l], s.free[l], MallocPages(s.book, l), s.tables[l]);
    }
  }

  /** Freeing a malloc returns its pages, in any order. */
  lemma FreeKeeps(pools: seq<set<nat>>, sizes: seq<nat>, s: Pages, a: nat, back: seq<nat>)
    requires StateOk(pools, sizes, s) && a in s.book.info && NoDup(back) && Elements(back) == Image(s.book.trans, s.book.info[a].keys)
    ensures s.book.info[a].level < |s.free|
    ensures var l := s.book.info[a].level;
      StateOk(pools, sizes, Pages(s.free[l := back + s.free[l]], Without(s.book, a), s.tables))
  {
    Owned(sizes, s.book, a);
    var l := s.book.info[a].level;
    var s' := Pages(s.free[l := back + s.free[l]], Without(s.book, a), s.tables);
    WithoutOk(sizes, s.book, a);
    FreedPages(sizes, s.book, a, l);
    hide BookOk, Disjoint, MallocPages, Without, Image, LevelsApart;
    forall m | 0 <= m < |sizes|
      ensures LevelOk(pools[m], sizes[m], s'.free[m], MallocPages(s'.book, m), s'.tables[m])
    {
      FreedPages(sizes, s.book, a, m);
      assert LevelOk(pools[m], sizes[m], s.free[m], MallocPages(s.book, m), s.tables[m]);
      if m == l { GiveBack(pools[l], sizes[l], s.free[l], MallocPages(s.book, l), s.tables[l], back); }
    }
  }

  lemma GiveBack(pool: set<nat>, size: nat, free: seq<nat>, mallocs: set<nat>, table: map<nat, nat>, back: seq<nat>)
    requires LevelOk(pool, size, free, mallocs, table) && NoDup(back) && Elements(back) <= mallocs
    ensures LevelOk(pool, size, back + free, mallocs - Elements(back), table)
  {
    assert Elements(back + free) == Elements(back) + Elements(free);
    forall i, j | 0 <= i < j < |back + free|
      ensures (back + free)[i] != (back + free)[j]
    {
      if i < |back| <= j {
        assert back[i] in Elements(back) && free[j - |back|] in Elements(free);
      }
    }
  }

  /** A new malloc takes its pages from the front of the free list. */
  lemma TakeKeeps(pools: seq<set<nat>>, sizes: seq<nat>, s: Pages, a: nat, size: nat, level: nat)
    requires StateOk(pools, sizes, s) && level < |sizes| && sizes[level] >= 1 && size >= 1 && Clear(s.book, a, size)
    requires |Needed(size, sizes[level], a)| <= |s.free[level]|
    ensures var keys := Needed(size, sizes[level], a);
      var b' := With(s.book, a, Info(size, level, Elements(keys)), keys, s.free[level]);
      StateOk(pools, sizes, Pages(s.free[level := s.free[level][|keys|..]], b', s.tables))
  {
    var keys, phys := Needed(size, sizes[level], a), s.free[level];
    var i := Info(size, level, Elements(keys));
    var s' := Pages(s.free[level := phys[|keys|..]], With(s.book, a, i, keys, phys), s.tables);
    WithOk(sizes, s.book, a, size, level, phys);
    NeededDistinct(size, sizes[level], a);
    forall x | x in phys
      ensures x !in s.book.trans.Values
    {
      FreeNotMapped(pools, sizes, s, level, x);
    }
    assert LevelOk(pools[level], sizes[level], phys, MallocPages(s.book, level), s.tables[level]);
    TakenInjective(s.book, keys, phys);
    hide BookOk, Disjoint, MallocPages, LevelsApart, Needed, Clear, Mapped;
    forall m | 0 <= m < |sizes|
      ensures LevelOk(pools[m], sizes[m], s'.free[m], MallocPages(s'.book, m), s'.tables[m])
    {
      TakenPages(sizes, s.book, a, i, keys, phys, m);
      assert LevelOk(pools[m], sizes[m], s.free[m], MallocPages(s.book, m), s.tables[m]);
      if m == level { TakeFront(pools[m], sizes[m], phys, MallocPages(s.book, m), s.tables[m], |keys|); }
    }
  }

  lemma TakeFront(pool: set<nat>, size: nat, free: seq<nat>, mallocs: set<nat>, table: map<nat, nat>, n: nat)
    requires LevelOk(pool, size, free, mallocs, table) && n <= |free|
    ensures LevelOk(pool, size, free[n..], mallocs + Elements(free[..n]), table)
  {
    assert free == free[..n] + free[n..];
    assert Elements(free) == Elements(free[..n]) + Elements(free[n..]);
    forall x | x in free[..n]
      ensures x !in free[n..]
    {
      var i :| 0 <= i < n && free[i] == x;
    }
  }

  /** The first free page of a level is mapped to a virtual page. */
  function Demanded(s: Pages, level: nat, p: nat): Pages
    requires level < |s.free| == |s.tables| && s.free[level] != []
  {
    var table: map<nat, nat> := s.tables[level][p := s.free[level][0]];
    Pages(s.free[level := s.free[level][1..]], s.book, s.tables[level := table])
  }

  /** A demand mapping takes one page. */
  lemma DemandKeeps(pools: seq<set<nat>>, sizes: seq<nat>, s: Pages, level: nat, p: nat)
    requires StateOk(pools, sizes, s) && level < |sizes| && s.free[level] != [] && sizes[level] >= 1
    requires p !in s.tables[level] && p % sizes[level] == 0
    ensures StateOk(pools, sizes, Demanded(s, level, p))
  {
    hide BookOk, Disjoint, MallocPages, LevelsApart;
    var s' := Demanded(s, level, p);
    forall m | 0 <= m < |sizes|
      ensures LevelOk(pools[m], sizes[m], s'.free[m], MallocPages(s'.book, m), s'.tables[m])
    {
      assert LevelOk(pools[m], sizes[m], s.free[m], MallocPages(s.book, m), s.tables[m]);
      if m == level { MapDemand(pools[m], sizes[m], s.free[m], MallocPages(s.book, m), s.tables[m], p); }
    }
  }

  lemma MapDemand(pool: set<nat>, size: nat, free: seq<nat>, mallocs: set<nat>, table: map<nat, nat>, p: nat)
    requires LevelOk(pool, size, free, mallocs, table) && free != [] && p !in table && p % size == 0
    ensures LevelOk(pool, size, free[1..], mallocs, table[p := free[0]])
  {
    var page, rest, table' := free[0], free[1..], table[p := free[0]];
    assert free == [page] + rest;
    assert Elements(free) == Elements(rest) + {page};
    assert page in Elements(free);
    ValuesAdd(table, p, page);
    forall a, b | a in table' && b in table' && a != b
      ensures table'[a] != table'[b]
    {
      if a == p { assert table[b] in table.Values; }
      if b == p { assert table[a] in table.Values; }
    }
  }

  // ---- The page walk

  /** Where an address lives: a physical page of a level and an offset in it. */
  datatype Spot = Spot(level: nat, page: nat, offset: nat)

  predicate InMalloc(b: Book, v: nat) { exists a | a in b.info :: Inside(b, a, v) }

  ghost predicate MallocSpot(sizes: seq<nat>, b: Book, v: nat, x: Spot) {
    exists a | a in b.info && Inside(b, a, v) ::
      && b.info[a].level == x.level && x.level < |sizes| && sizes[x.level] >= 1
      && KeyOf(a, sizes[x.level], v) in b.trans
      && x.page == b.trans[KeyOf(a, sizes[x.level], v)] && x.offset == v - KeyOf(a, sizes[x.level], v)
  }

  /** The first level whose page table has the address. */
  predicate DemandSpot(sizes: seq<nat>, tables: seq<map<nat, nat>>, v: nat, x: Spot) {
    && x.level < |sizes| == |tables| && sizes[x.level] >= 1
    && Page(v, sizes[x.level]) in tables[x.level]
    && x.page == tables[x.level][Page(v, sizes[x.level])] && x.offset == v % sizes[x.level]
    && forall l | 0 <= l < x.level :: sizes[l] >= 1 && Page(v, sizes[l]) !in tables[l]
  }

  /** A malloc that contains the address wins over the page tables. */
  ghost predicate Walks(sizes: seq<nat>, s: Pages, v: nat, x: Spot) {
    if InMalloc(s.book, v) then MallocSpot(sizes, s.book, v, x) else DemandSpot(sizes, s.tables, v, x)
  }

  lemma SpotInPool(pools: seq<set<nat>>, sizes: seq<nat>, s: Pages, v: nat, x: Spot)
    requires StateOk(pools, sizes, s) && Walks(sizes, s, v, x)
    ensures x.level < |sizes| && sizes[x.level] >= 1 && x.page in pools[x.level] && x.offset < sizes[x.level]
    ensures if InMalloc(s.book, v) then x.page in MallocPages(s.book, x.level) else x.page in s.tables[x.level].Values
  {
    assert LevelOk(pools[x.level], sizes[x.level], s.free[x.level], MallocPages(s.book, x.level), s.tables[x.level]);
    if InMalloc(s.book, v) {
      var a :| a in s.book.info && Inside(s.book, a, v)
        && s.book.info[a].level == x.level && KeyOf(a, sizes[x.level], v) in s.book.trans
        && x.page == s.book.trans[KeyOf(a, sizes[x.level], v)] && x.offset == v - KeyOf(a, sizes[x.level], v);
      hide BookOk, Disjoint, LevelsApart, MallocPages, LevelOk;
      Owned(sizes, s.book, a);
      var k := KeyOf(a, sizes[x.level], v);
      KeyHolds(a, s.book.info[a].size, sizes[x.level], v);
      OwnsKey(sizes, s.book, a, k);
      TransLevel(pools, sizes, s, k);
    } else {
      assert x.page in s.tables[x.level].Values;
    }
  }

  /** Spots on different pages are different bytes. */
  lemma SpotsApart(pools: seq<set<nat>>, sizes: seq<nat>, s: Pages, x: Spot, y: Spot)
    requires StateOk(pools, sizes, s) && x.level < |sizes| && y.level < |sizes|
    requires x.page in pools[x.level] && x.offset < sizes[x.level] && y.page in pools[y.level] && y.offset < sizes[y.level]
    requires x.page + x.offset == y.page + y.offset
    ensures x == y
  {
    hide BookOk, Disjoint, MallocPages;
    assert LevelOk(pools[x.level], sizes[x.level], s.free[x.level], MallocPages(s.book, x.level), s.tables[x.level]);
  }

  /** Distinct addresses walk to distinct physical addresses. */
  lemma WalkInjective(pools: seq<set<nat>>, sizes: seq<nat>, s: Pages, u: nat, v: nat, x: Spot, y: Spot)
    requires StateOk(pools, sizes, s) && Walks(sizes, s, u, x) && Walks(sizes, s, v, y)
    requires x.page + x.offset == y.page + y.offset
    ensures u == v
  {
    hide BookOk, Disjoint, MallocPages, LevelsApart, Apart, NoDup, KeyOf;
    SpotInPool(pools, sizes, s, u, x);
    SpotInPool(pools, sizes, s, v, y);
    SpotsApart(pools, sizes, s, x, y);
    assert LevelOk(pools[x.level], sizes[x.level], s.free[x.level], MallocPages(s.book, x.level), s.tables[x.level]);
    var size := sizes[x.level];
    if InMalloc(s.book, u) && InMalloc(s.book, v) {
      var a :| a in s.book.info && Inside(s.book, a, u) && s.book.info[a].level == x.level
        && KeyOf(a, size, u) in s.book.trans && x.page == s.book.trans[KeyOf(a, size, u)] && x.offset == u - KeyOf(a, size, u);
      var c :| c in s.book.info && Inside(s.book, c, v) && s.book.info[c].level == x.level
        && KeyOf(c, size, v) in s.book.trans && y.page == s.book.trans[KeyOf(c, size, v)] && y.offset == v - KeyOf(c, size, v);
      assert KeyOf(a, size, u) == KeyOf(c, size, v);
    } else {
      assert Page(u, size) == Page(v, size);
    }
  }

  // ---- The manager object

  class Manager {
    const sizes: seq<nat>
    const defaultLevel: nat
    ghost const pools: seq<set<nat>>
    var free: seq<seq<nat>>
    var trans: map<nat, nat>
    var primary: map<nat, nat>
    var info: map<nat, Info>
    var tables: seq<map<nat, nat>>

    ghost function State(): Pages
      reads this
    {
      Pages(free, Book(trans, primary, info), tables)
    }

    ghost predicate Valid()
      reads this
    {
      && defaultLevel < |sizes| && (forall l | 0 <= l < |sizes| :: sizes[l] >= 8)
      && StateOk(pools, sizes, State())
    }

    /** The levels occupy consecutive ranges of physical memory, all pages free, in order or
        permuted by whatever the generator yields. */
    constructor (sizes: seq<nat>, counts: seq<nat>, defaultLevel: nat, randomised: bool, random: (nat, nat) -> nat)
      requires |sizes| == |counts| && defaultLevel < |sizes| && forall l | 0 <= l < |sizes| :: sizes[l] >= 8
      ensures Valid() && this.sizes == sizes && this.defaultLevel == defaultLevel && info == map[]
      ensures |free| == |tables| == |sizes|
      ensures forall l | 0 <= l < |sizes| :: tables[l] == map[] && multiset(free[l]) == multiset(Linear(counts[l], sizes[l], Start(sizes, counts, l)))
      ensures !randomised ==> forall l | 0 <= l < |sizes| :: free[l] == Linear(counts[l], sizes[l], Start(sizes, counts, l))
    {
      hide Start, Linear, Elements, NoDup, Apart;
      var lists: seq<seq<nat>> := [];
      ghost var sets: seq<set<nat>> := [];
      var next := 0;
      StartZero(sizes, counts);
      for l := 0 to |sizes|
        invariant |lists| == |sets| == l && next == Start(sizes, counts, l)
        invariant forall m | 0 <= m < l :: NoDup(lists[m]) && Elements(lists[m]) == sets[m] && Apart(sets[m], sizes[m])
        invariant forall m | 0 <= m < l :: multiset(lists[m]) == multiset(Linear(counts[m], sizes[m], Start(sizes, counts, m)))
        invariant !randomised ==> forall m | 0 <= m < l :: lists[m] == Linear(counts[m], sizes[m], Start(sizes, counts, m))
        invariant forall m, p | 0 <= m < l && p in sets[m] :: p + sizes[m] <= next
        invariant forall m, k, p, q | 0 <= m < k < l && p in sets[m] && q in sets[k] :: p + sizes[m] <= q
      {
        ghost var linear := Linear(counts[l], sizes[l], next);
        LinearApart(counts[l], sizes[l], next);
        LinearBelow(counts[l], sizes[l], next);
        var order;
        if randomised {
          order := MapPagesRandom(counts[l], sizes[l], next, k => random(l, k));
          PermutationKeeps(linear, order);
        } else {
          order := MapPagesLinear(counts[l], sizes[l], next);
        }
        StartNext(sizes, counts, l);
        lists, sets := lists + [order], sets + [Elements(linear)];
        next := next + counts[l] * sizes[l];
      }
      this.sizes, this.defaultLevel, pools := sizes, defaultLevel, sets;
      free, tables := lists, seq(|sizes|, l => map[]);
      trans, primary, info := map[], map[], map[];
      new;
      assert StateOk(pools, sizes, State()) by { EmptyOk(pools, sizes, State()); }
    }

    /** freeMalloc: the pages go back in whatever order the key set yields them. */
    method FreeMalloc(a: nat)
      requires Valid()
      modifies this`free, this`trans, this`primary, this`info
      ensures Valid() && tables == old(tables)
      ensures a !in old(info) ==> State() == old(State())
      ensures a in old(info) ==> State().book == Without(old(State()).book, a)
      ensures forall l | 0 <= l < |sizes| ::
        |free[l]| == |old(free)[l]| + if a in old(info) && old(info)[a].level == l then |old(info)[a].keys| else 0
      ensures a in old(info) ==> var l := old(info)[a].level;
        l < |old(free)| && exists back :: free == old(free)[l := back + old(free)[l]]
    {
      hide StateOk, Disjoint, Image, Elements, NoDup, Injective, BookOk;
      FreeCount(pools, sizes, State());
      if a !in info { return; }
      ghost var s := State();
      ReadInfo(pools, sizes, s, a);
      var level, keys := info[a].level, info[a].keys;
      var back := Release(keys);
      FreeKeeps(pools, sizes, s, a, back);
      free := free[level := back + free[level]];
      info := info - {a};
    }

    /** The loop that unmaps the keys of a malloc and collects their pages. */
    method Release(keys: set<nat>) returns (back: seq<nat>)
      requires keys <= trans.Keys && Injective(trans)
      modifies this`trans, this`primary
      ensures trans == old(trans) - keys && primary == old(primary) - keys
      ensures NoDup(back) && Elements(back) == Image(old(trans), keys) && |back| == |keys|
    {
      hide Image, Elements, NoDup, Injective;
      ghost var all := trans;
      back := [];
      var left := keys;
      NothingBack(all, keys);
      while left != {}
        invariant left <= keys
        invariant trans == all - (keys - left) && primary == old(primary) - (keys - left)
        invariant NoDup(back) && Elements(back) == Image(all, keys - left) && |back| == |keys - left|
        decreases left
      {
        var k :| k in left;
        BackMore(all, keys, left, k, back);
        back := [trans[k]] + back;
        assert (keys - left) + {k} == keys - (left - {k});
        primary := primary - {k};
        trans := trans - {k};
        left := left - {k};
      }
      assert keys - left == keys;
    }

    /** allocateMalloc: a live malloc that contains the new address is freed first; false when the
        level has too few free pages. */
    method AllocateMalloc(size: nat, level: nat, a: nat) returns (ok: bool)
      requires Valid() && size >= 1 && level < |sizes|
      requires forall c, v: nat | c in info && !Inside(State().book, c, a) && a <= v < a + size :: !Inside(State().book, c, v)
      modifies this`free, this`trans, this`primary, this`info
      ensures Valid() && tables == old(tables)
      ensures ok == (a in info) && (ok ==> info[a].size == size && info[a].level == level)
      ensures |free| == |old(free)| == |sizes| && sizes[level] >= 1
      ensures !InMalloc(old(State()).book, a) ==> ok == (|Needed(size, sizes[level], a)| <= |old(free)[level]|)
      ensures forall c | c in old(info) && Inside(old(State()).book, c, a) ::
        ok == (|Needed(size, sizes[level], a)| <= |old(free)[level]| + if old(info)[c].level == level then |old(info)[c].keys| else 0)
      ensures forall c | c in old(info) && !Inside(old(State()).book, c, a) :: c in info && info[c] == old(info)[c]
      ensures forall c | c in info && c != a :: c in old(info) && !Inside(old(State()).book, c, a)
    {
      hide StateOk, Disjoint, BookOk, Needed;
      ghost var s0 := State();
      FreeContaining(a);
      assert Clear(State().book, a, size) by { ClearNow(s0.book, State().book, a, size); }
      ok := MapMalloc(size, level, a);
    }

    /** Free the live malloc that contains an address, if there is one. */
    method FreeContaining(a: nat)
      requires Valid()
      modifies this`free, this`trans, this`primary, this`info
      ensures Valid() && tables == old(tables) && |free| == |old(free)| == |sizes|
      ensures forall c | c in info :: c in old(info) && info[c] == old(info)[c] && !Inside(old(State()).book, c, a)
      ensures forall c | c in old(info) && !Inside(old(State()).book, c, a) :: c in info && info[c] == old(info)[c]
      ensures !InMalloc(old(State()).book, a) ==> State() == old(State())
      ensures forall c | c in old(info) && Inside(old(State()).book, c, a) :: State().book == Without(old(State()).book, c)
      ensures forall c, l | c in old(info) && Inside(old(State()).book, c, a) && 0 <= l < |sizes| ::
        |free[l]| == |old(free)[l]| + if old(info)[c].level == l then |old(info)[c].keys| else 0
    {
      hide StateOk, Disjoint, BookOk;
      ghost var s := State();
      FreeCount(pools, sizes, s);
      var f := Floor(trans.Keys, a);
      LookupState(pools, sizes, s, a, f);
      if f.Some? && a < primary[f.value] + info[primary[f.value]].size { FreeMalloc(primary[f.value]); }
      FreeCount(pools, sizes, State());
    }

    /** Map a new malloc that shares no address with a live one. */
    method MapMalloc(size: nat, level: nat, a: nat) returns (ok: bool)
      requires Valid() && size >= 1 && level < |sizes| == |free| && Clear(State().book, a, size)
      modifies this`free, this`trans, this`primary, this`info
      ensures Valid() && tables == old(tables) && |free| == |old(free)| && a !in old(info)
      ensures sizes[level] >= 1 && ok == (|Needed(size, sizes[level], a)| <= |old(free)[level]|)
      ensures !ok ==> State() == old(State())
      ensures ok ==> var keys := Needed(size, sizes[level], a);
        && State().book == With(old(State()).book, a, Info(size, level, Elements(keys)), keys, old(free)[level])
        && free == old(free)[level := old(free)[level][|keys|..]]
    {
      hide StateOk, Disjoint, BookOk;
      ghost var s := State();
      assert a !in info by { NotLive(pools, sizes, s, a, size); }
      var count := (size + sizes[level] - 1) / sizes[level];
      if |free[level]| < count { return false; }
      TakeKeeps(pools, sizes, s, a, size, level);
      var mine := MapPages(a, level, count);
      info := info[a := Info(size, level, mine)];
      ok := true;
    }

    /** The loop that maps the pages of a new malloc. */
    method MapPages(a: nat, level: nat, count: nat) returns (mine: set<nat>)
      requires level < |sizes| == |free| && sizes[level] >= 1 && count <= |free[level]|
      modifies this`free, this`trans, this`primary
      ensures var keys := seq(count, i requires 0 <= i => a + i * sizes[level]);
        && mine == Elements(keys)
        && trans == old(trans) + Mapped(keys, old(free)[level], count)
        && primary == old(primary) + Mapped(keys, Constantly(count, a), count)
        && free == old(free)[level := old(free)[level][count..]]
    {
      hide Mapped, Elements, Constantly;
      ghost var keys := seq(count, i requires 0 <= i => a + i * sizes[level]);
      ghost var phys, same := free[level], Constantly(count, a);
      ConstantlyAt(count, a);
      mine := {};
      var next := a;
      MappedStart(trans, keys, phys);
      MappedStart(primary, keys, same);
      for i := 0 to count
        invariant next == a + i * sizes[level] && mine == Elements(keys[..i])
        invariant free == old(free)[level := phys[i..]]
        invariant trans == old(trans) + Mapped(keys, phys, i) && primary == old(primary) + Mapped(keys, same, i)
      {
        assert keys[i] == next && free[level][0] == phys[i];
        MappedMore(old(trans), keys, phys, i);
        MappedMore(old(primary), keys, same, i);
        ElementsMore(keys, i);
        trans := trans[next := free[level][0]];
        primary := primary[next := a];
        mine := mine + {next};
        free := free[level := free[level][1..]];
        Distribute(i, 1, sizes[level]);
        next := next + sizes[level];
      }
      assert keys[..count] == keys;
    }

    /** The walk of translateAddress on a cache miss: exactly the spot of the address, if any. */
    method Walk(v: nat) returns (r: Option<nat>)
      requires Valid()
      ensures r.Some? ==> exists x: Spot :: Walks(sizes, State(), v, x) && r.value == x.page + x.offset
      ensures r.None? ==> !InMalloc(State().book, v) && forall l | 0 <= l < |sizes| :: Page(v, sizes[l]) !in tables[l]
    {
      ghost var s := State();
      FreeCount(pools, sizes, s);
      var f := Floor(trans.Keys, v);
      LookupState(pools, sizes, s, v, f);
      hide StateOk;
      if f.Some? && v < primary[f.value] + info[primary[f.value]].size {
        ghost var a := primary[f.value];
        ghost var x := Spot(info[a].level, trans[f.value], v - f.value);
        assert Inside(s.book, a, v);
        assert MallocSpot(sizes, s.book, v, x);
        assert Walks(sizes, s, v, x);
        return Some(trans[f.value] + (v - f.value));
      }
      for l := 0 to |sizes|
        invariant forall m | 0 <= m < l :: Page(v, sizes[m]) !in tables[m]
      {
        var start := v - v % sizes[l];
        if start in tables[l] {
          ghost var x := Spot(l, tables[l][start], v % sizes[l]);
          assert DemandSpot(sizes, tables, v, x);
          assert Walks(sizes, s, v, x);
          return Some(tables[l][start] + v % sizes[l]);
        }
      }
      r := None;
    }

    /** The allocation of translateAddress for an address that nothing maps: the default level
        first, else the first level with a free page; false is the fatal lack of pages. */
    method Demand(v: nat) returns (ok: bool)
      requires Valid() && forall l | 0 <= l < |sizes| :: l < |tables| && Page(v, sizes[l]) !in tables[l]
      modifies this`free, this`tables
      ensures Valid() && ok == exists l | 0 <= l < |sizes| :: old(free)[l] != []
      ensures !ok ==> State() == old(State())
      ensures ok ==> exists l | 0 <= l < |sizes| :: old(free)[l] != [] && State() == Demanded(old(State()), l, Page(v, sizes[l]))
                       && (if old(free)[defaultLevel] != [] then l == defaultLevel else forall m | 0 <= m < l :: old(free)[m] == [])
    {
      hide StateOk;
      FreeCount(pools, sizes, State());
      if free[defaultLevel] != [] {
        MapOne(defaultLevel, v);
        return true;
      }
      for l := 0 to |sizes|
        invariant State() == old(State()) && forall m | 0 <= m < l :: free[m] == []
      {
        if free[l] != [] {
          MapOne(l, v);
          return true;
        }
      }
      ok := false;
    }

    method MapOne(level: nat, v: nat)
      requires Valid() && level < |sizes| == |free| == |tables| && free[level] != [] && Page(v, sizes[level]) !in tables[level]
      modifies this`free, this`tables
      ensures Valid() && State() == Demanded(old(State()), level, Page(v, sizes[level]))
    {
      hide StateOk;
      PageAligned(v, sizes[level]);
      DemandKeeps(pools, sizes, State(), level, Page(v, sizes[level]));
      var table: map<nat, nat> := tables[level][Page(v, sizes[level]) := free[level][0]];
      tables := tables[level := table];
      free := free[level := free[level][1..]];
    }

    /** translateAddress on a cache miss: afterwards the address walks to the answer. */
    method Translate(v: nat) returns (r: Option<nat>)
      requires Valid()
      modifies this`free, this`tables
      ensures Valid() && (r.Some? ==> exists x: Spot :: Walks(sizes, State(), v, x) && r.value == x.page + x.offset)
      ensures r.None? ==> State() == old(State()) && forall l | 0 <= l < |sizes| :: old(free)[l] == []
      ensures State() == old(State()) || exists l | 0 <= l < |sizes| ::
        old(free)[l] != [] && Page(v, sizes[l]) !in old(tables)[l] && State() == Demanded(old(State()), l, Page(v, sizes[l]))
      ensures |old(tables)| == |sizes|
      ensures InMalloc(old(State()).book, v) || (exists l | 0 <= l < |sizes| :: Page(v, sizes[l]) in old(tables)[l]) ==>
        r.Some? && State() == old(State())
    {
      hide StateOk, Walks, InMalloc;
      FreeCount(pools, sizes, State());
      r := Walk(v);
      if r.Some? { return; }
      var ok := Demand(v);
      if !ok { return None; }
      FreeCount(pools, sizes, State());
      r := Walk(v);
    }
  }

  /** Where the range of a level begins. */
  function Start(sizes: seq<nat>, counts: seq<nat>, l: nat): nat
    requires l <= |sizes| == |counts|
  {
    if l == 0 then 0 else Start(sizes, counts, l - 1) + counts[l - 1] * sizes[l - 1]
  }

  lemma StartZero(sizes: seq<nat>, counts: seq<nat>)
    requires |sizes| == |counts|
    ensures Start(sizes, counts, 0) == 0
  {
  }

  lemma StartNext(sizes: seq<nat>, counts: seq<nat>, l: nat)
    requires l < |sizes| == |counts|
    ensures Start(sizes, counts, l + 1) == Start(sizes, counts, l) + counts[l] * sizes[l]
  {
  }

  lemma EmptyOk(pools: seq<set<nat>>, sizes: seq<nat>, s: Pages)
    requires |pools| == |sizes| == |s.free| == |s.tables| && LevelsApart(pools, sizes) && s.book == Book(map[], map[], map[])
    requires forall l | 0 <= l < |sizes| :: sizes[l] >= 8 && NoDup(s.free[l]) && Elements(s.free[l]) == pools[l] && Apart(pools[l], sizes[l]) && s.tables[l] == map[]
    ensures StateOk(pools, sizes, s)
  {
    hide Elements, NoDup, Apart, LevelsApart;
  }

  // ---- What the methods use of the invariant

  lemma MappedStart(m: map<nat, nat>, keys: seq<nat>, values: seq<nat>)
    ensures m + Mapped(keys, values, 0) == m && Elements(keys[..0]) == {}
  {
  }

  lemma MappedMore(m: map<nat, nat>, keys: seq<nat>, values: seq<nat>, i: nat)
    requires i < |keys| && i < |values|
    ensures (m + Mapped(keys, values, i))[keys[i] := values[i]] == m + Mapped(keys, values, i + 1)
  {
  }

  lemma ElementsMore(keys: seq<nat>, i: nat)
    requires i < |keys|
    ensures Elements(keys[..i + 1]) == Elements(keys[..i]) + {keys[i]}
  {
    assert keys[..i + 1] == keys[..i] + [keys[i]];
  }

  lemma ConstantlyAt(n: nat, a: nat)
    ensures |Constantly(n, a)| == n && forall i | 0 <= i < n :: Constantly(n, a)[i] == a
  {
  }

  lemma LinearBelow(count: nat, size: nat, start: nat)
    ensures forall p | p in Elements(Linear(count, size, start)) :: start <= p && p + size <= start + count * size
  {
    var s := Linear(count, size, start);
    forall p | p in s
      ensures start <= p && p + size <= start + count * size
    {
      var i :| 0 <= i < count && s[i] == p;
      MulMono(i + 1, count, size);
      Distribute(i, 1, size);
    }
  }

  lemma ReadInfo(pools: seq<set<nat>>, sizes: seq<nat>, s: Pages, a: nat)
    requires StateOk(pools, sizes, s) && a in s.book.info
    ensures s.book.info[a].level < |sizes| == |s.free| && s.book.info[a].keys <= s.book.trans.Keys && Injective(s.book.trans)
  {
    hide Needed;
    Owned(sizes, s.book, a);
  }

  lemma FreeCount(pools: seq<set<nat>>, sizes: seq<nat>, s: Pages)
    requires StateOk(pools, sizes, s)
    ensures |s.free| == |s.tables| == |sizes|
  {
  }

  lemma NothingBack(trans: map<nat, nat>, keys: set<nat>)
    ensures NoDup([]) && Elements([]) == Image(trans, keys - keys) && |keys - keys| == 0
  {
    assert keys - keys == {};
  }

  /** One more page of a freed malloc. */
  lemma BackMore(trans: map<nat, nat>, keys: set<nat>, left: set<nat>, k: nat, back: seq<nat>)
    requires keys <= trans.Keys && left <= keys && k in left && Injective(trans)
    requires NoDup(back) && Elements(back) == Image(trans, keys - left) && |back| == |keys - left|
    ensures k in trans - (keys - left)
    ensures NoDup([trans[k]] + back) && Elements([trans[k]] + back) == Image(trans, keys - (left - {k}))
    ensures |back| + 1 == |keys - (left - {k})|
  {
    assert keys - (left - {k}) == (keys - left) + {k};
    assert trans[k] !in Image(trans, keys - left);
    assert trans[k] !in Elements(back);
    assert Elements([trans[k]] + back) == Elements(back) + {trans[k]};
    assert Image(trans, (keys - left) + {k}) == Image(trans, keys - left) + {trans[k]};
  }

  lemma LookupState(pools: seq<set<nat>>, sizes: seq<nat>, s: Pages, v: nat, f: Option<nat>)
    requires StateOk(pools, sizes, s) && IsFloor(s.book.trans.Keys, v, f)
    ensures f.Some? ==> f.value in s.book.primary && s.book.primary[f.value] in s.book.info && f.value in s.book.trans && f.value <= v
    ensures forall a | a in s.book.info :: s.book.info[a].size >= 1
    ensures InMalloc(s.book, v) <==> f.Some? && v < s.book.primary[f.value] + s.book.info[s.book.primary[f.value]].size
    ensures forall a | a in s.book.info && Inside(s.book, a, v) ::
      && f.Some? && s.book.primary[f.value] == a && s.book.info[a].level < |sizes| && sizes[s.book.info[a].level] >= 1
      && f.value == KeyOf(a, sizes[s.book.info[a].level], v)
  {
    hide LevelOk, LevelsApart, Needed;
    LookupExact(sizes, s.book, v, f);
    if f.Some? { KeyOwner(sizes, s.book, f.value); }
    forall a | a in s.book.info
      ensures s.book.info[a].level < |sizes| && sizes[s.book.info[a].level] >= 1
    {
      Owned(sizes, s.book, a);
    }
  }

  lemma NotLive(pools: seq<set<nat>>, sizes: seq<nat>, s: Pages, a: nat, size: nat)
    requires StateOk(pools, sizes, s) && size >= 1 && Clear(s.book, a, size)
    ensures a !in s.book.info
  {
    if a in s.book.info { assert Inside(s.book, a, a); }
  }

  lemma ClearNow(b: Book, b': Book, a: nat, size: nat)
    requires forall c, v: nat | c in b.info && !Inside(b, c, a) && a <= v < a + size :: !Inside(b, c, v)
    requires forall c | c in b'.info :: c in b.info && b'.info[c] == b.info[c] && !Inside(b, c, a)
    ensures Clear(b', a, size)
  {
    forall c, v: nat | c in b'.info && a <= v < a + size
      ensures !Inside(b', c, v)
    {
      assert !Inside(b, c, v);
    }
  }
}
