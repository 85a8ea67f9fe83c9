/** The simple Ariel memory manager: one pool, demand mapping and a bounded translation cache. */
module SimpleManager {
  import opened Arith
  import opened PagePool

  /** The page of an address. */
  function Page(v: nat, size: nat): nat
    requires size >= 1
  {
    v - v % size
  }

  /** The physical address of a mapped address. */
  function Phys(table: map<nat, nat>, size: nat, v: nat): nat
    requires size >= 1 && Page(v, size) in table
  {
    table[Page(v, size)] + v % size
  }

  predicate Injective(table: map<nat, nat>) {
    forall a, b | a in table && b in table && a != b :: table[a] != table[b]
  }

  /** Distinct addresses have distinct physical addresses. */
  lemma TranslationInjective(table: map<nat, nat>, size: nat, u: nat, v: nat)
    requires size >= 1 && Injective(table) && Apart(table.Values, size)
    requires Page(u, size) in table && Page(v, size) in table && u != v
    ensures Phys(table, size, u) != Phys(table, size, v)
  {
    var p, q := Page(u, size), Page(v, size);
    if p != q {
      assert table[p] in table.Values && table[q] in table.Values;
    }
  }

  class Manager {
    const size: nat
    const entries: nat
    const enabled: bool
    ghost const pages: set<nat>
    /** Pages taken for an address that was mapped already: they are never used. */
    ghost var lost: set<nat>
    var free: seq<nat>
    var table: map<nat, nat>
    var cache: map<nat, nat>

    /** The pool and the table are consistent; the cache is bounded and agrees with the table. */
    ghost predicate Valid()
      reads this
    {
      size >= 8 && entries >= 1 && PoolOk(pages, size, free, lost, table) && |cache| <= entries && CacheOk(table, size, cache)
    }

    constructor (count: nat, size: nat, entries: nat, enabled: bool, randomised: bool, random: nat -> nat)
      requires size >= 8 && entries >= 1
      ensures Valid() && this.size == size && this.entries == entries && this.enabled == enabled
      ensures table == map[] && cache == map[] && lost == {} && multiset(free) == multiset(Linear(count, size, 0))
      ensures !randomised ==> free == Linear(count, size, 0)
    {
      this.size, this.entries, this.enabled := size, entries, enabled;
      LinearApart(count, size, 0);
      var order;
      if randomised {
        order := MapPagesRandom(count, size, 0, random);
        PermutationKeeps(Linear(count, size, 0), order);
      } else {
        order := MapPagesLinear(count, size, 0);
      }
      free, lost, table, cache := order, {}, map[], map[];
      pages := Elements(Linear(count, size, 0));
    }

    /** allocate: a free page for each page size from the given address on. An address that is
        mapped keeps its mapping and the page taken for it is lost; false is the fatal lack of pages. */
    method Allocate(bytes: nat, virt: nat) returns (ok: bool)
      requires Valid()
      modifies this`free, this`table, this`lost
      ensures Valid() && Extends(old(table), table)
      ensures ok == (|Needed(bytes, size, virt)| <= |old(free)|)
      ensures ok ==> var needed := Needed(bytes, size, virt);
        && free == old(free)[|needed|..] && table.Keys == old(table).Keys + Elements(needed)
        && (forall k | 0 <= k < |needed| && needed[k] !in old(table) :: needed[k] in table && table[needed[k]] == old(free)[k])
        && lost == old(lost) + Wasted(old(table), needed, old(free))
    {
      hide PoolOk, CacheOk, Needed, Wasted;
      ghost var needed := Needed(bytes, size, virt);
      NeededDistinct(bytes, size, virt);
      WastedNone(table, free);
      assert needed[..0] == [];
      var rounded := bytes;
      if bytes % size > 0 { rounded := bytes + (size - bytes % size); }
      var next, left := virt, 0;
      ghost var i := 0;
      while left < rounded
        invariant left == i * size && next == virt + left && 0 <= left && 0 <= i <= |needed|
        invariant Valid() && Extends(old(table), table) && i <= |old(free)| && free == old(free)[i..]
        invariant forall k | 0 <= k < i && needed[k] !in old(table) :: needed[k] in table && table[needed[k]] == old(free)[k]
        invariant table.Keys == old(table).Keys + Elements(needed[..i])
        invariant forall k | i <= k < |needed| :: needed[k] in table <==> needed[k] in old(table)
        invariant lost == old(lost) + Wasted(old(table), needed[..i], old(free))
        decreases rounded - left
      {
        NeededNext(bytes, size, virt, i);
        if free == [] { return false; }
        MapOne(next);
        assert needed[..i + 1] == needed[..i] + [needed[i]];
        WastedMore(old(table), needed[..i], needed[i], old(free));
        Distribute(i, 1, size);
        next, left, i := next + size, left + size, i + 1;
      }
      NeededEnd(bytes, size, virt, i);
      assert needed[..i] == needed;
      ok := true;
    }

    /** Take the first free page for an address; a mapping is inserted only where there is none. */
    method MapOne(p: nat)
      requires Valid() && free != []
      modifies this`free, this`table, this`lost
      ensures Valid() && free == old(free)[1..]
      ensures p !in old(table) ==> table == old(table)[p := old(free)[0]] && lost == old(lost)
      ensures p in old(table) ==> table == old(table) && lost == old(lost) + {old(free)[0]}
    {
      hide PoolOk, CacheOk;
      if p !in table {
        PoolMapped(pages, size, free, lost, table, p);
        CacheMapped(table, size, cache, p, free[0]);
        table, free := table[p := free[0]], free[1..];
      } else {
        PoolWasted(pages, size, free, lost, table);
        lost, free := lost + {free[0]}, free[1..];
      }
    }

    /** Between any two operations, distinct addresses have distinct physical addresses. */
    lemma TranslatesApart(u: nat, v: nat)
      requires Valid() && Page(u, size) in table && Page(v, size) in table && u != v
      ensures Phys(table, size, u) != Phys(table, size, v)
    {
      TranslationInjective(table, size, u, v);
    }

    /** cacheTranslation: some entry makes room when the cache is full. */
    method CacheTranslation(v: nat, phys: nat)
      requires Valid() && Page(v, size) in table && phys == Phys(table, size, v) && v !in cache
      modifies this`cache
      ensures Valid() && v in cache && cache[v] == phys
      ensures forall u | u in cache && u != v :: u in old(cache)
      ensures |old(cache)| < entries ==> cache == old(cache)[v := phys]
    {
      hide PoolOk;
      if |cache| == entries {
        var k :| k in cache;
        EvictSize(cache, k);
        cache := cache - {k};
      }
      cache := cache[v := phys];
    }

    /** translateAddress: the same address always gets the same answer; false is the fatal lack
        of pages, which happens exactly for an unmapped page when no page is free. */
    method Translate(v: nat) returns (ok: bool, phys: nat)
      requires Valid()
      modifies this`free, this`table, this`lost, this`cache
      ensures Valid() && Extends(old(table), table) && (ok ==> lost == old(lost))
      ensures !enabled ==> ok && phys == v && table == old(table) && free == old(free)
      ensures enabled ==> ok == (Page(v, size) in old(table) || old(free) != [])
      ensures enabled && ok ==> Page(v, size) in table && phys == Phys(table, size, v)
      ensures Page(v, size) in old(table) ==> table == old(table) && free == old(free)
      ensures enabled && ok && Page(v, size) !in old(table) ==>
        table == old(table)[Page(v, size) := old(free)[0]] && free == old(free)[1..]
    {
      hide PoolOk;
      if !enabled { return true, v; }
      if v in cache { return true, cache[v]; }
      var page := Page(v, size);
      if page !in table {
        OnePage(size, page);
        var got := Allocate(8, page);
        if !got { return false, 0; }
        assert page in Needed(8, size, page);
        assert Wasted(old(table), [page], old(free)) == {};
      }
      phys := table[page] + v % size;
      CacheTranslation(v, phys);
      ok := true;
    }
  }

  /** Free, mapped and lost pages together are the pool, each page once, and the table is one to
      one. */
  ghost predicate PoolOk(pages: set<nat>, size: nat, free: seq<nat>, lost: set<nat>, table: map<nat, nat>)
    requires size >= 1
  {
    && Apart(pages, size)
    && NoDup(free) && Elements(free) !! table.Values && Elements(free) !! lost && lost !! table.Values
    && Elements(free) + table.Values + lost == pages
    && Injective(table)
  }

  /** The pages taken for addresses that were mapped already. */
  function Wasted(table: map<nat, nat>, needed: seq<nat>, free: seq<nat>): set<nat> {
    set k | 0 <= k < |needed| && k < |free| && needed[k] in table :: free[k]
  }

  lemma WastedNone(table: map<nat, nat>, free: seq<nat>)
    ensures Wasted(table, [], free) == {}
  {
  }

  lemma WastedMore(table: map<nat, nat>, needed: seq<nat>, p: nat, free: seq<nat>)
    requires |needed| < |free|
    ensures Wasted(table, needed + [p], free) == Wasted(table, needed, free) + if p in table then {free[|needed|]} else {}
  {
    var more := needed + [p];
    forall x | x in Wasted(table, needed, free)
      ensures x in Wasted(table, more, free)
    {
      var k :| 0 <= k < |needed| && needed[k] in table && free[k] == x;
      assert more[k] in table;
    }
    assert more[|needed|] == p;
  }

  ghost predicate CacheOk(table: map<nat, nat>, size: nat, cache: map<nat, nat>)
    requires size >= 1
  {
    forall v | v in cache :: Page(v, size) in table && cache[v] == Phys(table, size, v)
  }

  /** Mappings are only added. */
  predicate Extends(table: map<nat, nat>, table': map<nat, nat>) {
    forall p | p in table :: p in table' && table'[p] == table[p]
  }

  lemma PoolWasted(pages: set<nat>, size: nat, free: seq<nat>, lost: set<nat>, table: map<nat, nat>)
    requires size >= 1 && PoolOk(pages, size, free, lost, table) && free != []
    ensures PoolOk(pages, size, free[1..], lost + {free[0]}, table)
  {
    var page, rest := free[0], free[1..];
    assert free == [page] + rest;
    assert Elements(free) == Elements(rest) + {page};
    assert page in Elements(free);
  }

  lemma PoolMapped(pages: set<nat>, size: nat, free: seq<nat>, lost: set<nat>, table: map<nat, nat>, p: nat)
    requires size >= 1 && PoolOk(pages, size, free, lost, table) && free != [] && p !in table
    ensures PoolOk(pages, size, free[1..], lost, table[p := free[0]])
  {
    var page, rest, table' := free[0], free[1..], table[p := free[0]];
    assert free == [page] + rest;
    assert Elements(free) == Elements(rest) + {page};
    assert page in Elements(free);
    ValuesAdd(table, p, page);
    forall a, b | a in table' && b in table' && a != b
      ensures table'[a] != table'[b]
    {
      if a == p { assert table[b] in table.Values; }
      if b == p { assert table[a] in table.Values; }
    }
  }

  lemma ValuesAdd(table: map<nat, nat>, p: nat, x: nat)
    requires p !in table
    ensures table[p := x].Values == table.Values + {x}
  {
    var t := table[p := x];
    assert t[p] == x;
    assert forall k | k in table :: t[k] == table[k];
  }

  lemma CacheMapped(table: map<nat, nat>, size: nat, cache: map<nat, nat>, p: nat, x: nat)
    requires size >= 1 && CacheOk(table, size, cache) && p !in table
    ensures CacheOk(table[p := x], size, cache)
  {
  }

  lemma EvictSize(cache: map<nat, nat>, k: nat)
    requires k in cache
    ensures |cache - {k}| == |cache| - 1
  {
    assert (cache - {k}).Keys == cache.Keys - {k};
    assert |cache| == |cache.Keys| && |cache - {k}| == |(cache - {k}).Keys|;
  }

  lemma PageAligned(v: nat, size: nat)
    requires size >= 1
    ensures Page(v, size) % size == 0 && Page(v, size) <= v
  {
    assert v == (v / size) * size + v % size;
    DivUnique(Page(v, size), size, v / size, 0);
  }

  // ---- The pages of an allocation

  /** The virtual pages that an allocation of `bytes` maps. */
  function Needed(bytes: nat, size: nat, virt: nat): seq<nat>
    requires size >= 1
  {
    seq((bytes + size - 1) / size, i requires 0 <= i => virt + i * size)
  }

  lemma NeededDistinct(bytes: nat, size: nat, virt: nat)
    requires size >= 1
    ensures NoDup(Needed(bytes, size, virt))
  {
    LinearApart(|Needed(bytes, size, virt)|, size, virt);
    assert Needed(bytes, size, virt) == Linear(|Needed(bytes, size, virt)|, size, virt);
  }

  lemma NeededNext(bytes: nat, size: nat, virt: nat, i: nat)
    requires size >= 1
    requires i * size < if bytes % size > 0 then bytes + (size - bytes % size) else bytes
    ensures i < |Needed(bytes, size, virt)| && Needed(bytes, size, virt)[i] == virt + i * size
  {
    Rounding(bytes, size);
    var n := |Needed(bytes, size, virt)|;
    if i >= n { MulMono(n, i, size); }
  }

  lemma NeededEnd(bytes: nat, size: nat, virt: nat, i: nat)
    requires size >= 1 && i <= |Needed(bytes, size, virt)|
    requires i * size >= if bytes % size > 0 then bytes + (size - bytes % size) else bytes
    ensures i == |Needed(bytes, size, virt)|
  {
    Rounding(bytes, size);
    var n := |Needed(bytes, size, virt)|;
    if i < n {
      MulMono(i + 1, n, size);
      Distribute(i, 1, size);
    }
  }

  /** The rounded size is the number of pages times the page size. */
  lemma Rounding(bytes: nat, size: nat)
    requires size >= 1
    ensures (bytes + size - 1) / size * size == if bytes % size > 0 then bytes + (size - bytes % size) else bytes
  {
    var q, r := bytes / size, bytes % size;
    assert bytes == q * size + r;
    if r > 0 {
      Distribute(q, 1, size);
      DivUnique(bytes + size - 1, size, q + 1, r - 1);
    } else {
      DivUnique(bytes + size - 1, size, q, size - 1);
    }
  }

  lemma OnePage(size: nat, virt: nat)
    requires size >= 8
    ensures Needed(8, size, virt) == [virt]
  {
    DivUnique(8 + size - 1, size, 1, 7);
  }
}
