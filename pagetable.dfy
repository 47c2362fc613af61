/**
 * Physical memory as seen by the multi-level page-table code of every
 * architecture: a map from the physical address of each page table to its
 * 512 64-bit entries, plus an allocator that hands out fresh, zeroed,
 * 8 KiB-aligned tables from a list of free frames.
 *
 * The architectures differ only in how an entry says "points to a next-level
 * table" and how the table address is recovered from it; a `Walker` packages
 * those two decoders together with the number of levels. A walk follows one
 * index per level and yields the last-level entry, or 0 (no mapping) when an
 * intermediate entry is not a table pointer.
 *
 * The ghost map `paths` records, for every table reachable from a root, the
 * index path that leads to it. `TreeShaped` says that this record is exact:
 * the root has the empty path, each table is reached by its path, and every
 * table pointer in an intermediate table leads to a table whose path extends
 * the parent's by the slot index. It makes the tables a tree, so writing
 * one last-level slot cannot affect the walk of any other index tuple.
 */
module PageTable {
  import opened Prelude

  const ENTRIES: nat := 512

  type Entry = bv64
  /** The physical address of a page table (a datatype, so that it can key a map). */
  datatype Addr = Addr(bits: bv64)
  type Tables = map<Addr, seq<Entry>>
  type Paths = map<Addr, seq<nat>>

  /** How one architecture reads its intermediate entries, and how many levels its walk has. */
  datatype Walker = Walker(levels: nat, present: Entry -> bool, next: Entry -> Addr)

  /** A walk has at least two levels, and an all-zero entry is never a table pointer. */
  predicate WalkerOk(w: Walker)
  {
    w.levels >= 2 && !w.present(0)
  }

  /**
   * An address the allocator may hand out: 8 KiB-aligned and below 1 TiB,
   * so that it fits the address field of every entry format.
   */
  predicate Allocatable(a: Addr)
  {
    a.bits & 0xFFFF_FF00_0000_1FFF == 0
  }

  /** `mk` builds table pointers that `w` reads back: present, and leading to the same address. */
  ghost predicate Decodes(w: Walker, mk: Addr -> Entry)
  {
    forall a: Addr :: Allocatable(a) ==> w.present(mk(a)) && w.next(mk(a)) == a
  }

  /** A freshly cleared page table: every entry zero. */
  function ZeroTable(): (z: seq<Entry>)
    ensures |z| == ENTRIES && forall k :: 0 <= k < |z| ==> z[k] == 0
  {
    seq(ENTRIES, _ => 0)
  }

  predicate ValidIndices(idx: seq<nat>)
  {
    forall k :: 0 <= k < |idx| ==> idx[k] < ENTRIES
  }

  /** One step of a walk: the table the entry at slot `i` of table `t` points to. */
  ghost function Step(w: Walker, tables: Tables, t: Addr, i: nat): Option<Addr>
  {
    if t in tables && i < |tables[t]| && w.present(tables[t][i]) then Some(w.next(tables[t][i])) else None
  }

  /** The table reached from `root` by following every index of `p` in turn. */
  ghost function Descend(w: Walker, tables: Tables, root: Addr, p: seq<nat>): Option<Addr>
    decreases |p|
  {
    if p == [] then Some(root)
    else match Descend(w, tables, root, p[..|p| - 1])
      case None => None
      case Some(t) => Step(w, tables, t, p[|p| - 1])
  }

  /** The last-level entry selected by a full index tuple; 0 when the walk stops early. */
  ghost function Leaf(w: Walker, tables: Tables, root: Addr, idx: seq<nat>): Entry
    requires |idx| >= 1
  {
    match Descend(w, tables, root, idx[..|idx| - 1])
    case None => 0
    case Some(t) => if t in tables && idx[|idx| - 1] < |tables[t]| then tables[t][idx[|idx| - 1]] else 0
  }

  ghost predicate TreeShaped(w: Walker, tables: Tables, paths: Paths, root: Addr)
  {
    && root in paths && paths[root] == []
    && (forall t :: t in paths ==>
          && t in tables && |tables[t]| == ENTRIES && |paths[t]| < w.levels
          && Descend(w, tables, root, paths[t]) == Some(t))
    && (forall t, i :: t in paths && t in tables && 0 <= i < |tables[t]| && |paths[t]| < w.levels - 1
          && w.present(tables[t][i])
          ==> w.next(tables[t][i]) in paths && paths[w.next(tables[t][i])] == paths[t] + [i])
  }

  /** In a tree, the table a walk reaches is the one whose recorded path is the walk's index path. */
  lemma {:induction false} PathOfDescend(w: Walker, tables: Tables, paths: Paths, root: Addr, p: seq<nat>)
    requires TreeShaped(w, tables, paths, root)
    requires |p| < w.levels && Descend(w, tables, root, p).Some?
    ensures Descend(w, tables, root, p).value in paths
    ensures paths[Descend(w, tables, root, p).value] == p
  {
    if p != [] {
      var q := p[..|p| - 1];
      PathOfDescend(w, tables, paths, root, q);
      var j := p[|p| - 1];
      assert p == q + [j];
      var s := Descend(w, tables, root, q).value;
      assert Descend(w, tables, root, p) == Step(w, tables, s, j);
      assert s in tables && j < |tables[s]| && w.present(tables[s][j]);
      assert |paths[s]| < w.levels - 1;
      assert w.next(tables[s][j]) in paths;
    }
  }

  /** Writing a slot of a last-level table leaves every walk through the intermediate levels unchanged. */
  lemma {:induction false} DescendAfterLeafWrite(w: Walker, tables: Tables, paths: Paths, root: Addr,
                                                 t: Addr, i: nat, e: Entry, p: seq<nat>)
    requires TreeShaped(w, tables, paths, root)
    requires t in paths && |paths[t]| == w.levels - 1 && i < ENTRIES
    requires |p| <= w.levels - 1
    ensures Descend(w, tables[t := tables[t][i := e]], root, p) == Descend(w, tables, root, p)
  {
    if p != [] {
      var q := p[..|p| - 1];
      DescendAfterLeafWrite(w, tables, paths, root, t, i, e, q);
      var tables' := tables[t := tables[t][i := e]];
      var d := Descend(w, tables, root, q);
      if d.Some? {
        PathOfDescend(w, tables, paths, root, q);
        var s: Addr := d.value;
        assert s != t;
        assert tables'[s] == tables[s];
      }
    }
  }

  /** Writing `e` at the slot selected by `idx` changes the leaf of `idx` to `e` and no other leaf. */
  lemma LeafAfterLeafWrite(w: Walker, tables: Tables, paths: Paths, root: Addr,
                           idx: seq<nat>, t: Addr, e: Entry, other: seq<nat>)
    requires TreeShaped(w, tables, paths, root)
    requires |idx| == w.levels && ValidIndices(idx)
    requires t in paths && paths[t] == idx[..|idx| - 1]
    requires |other| == w.levels
    ensures Leaf(w, tables[t := tables[t][idx[|idx| - 1] := e]], root, other)
            == if other == idx then e else Leaf(w, tables, root, other)
  {
    var i := idx[|idx| - 1];
    var prefix := other[..|other| - 1];
    var tables' := tables[t := tables[t][i := e]];
    SameTuple(other, idx);
    DescendAfterLeafWrite(w, tables, paths, root, t, i, e, prefix);
    var d := Descend(w, tables, root, prefix);
    if d.Some? {
      PathOfDescend(w, tables, paths, root, prefix);
      if d.value != t {
        assert tables'[d.value] == tables[d.value];
      }
    }
  }

  /** Two index tuples of one length agree when their prefixes and last indices do. */
  lemma SameTuple(a: seq<nat>, b: seq<nat>)
    requires |a| == |b| >= 1
    ensures a == b <==> a[..|a| - 1] == b[..|b| - 1] && a[|a| - 1] == b[|b| - 1]
  {
    assert a == a[..|a| - 1] + [a[|a| - 1]];
    assert b == b[..|b| - 1] + [b[|b| - 1]];
  }

  lemma LeafWritePreservesTree(w: Walker, tables: Tables, paths: Paths, root: Addr, t: Addr, i: nat, e: Entry)
    requires TreeShaped(w, tables, paths, root)
    requires t in paths && |paths[t]| == w.levels - 1 && i < ENTRIES
    ensures TreeShaped(w, tables[t := tables[t][i := e]], paths, root)
  {
    var tables' := tables[t := tables[t][i := e]];
    forall s | s in paths
      ensures Descend(w, tables', root, paths[s]) == Some(s)
    {
      DescendAfterLeafWrite(w, tables, paths, root, t, i, e, paths[s]);
    }
  }

  /** The tables after a fresh all-zero table `n` is hooked into slot `i` of `t` by the pointer `mk`. */
  ghost function Hook(tables: Tables, t: Addr, i: nat, n: Addr, mk: Entry): Tables
    requires t in tables && i < |tables[t]|
  {
    tables[n := ZeroTable()][t := tables[t][i := mk]]
  }

  /** The situation in which get-or-create hooks a new table into an empty slot of an intermediate table. */
  ghost predicate CanHook(w: Walker, tables: Tables, paths: Paths, root: Addr, t: Addr, i: nat, n: Addr, mk: Entry)
  {
    && WalkerOk(w) && TreeShaped(w, tables, paths, root)
    && t in paths && |paths[t]| < w.levels - 1 && i < ENTRIES
    && !w.present(tables[t][i])
    && n !in tables && w.present(mk) && w.next(mk) == n
  }

  /** After hooking, one step of a walk out of a table changes only at the hooked slot, and the new table is empty. */
  lemma StepAfterHook(w: Walker, tables: Tables, paths: Paths, root: Addr, t: Addr, i: nat, n: Addr, mk: Entry,
                      s: Addr, j: nat)
    requires CanHook(w, tables, paths, root, t, i, n, mk)
    ensures Step(w, Hook(tables, t, i, n, mk), s, j)
            == if s == t && j == i then Some(n) else if s == n then None else Step(w, tables, s, j)
  {
    var tables' := Hook(tables, t, i, n, mk);
    assert t != n;
    if s == t && j == i {
      assert tables'[t][i] == mk;
    } else if s == n {
      if j < ENTRIES {
        assert tables'[n][j] == 0;
      }
    } else if s == t {
      assert tables'[t] == tables[t][i := mk];
    } else if s in tables {
      assert tables'[s] == tables[s];
    }
  }

  /** Hooking makes the walk of `paths[t] + [i]` reach `n` and changes no other walk. */
  lemma {:induction false} DescendAfterHook(w: Walker, tables: Tables, paths: Paths, root: Addr,
                                            t: Addr, i: nat, n: Addr, mk: Entry, p: seq<nat>)
    requires CanHook(w, tables, paths, root, t, i, n, mk)
    requires |p| <= w.levels
    ensures Descend(w, Hook(tables, t, i, n, mk), root, p)
            == if p == paths[t] + [i] then Some(n) else Descend(w, tables, root, p)
  {
    if p != [] {
      var q := p[..|p| - 1];
      var j := p[|p| - 1];
      assert p == q + [j];
      DescendAfterHook(w, tables, paths, root, t, i, n, mk, q);
      var d := Descend(w, tables, root, q);
      if q == paths[t] + [i] {
        StepAfterHook(w, tables, paths, root, t, i, n, mk, n, j);
      } else if d.Some? {
        PathOfDescend(w, tables, paths, root, q);
        StepAfterHook(w, tables, paths, root, t, i, n, mk, d.value, j);
      }
    }
  }

  /** Hooking a table changes no leaf. */
  lemma LeafAfterHook(w: Walker, tables: Tables, paths: Paths, root: Addr,
                      t: Addr, i: nat, n: Addr, mk: Entry, idx: seq<nat>)
    requires CanHook(w, tables, paths, root, t, i, n, mk)
    requires |idx| == w.levels
    ensures Leaf(w, Hook(tables, t, i, n, mk), root, idx) == Leaf(w, tables, root, idx)
  {
    var prefix := idx[..|idx| - 1];
    DescendAfterHook(w, tables, paths, root, t, i, n, mk, prefix);
    var d := Descend(w, tables, root, prefix);
    if prefix != paths[t] + [i] && d.Some? {
      PathOfDescend(w, tables, paths, root, prefix);
      assert d.value != t && d.value != n;
    }
  }

  /** After hooking, every recorded table, the new one included, is still reached by its own path. */
  lemma HookKeepsPaths(w: Walker, tables: Tables, paths: Paths, root: Addr,
                       t: Addr, i: nat, n: Addr, mk: Entry)
    requires CanHook(w, tables, paths, root, t, i, n, mk)
    ensures forall s :: s in paths[n := paths[t] + [i]] ==>
              && s in Hook(tables, t, i, n, mk) && |Hook(tables, t, i, n, mk)[s]| == ENTRIES
              && |paths[n := paths[t] + [i]][s]| < w.levels
              && Descend(w, Hook(tables, t, i, n, mk), root, paths[n := paths[t] + [i]][s]) == Some(s)
  {
    var tables' := Hook(tables, t, i, n, mk);
    var paths' := paths[n := paths[t] + [i]];
    DescendAfterHook(w, tables, paths, root, t, i, n, mk, paths[t] + [i]);
    forall s | s in paths'
      ensures s in tables' && |tables'[s]| == ENTRIES && |paths'[s]| < w.levels
      ensures Descend(w, tables', root, paths'[s]) == Some(s)
    {
      if s != n {
        DescendAfterHook(w, tables, paths, root, t, i, n, mk, paths[s]);
      }
    }
  }

  /** After hooking, every present entry of an intermediate table still points at the table recorded one level down. */
  lemma HookKeepsLinks(w: Walker, tables: Tables, paths: Paths, root: Addr,
                       t: Addr, i: nat, n: Addr, mk: Entry)
    requires CanHook(w, tables, paths, root, t, i, n, mk)
    ensures var tables', paths' := Hook(tables, t, i, n, mk), paths[n := paths[t] + [i]];
      forall s, j :: s in paths' && s in tables' && 0 <= j < |tables'[s]| && |paths'[s]| < w.levels - 1
                     && w.present(tables'[s][j])
        ==> w.next(tables'[s][j]) in paths' && paths'[w.next(tables'[s][j])] == paths'[s] + [j]
  {
    var tables' := Hook(tables, t, i, n, mk);
    var paths' := paths[n := paths[t] + [i]];
    forall s, j | s in paths' && s in tables' && 0 <= j < |tables'[s]| && |paths'[s]| < w.levels - 1
                  && w.present(tables'[s][j])
      ensures w.next(tables'[s][j]) in paths' && paths'[w.next(tables'[s][j])] == paths'[s] + [j]
    {
      StepAfterHook(w, tables, paths, root, t, i, n, mk, s, j);
    }
  }

  /** Hooking a table changes no leaf, for every index tuple at once. */
  lemma LeavesAfterHook(w: Walker, tables: Tables, paths: Paths, root: Addr,
                        t: Addr, i: nat, n: Addr, mk: Entry)
    requires CanHook(w, tables, paths, root, t, i, n, mk)
    ensures forall idx :: |idx| == w.levels ==> Leaf(w, Hook(tables, t, i, n, mk), root, idx) == Leaf(w, tables, root, idx)
  {
    forall idx | |idx| == w.levels
      ensures Leaf(w, Hook(tables, t, i, n, mk), root, idx) == Leaf(w, tables, root, idx)
    {
      LeafAfterHook(w, tables, paths, root, t, i, n, mk, idx);
    }
  }

  lemma HookPreservesTree(w: Walker, tables: Tables, paths: Paths, root: Addr,
                          t: Addr, i: nat, n: Addr, mk: Entry)
    requires CanHook(w, tables, paths, root, t, i, n, mk)
    ensures TreeShaped(w, Hook(tables, t, i, n, mk), paths[n := paths[t] + [i]], root)
  {
    HookKeepsPaths(w, tables, paths, root, t, i, n, mk);
    HookKeepsLinks(w, tables, paths, root, t, i, n, mk);
  }

  /**
   * The allocator's state: every free frame is allocatable, not in use as a
   * table, and listed once; every table has 512 entries.
   */
  ghost predicate Pool(tables: Tables, free: seq<Addr>)
  {
    && (forall a :: a in tables ==> |tables[a]| == ENTRIES)
    && (forall k :: 0 <= k < |free| ==> free[k] !in tables && Allocatable(free[k]))
    && (forall j, k :: 0 <= j < k < |free| ==> free[j] != free[k])
  }

  /** Replacing a table by another of 512 entries keeps the allocator's state. */
  lemma PoolUpdate(tables: Tables, free: seq<Addr>, t: Addr, s: seq<Entry>)
    requires Pool(tables, free) && t in tables && |s| == ENTRIES
    ensures Pool(tables[t := s], free)
  {
  }

  /** The memory that holds every page table, and the allocator that provides new ones. */
  class PhysicalMemory {
    var tables: Tables
    var free: seq<Addr>
    ghost var paths: Paths

    ghost predicate Valid()
      reads this
    {
      Pool(tables, free)
    }

    ghost predicate TreeOf(w: Walker, root: Addr)
      reads this
    {
      TreeShaped(w, tables, paths, root)
    }

    /** Memory holding only the statically allocated root table at `root`, all entries zero, and the frames `pool`. */
    constructor (root: Addr, pool: seq<Addr>)
      requires forall k :: 0 <= k < |pool| ==> pool[k] != root && Allocatable(pool[k])
      requires forall j, k :: 0 <= j < k < |pool| ==> pool[j] != pool[k]
      ensures Valid() && tables == map[root := ZeroTable()] && free == pool && paths == map[]
    {
      tables := map[root := ZeroTable()];
      free := pool;
      paths := map[];
    }

    /**
     * A fresh table: not in use, zeroed and aligned. The source's allocator
     * is a stand-in; a list of distinct free frames models one that never
     * hands out a table twice.
     */
    method AllocPageTable() returns (a: Addr)
      requires Valid() && |free| > 0
      modifies this
      ensures Valid()
      ensures a == old(free[0]) && a !in old(tables) && Allocatable(a)
      ensures tables == old(tables)[a := ZeroTable()]
      ensures free == old(free[1..]) && paths == old(paths)
    {
      a := free[0];
      tables := tables[a := ZeroTable()];
      free := free[1..];
    }

    /** Sets every entry of table `t` to zero, one entry at a time. */
    method ZeroTableAt(t: Addr)
      requires Valid() && t in tables
      modifies this
      ensures Valid() && tables == old(tables)[t := ZeroTable()]
      ensures free == old(free) && paths == old(paths)
    {
      var k := 0;
      while k < ENTRIES
        invariant 0 <= k <= ENTRIES
        invariant Valid() && t in tables && free == old(free) && paths == old(paths)
        invariant tables.Keys == old(tables).Keys
        invariant forall a :: a in tables && a != t ==> tables[a] == old(tables)[a]
        invariant forall m :: 0 <= m < k ==> tables[t][m] == 0
      {
        tables := tables[t := tables[t][k := 0]];
        k := k + 1;
      }
      assert tables[t] == ZeroTable();
    }

    /** Starts a fresh tree at a root table whose entries are all zero. */
    ghost method StartTree(w: Walker, root: Addr)
      requires Valid() && WalkerOk(w) && root in tables && tables[root] == ZeroTable()
      modifies this
      ensures Valid() && TreeOf(w, root) && tables == old(tables) && free == old(free)
      ensures forall idx :: |idx| == w.levels ==> Leaf(w, tables, root, idx) == 0
    {
      paths := map[root := []];
      forall idx | |idx| == w.levels
        ensures Leaf(w, tables, root, idx) == 0
      {
        EmptyRootHasNoLeaves(w, tables, root, idx);
      }
    }

    /**
     * The step each level of a page-table walk performs: follow the entry at
     * slot `i` of `t` when it is a table pointer; otherwise allocate a zeroed
     * table and store a pointer to it (built by `mk`) in that slot.
     */
    method GetOrCreate(w: Walker, mk: Addr -> Entry, root: Addr, t: Addr, i: nat) returns (child: Addr)
      requires Valid() && WalkerOk(w) && Decodes(w, mk) && TreeOf(w, root)
      requires t in paths && |paths[t]| < w.levels - 1 && i < ENTRIES
      requires |free| > 0
      modifies this
      ensures Valid() && TreeOf(w, root)
      ensures child in paths && paths[child] == old(paths[t]) + [i] && |paths[child]| < w.levels
      ensures child == if old(w.present(tables[t][i])) then w.next(old(tables[t][i])) else old(free[0])
      ensures |free| >= |old(free)| - 1
      ensures forall idx :: |idx| == w.levels ==> Leaf(w, tables, root, idx) == old(Leaf(w, tables, root, idx))
    {
      var e := tables[t][i];
      if w.present(e) {
        child := w.next(e);
      } else {
        child := HookNewTable(w, mk, root, t, i);
      }
    }

    /** The create branch of get-or-create: a fresh zeroed table, pointed at from slot `i` of `t`. */
    method HookNewTable(w: Walker, mk: Addr -> Entry, root: Addr, t: Addr, i: nat) returns (child: Addr)
      requires Valid() && WalkerOk(w) && Decodes(w, mk) && TreeOf(w, root)
      requires t in paths && |paths[t]| < w.levels - 1 && i < ENTRIES
      requires |free| > 0 && !w.present(tables[t][i])
      modifies this
      ensures Valid() && TreeOf(w, root)
      ensures child == old(free[0]) && free == old(free[1..]) && paths == old(paths)[child := old(paths[t]) + [i]]
      ensures tables == old(tables)[child := ZeroTable()][t := old(tables[t])[i := mk(child)]]
      ensures child !in old(paths)
      ensures forall idx :: |idx| == w.levels ==> Leaf(w, tables, root, idx) == old(Leaf(w, tables, root, idx))
    {
      ghost var tables0 := tables;
      ghost var paths0 := paths;
      child := AllocPageTable();
      ghost var tables1 := tables;
      assert w.present(mk(child)) && w.next(mk(child)) == child;
      tables := tables[t := tables[t][i := mk(child)]];
      paths := paths[child := paths[t] + [i]];
      assert tables == Hook(tables0, t, i, child, mk(child));
      assert Valid() by {
        PoolUpdate(tables1, free, t, tables1[t][i := mk(child)]);
      }
      assert TreeOf(w, root) by {
        HookPreservesTree(w, tables0, paths0, root, t, i, child, mk(child));
      }
      LeavesAfterHook(w, tables0, paths0, root, t, i, child, mk(child));
    }

    /**
     * The descent of a four-level map operation: three get-or-create steps
     * along `idx[0]`, `idx[1]` and `idx[2]`, ending at the last-level table
     * whose slot `idx[3]` the operation then writes. No leaf changes.
     */
    method LeafTable4(w: Walker, mk: Addr -> Entry, root: Addr, idx: seq<nat>) returns (t: Addr)
      requires Valid() && WalkerOk(w) && Decodes(w, mk) && TreeOf(w, root)
      requires w.levels == 4 && |idx| == 4 && ValidIndices(idx) && |free| >= 3
      modifies this
      ensures Valid() && TreeOf(w, root) && |free| >= |old(free)| - 3
      ensures t in paths && paths[t] == idx[..3]
      ensures forall other :: |other| == 4 ==> Leaf(w, tables, root, other) == old(Leaf(w, tables, root, other))
    {
      var t1 := GetOrCreate(w, mk, root, root, idx[0]);
      ghost var p1 := paths[t1];
      assert p1 == [] + [idx[0]];
      var t2 := GetOrCreate(w, mk, root, t1, idx[1]);
      ghost var p2 := paths[t2];
      assert p2 == p1 + [idx[1]];
      t := GetOrCreate(w, mk, root, t2, idx[2]);
      ghost var p3 := paths[t];
      assert p3 == p2 + [idx[2]];
      PrefixOfThree(idx, p1, p2, p3);
    }

    /** The descent of a two-level map operation: one get-or-create step along `idx[0]`. No leaf changes. */
    method LeafTable2(w: Walker, mk: Addr -> Entry, root: Addr, idx: seq<nat>) returns (t: Addr)
      requires Valid() && WalkerOk(w) && Decodes(w, mk) && TreeOf(w, root)
      requires w.levels == 2 && |idx| == 2 && ValidIndices(idx) && |free| >= 1
      modifies this
      ensures Valid() && TreeOf(w, root) && |free| >= |old(free)| - 1
      ensures t in paths && paths[t] == idx[..1]
      ensures forall other :: |other| == 2 ==> Leaf(w, tables, root, other) == old(Leaf(w, tables, root, other))
    {
      t := GetOrCreate(w, mk, root, root, idx[0]);
      assert paths[t] == [] + [idx[0]];
    }

    /**
     * The descent of a three-level map operation: two get-or-create steps
     * along `idx[0]` and `idx[1]`, ending at the last-level table. No leaf
     * changes.
     */
    method LeafTable3(w: Walker, mk: Addr -> Entry, root: Addr, idx: seq<nat>) returns (t: Addr)
      requires Valid() && WalkerOk(w) && Decodes(w, mk) && TreeOf(w, root)
      requires w.levels == 3 && |idx| == 3 && ValidIndices(idx) && |free| >= 2
      modifies this
      ensures Valid() && TreeOf(w, root) && |free| >= |old(free)| - 2
      ensures t in paths && paths[t] == idx[..2]
      ensures forall other :: |other| == 3 ==> Leaf(w, tables, root, other) == old(Leaf(w, tables, root, other))
    {
      var t1 := GetOrCreate(w, mk, root, root, idx[0]);
      ghost var p1 := paths[t1];
      assert p1 == [] + [idx[0]];
      t := GetOrCreate(w, mk, root, t1, idx[1]);
      ghost var p2 := paths[t];
      assert p2 == p1 + [idx[1]];
      PrefixOfTwo(idx, p1, p2);
    }

    /** Stores `e` in the last-level slot selected by `idx`, in table `t` that the walk of `idx` reaches. */
    method SetLeaf(w: Walker, root: Addr, idx: seq<nat>, t: Addr, e: Entry)
      requires Valid() && TreeOf(w, root)
      requires |idx| == w.levels && ValidIndices(idx)
      requires t in paths && paths[t] == idx[..|idx| - 1]
      modifies this
      ensures Valid() && TreeOf(w, root) && paths == old(paths) && free == old(free)
      ensures tables == old(tables)[t := old(tables[t])[idx[|idx| - 1] := e]]
      ensures Leaf(w, tables, root, idx) == e
      ensures forall other :: |other| == w.levels && other != idx ==>
                Leaf(w, tables, root, other) == old(Leaf(w, tables, root, other))
    {
      ghost var tables0 := tables;
      tables := tables[t := tables[t][idx[|idx| - 1] := e]];
      LeafWritePreservesTree(w, tables0, paths, root, t, idx[|idx| - 1], e);
      forall other | |other| == w.levels
        ensures Leaf(w, tables, root, other) == if other == idx then e else Leaf(w, tables0, root, other)
      {
        LeafAfterLeafWrite(w, tables0, paths, root, idx, t, e, other);
      }
    }
  }

  lemma PrefixOfThree(idx: seq<nat>, p1: seq<nat>, p2: seq<nat>, p3: seq<nat>)
    requires |idx| == 4 && p1 == [] + [idx[0]] && p2 == p1 + [idx[1]] && p3 == p2 + [idx[2]]
    ensures p3 == idx[..3]
  {
  }

  lemma PrefixOfTwo(idx: seq<nat>, p1: seq<nat>, p2: seq<nat>)
    requires |idx| == 3 && p1 == [] + [idx[0]] && p2 == p1 + [idx[1]]
    ensures p2 == idx[..2]
  {
  }

  /** A root whose entries are all zero maps nothing. */
  lemma EmptyRootHasNoLeaves(w: Walker, tables: Tables, root: Addr, idx: seq<nat>)
    requires WalkerOk(w) && root in tables && tables[root] == ZeroTable()
    requires |idx| == w.levels
    ensures Leaf(w, tables, root, idx) == 0
  {
    var prefix := idx[..|idx| - 1];
    EmptyRootStopsWalks(w, tables, root, prefix);
  }

  lemma {:induction false} EmptyRootStopsWalks(w: Walker, tables: Tables, root: Addr, p: seq<nat>)
    requires WalkerOk(w) && root in tables && tables[root] == ZeroTable()
    ensures Descend(w, tables, root, p) == if p == [] then Some(root) else None
  {
    if p != [] {
      EmptyRootStopsWalks(w, tables, root, p[..|p| - 1]);
      if |p| == 1 {
        assert p[..|p| - 1] == [];
        if p[0] < ENTRIES {
          assert tables[root][p[0]] == 0;
        }
      }
    }
  }
}
