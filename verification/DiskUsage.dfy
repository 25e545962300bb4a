/** Disk usage of a context: the file walk with hard-link deduplication, and the limits derived from
    it (handle_file and context_disk_limits, src/vcd/methods/helper/helper_startup.c:136-261). */
module DiskUsage {
  import opened Wrappers

  /** What stat and ix_attr_get report about a file. */
  datatype Inode = Inode(ino: int, nlink: int, blocks: nat, tagged: bool, xid: int)

  /** One callback of the walk; `readable` says whether ix_attr_get succeeds. */
  datatype Visit = Visit(node: Inode, readable: bool)

  const TWO32 := 0x1_0000_0000

  /** The value of a uint32_t after arithmetic that yields n. */
  function Wrap(n: nat): nat {
    if n < TWO32 then n else Wrap(n - TWO32)
  }

  lemma {:induction false} WrapIsMod(n: nat)
    ensures Wrap(n) == n % TWO32
    decreases n
  {
    if n >= TWO32 {
      WrapIsMod(n - TWO32);
    }
  }

  lemma WrapAdd(a: nat, b: nat)
    ensures Wrap(Wrap(a) + b) == Wrap(a + b)
  {
    WrapIsMod(a);
    WrapIsMod(Wrap(a) + b);
    WrapIsMod(a + b);
  }

  /** The walk shows one file system at rest: an inode number always means the same inode, and a file
      with a single link is met once. */
  ghost predicate ConsistentTree(vs: seq<Visit>) {
    forall i, j {:trigger vs[i], vs[j]} | 0 <= i < j < |vs| && vs[i].node.ino == vs[j].node.ino ::
      vs[i].node == vs[j].node && vs[i].node.nlink != 1
  }

  /** The distinct inodes of context x among the visited files. */
  ghost function Owned(vs: seq<Visit>, x: int): set<Inode> {
    set v | v in vs && v.node.tagged && v.node.xid == x :: v.node
  }

  ghost function SumBlocks(s: set<Inode>): nat
    decreases |s|
  {
    if s == {} then 0 else
      var n :| n in s;
      n.blocks + SumBlocks(s - {n})
  }

  lemma {:induction false} SumInsert(s: set<Inode>, n: Inode)
    requires n !in s
    ensures SumBlocks(s + {n}) == SumBlocks(s) + n.blocks
    decreases |s|
  {
    var t := s + {n};
    var m :| m in t && SumBlocks(t) == m.blocks + SumBlocks(t - {m});
    if m == n {
      assert t - {n} == s;
    } else {
      assert t - {m} == (s - {m}) + {n};
      SumInsert(s - {m}, n);
      SumInsert(s - {m}, m);
      assert (s - {m}) + {m} == s;
    }
  }

  class Walk {
    var usedBlocks: nat     // uint32_t
    var usedInodes: nat     // uint32_t
    var inotable: set<int>

    constructor ()
      ensures usedBlocks == 0 && usedInodes == 0 && inotable == {}
    {
      usedBlocks, usedInodes, inotable := 0, 0, {};
    }

    /** handle_file; false stops the walk with a fault. */
    method HandleFile(v: Visit, xid: int) returns (go: bool)
      modifies this
      ensures go <==> v.readable
      ensures var counts := v.readable && v.node.tagged && (v.node.nlink == 1 || v.node.ino !in old(inotable));
              && inotable == (if counts then old(inotable) + {v.node.ino} else old(inotable))
              && usedInodes == (if counts && v.node.xid == xid then Wrap(old(usedInodes) + 1) else old(usedInodes))
              && usedBlocks == (if counts && v.node.xid == xid then Wrap(old(usedBlocks) + v.node.blocks) else old(usedBlocks))
    {
      if !v.readable {
        return false;
      }
      if !v.node.tagged {
        return true;
      }
      if v.node.nlink == 1 || v.node.ino !in inotable {
        if v.node.xid == xid {
          usedBlocks := Wrap(usedBlocks + v.node.blocks);
          usedInodes := Wrap(usedInodes + 1);
        }
        inotable := inotable + {v.node.ino};
      }
      return true;
    }

    /** nftw over a whole tree: every file is counted once, whatever the order of the visits. */
    method Measure(vs: seq<Visit>, xid: int) returns (ok: bool)
      requires ConsistentTree(vs)
      modifies this
      ensures ok <==> forall v | v in vs :: v.readable
      ensures ok ==> usedInodes == Wrap(|Owned(vs, xid)|)
      ensures ok ==> usedBlocks == Wrap(SumBlocks(Owned(vs, xid)))
    {
      usedBlocks, usedInodes, inotable := 0, 0, {};
      var i := 0;
      while i < |vs|
        invariant 0 <= i <= |vs|
        invariant forall k | 0 <= k < i :: vs[k].readable
        invariant inotable == Inos(vs[..i])
        invariant usedInodes == Wrap(InodesAdded(vs, i, xid)) && usedBlocks == Wrap(BlocksAdded(vs, i, xid))
      {
        SeenStep(vs, i);
        WrapAdd(InodesAdded(vs, i, xid), 1);
        WrapAdd(BlocksAdded(vs, i, xid), vs[i].node.blocks);
        var go := HandleFile(vs[i], xid);
        if !go {
          assert vs[i] in vs;
          return false;
        }
        i := i + 1;
      }
      assert vs[..|vs|] == vs;
      AddedIsOwned(vs, |vs|, xid);
      return true;
    }
  }

  /** The inode numbers the table holds after some visits. */
  ghost function Inos(vs: seq<Visit>): set<int> {
    set v | v in vs && v.node.tagged :: v.node.ino
  }

  lemma Snoc(vs: seq<Visit>, i: nat, x: int)
    requires i < |vs|
    ensures var n := vs[i].node;
            && Inos(vs[..i + 1]) == Inos(vs[..i]) + (if n.tagged then {n.ino} else {})
            && Owned(vs[..i + 1], x) == Owned(vs[..i], x) + (if n.tagged && n.xid == x then {n} else {})
  {
    assert vs[..i + 1] == vs[..i] + [vs[i]];
    assert forall v :: v in vs[..i + 1] <==> v in vs[..i] || v == vs[i];
  }

  /** Whether the i-th visit adds to the count. */
  ghost predicate Counts(vs: seq<Visit>, i: nat)
    requires i < |vs|
  {
    vs[i].node.tagged && (vs[i].node.nlink == 1 || vs[i].node.ino !in Inos(vs[..i]))
  }

  lemma SeenStep(vs: seq<Visit>, i: nat)
    requires ConsistentTree(vs) && i < |vs|
    ensures Inos(vs[..i + 1]) == if Counts(vs, i) then Inos(vs[..i]) + {vs[i].node.ino} else Inos(vs[..i])
  {
    Snoc(vs, i, 0);
    if vs[i].node.tagged && !Counts(vs, i) {
      assert Inos(vs[..i]) + {vs[i].node.ino} == Inos(vs[..i]);
    }
  }

  /** The test `nlink == 1 or not in the table` recognises exactly the first visit of an inode. */
  lemma FirstVisitIff(vs: seq<Visit>, i: nat, x: int)
    requires ConsistentTree(vs) && i < |vs| && vs[i].node.tagged && vs[i].node.xid == x
    ensures Counts(vs, i) <==> vs[i].node !in Owned(vs[..i], x)
  {
    var n := vs[i].node;
    if n.ino in Inos(vs[..i]) {
      var v :| v in vs[..i] && v.node.tagged && v.node.ino == n.ino;
      var k :| 0 <= k < i && vs[k] == v;
      assert v.node == n && n.nlink != 1;
    }
    if n in Owned(vs[..i], x) {
      var v :| v in vs[..i] && v.node.tagged && v.node.xid == x && v.node == n;
      var k :| 0 <= k < i && vs[k] == v;
      assert n.nlink != 1;
    }
  }

  lemma OwnedStep(vs: seq<Visit>, i: nat, x: int)
    requires ConsistentTree(vs) && i < |vs|
    ensures Owned(vs[..i + 1], x) ==
            if Counts(vs, i) && vs[i].node.xid == x then Owned(vs[..i], x) + {vs[i].node} else Owned(vs[..i], x)
    ensures Counts(vs, i) && vs[i].node.xid == x ==> vs[i].node !in Owned(vs[..i], x)
  {
    Snoc(vs, i, x);
    if vs[i].node.tagged && vs[i].node.xid == x {
      FirstVisitIff(vs, i, x);
    }
  }

  /** What the counters would be without wrap-around. */
  ghost function InodesAdded(vs: seq<Visit>, i: nat, x: int): nat
    requires i <= |vs|
  {
    if i == 0 then 0 else
      InodesAdded(vs, i - 1, x) + if Counts(vs, i - 1) && vs[i - 1].node.xid == x then 1 else 0
  }

  ghost function BlocksAdded(vs: seq<Visit>, i: nat, x: int): nat
    requires i <= |vs|
  {
    if i == 0 then 0 else
      BlocksAdded(vs, i - 1, x) + if Counts(vs, i - 1) && vs[i - 1].node.xid == x then vs[i - 1].node.blocks else 0
  }

  /** They count the distinct inodes of the context, and add up their blocks. */
  lemma {:induction false} AddedIsOwned(vs: seq<Visit>, i: nat, x: int)
    requires ConsistentTree(vs) && i <= |vs|
    ensures InodesAdded(vs, i, x) == |Owned(vs[..i], x)| && BlocksAdded(vs, i, x) == SumBlocks(Owned(vs[..i], x))
    decreases i
  {
    if i > 0 {
      AddedIsOwned(vs, i - 1, x);
      OwnedStep(vs, i - 1, x);
      if Counts(vs, i - 1) && vs[i - 1].node.xid == x {
        SumInsert(Owned(vs[..i - 1], x), vs[i - 1].node);
      }
    }
  }

  lemma {:induction false} TwiceIff(vs: seq<Visit>, v: Visit)
    ensures multiset(vs)[v] >= 2 <==> exists i, j :: 0 <= i < j < |vs| && vs[i] == v && vs[j] == v
    decreases |vs|
  {
    if vs != [] {
      var front, n := vs[..|vs| - 1], |vs| - 1;
      assert vs == front + [vs[n]];
      TwiceIff(front, v);
      if multiset(vs)[v] >= 2 && multiset(front)[v] < 2 {
        assert vs[n] == v && v in multiset(front);
        var i :| 0 <= i < |front| && front[i] == v;
        assert vs[i] == v;
      }
      if i, j :| 0 <= i < j < |vs| && vs[i] == v && vs[j] == v {
        if j < n {
          assert front[i] == v && front[j] == v;
        } else {
          assert front[i] == v;
        }
      }
    }
  }

  /** A tree at rest stays one in any order of visits. */
  lemma ConsistentInAnyOrder(vs: seq<Visit>, ws: seq<Visit>)
    requires multiset(vs) == multiset(ws) && ConsistentTree(vs)
    ensures ConsistentTree(ws)
  {
    forall i, j | 0 <= i < j < |ws| && ws[i].node.ino == ws[j].node.ino
      ensures ws[i].node == ws[j].node && ws[i].node.nlink != 1
    {
      var a, b := ws[i], ws[j];
      assert a in multiset(ws) && b in multiset(ws);
      assert a in vs && b in vs;
      if a == b {
        TwiceIff(ws, a);
        TwiceIff(vs, a);
        var k, m :| 0 <= k < m < |vs| && vs[k] == a && vs[m] == a;
      } else {
        var k :| 0 <= k < |vs| && vs[k] == a;
        var m :| 0 <= m < |vs| && vs[m] == b;
        if k < m {
        } else {
          assert vs[m].node.ino == vs[k].node.ino;
        }
      }
    }
  }

  /** Two walks over the same tree end with the same counters, in whichever order they meet the files. */
  lemma OrderIrrelevant(vs: seq<Visit>, ws: seq<Visit>, x: int)
    requires multiset(vs) == multiset(ws) && ConsistentTree(vs)
    ensures ConsistentTree(ws)
    ensures InodesAdded(vs, |vs|, x) == InodesAdded(ws, |ws|, x) && BlocksAdded(vs, |vs|, x) == BlocksAdded(ws, |ws|, x)
  {
    ConsistentInAnyOrder(vs, ws);
    assert Owned(vs, x) == Owned(ws, x) by {
      assert forall v :: v in vs <==> v in multiset(vs);
      assert forall v :: v in ws <==> v in multiset(ws);
    }
    assert vs[..|vs|] == vs && ws[..|ws|] == ws;
    AddedIsOwned(vs, |vs|, x);
    AddedIsOwned(ws, |ws|, x);
  }

  /** The walk itself, twice. */
  method MeasureTwice(vs: seq<Visit>, ws: seq<Visit>, xid: int) returns (a: Walk, b: Walk, ok: bool)
    requires multiset(vs) == multiset(ws) && ConsistentTree(vs)
    ensures ok <==> forall v | v in vs :: v.readable
    ensures ok ==> a.usedInodes == b.usedInodes && a.usedBlocks == b.usedBlocks
  {
    OrderIrrelevant(vs, ws, xid);
    assert forall v :: v in vs <==> v in multiset(vs);
    assert forall v :: v in ws <==> v in multiset(ws);
    assert Owned(vs, xid) == Owned(ws, xid);
    a := new Walk();
    b := new Walk();
    ok := a.Measure(vs, xid);
    var again := b.Measure(ws, xid);
    ok := ok && again;
  }

  /** The values handed to dx_limit_set. */
  datatype Limits = Limits(spaceUsed: nat, spaceTotal: nat, inodesUsed: nat, inodesTotal: nat, reserved: int)

  /** context_disk_limits, given the configured row: the totals are never below the usage, and equal
      the configured values where those are large enough. Space is counted in units of two blocks. */
  method DiskLimits(vs: seq<Visit>, xid: int, space: nat, inodes: nat, reserved: int) returns (out: Option<Limits>)
    requires ConsistentTree(vs) && space < TWO32 && inodes < TWO32
    ensures out.Some? <==> forall v | v in vs :: v.readable
    ensures out.Some? ==>
              var d := out.value;
              && d.spaceUsed == Wrap(SumBlocks(Owned(vs, xid))) / 2
              && d.inodesUsed == Wrap(|Owned(vs, xid)|)
              && d.spaceTotal >= d.spaceUsed && d.inodesTotal >= d.inodesUsed
              && d.spaceTotal >= space && (d.spaceTotal == space || d.spaceTotal == d.spaceUsed)
              && d.inodesTotal >= inodes && (d.inodesTotal == inodes || d.inodesTotal == d.inodesUsed)
              && d.spaceTotal < TWO32 && d.inodesTotal < TWO32 && d.reserved == reserved
  {
    var walk := new Walk();
    var ok := walk.Measure(vs, xid);
    if !ok {
      return None;
    }
    WrapIsMod(|Owned(vs, xid)|);
    WrapIsMod(SumBlocks(Owned(vs, xid)));
    var usedSpace := walk.usedBlocks / 2;
    var totalSpace, totalInodes := space, inodes;
    if totalSpace < usedSpace {
      totalSpace := usedSpace;
    }
    if totalInodes < walk.usedInodes {
      totalInodes := walk.usedInodes;
    }
    return Some(Limits(usedSpace, totalSpace, walk.usedInodes, totalInodes, reserved));
  }
}
