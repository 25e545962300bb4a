/** Choosing a context id (find_free_xid, src/vcd/methods/vx/vx_create.c:274-321), and how names and
    ids translate into each other. The aggregate row (count and maximum) is read once. */
module Alloc {
  import opened Wrappers
  import opened Schema
  import opened Store
  import opened Validate
  import opened Lookup

  const MAX_XID := 65535

  /** Ids in use lie in 2..65535. */
  ghost predicate XidsInRange(db: Db) {
    forall r :: r in db && r.t == XidNameMap ==> 2 <= r.id <= MAX_XID
  }

  /** The first id from `lo` on, below 65535, that vxdb_getname does not know; 0 if there is none. */
  function FirstFree(db: Db, lo: int): int
    decreases MAX_XID - lo
  {
    if lo >= MAX_XID then 0 else if GetName(db, lo).None? then lo else FirstFree(db, lo + 1)
  }

  function FreeXid(db: Db): int {
    var cnt := |Ids(db, XidNameMap)|;
    var max := MaxId(db, XidNameMap);
    if cnt < 1 then 2
    else if max < MAX_XID then max + 1
    else if cnt < MAX_XID then FirstFree(db, 2)
    else 0
  }

  method FindFreeXid(db: Db) returns (xid: int)
    ensures xid == FreeXid(db)
    ensures XidsInRange(db) ==> (xid == 0 <==> forall x :: 2 <= x <= MAX_XID ==> Named(db, x))
    ensures XidsInRange(db) && xid != 0 ==> 2 <= xid <= MAX_XID && !Named(db, xid)
  {
    xid := 0;
    var cnt := |Ids(db, XidNameMap)|;
    if cnt < 1 {
      xid := 2;
    } else {
      var max := MaxId(db, XidNameMap);
      if max < MAX_XID {
        xid := max + 1;
      } else if cnt < MAX_XID {
        var i := 2;
        while i < MAX_XID
          invariant 2 <= i <= MAX_XID
          invariant FirstFree(db, 2) == FirstFree(db, i)
        {
          if GetName(db, i).None? {
            xid := i;
            break;
          }
          i := i + 1;
        }
      }
    }
    if XidsInRange(db) {
      FreeXidSpec(db);
    }
  }

  lemma {:induction false} FirstFreeSpec(db: Db, lo: int)
    requires 2 <= lo <= MAX_XID
    ensures FirstFree(db, lo) == 0 <==> forall x :: lo <= x < MAX_XID ==> Named(db, x)
    ensures FirstFree(db, lo) != 0 ==> lo <= FirstFree(db, lo) < MAX_XID && !Named(db, FirstFree(db, lo))
    decreases MAX_XID - lo
  {
    if lo < MAX_XID {
      assert Named(db, lo) <==> GetName(db, lo).Some?;
      FirstFreeSpec(db, lo + 1);
    }
  }

  lemma {:induction false} IntervalCard(s: set<int>, lo: int, hi: int)
    requires lo <= hi && forall x :: x in s ==> lo <= x < hi
    ensures |s| <= hi - lo
    decreases hi - lo
  {
    if lo == hi {
      assert s == {};
    } else {
      var rest := s - {hi - 1};
      IntervalCard(rest, lo, hi - 1);
      assert s <= rest + {hi - 1};
      if hi - 1 in s {
        assert s == rest + {hi - 1};
      } else {
        assert s == rest;
      }
    }
  }

  /** The allocator answers with an unused id, and gives up exactly when 2..65535 are all taken. */
  lemma FreeXidSpec(db: Db)
    requires XidsInRange(db)
    ensures FreeXid(db) == 0 <==> forall x :: 2 <= x <= MAX_XID ==> Named(db, x)
    ensures FreeXid(db) != 0 ==> 2 <= FreeXid(db) <= MAX_XID && !Named(db, FreeXid(db))
  {
    var ids := Ids(db, XidNameMap);
    forall x ensures x in ids <==> Named(db, x) {
      if Named(db, x) {
        var r :| r in db && r.t == XidNameMap && r.id == x;
      }
    }
    IntervalCard(ids, 2, MAX_XID + 1);
    FirstFreeSpec(db, 2);
    var max := MaxId(db, XidNameMap);
    if |ids| < 1 {
      assert ids == {} && !Named(db, 2);
    } else if max < MAX_XID {
      assert !Named(db, max + 1);
    } else {
      assert max in ids && Named(db, MAX_XID);
    }
  }

  /** The id 65535 is handed out exactly when 65534 is the highest in use. */
  lemma HandsOutLastIff(db: Db)
    requires XidsInRange(db)
    ensures FreeXid(db) == MAX_XID <==> MaxId(db, XidNameMap) == MAX_XID - 1
  {
    FirstFreeSpec(db, 2);
    if Ids(db, XidNameMap) != {} {
      var m := MaxId(db, XidNameMap);
      var r :| r in db && r.t == XidNameMap && r.id == m;
    }
  }

  /** The choice spelled out: 2 in an empty table, else one more than the highest id in use; once that is 65535,
      the lowest unused id, and none when all are taken. */
  lemma ChoiceIs(db: Db, x: int)
    requires XidsInRange(db)
    ensures FreeXid(db) == x <==>
            if forall y :: !Named(db, y) then x == 2
            else if !Named(db, MAX_XID) then Named(db, x - 1) && forall y :: Named(db, y) ==> y < x
            else if x == 0 then forall y :: 2 <= y <= MAX_XID ==> Named(db, y)
            else 2 <= x <= MAX_XID && !Named(db, x) && forall y :: 2 <= y < x ==> Named(db, y)
  {
    var ids := Ids(db, XidNameMap);
    forall y ensures y in ids <==> Named(db, y) {
      if Named(db, y) {
        var r :| r in db && r.t == XidNameMap && r.id == y;
      }
    }
    if ids != {} {
      var max := MaxId(db, XidNameMap);
      assert max in ids && forall y :: y in ids ==> 2 <= y <= max;
      if max == MAX_XID {
        FreeXidSpec(db);
        LowestFree(db, 2);
      }
    }
  }

  lemma {:induction false} LowestFree(db: Db, lo: int)
    requires 2 <= lo <= MAX_XID
    ensures FirstFree(db, lo) != 0 ==> forall y :: lo <= y < FirstFree(db, lo) ==> Named(db, y)
    decreases MAX_XID - lo
  {
    if lo < MAX_XID {
      assert Named(db, lo) <==> GetName(db, lo).Some?;
      LowestFree(db, lo + 1);
    }
  }

  /** The choice depends on the names in use alone. */
  lemma FreeXidSame(db: Db, d: Db)
    requires forall r: Row :: r.t == XidNameMap ==> (r in d <==> r in db)
    ensures FreeXid(d) == FreeXid(db)
  {
    assert Ids(d, XidNameMap) == Ids(db, XidNameMap);
    var a, b := MaxId(db, XidNameMap), MaxId(d, XidNameMap);
    if Ids(db, XidNameMap) != {} {
      var r :| r in db && r.t == XidNameMap && r.id == a;
      var q :| q in d && q.t == XidNameMap && q.id == b;
      assert r in d && q in db;
    }
    FirstFreeSame(db, d, 2);
  }

  lemma {:induction false} FirstFreeSame(db: Db, d: Db, lo: int)
    requires lo >= 2 && forall r: Row :: r.t == XidNameMap ==> (r in d <==> r in db)
    ensures FirstFree(d, lo) == FirstFree(db, lo)
    decreases MAX_XID - lo
  {
    if lo < MAX_XID {
      assert Named(d, lo) <==> Named(db, lo) by {
        if r :| r in db && r.t == XidNameMap && r.id == lo {
          assert r in d;
        }
      }
      FirstFreeSame(db, d, lo + 1);
    }
  }

  /** Names that are valid, as every stored name is. */
  ghost predicate NamesValid(db: Db) {
    forall r :: r in db && r.t == XidNameMap ==> r.key.Text? && ValidName(r.key.s)
  }

  /** vxdb_getxid and vxdb_getname are mutually inverse on bound ids below 65535; id 65535 can be
      bound but has no name as far as vxdb_getname is concerned. */
  lemma NameRoundTrip(db: Db, name: string, x: int)
    requires XidsInRange(db) && NamesValid(db)
    ensures Bound(db, name, x) <==> x != 0 && GetXid(db, name) == x
    ensures Bound(db, name, x) ==> (GetName(db, x) == Some(Text(name)) <==> x != MAX_XID)
    ensures GetName(db, x) == Some(Text(name)) ==> GetXid(db, name) == x
    ensures GetName(db, MAX_XID).None?
  {
    if Bound(db, name, x) {
      var r :| r in db && r.t == XidNameMap && r.id == x && r.key == Text(name);
      var q :| q in db && q.t == XidNameMap && q.key == Text(name) && q.id == IdOf(db, XidNameMap, name);
      SameKeySameRow(db, XidNameMap, r, q);
      var k := KeyOf(db, XidNameMap, x);
      var w :| w in db && w.t == XidNameMap && w.id == x && w.key == k.value;
      SameKeySameRow(db, XidNameMap, r, w);
    }
    if GetName(db, x) == Some(Text(name)) {
      var r :| r in db && r.t == XidNameMap && r.id == x && r.key == Text(name);
      var q :| q in db && q.t == XidNameMap && q.key == Text(name) && q.id == IdOf(db, XidNameMap, name);
      SameKeySameRow(db, XidNameMap, r, q);
    }
  }

  /** Two names never share a context and two contexts never share a name. */
  lemma BindingOneToOne(db: Db, m: string, n: string, x: int, y: int)
    requires Bound(db, m, x) && Bound(db, n, y)
    ensures m == n <==> x == y
  {
    var r :| r in db && r.t == XidNameMap && r.id == x && r.key == Text(m);
    var q :| q in db && q.t == XidNameMap && q.id == y && q.key == Text(n);
    SameKeySameRow(db, XidNameMap, r, q);
  }
}
