/** What the store promises between requests, and which changes keep it. */
module Invariant {
  import opened Wrappers
  import opened Schema
  import opened Store
  import opened Validate
  import opened Lookup
  import opened Template

  ghost predicate GoodName(r: Row) {
    2 <= r.id <= 65535 && r.key.Text? && ValidName(r.key.s)
  }

  ghost predicate IsVdir(v: Row, x: int) {
    v.t == Vdir && v.id == x && v.key.Text? && ValidPath(v.key.s)
  }

  ghost predicate HasVdir(db: set<Row>, x: int) {
    exists v :: v in db && IsVdir(v, x)
  }

  /** The part of the invariant that the locks protect. */
  ghost predicate ContextInv(db: set<Row>) {
    && (forall r :: r in db && r.t == XidNameMap ==> GoodName(r) && HasVdir(db, r.id))
    && (forall r :: r in db && PerContext(r.t) ==> Named(db, r.id))
  }

  /** References made by the tables that are written without a lock. */
  ghost predicate LinkInv(db: set<Row>) {
    && (forall r :: r in db && Linked(r.t) ==> Named(db, r.id))
    && (forall r :: r in db && r.t == UserCaps ==> Has(db, User, r.id))
    && (forall r :: r in db && r.t == XidUidMap ==> r.key.Int? && Has(db, User, r.key.i))
    && (forall r :: r in db && r.t == XidGidMap ==> r.key.Int? && Has(db, Groups, r.key.i))
    && (forall r :: r in db && (r.t == User || r.t == Groups) ==> r.id >= 1)
    && (forall r :: r in db && r.t == User ==> |r.data| == 2)
  }

  ghost predicate Inv(db: set<Row>) {
    ContextInv(db) && LinkInv(db)
  }

  /** `db` and `d` hold the same rows in table t. */
  ghost predicate SameRows(db: set<Row>, d: set<Row>, t: Table) {
    forall r: Row :: r.t == t ==> (r in d <==> r in db)
  }

  lemma HasSame(db: set<Row>, d: set<Row>, t: Table)
    requires SameRows(db, d, t)
    ensures forall id :: Has(d, t, id) <==> Has(db, t, id)
  {
    forall id ensures Has(d, t, id) <==> Has(db, t, id) {
      if Has(d, t, id) {
        var r :| r in d && r.t == t && r.id == id;
        assert r in db;
      }
      if Has(db, t, id) {
        var r :| r in db && r.t == t && r.id == id;
        assert r in d;
      }
    }
  }

  /** Whatever leaves names and directories alone and adds configuration only to named contexts. */
  lemma ContextKept(db: set<Row>, d: set<Row>)
    requires ContextInv(db)
    requires SameRows(db, d, XidNameMap) && SameRows(db, d, Vdir)
    requires forall r :: r in d && PerContext(r.t) ==> r in db || Named(db, r.id)
    ensures ContextInv(d)
  {
    HasSame(db, d, XidNameMap);
    forall r | r in d && r.t == XidNameMap ensures GoodName(r) && HasVdir(d, r.id) {
      var v :| v in db && IsVdir(v, r.id);
      assert v in d;
    }
  }

  /** The sixteen tables vx.remove empties. */
  const REMOVED: seq<Table> := [
    DxLimit, Init, Mount, NxAddr, NxBroadcast, Restart, Vdir, VxBcaps, VxCcaps, VxFlags, VxLimit,
    VxSched, VxUname, XidGidMap, XidNameMap, XidUidMap]

  lemma RemovedTables(t: Table)
    ensures t in REMOVED <==> PerContext(t) || Linked(t) || t == XidNameMap
  {
  }

  /** Users and groups stay, links only disappear, and those that stay refer to named contexts. */
  lemma LinkKept(db: set<Row>, d: set<Row>)
    requires LinkInv(db)
    requires SameRows(db, d, User) && SameRows(db, d, Groups)
    requires forall r :: r in d && (Linked(r.t) || r.t == UserCaps) ==> r in db
    requires forall r :: r in d && Linked(r.t) ==> Named(d, r.id)
    ensures LinkInv(d)
  {
    HasSame(db, d, User);
    HasSame(db, d, Groups);
  }

  lemma RemoveKeepsContexts(db: Db, d: Db, x: int)
    requires ContextInv(db) && d == Purge(db, REMOVED, x)
    requires forall y :: Named(d, y) <==> Named(db, y) && y != x
    ensures ContextInv(d)
  {
    forall t { RemovedTables(t); }
    forall r | r in d && r.t == XidNameMap ensures GoodName(r) && HasVdir(d, r.id) {
      var v :| v in db && IsVdir(v, r.id);
      assert v in d;
    }
  }

  lemma PurgeLinks(db: Db, d: Db, x: int)
    requires d == Purge(db, REMOVED, x)
    ensures SameRows(db, d, User) && SameRows(db, d, Groups)
    ensures forall r :: r in d && (Linked(r.t) || r.t == UserCaps) ==> r in db && (Linked(r.t) ==> r.id != x)
  {
    RemovedTables(User);
    RemovedTables(Groups);
    forall t { RemovedTables(t); }
  }

  lemma RemoveKeepsLinks(db: Db, d: Db, x: int)
    requires LinkInv(db) && d == Purge(db, REMOVED, x)
    requires forall y :: Named(d, y) <==> Named(db, y) && y != x
    ensures LinkInv(d)
  {
    PurgeLinks(db, d, x);
    LinkKept(db, d);
  }

  /** vx.remove: rows and name go in one transaction, so nothing is left dangling. */
  lemma RemoveKeeps(db: Db, x: int)
    ensures ContextInv(db) ==> ContextInv(Purge(db, REMOVED, x))
    ensures LinkInv(db) ==> LinkInv(Purge(db, REMOVED, x))
    ensures forall y :: Named(Purge(db, REMOVED, x), y) <==> Named(db, y) && y != x
  {
    var d := Purge(db, REMOVED, x);
    RemovedTables(XidNameMap);
    forall y ensures Named(d, y) <==> Named(db, y) && y != x {
      if Named(db, y) && y != x {
        var r :| r in db && r.t == XidNameMap && r.id == y;
        assert r in d;
      }
    }
    if ContextInv(db) {
      RemoveKeepsContexts(db, d, x);
    }
    if LinkInv(db) {
      RemoveKeepsLinks(db, d, x);
    }
  }

  function RenameStmt(x: int, newname: string): Stmt {
    Update(XidNameMap, x, KeyCol, Text(newname))
  }

  lemma RenameFits(db: Db, x: int, newname: string)
    requires forall r :: r in db && r.t == XidNameMap ==> r.key != Text(newname)
    ensures UpdateFits(db, XidNameMap, x, KeyCol, Text(newname))
  {
    forall a, b | a in db && b in db && a != b
      ensures !Clash(Updated(a, XidNameMap, x, KeyCol, Text(newname)), Updated(b, XidNameMap, x, KeyCol, Text(newname)))
    {
      assert !Clash(a, b);
    }
  }

  /** vx.rename: one row changes its name, every other row of the store stays. */
  lemma RenameRows(db: Db, x: int, newname: string, d: Db)
    requires Exec(db, RenameStmt(x, newname)) == Some(d)
    ensures forall r: Row :: r.t != XidNameMap || r.id != x ==> (r in d <==> r in db)
    ensures forall r: Row :: r in d && r.t == XidNameMap && r.id == x ==> r.key == Text(newname)
    ensures forall y :: Named(d, y) <==> Named(db, y)
    ensures Named(db, x) ==> Bound(d, newname, x)
  {
    ExecFrame(db, RenameStmt(x, newname));
    forall r | r in db ensures Updated(r, XidNameMap, x, KeyCol, Text(newname)) in d {
    }
    forall y ensures Named(d, y) <==> Named(db, y) {
      if Named(db, y) {
        var r :| r in db && r.t == XidNameMap && r.id == y;
        assert Updated(r, XidNameMap, x, KeyCol, Text(newname)) in d;
      }
    }
    if Named(db, x) {
      var r :| r in db && r.t == XidNameMap && r.id == x;
      assert Updated(r, XidNameMap, x, KeyCol, Text(newname)) in d;
    }
  }

  lemma RenameKeeps(db: Db, x: int, newname: string, d: Db)
    requires ValidName(newname) && Exec(db, RenameStmt(x, newname)) == Some(d)
    ensures ContextInv(db) ==> ContextInv(d)
    ensures LinkInv(db) ==> LinkInv(d)
  {
    RenameRows(db, x, newname, d);
    if ContextInv(db) {
      forall r | r in d && r.t == XidNameMap ensures GoodName(r) && HasVdir(d, r.id) {
        assert Named(db, r.id);
        var q :| q in db && q.t == XidNameMap && q.id == r.id;
        var v :| v in db && IsVdir(v, r.id);
        assert v in d;
      }
    }
    if LinkInv(db) {
      LinkKept(db, d);
    }
  }

  /** vx.create: a committed creation binds exactly (x, name) and keeps every other binding. */
  lemma CreateRows(db: Db, x: int, name: string, vdir: string, cfg: Config, d: Db)
    requires Run(db, CreateScript(x, name, vdir, cfg)) == Some(d)
    ensures forall r: Row :: r.id != x ==> (r in d <==> r in db)
    ensures forall r: Row :: !PerContext(r.t) && r.t != Restart && r.t != XidNameMap ==> (r in d <==> r in db)
    ensures forall r: Row :: r in d && r.t == XidNameMap && r.id == x ==> r == TagRow(XidNameMap, x, name)
    ensures forall r: Row :: r.t == Restart && r.id == x ==> r !in d
    ensures TagRow(XidNameMap, x, name) in d && TagRow(Vdir, x, vdir) in d
  {
    CreateOutcome(db, x, name, vdir, cfg);
    forall t { RebuiltTables(t); }
    ContextRowsIn(x, name, vdir, cfg, TagRow(XidNameMap, x, name));
    ContextRowsIn(x, name, vdir, cfg, TagRow(Vdir, x, vdir));
    forall r | r in ContextRows(x, name, vdir, cfg)
      ensures (r.t == XidNameMap ==> r == TagRow(XidNameMap, x, name)) && r.t != Restart
    {
      ContextRowsIn(x, name, vdir, cfg, r);
    }
  }

  lemma CreateNames(db: Db, x: int, name: string, vdir: string, cfg: Config, d: Db)
    requires Run(db, CreateScript(x, name, vdir, cfg)) == Some(d)
    ensures forall y :: Named(d, y) <==> Named(db, y) || y == x
    ensures forall n, y :: y != x ==> (Bound(d, n, y) <==> Bound(db, n, y))
    ensures forall n :: Bound(d, n, x) <==> n == name
  {
    CreateRows(db, x, name, vdir, cfg, d);
    forall y ensures Named(d, y) <==> Named(db, y) || y == x {
      if Named(db, y) && y != x {
        var r :| r in db && r.t == XidNameMap && r.id == y;
        assert r in d;
      }
    }
  }

  lemma CreateKeepsContexts(db: Db, x: int, name: string, vdir: string, cfg: Config, d: Db)
    requires 2 <= x <= 65535 && ValidName(name) && ValidPath(vdir) && ContextInv(db)
    requires Run(db, CreateScript(x, name, vdir, cfg)) == Some(d)
    ensures ContextInv(d)
  {
    CreateRows(db, x, name, vdir, cfg, d);
    CreateNames(db, x, name, vdir, cfg, d);
    forall r | r in d && r.t == XidNameMap ensures GoodName(r) && HasVdir(d, r.id) {
      if r.id == x {
        assert IsVdir(TagRow(Vdir, x, vdir), x);
      } else {
        var v :| v in db && IsVdir(v, r.id);
        assert v in d;
      }
    }
  }

  lemma CreateKeeps(db: Db, x: int, name: string, vdir: string, cfg: Config, d: Db)
    requires 2 <= x <= 65535 && ValidName(name) && ValidPath(vdir)
    requires Run(db, CreateScript(x, name, vdir, cfg)) == Some(d)
    ensures ContextInv(db) ==> ContextInv(d)
    ensures LinkInv(db) ==> LinkInv(d)
  {
    if ContextInv(db) {
      CreateKeepsContexts(db, x, name, vdir, cfg, d);
    }
    if LinkInv(db) {
      CreateKeepsLinks(db, x, name, vdir, cfg, d);
    }
  }

  lemma CreateKeepsLinks(db: Db, x: int, name: string, vdir: string, cfg: Config, d: Db)
    requires LinkInv(db) && Run(db, CreateScript(x, name, vdir, cfg)) == Some(d)
    ensures LinkInv(d)
  {
    CreateObjects(db, x, name, vdir, cfg, d);
    CreateLinks(db, x, name, vdir, cfg, d);
    LinkKept(db, d);
  }

  lemma CreateObjects(db: Db, x: int, name: string, vdir: string, cfg: Config, d: Db)
    requires Run(db, CreateScript(x, name, vdir, cfg)) == Some(d)
    ensures SameRows(db, d, User) && SameRows(db, d, Groups)
  {
    CreateRows(db, x, name, vdir, cfg, d);
  }

  /** A creation leaves users, groups and what refers to them alone. */
  lemma CreateLinks(db: Db, x: int, name: string, vdir: string, cfg: Config, d: Db)
    requires LinkInv(db) && Run(db, CreateScript(x, name, vdir, cfg)) == Some(d)
    ensures forall r :: r in d && (Linked(r.t) || r.t == UserCaps) ==> r in db
    ensures forall r :: r in d && Linked(r.t) ==> Named(d, r.id)
  {
    CreateRows(db, x, name, vdir, cfg, d);
    CreateNames(db, x, name, vdir, cfg, d);
  }
}
