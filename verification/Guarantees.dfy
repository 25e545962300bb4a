/** What callers can rely on: new objects start clean although ids are reused, renaming and
    removal can be undone exactly, and every context keeps a directory of its own. */
module Guarantees {
  import opened Wrappers
  import opened Schema
  import opened Store
  import opened Validate
  import opened Lookup
  import opened Auth
  import opened Template
  import opened Invariant
  import opened Alloc
  import opened Requests
  import opened Reachable

  /** A lookup in terms of bindings, once the invariant holds. */
  lemma XidIff(db: Db, name: string, x: int)
    requires ContextInv(db)
    ensures Bound(db, name, x) <==> x != 0 && GetXid(db, name) == x
  {
    NameRoundTrip(db, name, x);
  }

  // ----- new users and new contexts

  lemma NewUserRow(db: Db, username: string, pass: string, hash: string, admin: bool)
    requires Inv(db) && GetUid(db, username) == 0
    requires DoUserSet(db, username, pass, hash, admin).fault == NoFault
    ensures var d := DoUserSet(db, username, pass, hash, admin).db;
            var uid := MaxId(db, User) + 1;
            && ValidUsername(username)
            && d == db + {UserRow(uid, username, hash, admin)}
            && GetUid(d, username) == uid && uid >= 1 && !Has(db, User, uid)
  {
    var d := DoUserSet(db, username, pass, hash, admin).db;
    var row := UserRow(MaxId(db, User) + 1, username, hash, admin);
    MaxIdNonNegative(db, User);
    assert row in d;
    var q :| q in d && q.t == User && q.key == Text(username) && q.id == IdOf(d, User, username);
    SameKeySameRow(d, User, row, q);
  }

  lemma NewUserHoldsNothing(db: Db, d: Db, username: string, row: Row, mask: set<Cap>)
    requires Inv(db) && d == db + {row} && row.t == User && GetUid(d, username) == row.id && !Has(db, User, row.id)
    ensures Capable(d, username, mask) <==> forall c :: c in mask ==> c !in LISTED
    ensures forall r :: r in d && r.t == XidUidMap ==> r.key != Int(row.id)
  {
    CapableWithoutRows(d, username, mask);
  }

  lemma NonAdminOwnsNothing(d: Db, username: string, row: Row, name: string)
    requires row in d && row.t == User && row.key == Text(username) && !AdminRow(row) && GetUid(d, username) == row.id
    requires forall r :: r in d && r.t == XidUidMap ==> r.key != Int(row.id)
    ensures !IsOwner(d, username, name)
  {
    forall r | r in d && r.t == User && r.key == Text(username) ensures r == row {
      SameKeySameRow(d, User, r, row);
    }
  }

  /** A new user, in any state of any run, passes no mask with a listed bit and appears in no owner
      row; unless created as an administrator it owns nothing. Ids of removed users are reused. */
  lemma NewUserIsClean(db0: Db, reqs: seq<Request>, username: string, pass: string, hash: string, admin: bool,
                       mask: set<Cap>, name: string)
    requires Inv(db0) && GetUid(Serve(db0, reqs), username) == 0
    requires DoUserSet(Serve(db0, reqs), username, pass, hash, admin).fault == NoFault
    ensures var d := DoUserSet(Serve(db0, reqs), username, pass, hash, admin).db;
            && GetUid(d, username) != 0
            && (Capable(d, username, mask) <==> forall c :: c in mask ==> c !in LISTED)
            && (forall r :: r in d && r.t == XidUidMap ==> r.key != Int(GetUid(d, username)))
            && (!admin ==> !IsOwner(d, username, name))
  {
    var db := Serve(db0, reqs);
    ServeKeeps(db0, reqs);
    NewUserRow(db, username, pass, hash, admin);
    var d := DoUserSet(db, username, pass, hash, admin).db;
    var row := UserRow(MaxId(db, User) + 1, username, hash, admin);
    NewUserHoldsNothing(db, d, username, row, mask);
    if !admin {
      NonAdminOwnsNothing(d, username, row, name);
    }
  }

  /** Rows that belong to context x. */
  predicate BelongsTo(r: Row, x: int) {
    r.id == x && (PerContext(r.t) || Linked(r.t) || r.t == XidNameMap || r.t == VxCpuset)
  }

  /** A new context, in any state of any run, consists of exactly its template's rows: no owner, no
      group, no restart record, nothing left over from an earlier context with the same id, except
      that a cpuset row of such a context is still there. */
  lemma NewContextIsClean(db0: Db, reqs: seq<Request>, user: string, name: string, vdir: string, force: bool,
                          cfg: Config, world: World)
    requires Inv(db0) && ValidName(name)
    requires GetXid(Serve(db0, reqs), name) == 0
    requires DoCreate(Serve(db0, reqs), user, name, vdir, force, cfg, world).fault == NoFault
    ensures var db := Serve(db0, reqs);
            var d := DoCreate(db, user, name, vdir, force, cfg, world).db;
            var x := GetXid(d, name);
            && x != 0 && !Named(db, x)
            && forall r :: r in d && BelongsTo(r, x) <==>
                 || r in ContextRows(x, name, CreateVdir(db, user, name, vdir, world), cfg)
                 || (r.t == VxCpuset && r.id == x && r in db)
  {
    var db := Serve(db0, reqs);
    ServeKeeps(db0, reqs);
    var d := DoCreate(db, user, name, vdir, force, cfg, world).db;
    var x, v := CreateXid(db, name), CreateVdir(db, user, name, vdir, world);
    FreshCreate(db, user, name, vdir, force, cfg, world);
    forall r ensures r in d && BelongsTo(r, x) <==>
        r in ContextRows(x, name, v, cfg) || (r.t == VxCpuset && r.id == x && r in db) {
      RebuiltTables(r.t);
      if r in ContextRows(x, name, v, cfg) {
        FreeAfterPurge(db, x, name, v, cfg, r);
      }
    }
  }

  lemma FreshCreate(db: Db, user: string, name: string, vdir: string, force: bool, cfg: Config, world: World)
    requires Inv(db) && ValidName(name) && GetXid(db, name) == 0
    requires DoCreate(db, user, name, vdir, force, cfg, world).fault == NoFault
    ensures var d := DoCreate(db, user, name, vdir, force, cfg, world).db;
            var x, v := CreateXid(db, name), CreateVdir(db, user, name, vdir, world);
            && GetXid(d, name) == x != 0 && !Named(db, x) && Run(db, CreateScript(x, name, v, cfg)) == Some(d)
            && forall r: Row :: if r.t in REBUILT && r.id == x then r in d <==> r in ContextRows(x, name, v, cfg)
                                else r in d <==> r in db
  {
    var d := DoCreate(db, user, name, vdir, force, cfg, world).db;
    var x, v := CreateXid(db, name), CreateVdir(db, user, name, vdir, world);
    CreateCases(db, user, name, vdir, force, cfg, world);
    CreateXidInRange(db, name);
    CreateCallKeeps(db, user, name, vdir, force, cfg, world);
    CreateOutcome(db, x, name, v, cfg);
    CreateNames(db, x, name, v, cfg, d);
    XidIff(d, name, x);
  }

  // ----- directories

  lemma VdirIs(db: Db, name: string, x: int, vbasedir: string, v: Row)
    requires ContextInv(db) && Bound(db, name, x) && v in db && IsVdir(v, x)
    ensures GetVdir(db, name, vbasedir) == v.key.s
  {
    XidIff(db, name, x);
    var key := KeyOf(db, Vdir, x);
    var w :| w in db && w.t == Vdir && w.id == x && w.key == key.value;
    SameKeySameRow(db, Vdir, v, w);
  }

  lemma VdirsUnshared(db: Db)
    ensures forall v, w :: v in db && w in db && v.t == Vdir && w.t == Vdir ==> (v.id == w.id <==> v.key == w.key)
  {
    forall a, b | a in db && b in db && a.t == Vdir && b.t == Vdir ensures a.id == b.id <==> a.key == b.key {
      SameKeySameRow(db, Vdir, a, b);
    }
  }

  /** Every context has exactly one directory; the vbasedir fallback is never taken for it, and no two
      contexts share a directory. */
  lemma VdirOfContext(db: Db, name: string, x: int, vbasedir: string)
    requires Inv(db) && Bound(db, name, x)
    ensures exists v :: v in db && IsVdir(v, x) && GetVdir(db, name, vbasedir) == v.key.s
    ensures forall v, w :: v in db && w in db && v.t == Vdir && w.t == Vdir && (v.id == x || w.id == x) ==>
              (v.id == w.id <==> v.key == w.key)
    ensures ValidPath(GetVdir(db, name, vbasedir))
  {
    var v :| v in db && IsVdir(v, x);
    VdirIs(db, name, x, vbasedir, v);
    VdirsUnshared(db);
  }

  lemma VdirsDistinct(db: Db, m: string, n: string, b: string)
    requires Inv(db) && GetXid(db, m) != 0 && GetXid(db, n) != 0
    ensures GetVdir(db, m, b) == GetVdir(db, n, b) <==> m == n
  {
    var x, y := GetXid(db, m), GetXid(db, n);
    XidIff(db, m, x);
    XidIff(db, n, y);
    VdirOfContext(db, m, x, b);
    VdirOfContext(db, n, y, b);
    BindingOneToOne(db, m, n, x, y);
  }

  // ----- renaming

  /** vx.rename succeeds if and only if the old name exists and the new one is valid and unused. */
  lemma RenameSucceedsIff(db: Db, name: string, newname: string)
    requires Inv(db)
    ensures DoRename(db, name, newname).fault == NoFault <==>
            GetXid(db, name) != 0 && ValidName(newname) && GetXid(db, newname) == 0
    ensures DoRename(db, name, newname).fault != DbError
  {
    if ValidName(newname) && GetXid(db, newname) == 0 {
      RenameFits(db, GetXid(db, name), newname);
    }
  }

  lemma RenameSucceeds(db: Db, name: string, newname: string)
    requires Inv(db) && DoRename(db, name, newname).fault == NoFault
    ensures var d := DoRename(db, name, newname).db;
            var x := GetXid(db, name);
            && x != 0 && ValidName(newname) && GetXid(db, newname) == 0 && name != newname
            && Exec(db, RenameStmt(x, newname)) == Some(d)
            && GetXid(d, newname) == x && GetXid(d, name) == 0
  {
    var d := DoRename(db, name, newname).db;
    var x := GetXid(db, name);
    RenameCallKeeps(db, name, newname);
    RenameRows(db, x, newname, d);
    XidIff(db, name, x);
    XidIff(d, newname, x);
    var y := GetXid(d, name);
    XidIff(d, name, y);
    if y != 0 {
      var r :| r in d && r.t == XidNameMap && r.id == y && r.key == Text(name);
      if y != x {
        assert r in db;
        assert Bound(db, name, y);
        BindingOneToOne(db, name, name, x, y);
      }
    }
  }

  /** A store with the same directories finds the same one for x, under whatever name. */
  lemma VdirKept(db: Db, name: string, d: Db, newname: string, x: int, b: string)
    requires Inv(db) && Bound(db, name, x) && Inv(d) && Bound(d, newname, x) && SameRows(db, d, Vdir)
    ensures GetVdir(d, newname, b) == GetVdir(db, name, b)
  {
    var v :| v in db && IsVdir(v, x);
    VdirIs(db, name, x, b, v);
    VdirIs(d, newname, x, b, v);
  }

  /** Renaming moves the binding and nothing else: directory and configuration are reached through the
      new name, and every other context is untouched. */
  lemma RenameKeepsContext(db: Db, name: string, newname: string, b: string)
    requires Inv(db) && DoRename(db, name, newname).fault == NoFault
    ensures var d := DoRename(db, name, newname).db;
            && GetXid(d, newname) == GetXid(db, name) && GetXid(d, name) == 0
            && GetVdir(d, newname, b) == GetVdir(db, name, b)
            && forall r: Row :: r.t != XidNameMap || r.id != GetXid(db, name) ==> (r in d <==> r in db)
  {
    var d := DoRename(db, name, newname).db;
    var x := GetXid(db, name);
    RenameSucceeds(db, name, newname);
    RenameRows(db, x, newname, d);
    RenameCallKeeps(db, name, newname);
    XidIff(db, name, x);
    XidIff(d, newname, x);
    VdirKept(db, name, d, newname, x, b);
  }

  /** Renaming back restores the store exactly. */
  lemma RenameUndone(db: Db, name: string, newname: string)
    requires Inv(db) && DoRename(db, name, newname).fault == NoFault
    ensures var d := DoRename(db, name, newname).db;
            DoRename(d, newname, name) == Reply(db, NoFault)
  {
    var d := DoRename(db, name, newname).db;
    var x := GetXid(db, name);
    RenameSucceeds(db, name, newname);
    RenameRows(db, x, newname, d);
    XidIff(db, name, x);
    var row :| row in db && row.t == XidNameMap && row.id == x && row.key == Text(name);
    RenameBack(db, d, x, name, newname, row);
  }

  lemma RenameBack(db: Db, d: Db, x: int, name: string, newname: string, row: Row)
    requires Exec(db, RenameStmt(x, newname)) == Some(d)
    requires row in db && row.t == XidNameMap && row.id == x && row.key == Text(name)
    ensures Exec(d, RenameStmt(x, name)) == Some(db)
  {
    forall r | r in db ensures Updated(Updated(r, XidNameMap, x, KeyCol, Text(newname)), XidNameMap, x, KeyCol, Text(name)) == r {
      SameKeySameRow(db, XidNameMap, row, if r.t == XidNameMap then r else row);
    }
    forall a, b | a in d && b in d && a != b
      ensures !Clash(Updated(a, XidNameMap, x, KeyCol, Text(name)), Updated(b, XidNameMap, x, KeyCol, Text(name)))
    {
      var p :| p in db && a == Updated(p, XidNameMap, x, KeyCol, Text(newname));
      var q :| q in db && b == Updated(q, XidNameMap, x, KeyCol, Text(newname));
    }
    var back := Exec(d, RenameStmt(x, name)).value;
    forall r ensures r in back <==> r in db {
      if r in db {
        assert Updated(r, XidNameMap, x, KeyCol, Text(newname)) in d;
      }
    }
    assert back == db;
  }

  // ----- removal

  /** Nothing belongs to an unused id in the tables removal empties. */
  lemma PurgeUndoes(db: Db, d: Db, x: int)
    requires Inv(db) && !Named(db, x)
    requires forall r: Row :: !(r.t in REBUILT && r.id == x) ==> (r in d <==> r in db)
    ensures Purge(d, REMOVED, x) == db
  {
    forall r: Row ensures r in Purge(d, REMOVED, x) <==> r in db {
      RemovedTables(r.t);
      RebuiltTables(r.t);
    }
  }

  /** Removing a freshly created context restores the store exactly. */
  lemma RemoveUndoesCreate(db: Db, user: string, name: string, vdir: string, force: bool, cfg: Config, world: World)
    requires Inv(db) && ValidName(name) && GetXid(db, name) == 0
    requires DoCreate(db, user, name, vdir, force, cfg, world).fault == NoFault
    ensures DoRemove(DoCreate(db, user, name, vdir, force, cfg, world).db, name, false) == Reply(db, NoFault)
  {
    var d := DoCreate(db, user, name, vdir, force, cfg, world).db;
    var x := CreateXid(db, name);
    assert GetXid(d, name) == x != 0 && Purge(d, REMOVED, x) == db by {
      FreshCreate(db, user, name, vdir, force, cfg, world);
      PurgeUndoes(db, d, x);
    }
    RunDeleteAll(d, REMOVED, x);
  }
}
