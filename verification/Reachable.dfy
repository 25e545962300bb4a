/** Every state reachable by whole requests satisfies the invariant. */
module Reachable {
  import opened Wrappers
  import opened Schema
  import opened Store
  import opened Validate
  import opened Lookup
  import opened Auth
  import opened Template
  import opened Invariant
  import opened Alloc
  import opened Requests

  /** The rows of table t with second column `key` are the same. */
  ghost predicate SameKeyed(db: set<Row>, d: set<Row>, t: Table, key: Val) {
    forall r: Row :: r.t == t && r.key == key ==> (r in d <==> r in db)
  }

  /** A lookup depends on the rows with that name alone. */
  lemma IdOfSame(db: Db, d: Db, t: Table, name: string)
    requires NameTable(t) && SameKeyed(db, d, t, Text(name))
    ensures IdOf(d, t, name) == IdOf(db, t, name)
  {
    assert IdsOfKey(db, t, name) == IdsOfKey(d, t, name);
  }

  /** A lookup that succeeds names an existing object. */
  lemma IdOfHas(db: Db, t: Table, name: string)
    requires NameTable(t)
    ensures IdOf(db, t, name) != 0 ==> Has(db, t, IdOf(db, t, name))
  {
  }

  /** Neither names nor configuration change. */
  lemma ContextUntouched(db: Db, stmt: Stmt)
    requires ContextInv(db) && !PerContext(TableOf(stmt)) && TableOf(stmt) != XidNameMap
    requires Exec(db, stmt).Some?
    ensures ContextInv(Exec(db, stmt).value)
    ensures SameRows(db, Exec(db, stmt).value, XidNameMap)
  {
    ExecFrame(db, stmt);
    ContextKept(db, Exec(db, stmt).value);
  }

  /** Adding rows to tables that refer to users, groups or contexts that exist. */
  lemma LinkAdded(db: Db, d: Db, row: Row)
    requires LinkInv(db)
    requires forall r: Row :: r in d ==> r in db || r == row
    requires SameRows(db, d, XidNameMap)
    requires forall r: Row :: r in db && (r.t == User || r.t == Groups) ==> Has(d, r.t, r.id)
    requires Linked(row.t) ==> Named(db, row.id)
    requires row.t == UserCaps ==> Has(db, User, row.id)
    requires row.t == XidUidMap ==> row.key.Int? && Has(db, User, row.key.i)
    requires row.t == XidGidMap ==> row.key.Int? && Has(db, Groups, row.key.i)
    requires row.t == User || row.t == Groups ==> row.id >= 1
    requires row.t == User ==> |row.data| == 2
    ensures LinkInv(d)
  {
    HasSame(db, d, XidNameMap);
    forall id | Has(db, User, id) ensures Has(d, User, id) {
      var r :| r in db && r.t == User && r.id == id;
    }
    forall id | Has(db, Groups, id) ensures Has(d, Groups, id) {
      var r :| r in db && r.t == Groups && r.id == id;
    }
  }

  lemma PutRows(db: Db, stmt: Stmt)
    requires (stmt.Insert? || stmt.Replace?) && Exec(db, stmt).Some?
    ensures forall r :: r in Exec(db, stmt).value ==> r in db || r == stmt.row
    ensures forall t :: t != stmt.row.t ==> SameRows(db, Exec(db, stmt).value, t)
  {
    ExecFrame(db, stmt);
  }

  lemma ObjectsStay(db: Db, d: Db, t: Table)
    requires SameRows(db, d, t)
    ensures forall r: Row :: r in db && r.t == t ==> Has(d, r.t, r.id)
  {
  }

  lemma PutLinkRow(db: Db, stmt: Stmt, d: Db)
    requires LinkInv(db) && (stmt.Insert? || stmt.Replace?) && Exec(db, stmt) == Some(d)
    requires Linked(stmt.row.t) || stmt.row.t == UserCaps
    requires Linked(stmt.row.t) ==> Named(db, stmt.row.id)
    requires stmt.row.t == UserCaps ==> Has(db, User, stmt.row.id)
    requires stmt.row.t == XidUidMap ==> stmt.row.key.Int? && Has(db, User, stmt.row.key.i)
    requires stmt.row.t == XidGidMap ==> stmt.row.key.Int? && Has(db, Groups, stmt.row.key.i)
    ensures LinkInv(d)
  {
    PutRows(db, stmt);
    ObjectsStay(db, d, User);
    ObjectsStay(db, d, Groups);
    LinkAdded(db, d, stmt.row);
  }

  lemma LinkTable(t: Table)
    requires Linked(t) || t == UserCaps
    ensures !PerContext(t) && t != XidNameMap
  {
  }

  lemma PutLink(db: Db, stmt: Stmt)
    requires Inv(db) && (stmt.Insert? || stmt.Replace?) && Exec(db, stmt).Some?
    requires Linked(stmt.row.t) || stmt.row.t == UserCaps
    requires Linked(stmt.row.t) ==> Named(db, stmt.row.id)
    requires stmt.row.t == UserCaps ==> Has(db, User, stmt.row.id)
    requires stmt.row.t == XidUidMap ==> stmt.row.key.Int? && Has(db, User, stmt.row.key.i)
    requires stmt.row.t == XidGidMap ==> stmt.row.key.Int? && Has(db, Groups, stmt.row.key.i)
    ensures Inv(Exec(db, stmt).value)
  {
    LinkTable(stmt.row.t);
    ContextUntouched(db, stmt);
    PutLinkRow(db, stmt, Exec(db, stmt).value);
  }

  lemma InsertObject(db: Db, row: Row)
    requires Inv(db) && (row.t == User || row.t == Groups) && row.id >= 1 && (row.t == User ==> |row.data| == 2)
    requires Exec(db, Insert(row)).Some?
    ensures Inv(Exec(db, Insert(row)).value)
  {
    var d := Exec(db, Insert(row)).value;
    ContextUntouched(db, Insert(row));
    LinkAdded(db, d, row);
  }

  lemma DropLinks(db: Db, t: Table, w: Where)
    requires Inv(db) && (Linked(t) || t == UserCaps)
    ensures Inv(Exec(db, Delete(t, w)).value)
  {
    var d := Exec(db, Delete(t, w)).value;
    ContextUntouched(db, Delete(t, w));
    HasSame(db, d, XidNameMap);
    LinkKept(db, d);
  }

  lemma UserUpdateFits(db: Db, uid: int, i: nat, v: Val)
    ensures UpdateFits(db, User, uid, DataCol(i), v)
  {
    forall a, b | a in db && b in db && a != b
      ensures !Clash(Updated(a, User, uid, DataCol(i), v), Updated(b, User, uid, DataCol(i), v))
    {
      assert !Clash(a, b);
    }
  }

  lemma UserUpdateHas(db: Db, uid: int, i: nat, v: Val, d: Db)
    requires Exec(db, Update(User, uid, DataCol(i), v)) == Some(d)
    ensures forall id :: Has(d, User, id) <==> Has(db, User, id)
    ensures (forall r :: r in db && r.t == User ==> |r.data| == 2) ==> forall r :: r in d && r.t == User ==> |r.data| == 2
  {
    forall id ensures Has(d, User, id) <==> Has(db, User, id) {
      if Has(db, User, id) {
        var r :| r in db && r.t == User && r.id == id;
        assert Updated(r, User, uid, DataCol(i), v) in d;
      }
    }
  }

  /** Changing the password or the administrator flag of a user never fails. */
  lemma UpdateUser(db: Db, uid: int, i: nat, v: Val)
    requires Inv(db)
    ensures Exec(db, Update(User, uid, DataCol(i), v)).Some?
    ensures Inv(Exec(db, Update(User, uid, DataCol(i), v)).value)
  {
    UserUpdateFits(db, uid, i, v);
    var s := Update(User, uid, DataCol(i), v);
    var d := Exec(db, s).value;
    ContextUntouched(db, s);
    ExecFrame(db, s);
    UserUpdateHas(db, uid, i, v, d);
    HasSame(db, d, XidNameMap);
    HasSame(db, d, Groups);
    forall r | r in d && r.t == User ensures r.id >= 1 {
      assert Has(db, User, r.id);
    }
  }

  /** A user goes together with everything that refers to it. */
  lemma UserRemoveRows(db: Db, uid: int)
    ensures var out := Run(db, UserRemoveScript(uid));
            && out.Some?
            && forall r: Row :: r in out.value <==>
                 r in db && !((r.t == User || r.t == UserCaps) && r.id == uid) && !(r.t == XidUidMap && r.key == Int(uid))
  {
    var ss := UserRemoveScript(uid);
    var d1 := Exec(db, ss[0]).value;
    var d2 := Exec(d1, ss[1]).value;
    var d3 := Exec(d2, ss[2]).value;
    assert Run(db, ss) == Run(d1, ss[1..]) == Run(d2, ss[1..][1..]) == Run(d3, ss[1..][1..][1..]) == Some(d3);
  }

  lemma UserRemoveKeeps(db: Db, uid: int)
    requires Inv(db)
    ensures Run(db, UserRemoveScript(uid)).Some? && Inv(Run(db, UserRemoveScript(uid)).value)
  {
    UserRemoveRows(db, uid);
    var d := Run(db, UserRemoveScript(uid)).value;
    ContextKept(db, d);
    HasSame(db, d, XidNameMap);
    HasSame(db, d, Groups);
    forall id | Has(db, User, id) && id != uid ensures Has(d, User, id) {
      var r :| r in db && r.t == User && r.id == id;
      assert r in d;
    }
  }

  lemma GroupRemoveRows(db: Db, gid: int)
    ensures var out := Run(db, GroupRemoveScript(gid));
            && out.Some?
            && forall r: Row :: r in out.value <==>
                 r in db && !(r.t == Groups && r.id == gid) && !(r.t == XidGidMap && r.key == Int(gid))
  {
    var ss := GroupRemoveScript(gid);
    var d1 := Exec(db, ss[0]).value;
    var d2 := Exec(d1, ss[1]).value;
    assert Run(db, ss) == Run(d1, ss[1..]) == Run(d2, ss[1..][1..]) == Some(d2);
  }

  lemma GroupRemoveKeeps(db: Db, gid: int)
    requires Inv(db)
    ensures Run(db, GroupRemoveScript(gid)).Some? && Inv(Run(db, GroupRemoveScript(gid)).value)
  {
    GroupRemoveRows(db, gid);
    var d := Run(db, GroupRemoveScript(gid)).value;
    ContextKept(db, d);
    HasSame(db, d, XidNameMap);
    HasSame(db, d, User);
    forall id | Has(db, Groups, id) && id != gid ensures Has(d, Groups, id) {
      var r :| r in db && r.t == Groups && r.id == id;
      assert r in d;
    }
  }

  lemma ConfigTableKind(t: Table)
    requires ConfigTable(t)
    ensures t != XidNameMap && t != Vdir && t != User && t != Groups && t != UserCaps && !Linked(t)
  {
  }

  /** New rows of a named context in a table that refers to nothing else. */
  lemma ConfigurationAdded(db: Db, d: Db, t: Table, x: int)
    requires Inv(db) && Named(db, x)
    requires t != XidNameMap && t != Vdir && t != User && t != Groups && t != UserCaps && !Linked(t)
    requires forall r: Row :: r.t != t ==> (r in d <==> r in db)
    requires forall r: Row :: r in d ==> r in db || r.id == x
    ensures Inv(d)
  {
    ContextKept(db, d);
    HasSame(db, d, XidNameMap);
    LinkKept(db, d);
  }

  lemma ConfigureStmtKeeps(db: Db, stmt: Stmt, x: int)
    requires Inv(db) && Named(db, x) && ConfigTable(TableOf(stmt))
    requires stmt.Delete? || (stmt.Replace? && stmt.row.id == x)
    ensures Exec(db, stmt).Some? && Inv(Exec(db, stmt).value)
  {
    ConfigTableKind(TableOf(stmt));
    ExecFrame(db, stmt);
    ConfigurationAdded(db, Exec(db, stmt).value, TableOf(stmt), x);
  }

  // ----- one lemma per method

  lemma MaxIdNonNegative(db: Db, t: Table)
    requires LinkInv(db) && (t == User || t == Groups)
    ensures MaxId(db, t) >= 0
    ensures !Has(db, t, MaxId(db, t) + 1)
  {
    if MaxId(db, t) in Ids(db, t) {
      var r :| r in db && r.t == t && r.id == MaxId(db, t);
    }
  }

  lemma NewUserKeeps(db: Db, username: string, hash: string, admin: bool)
    requires Inv(db)
    ensures var out := Exec(db, Insert(UserRow(MaxId(db, User) + 1, username, hash, admin)));
            out.Some? ==> Inv(out.value)
  {
    var row := UserRow(MaxId(db, User) + 1, username, hash, admin);
    MaxIdNonNegative(db, User);
    if Exec(db, Insert(row)).Some? {
      InsertObject(db, row);
    }
  }

  lemma UserUpdatesKeep(db: Db, uid: int, hash: string, admin: bool)
    requires Inv(db)
    ensures var out := Exec(db, Update(User, uid, DataCol(1), Flag(admin)));
            out.Some? && Inv(out.value)
            && Exec(out.value, Update(User, uid, DataCol(0), Text(hash))).Some?
            && Inv(Exec(out.value, Update(User, uid, DataCol(0), Text(hash))).value)
  {
    UpdateUser(db, uid, 1, Flag(admin));
    UpdateUser(Exec(db, Update(User, uid, DataCol(1), Flag(admin))).value, uid, 0, Text(hash));
  }

  lemma UserSetKeeps(db: Db, username: string, pass: string, hash: string, admin: bool)
    requires Inv(db)
    ensures Inv(DoUserSet(db, username, pass, hash, admin).db)
  {
    if GetUid(db, username) == 0 {
      NewUserKeeps(db, username, hash, admin);
    } else {
      UserUpdatesKeep(db, GetUid(db, username), hash, admin);
    }
  }

  lemma CapsAddKeeps(db: Db, username: string, cap: string)
    requires Inv(db)
    ensures Inv(DoCapsAdd(db, username, cap).db)
  {
    var uid := GetUid(db, username);
    if uid != 0 {
      IdOfHas(db, User, username);
      PutLink(db, Replace(Row(UserCaps, uid, Text(cap), [])));
    }
  }

  lemma CapsRemoveKeeps(db: Db, username: string, cap: string)
    requires Inv(db)
    ensures Inv(DoCapsRemove(db, username, cap).db)
  {
    var uid := GetUid(db, username);
    DropLinks(db, UserCaps, if cap != [] then ByBoth(uid, Text(cap)) else ById(uid));
  }

  lemma MembershipKeeps(db: Db, name: string, gid: int)
    requires Inv(db) && Has(db, Groups, gid)
    ensures var x := GetXid(db, name);
            x != 0 && Exec(db, Insert(Row(XidGidMap, x, Int(gid), []))).Some? ==>
              Inv(Exec(db, Insert(Row(XidGidMap, x, Int(gid), []))).value)
  {
    var x := GetXid(db, name);
    if x != 0 && Exec(db, Insert(Row(XidGidMap, x, Int(gid), []))).Some? {
      IdOfHas(db, XidNameMap, name);
      PutLink(db, Insert(Row(XidGidMap, x, Int(gid), [])));
    }
  }

  lemma GroupAddKeeps(db: Db, group: string, name: string)
    requires Inv(db)
    ensures Inv(DoGroupAdd(db, group, name).db)
  {
    var known := GetGid(db, group);
    if known != 0 {
      IdOfHas(db, Groups, group);
      MembershipKeeps(db, name, known);
    } else {
      var row := Row(Groups, MaxId(db, Groups) + 1, Text(group), []);
      MaxIdNonNegative(db, Groups);
      if Exec(db, Insert(row)).Some? {
        InsertObject(db, row);
        var d := Exec(db, Insert(row)).value;
        assert row in d;
        MembershipKeeps(d, name, row.id);
      }
    }
  }

  lemma GroupRemoveCallKeeps(db: Db, group: string, name: string)
    requires Inv(db)
    ensures Inv(DoGroupRemove(db, group, name).db)
  {
    var gid := GetGid(db, group);
    GroupRemoveKeeps(db, gid);
    DropLinks(db, XidGidMap, ByBoth(GetXid(db, name), Int(gid)));
  }

  lemma OwnerRowKeeps(db: Db, uid: int, xid: int, d: Db)
    requires Inv(db) && Has(db, User, uid) && Named(db, xid)
    requires Exec(db, Replace(Row(XidUidMap, xid, Int(uid), []))) == Some(d)
    ensures Inv(d)
  {
    PutLink(db, Replace(Row(XidUidMap, xid, Int(uid), [])));
  }

  lemma OwnerAddKeeps(db: Db, name: string, username: string)
    requires Inv(db)
    ensures Inv(DoOwnerAdd(db, name, username).db)
  {
    var uid, xid := GetUid(db, username), GetXid(db, name);
    if uid != 0 && xid != 0 {
      IdOfHas(db, User, username);
      IdOfHas(db, XidNameMap, name);
      OwnerRowKeeps(db, uid, xid, DoOwnerAdd(db, name, username).db);
    }
  }

  lemma OwnerRemoveKeeps(db: Db, name: string, username: string)
    requires Inv(db)
    ensures Inv(DoOwnerRemove(db, name, username).db)
  {
    var uid, xid := GetUid(db, username), GetXid(db, name);
    DropLinks(db, XidUidMap, if username != [] then ByBoth(xid, Int(uid)) else ById(xid));
  }

  lemma RowOfTable(s: Setting, x: int)
    requires RowOf(s, x).Some?
    ensures RowOf(s, x).value.id == x && ConfigTable(RowOf(s, x).value.t) && RowOf(s, x).value.t == TableOfSetting(s)
  {
  }

  lemma ConfigureCallKeeps(db: Db, name: string, setting: Setting)
    requires Inv(db)
    ensures Inv(DoConfigure(db, name, setting).db)
  {
    var xid := GetXid(db, name);
    if xid != 0 && RowOf(setting, xid).Some? {
      IdOfHas(db, XidNameMap, name);
      RowOfTable(setting, xid);
      ConfigureStmtKeeps(db, Replace(RowOf(setting, xid).value), xid);
    }
  }

  lemma UnconfigureCallKeeps(db: Db, name: string, t: Table, only: Option<Val>)
    requires Inv(db)
    ensures Inv(DoUnconfigure(db, name, t, only).db)
  {
    var xid := GetXid(db, name);
    if xid != 0 && Removable(t) {
      IdOfHas(db, XidNameMap, name);
      ConfigureStmtKeeps(db, Delete(t, if only.Some? then ByBoth(xid, only.value) else ById(xid)), xid);
    }
  }

  lemma HelpersKeep(db: Db, xid: int)
    requires Inv(db)
    ensures Inv(DoHelperRestart(db, xid).db)
    ensures Inv(DoHelperShutdown(db, xid).db)
  {
    if GetName(db, xid).Some? {
      PutLink(db, Replace(Row(Restart, xid, Null, [])));
    }
    DropLinks(db, Restart, ById(xid));
  }

  /** The id a creation works on is in range. */
  lemma CreateXidInRange(db: Db, name: string)
    requires ContextInv(db)
    ensures CreateXid(db, name) != 0 ==> 2 <= CreateXid(db, name) <= MAX_XID
    ensures GetXid(db, name) == 0 && CreateXid(db, name) != 0 ==> !Named(db, CreateXid(db, name))
  {
    if GetXid(db, name) != 0 {
      var r :| r in db && r.t == XidNameMap && r.key == Text(name) && r.id == IdOf(db, XidNameMap, name);
    } else {
      FreeXidSpec(db);
    }
  }

  lemma GateChecksVdir(db: Db, user: string, name: string, vdir: string, force: bool, world: World)
    requires CreateGate(db, user, name, vdir, force, world) == NoFault
    ensures ValidPath(CreateVdir(db, user, name, vdir, world))
  {
  }

  lemma CommitCases(db: Db, gate: Fault, x: int, name: string, v: string, cfg: Config, built: bool)
    ensures var out := Commit(db, gate, x, name, v, cfg, built);
            && (out.fault != NoFault ==> out.db == db)
            && (out.fault == NoFault ==> gate == NoFault && x != 0 && Run(db, CreateScript(x, name, v, cfg)) == Some(out.db))
  {
  }

  /** A creation either leaves the store alone or commits its script for an id in range and a valid
      directory. */
  lemma CreateCases(db: Db, user: string, name: string, vdir: string, force: bool, cfg: Config, world: World)
    ensures var out := DoCreate(db, user, name, vdir, force, cfg, world);
            var x, v := CreateXid(db, name), CreateVdir(db, user, name, vdir, world);
            && (out.fault != NoFault ==> out.db == db)
            && (out.fault == NoFault ==> x != 0 && ValidPath(v) && Run(db, CreateScript(x, name, v, cfg)) == Some(out.db))
            && (out.fault == NoFault ==> CreateGate(db, user, name, vdir, force, world) == NoFault)
  {
    var gate := CreateGate(db, user, name, vdir, force, world);
    CommitCases(db, gate, CreateXid(db, name), name, CreateVdir(db, user, name, vdir, world), cfg, world.built);
    if gate == NoFault {
      GateChecksVdir(db, user, name, vdir, force, world);
    }
  }

  lemma CreateCallKeeps(db: Db, user: string, name: string, vdir: string, force: bool, cfg: Config, world: World)
    requires Inv(db) && ValidName(name)
    ensures Inv(DoCreate(db, user, name, vdir, force, cfg, world).db)
  {
    var x, v := CreateXid(db, name), CreateVdir(db, user, name, vdir, world);
    var out := DoCreate(db, user, name, vdir, force, cfg, world);
    CreateCases(db, user, name, vdir, force, cfg, world);
    if out.fault == NoFault {
      CreateXidInRange(db, name);
      CreateKeeps(db, x, name, v, cfg, out.db);
    }
  }

  lemma RemoveCallKeeps(db: Db, name: string, running: bool)
    requires Inv(db)
    ensures Inv(DoRemove(db, name, running).db)
  {
    RunDeleteAll(db, REMOVED, GetXid(db, name));
    RemoveKeeps(db, GetXid(db, name));
  }

  lemma RenameCallKeeps(db: Db, name: string, newname: string)
    requires Inv(db)
    ensures Inv(DoRename(db, name, newname).db)
  {
    var out := Exec(db, RenameStmt(GetXid(db, name), newname));
    if ValidName(newname) && out.Some? {
      RenameKeeps(db, GetXid(db, name), newname, out.value);
    }
  }

  lemma AdminCallsKeep(db: Db, c: Call)
    requires Inv(db) && CapOf(c) == CapAuth
    ensures Inv(PerformAdmin(db, c).db)
  {
    match c
    case UserSet(username, pass, hash, admin) => UserSetKeeps(db, username, pass, hash, admin);
    case UserRemove(username) => UserRemoveKeeps(db, GetUid(db, username));
    case CapsAdd(username, cap) => CapsAddKeeps(db, username, cap);
    case CapsRemove(username, cap) => CapsRemoveKeeps(db, username, cap);
    case GroupAdd(group, name) => GroupAddKeeps(db, group, name);
    case GroupRemove(group, name) => GroupRemoveCallKeeps(db, group, name);
    case OwnerAdd(name, username) => OwnerAddKeeps(db, name, username);
    case OwnerRemove(name, username) => OwnerRemoveKeeps(db, name, username);
  }

  lemma ContextCallsKeep(db: Db, c: Call)
    requires Inv(db) && CapOf(c) != CapAuth && !c.Create?
    ensures Inv(PerformContext(db, c).db)
  {
    match c
    case Configure(name, setting) => ConfigureCallKeeps(db, name, setting);
    case Unconfigure(name, t, only) => UnconfigureCallKeeps(db, name, t, only);
    case HelperRestart(xid) => HelpersKeep(db, xid);
    case HelperShutdown(xid, _) => HelpersKeep(db, xid);
    case Remove(name, running, _) => RemoveCallKeeps(db, name, running);
    case Rename(name, newname, _) => RenameCallKeeps(db, name, newname);
  }

  lemma LockedCap(c: Call)
    requires LocksName(c)
    ensures CapOf(c) != CapAuth
  {
  }

  lemma PerformsContext(db: Db, user: string, c: Call)
    requires CapOf(c) != CapAuth && !c.Create?
    ensures Perform(db, user, c) == PerformContext(db, c)
  {
  }

  /** What a request does once it is admitted keeps the invariant. */
  lemma PerformKeeps(db: Db, user: string, c: Call)
    requires Inv(db) && (LocksName(c) ==> ValidName(c.name))
    ensures Inv(Perform(db, user, c).db)
  {
    if c.Create? {
      CreateCallKeeps(db, user, c.name, c.vdir, c.force, c.cfg, c.world);
    } else if CapOf(c) == CapAuth {
      AdminCallsKeep(db, c);
    } else {
      ContextCallsKeep(db, c);
    }
  }

  /** Every request keeps the invariant, whatever it asks for and however it ends. */
  lemma HandleKeeps(db: Db, req: Request)
    requires Inv(db)
    ensures Inv(Handle(db, req).db)
  {
    if Admit(db, req) == NoFault {
      PerformKeeps(db, req.user, req.call);
    }
  }

  /** In every state reachable by any sequence of whole requests: names and contexts are one-to-one,
      configuration, owner, group and restart rows refer to named contexts, capability and owner rows
      to users, membership rows to groups, and every context has its directory. */
  lemma {:induction false} ServeKeeps(db: Db, reqs: seq<Request>)
    requires Inv(db)
    ensures Inv(Serve(db, reqs))
    decreases |reqs|
  {
    if reqs != [] {
      HandleKeeps(db, reqs[0]);
      ServeKeeps(Handle(db, reqs[0]).db, reqs[1..]);
    }
  }
}
