/** Faults that leave a change behind, and changes that stay within a tenant's own contexts. */
module Atomicity {
  import opened Wrappers
  import opened Schema
  import opened Store
  import opened Validate
  import opened Lookup
  import opened Auth
  import opened Template
  import opened Invariant
  import opened Alloc
  import opened Requests
  import opened Reachable
  import opened Guarantees

  // ----- faults

  /** The request answers with a fault and has changed the store all the same. */
  predicate HalfDone(db: Db, out: Reply) {
    out.fault != NoFault && out.db != db
  }

  /** vcd.user.set flips the administrator flag of an existing user before it looks at the password;
      vg.add creates a missing group before it looks at the context name; removal, renaming and
      helper.shutdown have work to do after their write, and do not take the write back if it fails. */
  predicate LeavesHalfDone(db: Db, c: Call) {
    || (c.UserSet? && GetUid(db, c.username) != 0 && c.pass != [] && !ValidPassword(c.pass)
        && exists r | r in db :: r.t == User && r.id == GetUid(db, c.username) && |r.data| > 1 && r.data[1] != Flag(c.admin))
    || (c.GroupAdd? && ValidGroup(c.group) && c.group != "all" && GetGid(db, c.group) == 0 && c.name != []
        && GetXid(db, c.name) == 0)
    || FailsAfterWrite(db, c)
  }

  predicate FailsAfterWrite(db: Db, c: Call) {
    || (c.Remove? && c.after != NoFault && GetXid(db, c.name) != 0 && !c.running)
    || (c.Rename? && c.after != NoFault && GetXid(db, c.name) != 0 && ValidName(c.newname) && GetXid(db, c.newname) == 0)
    || (c.HelperShutdown? && c.after != NoFault && GetName(db, c.xid).Some? && Has(db, Restart, c.xid))
  }

  lemma UserSetAtomic(db: Db, c: Call)
    requires Inv(db) && c.UserSet?
    ensures var out := DoUserSet(db, c.username, c.pass, c.hash, c.admin);
            HalfDone(db, out) <==> LeavesHalfDone(db, c)
  {
    var uid := GetUid(db, c.username);
    if uid != 0 {
      UpdateUser(db, uid, 1, Flag(c.admin));
      var d := Exec(db, Update(User, uid, DataCol(1), Flag(c.admin))).value;
      UpdateUser(d, uid, 0, Text(c.hash));
      UpdateChanges(db, uid, 1, Flag(c.admin));
    }
  }

  lemma RowChanges(db: Db, d: Db, r: Row, u: Row)
    requires r in db && u in d && r.t == u.t == User && r.id == u.id && r != u
    ensures d != db
  {
    if d == db {
      SameKeySameRow(db, User, u, r);
    }
  }

  lemma UpdateShows(db: Db, uid: int, i: nat, v: Val, d: Db, r: Row)
    requires Exec(db, Update(User, uid, DataCol(i), v)) == Some(d)
    requires r in db && r.t == User && r.id == uid && |r.data| > i && r.data[i] != v
    ensures d != db
  {
    var u := Updated(r, User, uid, DataCol(i), v);
    assert u.data[i] == v;
    RowChanges(db, d, r, u);
  }

  lemma AssignIdle(r: Row, id: int, i: nat, v: Val)
    requires r.t == User && r.id == id && |r.data| > i ==> r.data[i] == v
    ensures Updated(r, User, id, DataCol(i), v) == r
  {
    if |r.data| > i && r.data[i] == v {
      assert r.data[i := v] == r.data;
    }
  }

  lemma UpdateIdle(db: Db, uid: int, i: nat, v: Val, d: Db)
    requires Exec(db, Update(User, uid, DataCol(i), v)) == Some(d)
    requires forall r | r in db && r.t == User && r.id == uid && |r.data| > i :: r.data[i] == v
    ensures d == db
  {
    forall r | r in db ensures Updated(r, User, uid, DataCol(i), v) == r {
      AssignIdle(r, uid, i, v);
    }
  }

  lemma UpdateChanges(db: Db, uid: int, i: nat, v: Val)
    requires Exec(db, Update(User, uid, DataCol(i), v)).Some?
    ensures Exec(db, Update(User, uid, DataCol(i), v)).value != db <==>
            exists r | r in db :: r.t == User && r.id == uid && |r.data| > i && r.data[i] != v
  {
    var d := Exec(db, Update(User, uid, DataCol(i), v)).value;
    if r :| r in db && r.t == User && r.id == uid && |r.data| > i && r.data[i] != v {
      UpdateShows(db, uid, i, v, d, r);
    } else {
      UpdateIdle(db, uid, i, v, d);
    }
  }

  lemma NewGroupInserts(db: Db, group: string)
    requires Inv(db) && ValidGroup(group) && GetGid(db, group) == 0
    ensures Free(db, Row(Groups, MaxId(db, Groups) + 1, Text(group), []))
  {
    var row := Row(Groups, MaxId(db, Groups) + 1, Text(group), []);
    assert forall q | q in db && q.t == Groups :: q.id >= 1 && q.key != Text(group);
  }

  /** What vg.add does about a group that does not exist yet. */
  /** What vg.add does about a group that does not exist yet. */
  lemma NewGroup(db: Db, group: string, name: string)
    requires Inv(db) && ValidGroup(group) && group != "all" && GetGid(db, group) == 0
    ensures var out := DoGroupAdd(db, group, name);
            out.db != db && (out.fault != NoFault <==> name != [] && GetXid(db, name) == 0)
  {
    var row := Row(Groups, MaxId(db, Groups) + 1, Text(group), []);
    NewGroupInserts(db, group);
    var d := Exec(db, Insert(row)).value;
    IdOfSame(db, d, XidNameMap, name);
    assert !Has(db, Groups, row.id);
    assert row in d && row !in db by { ClashReflexive(row); }
    NewMembershipInserts(db, d, row, GetXid(d, name));
  }

  lemma GroupAddAtomic(db: Db, c: Call)
    requires Inv(db) && c.GroupAdd?
    ensures var out := DoGroupAdd(db, c.group, c.name);
            HalfDone(db, out) <==> LeavesHalfDone(db, c)
  {
    if ValidGroup(c.group) && c.group != "all" && GetGid(db, c.group) == 0 {
      NewGroup(db, c.group, c.name);
    }
  }

  lemma NewMembershipInserts(db: Db, d: Db, row: Row, x: int)
    requires Inv(db) && d == db + {row} && row.t == Groups && !Has(db, Groups, row.id)
    ensures Free(d, Row(XidGidMap, x, Int(row.id), []))
  {
    var link := Row(XidGidMap, x, Int(row.id), []);
    forall q | q in d ensures !Clash(q, link) {
    }
  }

  lemma PlainCallsAtomic(db: Db, c: Call)
    requires CapOf(c) == CapAuth && !c.UserSet? && !c.GroupAdd?
    ensures !HalfDone(db, PerformAdmin(db, c))
  {
  }

  lemma AdminCallsAtomic(db: Db, c: Call)
    requires Inv(db) && CapOf(c) == CapAuth
    ensures HalfDone(db, PerformAdmin(db, c)) <==> LeavesHalfDone(db, c)
  {
    if c.UserSet? {
      UserSetAtomic(db, c);
    } else if c.GroupAdd? {
      GroupAddAtomic(db, c);
    } else {
      PlainCallsAtomic(db, c);
    }
  }

  lemma SettingsAtomic(db: Db, c: Call)
    requires c.Configure? || c.Unconfigure? || c.HelperRestart?
    ensures !HalfDone(db, PerformContext(db, c))
  {
  }

  lemma RemoveRuns(db: Db, name: string)
    ensures DoRemove(db, name, false) ==
            if GetXid(db, name) == 0 then Reply(db, NoVps) else Reply(Purge(db, REMOVED, GetXid(db, name)), NoFault)
  {
    RunDeleteAll(db, REMOVED, GetXid(db, name));
  }

  lemma PurgeChanges(db: Db, x: int)
    requires Named(db, x)
    ensures Purge(db, REMOVED, x) != db
  {
    var r :| r in db && r.t == XidNameMap && r.id == x;
    RemovedTables(XidNameMap);
    assert r !in Purge(db, REMOVED, x);
  }

  lemma RenameChanges(db: Db, name: string, newname: string)
    requires Inv(db) && DoRename(db, name, newname).fault == NoFault
    ensures DoRename(db, name, newname).db != db
  {
    RenameSucceeds(db, name, newname);
  }

  lemma ShutdownChanges(db: Db, xid: int)
    requires Has(db, Restart, xid)
    ensures Exec(db, Delete(Restart, ById(xid))).value != db
  {
    var r :| r in db && r.t == Restart && r.id == xid;
    assert r !in Exec(db, Delete(Restart, ById(xid))).value;
  }

  lemma RemoveAtomic(db: Db, name: string, running: bool, after: Fault)
    requires Inv(db)
    ensures var out := Then(DoRemove(db, name, running), after);
            HalfDone(db, out) <==> after != NoFault && GetXid(db, name) != 0 && !running
  {
    RemoveRuns(db, name);
    if GetXid(db, name) != 0 {
      IdOfHas(db, XidNameMap, name);
      PurgeChanges(db, GetXid(db, name));
    }
  }

  lemma RenameAtomic(db: Db, name: string, newname: string, after: Fault)
    requires Inv(db)
    ensures var out := Then(DoRename(db, name, newname), after);
            HalfDone(db, out) <==>
            after != NoFault && GetXid(db, name) != 0 && ValidName(newname) && GetXid(db, newname) == 0
  {
    RenameSucceedsIff(db, name, newname);
    if DoRename(db, name, newname).fault == NoFault {
      RenameChanges(db, name, newname);
    }
  }

  lemma ShutdownAtomic(db: Db, xid: int, after: Fault)
    ensures var out := Then(DoHelperShutdown(db, xid), if Has(db, Restart, xid) then after else NoFault);
            HalfDone(db, out) <==> after != NoFault && GetName(db, xid).Some? && Has(db, Restart, xid)
  {
    if Has(db, Restart, xid) {
      ShutdownChanges(db, xid);
    }
  }

  lemma ContextCallsAtomic(db: Db, c: Call)
    requires Inv(db) && CapOf(c) != CapAuth && !c.Create?
    ensures HalfDone(db, PerformContext(db, c)) <==> FailsAfterWrite(db, c)
  {
    match c
    case HelperShutdown(xid, after) => ShutdownAtomic(db, xid, after);
    case Remove(name, running, after) => RemoveAtomic(db, name, running, after);
    case Rename(name, newname, after) => RenameAtomic(db, name, newname, after);
    case _ => SettingsAtomic(db, c);
  }

  lemma CreateAtomic(db: Db, user: string, c: Call)
    requires c.Create?
    ensures !HalfDone(db, DoCreate(db, user, c.name, c.vdir, c.force, c.cfg, c.world))
  {
    CreateCases(db, user, c.name, c.vdir, c.force, c.cfg, c.world);
  }

  lemma ContextSituations(db: Db, c: Call)
    requires CapOf(c) != CapAuth
    ensures LeavesHalfDone(db, c) <==> FailsAfterWrite(db, c)
    ensures c.Create? ==> !FailsAfterWrite(db, c)
  {
  }

  /** A request that answers with a fault has left the store unchanged, except in exactly the
      situations of `LeavesHalfDone`. */
  lemma FaultsAreAtomicIff(db: Db, user: string, c: Call)
    requires Inv(db)
    ensures HalfDone(db, Perform(db, user, c)) <==> LeavesHalfDone(db, c)
  {
    if CapOf(c) == CapAuth {
      AdminCallsAtomic(db, c);
    } else {
      ContextSituations(db, c);
      if c.Create? {
        CreateAtomic(db, user, c);
      } else {
        ContextCallsAtomic(db, c);
      }
    }
  }

  // ----- isolation

  /** The rows a configuration statement can touch belong to its context. */
  lemma ConfigureTouches(db: Db, stmt: Stmt, x: int, r: Row)
    requires ConfigTable(TableOf(stmt)) && Exec(db, stmt).Some?
    requires (stmt.Delete? && !stmt.w.ByKey? && stmt.w.id == x) || (stmt.Replace? && stmt.row.id == x)
    requires !BelongsTo(r, x)
    ensures r in Exec(db, stmt).value <==> r in db
  {
    if stmt.Replace? {
    }
  }

  lemma SettingTouches(db: Db, name: string, setting: Setting, r: Row)
    requires !BelongsTo(r, GetXid(db, name))
    ensures r in DoConfigure(db, name, setting).db <==> r in db
  {
    var x := GetXid(db, name);
    if RowOf(setting, x).Some? {
      RowOfTable(setting, x);
      ConfigureTouches(db, Replace(RowOf(setting, x).value), x, r);
    }
  }

  lemma UnsetTouches(db: Db, name: string, t: Table, only: Option<Val>, r: Row)
    requires !BelongsTo(r, GetXid(db, name))
    ensures r in DoUnconfigure(db, name, t, only).db <==> r in db
  {
    var x := GetXid(db, name);
    if Removable(t) {
      ConfigureTouches(db, Delete(t, if only.Some? then ByBoth(x, only.value) else ById(x)), x, r);
    }
  }

  lemma RemoveTouches(db: Db, name: string, running: bool, r: Row)
    requires !BelongsTo(r, GetXid(db, name))
    ensures r in DoRemove(db, name, running).db <==> r in db
  {
    RemovedTables(r.t);
    RunDeleteAll(db, REMOVED, GetXid(db, name));
  }

  lemma RenameTouches(db: Db, name: string, newname: string, r: Row)
    requires !BelongsTo(r, GetXid(db, name))
    ensures r in DoRename(db, name, newname).db <==> r in db
  {
    var out := Exec(db, RenameStmt(GetXid(db, name), newname));
    if out.Some? {
      RenameRows(db, GetXid(db, name), newname, out.value);
    }
  }

  lemma ContextCallTouches(db: Db, c: Call, r: Row)
    requires OwnerOnly(c) && !BelongsTo(r, GetXid(db, c.name))
    ensures r in PerformContext(db, c).db <==> r in db
  {
    match c
    case Configure(name, setting) => SettingTouches(db, name, setting, r);
    case Unconfigure(name, t, only) => UnsetTouches(db, name, t, only, r);
    case Remove(name, running, _) => RemoveTouches(db, name, running, r);
    case Rename(name, newname, _) => RenameTouches(db, name, newname, r);
  }

  lemma RebuildTouches(db: Db, user: string, c: Call, r: Row)
    requires Inv(db) && c.Create? && !IsAdmin(db, user)
    requires GetXid(db, c.name) != 0 && IsOwner(db, user, c.name) ==> !BelongsTo(r, GetXid(db, c.name))
    ensures r in DoCreate(db, user, c.name, c.vdir, c.force, c.cfg, c.world).db <==> r in db
  {
    CreateCases(db, user, c.name, c.vdir, c.force, c.cfg, c.world);
    var out := DoCreate(db, user, c.name, c.vdir, c.force, c.cfg, c.world);
    if out.fault == NoFault {
      var x, v := CreateXid(db, c.name), CreateVdir(db, user, c.name, c.vdir, c.world);
      assert GetXid(db, c.name) == x && IsOwner(db, user, c.name);
      CreateOutcome(db, x, c.name, v, c.cfg);
      RebuiltTables(r.t);
    }
  }

  lemma HelperTouches(db: Db, c: Call, r: Row)
    requires (c.HelperRestart? || c.HelperShutdown?) && r.t != Restart
    ensures r in PerformContext(db, c).db <==> r in db
  {
    ExecFrame(db, Replace(Row(Restart, c.xid, Null, [])));
    ExecFrame(db, Delete(Restart, ById(c.xid)));
  }

  /** Whatever a caller asks for who is no administrator and lacks AUTH: apart from restart records,
      only rows of contexts that caller owns can change. */
  lemma Isolation(db: Db, req: Request, r: Row)
    requires Inv(db) && !IsAdmin(db, req.user) && !HasCapability(db, req.user, CapAuth)
    requires r.t != Restart
    requires BelongsTo(r, r.id) ==> !OwnerRow(db, r.id, GetUid(db, req.user))
    ensures r in Handle(db, req).db <==> r in db
  {
    if Admit(db, req) == NoFault {
      var c := req.call;
      assert c.Create? || OwnerOnly(c) || c.HelperRestart? || c.HelperShutdown? by {
        assert CapAuth in LISTED;
        assert CapOf(c) != CapAuth;
      }
      if c.Create? {
        RebuildTouches(db, req.user, c, r);
      } else if OwnerOnly(c) {
        ContextCallTouches(db, c, r);
      } else {
        HelperTouches(db, c, r);
      }
    }
  }
}
