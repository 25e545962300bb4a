/** What each handler promises its callers, as facts about the specification in `Requests`. */
module Promises {
  import opened Wrappers
  import opened Schema
  import opened Store
  import opened Validate
  import opened Lookup
  import opened Auth
  import opened Template
  import opened Invariant
  import opened Alloc
  import opened Requests
  import opened Reachable
  import opened Guarantees
  import opened Rights
  import opened Outcomes
  import opened Atomicity
  import Admission

  /** The setting is in its register of context x; every other row is as before. */
  ghost predicate Written(db: Db, d: Db, setting: Setting, x: int) {
    && RowOf(setting, x).Some?
    && forall r :: r in d <==> r == RowOf(setting, x).value || (r in db && !SameRegister(RowOf(setting, x).value, r))
  }

  predicate Renamable(db: Db, name: string, newname: string) {
    GetXid(db, name) != 0 && ValidName(newname) && GetXid(db, newname) == 0
  }

  lemma UserSetPromise(db: Db, username: string, pass: string, hash: string, admin: bool)
    requires Inv(db)
    ensures var out := DoUserSet(db, username, pass, hash, admin);
            && Inv(out.db) && out.fault != DbError
            && (out.fault == NoFault ==>
                  && (IsAdmin(out.db, username) <==> admin)
                  && (forall p, g :: AuthValid(out.db, username, p, g) <==>
                        if pass != [] then p != [] && g == hash else AuthValid(db, username, p, g))
                  && (forall u | u != username :: SameRights(db, out.db, u)))
  {
    var out := DoUserSet(db, username, pass, hash, admin);
    UserSetKeeps(db, username, pass, hash, admin);
    UserSetNoError(db, username, pass, hash, admin);
    if out.fault == NoFault {
      UserSetEffect(db, username, pass, hash, admin, username);
      forall u | u != username ensures SameRights(db, out.db, u) {
        UserSetEffect(db, username, pass, hash, admin, u);
      }
    }
  }

  lemma UserRemovePromise(db: Db, username: string)
    requires Inv(db)
    ensures var out := DoUserRemove(db, username);
            && Inv(out.db) && (out.fault == NoFault <==> GetUid(db, username) != 0)
            && (out.fault == NoFault ==>
                  && GetUid(out.db, username) == 0 && !Has(out.db, User, GetUid(db, username))
                  && (forall u | u != username :: SameRights(db, out.db, u)))
  {
    var out := DoUserRemove(db, username);
    UserRemoveKeeps(db, GetUid(db, username));
    if out.fault == NoFault {
      UserRemoveEffect(db, username, username);
      forall u | u != username ensures SameRights(db, out.db, u) {
        UserRemoveEffect(db, username, u);
      }
    }
  }

  lemma CapsAddPromise(db: Db, username: string, cap: string)
    requires Inv(db)
    ensures var out := DoCapsAdd(db, username, cap);
            && Inv(out.db) && (out.fault == NoFault <==> ValidCap(cap) && GetUid(db, username) != 0)
            && (out.fault == NoFault ==> forall u, c :: HasCapability(out.db, u, c) <==>
                  HasCapability(db, u, c) || (u == username && c in LISTED && KeyOfCap(c) == cap))
  {
    var out := DoCapsAdd(db, username, cap);
    CapsAddKeeps(db, username, cap);
    if out.fault == NoFault {
      forall u, c ensures HasCapability(out.db, u, c) <==>
          HasCapability(db, u, c) || (u == username && c in LISTED && KeyOfCap(c) == cap) {
        CapsAddEffect(db, username, cap, u, c);
      }
    }
  }

  lemma CapsRemovePromise(db: Db, username: string, cap: string)
    requires Inv(db)
    ensures var out := DoCapsRemove(db, username, cap);
            && Inv(out.db) && (out.fault == NoFault <==> (cap == [] || ValidCap(cap)) && GetUid(db, username) != 0)
            && (out.fault == NoFault ==> forall u, c :: HasCapability(out.db, u, c) <==>
                  HasCapability(db, u, c) && !(u == username && (cap == [] || KeyOfCap(c) == cap)))
  {
    var out := DoCapsRemove(db, username, cap);
    CapsRemoveKeeps(db, username, cap);
    if out.fault == NoFault {
      forall u, c ensures HasCapability(out.db, u, c) <==>
          HasCapability(db, u, c) && !(u == username && (cap == [] || KeyOfCap(c) == cap)) {
        CapsRemoveEffect(db, username, cap, u, c);
      }
    }
  }

  lemma GroupAddPromise(db: Db, group: string, name: string)
    requires Inv(db)
    ensures var out := DoGroupAdd(db, group, name);
            && Inv(out.db) && (out.fault == DbError <==> group != "all" && Member(db, group, name))
            && (out.fault == NoFault ==> forall g, n :: Member(out.db, g, n) <==>
                  Member(db, g, n) || (g == group && n == name && group != "all" && name != []))
  {
    var out := DoGroupAdd(db, group, name);
    GroupAddKeeps(db, group, name);
    GroupAddError(db, "", GroupAdd(group, name));
    if out.fault == NoFault {
      forall g, n ensures Member(out.db, g, n) <==>
          Member(db, g, n) || (g == group && n == name && group != "all" && name != []) {
        GroupAddEffect(db, group, name, g, n);
      }
    }
  }

  lemma GroupRemovePromise(db: Db, group: string, name: string)
    requires Inv(db)
    ensures var out := DoGroupRemove(db, group, name);
            && Inv(out.db) && (out.fault != NoFault ==> out.db == db)
            && (out.fault == NoFault ==> forall g, n :: Member(out.db, g, n) <==>
                  Member(db, g, n) && !(g == group && (name == [] || n == name)))
  {
    var out := DoGroupRemove(db, group, name);
    GroupRemoveCallKeeps(db, group, name);
    if out.fault == NoFault {
      forall g, n ensures Member(out.db, g, n) <==> Member(db, g, n) && !(g == group && (name == [] || n == name)) {
        GroupRemoveEffect(db, group, name, g, n);
      }
    }
  }

  lemma OwnerAddPromise(db: Db, name: string, username: string)
    requires Inv(db)
    ensures var out := DoOwnerAdd(db, name, username);
            && Inv(out.db) && (out.fault == NoFault <==> GetUid(db, username) != 0 && GetXid(db, name) != 0)
            && (out.fault == NoFault ==> forall u, n :: IsOwner(out.db, u, n) <==>
                  IsOwner(db, u, n) || (u == username && n == name))
  {
    var out := DoOwnerAdd(db, name, username);
    OwnerAddKeeps(db, name, username);
    if out.fault == NoFault {
      forall u, n ensures IsOwner(out.db, u, n) <==> IsOwner(db, u, n) || (u == username && n == name) {
        OwnerAddEffect(db, name, username, u, n);
      }
    }
  }

  lemma OwnerRemovePromise(db: Db, name: string, username: string)
    requires Inv(db)
    ensures var out := DoOwnerRemove(db, name, username);
            && Inv(out.db)
            && (out.fault == NoFault <==> GetXid(db, name) != 0 && (username == [] || GetUid(db, username) != 0))
            && (out.fault == NoFault ==> forall u, n :: IsOwner(out.db, u, n) <==>
                  IsOwner(db, u, n) && (IsAdmin(db, u) || !(n == name && (username == [] || u == username))))
  {
    var out := DoOwnerRemove(db, name, username);
    OwnerRemoveKeeps(db, name, username);
    if out.fault == NoFault {
      forall u, n ensures IsOwner(out.db, u, n) <==>
          IsOwner(db, u, n) && (IsAdmin(db, u) || !(n == name && (username == [] || u == username))) {
        OwnerRemoveEffect(db, name, username, u, n);
      }
    }
  }

  lemma ConfigurePromise(db: Db, name: string, setting: Setting)
    requires Inv(db)
    ensures var out := DoConfigure(db, name, setting);
            && Inv(out.db) && (out.fault != NoFault ==> out.db == db)
            && (out.fault == NoFault <==> GetXid(db, name) != 0 && RowOf(setting, GetXid(db, name)).Some?)
            && (out.fault == NoFault ==> Written(db, out.db, setting, GetXid(db, name)))
  {
    ConfigureCallKeeps(db, name, setting);
    if DoConfigure(db, name, setting).fault == NoFault {
      ConfigureEffect(db, name, setting);
    }
  }

  lemma RestartPromise(db: Db, xid: int)
    requires GetName(db, xid).Some?
    ensures var d := DoHelperRestart(db, xid).db;
            Has(d, Restart, xid) && forall r: Row :: r.t != Restart || r.id != xid ==> (r in d <==> r in db)
  {
    assert Row(Restart, xid, Null, []) in DoHelperRestart(db, xid).db;
  }

  lemma ShutdownPromise(db: Db, xid: int)
    requires Inv(db) && GetName(db, xid).Some?
    ensures var d := Exec(db, Delete(Restart, ById(xid))).value;
            && Inv(d) && DoHelperShutdown(db, xid) == Reply(d, NoFault)
            && forall r :: r in d <==> r in db && !(r.t == Restart && r.id == xid)
  {
    HelpersKeep(db, xid);
  }

  lemma RemovePromise(db: Db, name: string, running: bool)
    requires Inv(db)
    ensures var out := DoRemove(db, name, running);
            && Inv(out.db) && (out.fault == NoFault <==> GetXid(db, name) != 0 && !running)
            && (out.fault != NoFault ==> out.db == db)
            && (out.fault == NoFault ==>
                  && GetXid(out.db, name) == 0
                  && forall r :: r in out.db <==> r in db && !(r.t in REMOVED && r.id == GetXid(db, name)))
  {
    var x := GetXid(db, name);
    RemoveCallKeeps(db, name, running);
    RunDeleteAll(db, REMOVED, x);
    if x != 0 && !running {
      NameGone(db, name, x);
    }
  }

  lemma NameGone(db: Db, name: string, x: int)
    requires Inv(db) && GetXid(db, name) == x != 0
    ensures GetXid(Purge(db, REMOVED, x), name) == 0
  {
    var d := Purge(db, REMOVED, x);
    RemovedTables(XidNameMap);
    var q :| q in db && q.t == XidNameMap && q.key == Text(name) && q.id == x;
    forall r | r in d && r.t == XidNameMap ensures r.key != Text(name) {
      SameKeySameRow(db, XidNameMap, q, r);
    }
  }

  lemma RenamePromise(db: Db, name: string, newname: string)
    requires Inv(db)
    ensures var out := DoRename(db, name, newname);
            && Inv(out.db) && (out.fault == NoFault <==> Renamable(db, name, newname))
            && (out.fault != NoFault ==> out.db == db)
            && (out.fault == NoFault ==>
                  && GetXid(out.db, newname) == GetXid(db, name) && GetXid(out.db, name) == 0
                  && (forall r: Row :: r.t != XidNameMap || r.id != GetXid(db, name) ==> (r in out.db <==> r in db))
                  && (forall b :: GetVdir(out.db, newname, b) == GetVdir(db, name, b)))
  {
    var out := DoRename(db, name, newname);
    RenameCallKeeps(db, name, newname);
    RenameSucceedsIff(db, name, newname);
    if out.fault == NoFault {
      RenameKeepsContext(db, name, newname, "");
      forall b ensures GetVdir(out.db, newname, b) == GetVdir(db, name, b) {
        RenameKeepsContext(db, name, newname, b);
      }
    }
  }

  lemma CreatePromise(db: Db, user: string, name: string, vdir: string, force: bool, cfg: Config, world: World)
    requires Inv(db) && ValidName(name)
    ensures var out := DoCreate(db, user, name, vdir, force, cfg, world);
            var x, v := CreateXid(db, name), CreateVdir(db, user, name, vdir, world);
            && Inv(out.db) && (out.fault != NoFault ==> out.db == db)
            && (out.fault == NoFault ==>
                  && x != 0 && GetXid(out.db, name) == x
                  && forall r: Row :: if r.t in REBUILT && r.id == x then r in out.db <==> r in ContextRows(x, name, v, cfg)
                                      else r in out.db <==> r in db)
  {
    var out := DoCreate(db, user, name, vdir, force, cfg, world);
    var x, v := CreateXid(db, name), CreateVdir(db, user, name, vdir, world);
    CreateCallKeeps(db, user, name, vdir, force, cfg, world);
    CreateCases(db, user, name, vdir, force, cfg, world);
    if out.fault == NoFault {
      CreateOutcome(db, x, name, v, cfg);
      CreateNames(db, x, name, v, cfg, out.db);
      XidIff(out.db, name, x);
    }
  }

  /** The directory a caller who may create gets: administrators choose it. For everybody else, and for an
      administrator who names none, an existing context keeps its directory, and a new one gets one below
      vbasedir. */
  lemma VdirChosen(db: Db, user: string, name: string, vdir: string, world: World)
    requires Inv(db)
    ensures var v := CreateVdir(db, user, name, vdir, world);
            if IsAdmin(db, user) && vdir != [] then v == vdir
            else if GetXid(db, name) == 0 then v == world.vbasedir + "/" + name
            else exists r :: r in db && r.t == Vdir && r.id == GetXid(db, name) && r.key == Text(v)
  {
    if GetXid(db, name) != 0 {
      XidIff(db, name, GetXid(db, name));
      VdirOfContext(db, name, GetXid(db, name), world.vbasedir);
    }
  }

  /** The stored directory is what vxdb_getvdir answers, whatever vbasedir is. */
  lemma StoredVdir(db: Db, name: string, v: string, b: string)
    requires Inv(db) && GetXid(db, name) != 0
    requires exists r :: r in db && r.t == Vdir && r.id == GetXid(db, name) && r.key == Text(v)
    ensures GetVdir(db, name, b) == v
  {
    var x := GetXid(db, name);
    XidIff(db, name, x);
    VdirOfContext(db, name, x, b);
    var r :| r in db && r.t == Vdir && r.id == x && r.key == Text(v);
    var w :| w in db && IsVdir(w, x) && GetVdir(db, name, b) == w.key.s;
    SameKeySameRow(db, Vdir, r, w);
  }

  /** Where a successful creation or rebuild puts the context. */
  ghost predicate VdirOutcome(db: Db, d: Db, user: string, name: string, vdir: string, vbasedir: string) {
    if IsAdmin(db, user) && vdir != [] then forall b :: GetVdir(d, name, b) == vdir
    else if GetXid(db, name) == 0 then forall b :: GetVdir(d, name, b) == vbasedir + "/" + name
    else forall b :: GetVdir(d, name, b) == GetVdir(db, name, b)
  }

  lemma CreatedVdirRow(db: Db, user: string, name: string, vdir: string, force: bool, cfg: Config, world: World)
    requires Inv(db) && ValidName(name) && DoCreate(db, user, name, vdir, force, cfg, world).fault == NoFault
    ensures var d := DoCreate(db, user, name, vdir, force, cfg, world).db;
            && Inv(d) && GetXid(d, name) != 0 && (GetXid(db, name) == 0 ==> IsAdmin(db, user))
            && exists r :: r in d && r.t == Vdir && r.id == GetXid(d, name) && r.key == Text(CreateVdir(db, user, name, vdir, world))
  {
    var out := DoCreate(db, user, name, vdir, force, cfg, world);
    var x, v := CreateXid(db, name), CreateVdir(db, user, name, vdir, world);
    CreatePromise(db, user, name, vdir, force, cfg, world);
    CreateCases(db, user, name, vdir, force, cfg, world);
    CreateRows(db, x, name, v, cfg, out.db);
    assert TagRow(Vdir, x, v) in out.db;
  }

  /** A successful vx.create for an administrator puts the context where it says, or below vbasedir if it is
      new, or leaves it where it is. Anybody else can only rebuild, and only in place. */
  lemma CreatedVdir(db: Db, user: string, name: string, vdir: string, force: bool, cfg: Config, world: World)
    requires Inv(db) && ValidName(name) && DoCreate(db, user, name, vdir, force, cfg, world).fault == NoFault
    ensures VdirOutcome(db, DoCreate(db, user, name, vdir, force, cfg, world).db, user, name, vdir, world.vbasedir)
    ensures !IsAdmin(db, user) ==> GetXid(db, name) != 0
  {
    var d, v := DoCreate(db, user, name, vdir, force, cfg, world).db, CreateVdir(db, user, name, vdir, world);
    CreatedVdirRow(db, user, name, vdir, force, cfg, world);
    VdirChosen(db, user, name, vdir, world);
    VdirFollows(db, d, user, name, vdir, world.vbasedir, v);
  }

  lemma VdirFollows(db: Db, d: Db, user: string, name: string, vdir: string, vbasedir: string, v: string)
    requires Inv(db) && Inv(d) && GetXid(d, name) != 0
    requires exists r :: r in d && r.t == Vdir && r.id == GetXid(d, name) && r.key == Text(v)
    requires if IsAdmin(db, user) && vdir != [] then v == vdir
             else if GetXid(db, name) == 0 then v == vbasedir + "/" + name
             else exists r :: r in db && r.t == Vdir && r.id == GetXid(db, name) && r.key == Text(v)
    ensures VdirOutcome(db, d, user, name, vdir, vbasedir)
  {
    forall b ensures GetVdir(d, name, b) == v {
      StoredVdir(d, name, v, b);
    }
    if !(IsAdmin(db, user) && vdir != []) && GetXid(db, name) != 0 {
      forall b ensures GetVdir(db, name, b) == v {
        StoredVdir(db, name, v, b);
      }
    }
  }

  /** Rows a caller without AUTH who is no administrator cannot change. */
  ghost predicate OutOfReach(db: Db, user: string, r: Row) {
    r.t != Restart && (BelongsTo(r, r.id) ==> !OwnerRow(db, r.id, GetUid(db, user)))
  }

  lemma RequestPromise(db: Db, req: Request)
    requires Inv(db)
    ensures var out := Handle(db, req);
            && Inv(out.db)
            && (out.fault != NoFault && out.db != db ==> LeavesHalfDone(db, req.call))
            && (!IsAdmin(db, req.user) && !HasCapability(db, req.user, CapAuth) ==>
                  forall r :: OutOfReach(db, req.user, r) ==> (r in out.db <==> r in db))
            && (req.call.Configure? || req.call.Unconfigure? ==>
                  forall r :: (r in out.db <==> r in db) || Admission.MayConfigure(db, req, r))
  {
    HandleKeeps(db, req);
    Admission.ConfigurationPromise(db, req);
    if Admit(db, req) == NoFault {
      FaultsAreAtomicIff(db, req.user, req.call);
    }
    if !IsAdmin(db, req.user) && !HasCapability(db, req.user, CapAuth) {
      forall r | OutOfReach(db, req.user, r) ensures r in Handle(db, req).db <==> r in db {
        Isolation(db, req, r);
      }
    }
  }
}
