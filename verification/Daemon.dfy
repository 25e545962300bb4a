/** The request handlers as the daemon runs them: lookups, checks and statements in sequence on the
    one database. Every handler keeps the invariant of the store, does what its specification in
    `Requests` says, and promises what callers can observe afterwards. */
module Daemon {
  import opened Wrappers
  import opened Schema
  import opened Store
  import opened Validate
  import opened Lookup
  import opened Auth
  import opened Template
  import opened Invariant
  import opened Alloc
  import opened Limits
  import opened Requests
  import opened Reachable
  import opened Guarantees
  import opened Rights
  import opened Outcomes
  import opened Atomicity
  import opened Promises
  import Readback
  import Admission

  class Vxdb {
    var db: Db

    ghost predicate Valid()
      reads this
    {
      Inv(db)
    }

    constructor (initial: Db)
      requires Inv(initial)
      ensures Valid() && db == initial
    {
      db := initial;
    }

    /** vxdb_exec with one statement. */
    method Execute(s: Stmt) returns (ok: bool)
      modifies this
      ensures ok <==> Exec(old(db), s).Some?
      ensures db == if ok then Exec(old(db), s).value else old(db)
    {
      var out := Exec(db, s);
      ok := out.Some?;
      if ok {
        db := out.value;
      }
    }

    /** vxdb_exec with a transaction: the statements take effect together or not at all. */
    method Transaction(ss: seq<Stmt>) returns (ok: bool)
      modifies this
      ensures ok <==> Run(old(db), ss).Some?
      ensures db == if ok then Run(old(db), ss).value else old(db)
    {
      var work, i := db, 0;
      while i < |ss|
        invariant 0 <= i <= |ss| && db == old(db)
        invariant Run(old(db), ss) == Run(work, ss[i..])
      {
        var out := Exec(work, ss[i]);
        assert ss[i..][1..] == ss[i + 1..];
        if out.None? {
          return false;
        }
        work := out.value;
        i := i + 1;
      }
      db := work;
      return true;
    }

    method MethodInit(req: Request) returns (fault: Fault)
      ensures fault == Admit(db, req)
      ensures fault == NoFault <==>
              && AuthValid(db, req.user, req.pass, req.digest) && Capable(db, req.user, {CapOf(req.call)})
              && (LocksName(req.call) ==> ValidName(req.call.name))
              && (OwnerOnly(req.call) ==> IsOwner(db, req.user, req.call.name))
    {
      if !AuthValid(db, req.user, req.pass, req.digest) {
        return Unauthorized;
      }
      var capable := AuthCapable(db, req.user, {CapOf(req.call)});
      if !capable {
        return Denied;
      }
      if LocksName(req.call) {
        if !ValidName(req.call.name) {
          return Invalid;
        }
        if OwnerOnly(req.call) && !IsOwner(db, req.user, req.call.name) {
          return NoVps;
        }
      }
      return NoFault;
    }

    method UserSet(username: string, pass: string, hash: string, admin: bool) returns (fault: Fault)
      requires Valid()
      modifies this
      ensures Valid()
      ensures Reply(db, fault) == DoUserSet(old(db), username, pass, hash, admin)
      ensures fault != DbError
      ensures fault == NoFault ==> (IsAdmin(db, username) <==> admin)
      ensures fault == NoFault ==> forall p, g :: AuthValid(db, username, p, g) <==>
                if pass != [] then p != [] && g == hash else AuthValid(old(db), username, p, g)
      ensures fault == NoFault ==> forall u | u != username :: SameRights(old(db), db, u)
    {
      UserSetPromise(db, username, pass, hash, admin);
      if !ValidUsername(username) {
        return Invalid;
      }
      var uid := GetUid(db, username);
      var ok;
      if uid == 0 {
        if !ValidPassword(pass) {
          return Invalid;
        }
        uid := MaxId(db, User) + 1;
        ok := Execute(Insert(UserRow(uid, username, hash, admin)));
        if !ok {
          return DbError;
        }
      } else {
        ok := Execute(Update(User, uid, DataCol(1), Flag(admin)));
        if !ok {
          return DbError;
        }
        if pass != [] {
          if !ValidPassword(pass) {
            return Invalid;
          }
          ok := Execute(Update(User, uid, DataCol(0), Text(hash)));
          if !ok {
            return DbError;
          }
        }
      }
      return NoFault;
    }

    method UserRemove(username: string) returns (fault: Fault)
      requires Valid()
      modifies this
      ensures Valid()
      ensures Reply(db, fault) == DoUserRemove(old(db), username)
      ensures fault == NoFault <==> GetUid(old(db), username) != 0
      ensures fault == NoFault ==> GetUid(db, username) == 0 && !Has(db, User, GetUid(old(db), username))
      ensures fault == NoFault ==> forall u | u != username :: SameRights(old(db), db, u)
    {
      UserRemovePromise(db, username);
      var uid := GetUid(db, username);
      if uid == 0 {
        return NoUser;
      }
      var ok := Transaction(UserRemoveScript(uid));
      return if ok then NoFault else DbError;
    }

    method CapsAdd(username: string, cap: string) returns (fault: Fault)
      requires Valid()
      modifies this
      ensures Valid()
      ensures Reply(db, fault) == DoCapsAdd(old(db), username, cap)
      ensures fault == NoFault <==> ValidCap(cap) && GetUid(old(db), username) != 0
      ensures fault == NoFault ==> forall u, c :: HasCapability(db, u, c) <==>
                HasCapability(old(db), u, c) || (u == username && c in LISTED && KeyOfCap(c) == cap)
    {
      CapsAddPromise(db, username, cap);
      if !ValidCap(cap) {
        return Invalid;
      }
      var uid := GetUid(db, username);
      if uid == 0 {
        return NoUser;
      }
      var ok := Execute(Replace(Row(UserCaps, uid, Text(cap), [])));
      return if ok then NoFault else DbError;
    }

    method CapsRemove(username: string, cap: string) returns (fault: Fault)
      requires Valid()
      modifies this
      ensures Valid()
      ensures Reply(db, fault) == DoCapsRemove(old(db), username, cap)
      ensures fault == NoFault <==> (cap == [] || ValidCap(cap)) && GetUid(old(db), username) != 0
      ensures fault == NoFault ==> forall u, c :: HasCapability(db, u, c) <==>
                HasCapability(old(db), u, c) && !(u == username && (cap == [] || KeyOfCap(c) == cap))
    {
      CapsRemovePromise(db, username, cap);
      if cap != [] && !ValidCap(cap) {
        return Invalid;
      }
      var uid := GetUid(db, username);
      if uid == 0 {
        return NoUser;
      }
      var ok := Execute(Delete(UserCaps, if cap != [] then ByBoth(uid, Text(cap)) else ById(uid)));
      return if ok then NoFault else DbError;
    }

    method GroupAdd(group: string, name: string) returns (fault: Fault)
      requires Valid()
      modifies this
      ensures Valid()
      ensures Reply(db, fault) == DoGroupAdd(old(db), group, name)
      ensures fault == NoFault ==> forall g, n :: Member(db, g, n) <==>
                Member(old(db), g, n) || (g == group && n == name && group != "all" && name != [])
      ensures fault == DbError <==> group != "all" && Member(old(db), group, name)
    {
      GroupAddPromise(db, group, name);
      if !ValidGroup(group) {
        return Invalid;
      }
      if group == "all" {
        return NoFault;
      }
      var gid := GetGid(db, group);
      var ok;
      if gid == 0 {
        gid := MaxId(db, Groups) + 1;
        ok := Execute(Insert(Row(Groups, gid, Text(group), [])));
        if !ok {
          return DbError;
        }
      }
      if name != [] {
        if !ValidName(name) {
          return Invalid;
        }
        var xid := GetXid(db, name);
        if xid == 0 {
          return NoVps;
        }
        ok := Execute(Insert(Row(XidGidMap, xid, Int(gid), [])));
        if !ok {
          return DbError;
        }
      }
      return NoFault;
    }

    method GroupRemove(group: string, name: string) returns (fault: Fault)
      requires Valid()
      modifies this
      ensures Valid()
      ensures Reply(db, fault) == DoGroupRemove(old(db), group, name)
      ensures fault == NoFault ==> forall g, n :: Member(db, g, n) <==>
                Member(old(db), g, n) && !(g == group && (name == [] || n == name))
      ensures fault != NoFault ==> db == old(db)
    {
      GroupRemovePromise(db, group, name);
      if !ValidGroup(group) {
        return Invalid;
      }
      if group == "all" {
        return Invalid;
      }
      var gid := GetGid(db, group);
      if gid == 0 {
        return NoVg;
      }
      var ok;
      if name != [] {
        if !ValidName(name) {
          return Invalid;
        }
        var xid := GetXid(db, name);
        if xid == 0 {
          return NoVps;
        }
        ok := Execute(Delete(XidGidMap, ByBoth(xid, Int(gid))));
      } else {
        ok := Transaction(GroupRemoveScript(gid));
      }
      return if ok then NoFault else DbError;
    }

    method OwnerAdd(name: string, username: string) returns (fault: Fault)
      requires Valid()
      modifies this
      ensures Valid()
      ensures Reply(db, fault) == DoOwnerAdd(old(db), name, username)
      ensures fault == NoFault <==> GetUid(old(db), username) != 0 && GetXid(old(db), name) != 0
      ensures fault == NoFault ==> forall u, n :: IsOwner(db, u, n) <==> IsOwner(old(db), u, n) || (u == username && n == name)
    {
      OwnerAddPromise(db, name, username);
      var uid := GetUid(db, username);
      if uid == 0 {
        return NoUser;
      }
      var xid := GetXid(db, name);
      if xid == 0 {
        return NoVps;
      }
      var ok := Execute(Replace(Row(XidUidMap, xid, Int(uid), [])));
      return if ok then NoFault else DbError;
    }

    method OwnerRemove(name: string, username: string) returns (fault: Fault)
      requires Valid()
      modifies this
      ensures Valid()
      ensures Reply(db, fault) == DoOwnerRemove(old(db), name, username)
      ensures fault == NoFault <==> GetXid(old(db), name) != 0 && (username == [] || GetUid(old(db), username) != 0)
      ensures fault == NoFault ==> forall u, n :: IsOwner(db, u, n) <==>
                IsOwner(old(db), u, n) && (IsAdmin(old(db), u) || !(n == name && (username == [] || u == username)))
    {
      OwnerRemovePromise(db, name, username);
      var uid := 0;
      var xid := GetXid(db, name);
      if xid == 0 {
        return NoVps;
      }
      if username != [] {
        uid := GetUid(db, username);
        if uid == 0 {
          return NoUser;
        }
      }
      var ok := Execute(Delete(XidUidMap, if uid != 0 then ByBoth(xid, Int(uid)) else ById(xid)));
      return if ok then NoFault else DbError;
    }

    /** vxdb.mount.set: absent parameters are filled in before the row is replaced. */
    method MountSet(name: string, src: string, dst: string, fstype: string, opts: string) returns (fault: Fault)
      requires Valid()
      modifies this
      ensures Valid()
      ensures Reply(db, fault) == DoConfigure(old(db), name, Setting.MountSet(src, dst, fstype, opts))
      ensures fault == NoFault <==> ValidPath(dst) && (src != [] || fstype != []) && GetXid(old(db), name) != 0
      ensures fault == NoFault ==> Written(old(db), db, Setting.MountSet(src, dst, fstype, opts), GetXid(old(db), name))
      ensures fault == NoFault ==>
                Readback.OnlyMount(db, GetXid(old(db), name),
                                   MountCfg(dst, if src == "" then "none" else src, if fstype == "" then "auto" else fstype,
                                            if opts == "" then "defaults" else opts))
    {
      ConfigurePromise(db, name, Setting.MountSet(src, dst, fstype, opts));
      if DoConfigure(db, name, Setting.MountSet(src, dst, fstype, opts)).fault == NoFault {
        Readback.MountShown(db, name, src, dst, fstype, opts);
      }
      if !ValidPath(dst) {
        return Invalid;
      }
      if src == [] && fstype == [] {
        return Invalid;
      }
      var xid := GetXid(db, name);
      if xid == 0 {
        return NoVps;
      }
      var s, f, o := src, fstype, opts;
      if s == [] {
        s := "none";
      }
      if f == [] {
        f := "auto";
      }
      if o == [] {
        o := "defaults";
      }
      var ok := Execute(Replace(Row(Mount, xid, Text(dst), [Text(s), Text(f), Text(o)])));
      return if ok then NoFault else DbError;
    }

    /** vxdb.vx.limit.set: memory limits are converted to pages by the loop. */
    method LimitSet(name: string, limit: string, soft: int, max: int, pagesize: int) returns (fault: Fault)
      requires Valid() && pagesize > 0
      modifies this
      ensures Valid()
      ensures Reply(db, fault) == DoConfigure(old(db), name, Setting.LimitSet(limit, soft, max, pagesize))
      ensures fault == NoFault <==> limit in RLIMITS && ValidLimits(soft, max) && GetXid(old(db), name) != 0
      ensures fault == NoFault ==> Written(old(db), db, Setting.LimitSet(limit, soft, max, pagesize), GetXid(old(db), name))
    {
      ConfigurePromise(db, name, Setting.LimitSet(limit, soft, max, pagesize));
      if limit !in RLIMITS || !ValidLimits(soft, max) {
        return Invalid;
      }
      var xid := GetXid(db, name);
      if xid == 0 {
        return NoVps;
      }
      var s, m := ConvertForSet(limit, soft, max, pagesize);
      var ok := Execute(Replace(Row(VxLimit, xid, Text(limit), [Int(s), Int(m)])));
      return if ok then NoFault else DbError;
    }

    method Configure(name: string, setting: Setting) returns (fault: Fault)
      requires Valid()
      modifies this
      ensures Valid()
      ensures Reply(db, fault) == DoConfigure(old(db), name, setting)
      ensures fault == NoFault ==> Written(old(db), db, setting, GetXid(old(db), name))
      ensures fault != NoFault ==> db == old(db)
    {
      ConfigurePromise(db, name, setting);
      if setting.MountSet? {
        fault := MountSet(name, setting.src, setting.dst, setting.fstype, setting.opts);
      } else if setting.LimitSet? && setting.pagesize > 0 {
        fault := LimitSet(name, setting.limit, setting.soft, setting.max, setting.pagesize);
      } else {
        var xid := GetXid(db, name);
        var row := RowOf(setting, xid);
        if row.None? {
          return Invalid;
        }
        if xid == 0 {
          return NoVps;
        }
        var ok := Execute(Replace(row.value));
        return if ok then NoFault else DbError;
      }
    }

    method Unconfigure(name: string, t: Table, only: Option<Val>) returns (fault: Fault)
      requires Valid()
      modifies this
      ensures Valid()
      ensures Reply(db, fault) == DoUnconfigure(old(db), name, t, only)
      ensures fault == NoFault <==> Removable(t) && GetXid(old(db), name) != 0
      ensures fault == NoFault ==> forall r :: r in db <==>
                r in old(db) && !(r.t == t && r.id == GetXid(old(db), name) && (only.Some? ==> r.key == only.value))
    {
      UnconfigureCallKeeps(db, name, t, only);
      if !Removable(t) {
        return Invalid;
      }
      var xid := GetXid(db, name);
      if xid == 0 {
        return NoVps;
      }
      var ok := Execute(Delete(t, if only.Some? then ByBoth(xid, only.value) else ById(xid)));
      return if ok then NoFault else DbError;
    }

    method HelperRestart(xid: int) returns (fault: Fault)
      requires Valid()
      modifies this
      ensures Valid()
      ensures Reply(db, fault) == DoHelperRestart(old(db), xid)
      ensures fault == NoFault <==> GetName(old(db), xid).Some?
      ensures fault == NoFault ==> Has(db, Restart, xid) && forall r: Row :: r.t != Restart || r.id != xid ==> (r in db <==> r in old(db))
    {
      HelpersKeep(db, xid);
      if GetName(db, xid).None? {
        return NoVps;
      }
      RestartPromise(db, xid);
      var ok := Execute(Replace(Row(Restart, xid, Null, [])));
      return if ok then NoFault else DbError;
    }

    /** helper.shutdown up to the fork; `rebirth` says whether a restart record was consumed, and `after`
        how the fork ends. */
    method HelperShutdown(xid: int, after: Fault) returns (fault: Fault, rebirth: bool)
      requires Valid()
      modifies this
      ensures Valid()
      ensures Reply(db, fault) == Then(DoHelperShutdown(old(db), xid), if Has(old(db), Restart, xid) then after else NoFault)
      ensures GetName(old(db), xid).Some? ==> forall r :: r in db <==> r in old(db) && !(r.t == Restart && r.id == xid)
      ensures rebirth <==> GetName(old(db), xid).Some? && Has(old(db), Restart, xid)
    {
      if GetName(db, xid).None? {
        return NoVps, false;
      }
      ShutdownPromise(db, xid);
      var before := |db|;
      ghost var was := db;
      var ok := Execute(Delete(Restart, ById(xid)));
      if !ok {
        return DbError, false;
      }
      // vxdb_changes: the number of rows the statement deleted
      var changes := before - |db|;
      DeletedCount(was, xid);
      if changes < 1 {
        return NoFault, false;
      }
      return after, true;
    }

    method VxRemove(name: string, running: bool, after: Fault) returns (fault: Fault)
      requires Valid()
      modifies this
      ensures Valid()
      ensures Reply(db, fault) == Then(DoRemove(old(db), name, running), after)
      ensures GetXid(old(db), name) == 0 || running ==> fault != NoFault && db == old(db)
      ensures GetXid(old(db), name) != 0 && !running ==> fault == after && GetXid(db, name) == 0 && forall r :: r in db <==>
                r in old(db) && !(r.t in REMOVED && r.id == GetXid(old(db), name))
    {
      RemovePromise(db, name, running);
      var xid := GetXid(db, name);
      if xid == 0 {
        return NoVps;
      }
      if running {
        return Fault.Running;
      }
      var ok := Transaction(DeleteAll(REMOVED, xid));
      return if ok then after else DbError;
    }

    method VxRename(name: string, newname: string, after: Fault) returns (fault: Fault)
      requires Valid()
      modifies this
      ensures Valid()
      ensures Reply(db, fault) == Then(DoRename(old(db), name, newname), after)
      ensures !Renamable(old(db), name, newname) ==> fault != NoFault && db == old(db)
      ensures Renamable(old(db), name, newname) ==>
                && fault == after && GetXid(db, newname) == GetXid(old(db), name) && GetXid(db, name) == 0
                && forall r: Row :: r.t != XidNameMap || r.id != GetXid(old(db), name) ==> (r in db <==> r in old(db))
      ensures Renamable(old(db), name, newname) ==> forall b :: GetVdir(db, newname, b) == GetVdir(old(db), name, b)
    {
      RenamePromise(db, name, newname);
      if !ValidName(newname) {
        return Invalid;
      }
      if GetXid(db, newname) != 0 {
        return Exists;
      }
      var xid := GetXid(db, name);
      if xid == 0 {
        return NoVps;
      }
      var ok := Execute(Update(XidNameMap, xid, KeyCol, Text(newname)));
      return if ok then after else DbError;
    }

    /** The checks of vx.create before any file system work. */
    method CreateChecks(user: string, name: string, vdir: string, force: bool, world: World) returns (fault: Fault, v: string)
      requires Valid()
      ensures fault == CreateGate(db, user, name, vdir, force, world)
      ensures fault == NoFault ==> v == CreateVdir(db, user, name, vdir, world) && ValidPath(v) && |v| <= 31
      ensures fault == NoFault ==>
                if IsAdmin(db, user) && vdir != [] then v == vdir
                else if GetXid(db, name) == 0 then v == world.vbasedir + "/" + name
                else exists r :: r in db && r.t == Vdir && r.id == GetXid(db, name) && r.key == Text(v)
      ensures fault == NoFault ==> world.templateFault == NoFault && (force || !world.vdirTaken)
      ensures fault == NoFault ==>
                if GetXid(db, name) != 0 then IsOwner(db, user, name) && force && !world.running else IsAdmin(db, user)
    {
      GateIff(db, user, name, vdir, force, world);
      VdirChosen(db, user, name, vdir, world);
      v := vdir;
      if world.templateFault != NoFault {
        return world.templateFault, v;
      }
      var xid := GetXid(db, name);
      if xid != 0 {
        if IsOwner(db, user, name) {
          if !force {
            return Exists, v;
          } else if world.running {
            return Fault.Running, v;
          }
        } else {
          return NoVps, v;
        }
      } else if !IsAdmin(db, user) {
        return Denied, v;
      }
      if v == [] || !IsAdmin(db, user) {
        v := GetVdir(db, name, world.vbasedir);
      }
      if !ValidPath(v) {
        return Invalid, v;
      }
      if |v| > 31 {
        return Invalid, v;
      }
      if !force && world.vdirTaken {
        return Exists, v;
      }
      if xid != 0 && !ValidPath(GetVdir(db, name, world.vbasedir)) {
        return BadConf, v;
      }
      return NoFault, v;
    }

    method VxCreate(user: string, name: string, vdir: string, force: bool, cfg: Config, world: World) returns (fault: Fault)
      requires Valid() && ValidName(name)
      modifies this
      ensures Valid()
      ensures Reply(db, fault) == DoCreate(old(db), user, name, vdir, force, cfg, world)
      ensures fault != NoFault ==> db == old(db)
      ensures fault == NoFault ==> CreateXid(old(db), name) != 0 && GetXid(db, name) == CreateXid(old(db), name)
      ensures fault == NoFault ==> VdirOutcome(old(db), db, user, name, vdir, world.vbasedir)
      ensures fault == NoFault ==> forall r: Row ::
                if r.t in REBUILT && r.id == CreateXid(old(db), name)
                then r in db <==> r in ContextRows(CreateXid(old(db), name), name, CreateVdir(old(db), user, name, vdir, world), cfg)
                else r in db <==> r in old(db)
    {
      CreatePromise(db, user, name, vdir, force, cfg, world);
      if DoCreate(db, user, name, vdir, force, cfg, world).fault == NoFault {
        CreatedVdir(db, user, name, vdir, force, cfg, world);
      }
      var v;
      fault, v := CreateChecks(user, name, vdir, force, world);
      if fault != NoFault {
        return;
      }
      var xid := GetXid(db, name);
      if xid == 0 {
        xid := FindFreeXid(db);
      }
      if xid == 0 {
        return DbError;
      }
      if !world.built {
        return SysError;
      }
      var script := CreateVxdbEntries(xid, name, v, cfg);
      if script.None? {
        return BadConf;
      }
      var ok := Transaction(script.value);
      return if ok then NoFault else DbError;
    }

    /** Requests about users, groups and owners. */
    method CallAdmin(c: Call) returns (fault: Fault)
      requires Valid() && CapOf(c) == CapAuth
      modifies this
      ensures Valid()
      ensures Reply(db, fault) == PerformAdmin(old(db), c)
    {
      match c
      case UserSet(username, pass, hash, admin) => fault := UserSet(username, pass, hash, admin);
      case UserRemove(username) => fault := UserRemove(username);
      case CapsAdd(username, cap) => fault := CapsAdd(username, cap);
      case CapsRemove(username, cap) => fault := CapsRemove(username, cap);
      case GroupAdd(group, name) => fault := GroupAdd(group, name);
      case GroupRemove(group, name) => fault := GroupRemove(group, name);
      case OwnerAdd(name, username) => fault := OwnerAdd(name, username);
      case OwnerRemove(name, username) => fault := OwnerRemove(name, username);
    }

    /** Requests about contexts. */
    method CallContext(c: Call) returns (fault: Fault)
      requires Valid() && CapOf(c) != CapAuth && !c.Create?
      modifies this
      ensures Valid()
      ensures Reply(db, fault) == PerformContext(old(db), c)
    {
      match c
      case Configure(name, setting) => fault := Configure(name, setting);
      case Unconfigure(name, t, only) => fault := Unconfigure(name, t, only);
      case HelperRestart(xid) => fault := HelperRestart(xid);
      case HelperShutdown(xid, after) =>
        var rebirth;
        fault, rebirth := HelperShutdown(xid, after);
      case Remove(name, running, after) => fault := VxRemove(name, running, after);
      case Rename(name, newname, after) => fault := VxRename(name, newname, after);
    }

    /** An admitted request. */
    method Carry(user: string, c: Call) returns (fault: Fault)
      requires Valid() && (c.Create? ==> ValidName(c.name))
      modifies this
      ensures Valid()
      ensures Reply(db, fault) == Perform(old(db), user, c)
    {
      if c.Create? {
        fault := VxCreate(user, c.name, c.vdir, c.force, c.cfg, c.world);
      } else if CapOf(c) == CapAuth {
        fault := CallAdmin(c);
      } else {
        fault := CallContext(c);
      }
    }

    /** One request. A fault leaves the store alone but for the situations of `LeavesHalfDone`, and an
        ordinary user's request stays within the contexts it owns. */
    method Dispatch(req: Request) returns (fault: Fault)
      requires Valid()
      modifies this
      ensures Valid()
      ensures Reply(db, fault) == Handle(old(db), req)
      ensures fault != NoFault && db != old(db) ==> LeavesHalfDone(old(db), req.call)
      ensures !IsAdmin(old(db), req.user) && !HasCapability(old(db), req.user, CapAuth) ==>
                forall r :: OutOfReach(old(db), req.user, r) ==> (r in db <==> r in old(db))
      ensures req.call.Configure? || req.call.Unconfigure? ==>
                forall r :: (r in db <==> r in old(db)) || Admission.MayConfigure(old(db), req, r)
    {
      RequestPromise(db, req);
      fault := MethodInit(req);
      if fault != NoFault {
        return;
      }
      fault := Carry(req.user, req.call);
    }

    /** Any sequence of requests, one after the other. */
    method ServeAll(reqs: seq<Request>)
      requires Valid()
      modifies this
      ensures Valid() && db == Serve(old(db), reqs)
    {
      var i := 0;
      while i < |reqs|
        invariant 0 <= i <= |reqs|
        invariant Valid() && Serve(db, reqs[i..]) == Serve(old(db), reqs)
      {
        assert reqs[i..][1..] == reqs[i + 1..];
        var fault := Dispatch(reqs[i]);
        i := i + 1;
      }
    }
  }

  lemma DeletedCount(db: Db, xid: int)
    ensures var d := Exec(db, Delete(Restart, ById(xid))).value;
            |d| <= |db| && (|db| - |d| >= 1 <==> Has(db, Restart, xid))
  {
    var d := Exec(db, Delete(Restart, ById(xid))).value;
    var gone := set r | r in db && r.t == Restart && r.id == xid;
    assert db == d + gone && d !! gone;
    if r :| r in db && r.t == Restart && r.id == xid {
      assert r in gone;
    } else {
      assert gone == {};
    }
  }
}
