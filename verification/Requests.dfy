/** Whole requests, one after the other: what each RPC method does to the store and which fault it
    answers with. Password digests, template directories, the running state of a context and the
    outcome of file system work come with the request, because foreign code determines them. */
module Requests {
  import opened Wrappers
  import opened Schema
  import opened Store
  import opened Validate
  import opened Lookup
  import opened Auth
  import opened Template
  import opened Invariant
  import opened Alloc
  import opened Limits

  datatype Fault =
    | NoFault | Unauthorized | Denied | NoUser | Invalid | Exists | NoVps | NoVg | Running | DbError
    | BadConf | SysError

  datatype Reply = Reply(db: Db, fault: Fault)

  /** Parameters of the per-context writers. Three of them are spelled out with their checks and
      defaults; `PlainSet` stands for the remaining ones after validation. */
  datatype Setting =
    | MountSet(src: string, dst: string, fstype: string, opts: string)
    | LimitSet(limit: string, soft: int, max: int, pagesize: int)
    | SchedSet(cpuid: int, numcpus: int, fillrate: int, interval: int, fillrate2: int, interval2: int,
               tokensmin: int, tokensmax: int)
    | CpusetSet(cpus: string, mems: string, virtualize: bool, valid: bool)
    | PlainSet(t: Table, key: Val, data: seq<Val>)

  /** What vx.create finds outside the database. */
  datatype World = World(templateFault: Fault, vbasedir: string, running: bool, vdirTaken: bool, built: bool)

  /** `after` is how the work outside the database ends that a request does after its write: unlinking
      the directory, telling the kernel the new name, forking the child that waits. */
  datatype Call =
    | UserSet(username: string, pass: string, hash: string, admin: bool)
    | UserRemove(username: string)
    | CapsAdd(username: string, cap: string)
    | CapsRemove(username: string, cap: string)
    | GroupAdd(group: string, name: string)
    | GroupRemove(group: string, name: string)
    | OwnerAdd(name: string, username: string)
    | OwnerRemove(name: string, username: string)
    | Configure(name: string, setting: Setting)
    | Unconfigure(name: string, t: Table, only: Option<Val>)
    | HelperRestart(xid: int)
    | HelperShutdown(xid: int, after: Fault)
    | Create(name: string, vdir: string, force: bool, cfg: Config, world: World)
    | Remove(name: string, running: bool, after: Fault)
    | Rename(name: string, newname: string, after: Fault)

  /** `digest` is the hash of the password `pass` the caller sent. */
  datatype Request = Request(user: string, pass: string, digest: string, call: Call)

  // ----- method_init: authentication, capabilities, flags

  function TableOfSetting(s: Setting): Table {
    match s
    case MountSet(_, _, _, _) => Mount
    case LimitSet(_, _, _, _) => VxLimit
    case SchedSet(_, _, _, _, _, _, _, _) => VxSched
    case CpusetSet(_, _, _, _) => VxCpuset
    case PlainSet(t, _, _) => t
  }

  predicate PlainTable(t: Table) {
    match t
    case DxLimit | Init | NxAddr | NxBroadcast | VxBcaps | VxCcaps | VxFlags | VxUname => true
    case _ => false
  }

  predicate ConfigTable(t: Table) {
    PlainTable(t) || t == Mount || t == VxLimit || t == VxSched || t == VxCpuset
  }

  /** Tables with a removing request: init has none. */
  predicate Removable(t: Table) {
    ConfigTable(t) && t != Init
  }

  function CapOfTable(t: Table): Cap {
    match t
    case DxLimit => CapDlim
    case Init => CapInit
    case NxAddr | NxBroadcast => CapNet
    case VxBcaps => CapBcap
    case VxCcaps => CapCcap
    case VxFlags => CapCflag
    case VxUname => CapUname
    case VxLimit => CapRlim
    case VxSched | VxCpuset => CapSched
    case _ => CapMount
  }

  function CapOf(c: Call): Cap {
    match c
    case Configure(_, setting) => CapOfTable(TableOfSetting(setting))
    case Unconfigure(_, t, _) => CapOfTable(t)
    case HelperRestart(_) => CapHelper
    case HelperShutdown(_, _) => CapHelper
    case Create(_, _, _, _, _) => CapCreate
    case Remove(_, _, _) => CapCreate
    case Rename(_, _, _) => CapCreate
    case _ => CapAuth
  }

  /** Flag M_OWNER. */
  predicate OwnerOnly(c: Call) {
    c.Configure? || c.Unconfigure? || c.Remove? || c.Rename?
  }

  /** Flag M_LOCK. */
  predicate LocksName(c: Call) {
    OwnerOnly(c) || c.Create?
  }

  /** auth_isvalid: there must be a password, and its digest must be the stored one. */
  predicate AuthValid(db: Db, user: string, pass: string, digest: string) {
    ValidUsername(user) && pass != []
    && exists r | r in db :: r.t == User && r.key == Text(user) && |r.data| == 2 && r.data[0] == Text(digest)
  }

  function Admit(db: Db, req: Request): Fault {
    if !AuthValid(db, req.user, req.pass, req.digest) then Unauthorized
    else if !Capable(db, req.user, {CapOf(req.call)}) then Denied
    else if LocksName(req.call) && !ValidName(req.call.name) then Invalid
    else if OwnerOnly(req.call) && !IsOwner(db, req.user, req.call.name) then NoVps
    else NoFault
  }

  // ----- the methods

  function Answer(out: Option<Db>, db: Db): Reply {
    if out.Some? then Reply(out.value, NoFault) else Reply(db, DbError)
  }

  function Flag(b: bool): Val {
    Int(if b then 1 else 0)
  }

  function UserRow(uid: int, name: string, hash: string, admin: bool): Row {
    Row(User, uid, Text(name), [Text(hash), Flag(admin)])
  }

  function DoUserSet(db: Db, username: string, pass: string, hash: string, admin: bool): Reply {
    var uid := GetUid(db, username);
    if !ValidUsername(username) then Reply(db, Invalid)
    else if uid == 0 then
      if !ValidPassword(pass) then Reply(db, Invalid)
      else Answer(Exec(db, Insert(UserRow(MaxId(db, User) + 1, username, hash, admin))), db)
    else
      var first := Answer(Exec(db, Update(User, uid, DataCol(1), Flag(admin))), db);
      if first.fault != NoFault || pass == [] then first
      else if !ValidPassword(pass) then Reply(first.db, Invalid)
      else Answer(Exec(first.db, Update(User, uid, DataCol(0), Text(hash))), first.db)
  }

  function UserRemoveScript(uid: int): seq<Stmt> {
    [Delete(XidUidMap, ByKey(Int(uid))), Delete(UserCaps, ById(uid)), Delete(User, ById(uid))]
  }

  function DoUserRemove(db: Db, username: string): Reply {
    var uid := GetUid(db, username);
    if uid == 0 then Reply(db, NoUser) else Answer(Run(db, UserRemoveScript(uid)), db)
  }

  function DoCapsAdd(db: Db, username: string, cap: string): Reply {
    var uid := GetUid(db, username);
    if !ValidCap(cap) then Reply(db, Invalid)
    else if uid == 0 then Reply(db, NoUser)
    else Answer(Exec(db, Replace(Row(UserCaps, uid, Text(cap), []))), db)
  }

  function DoCapsRemove(db: Db, username: string, cap: string): Reply {
    var uid := GetUid(db, username);
    if cap != [] && !ValidCap(cap) then Reply(db, Invalid)
    else if uid == 0 then Reply(db, NoUser)
    else Answer(Exec(db, Delete(UserCaps, if cap != [] then ByBoth(uid, Text(cap)) else ById(uid))), db)
  }

  function DoGroupAdd(db: Db, group: string, name: string): Reply {
    if !ValidGroup(group) then Reply(db, Invalid)
    else if group == "all" then Reply(db, NoFault)
    else
      var known := GetGid(db, group);
      var gid := if known != 0 then known else MaxId(db, Groups) + 1;
      var first := if known != 0 then Reply(db, NoFault)
                   else Answer(Exec(db, Insert(Row(Groups, gid, Text(group), []))), db);
      if first.fault != NoFault || name == [] then first
      else if !ValidName(name) then Reply(first.db, Invalid)
      else if GetXid(first.db, name) == 0 then Reply(first.db, NoVps)
      else Answer(Exec(first.db, Insert(Row(XidGidMap, GetXid(first.db, name), Int(gid), []))), first.db)
  }

  function GroupRemoveScript(gid: int): seq<Stmt> {
    [Delete(XidGidMap, ByKey(Int(gid))), Delete(Groups, ById(gid))]
  }

  function DoGroupRemove(db: Db, group: string, name: string): Reply {
    var gid := GetGid(db, group);
    if !ValidGroup(group) || group == "all" then Reply(db, Invalid)
    else if gid == 0 then Reply(db, NoVg)
    else if name == [] then Answer(Run(db, GroupRemoveScript(gid)), db)
    else if !ValidName(name) then Reply(db, Invalid)
    else if GetXid(db, name) == 0 then Reply(db, NoVps)
    else Answer(Exec(db, Delete(XidGidMap, ByBoth(GetXid(db, name), Int(gid)))), db)
  }

  function DoOwnerAdd(db: Db, name: string, username: string): Reply {
    var uid, xid := GetUid(db, username), GetXid(db, name);
    if uid == 0 then Reply(db, NoUser)
    else if xid == 0 then Reply(db, NoVps)
    else Answer(Exec(db, Replace(Row(XidUidMap, xid, Int(uid), []))), db)
  }

  function DoOwnerRemove(db: Db, name: string, username: string): Reply {
    var uid, xid := GetUid(db, username), GetXid(db, name);
    if xid == 0 then Reply(db, NoVps)
    else if username != [] && uid == 0 then Reply(db, NoUser)
    else Answer(Exec(db, Delete(XidUidMap, if username != [] then ByBoth(xid, Int(uid)) else ById(xid))), db)
  }

  function OrDefault(s: string, default: string): string {
    if s == [] then default else s
  }

  /** Parameter checks and defaults of the per-context writers; None is MEINVAL. */
  function RowOf(s: Setting, x: int): Option<Row> {
    match s
    case MountSet(src, dst, fstype, opts) =>
      if !ValidPath(dst) || (src == [] && fstype == []) then None
      else Some(Row(Mount, x, Text(dst), [Text(OrDefault(src, "none")), Text(OrDefault(fstype, "auto")),
                                          Text(OrDefault(opts, "defaults"))]))
    case LimitSet(limit, soft, max, pagesize) =>
      if limit !in RLIMITS || !ValidLimits(soft, max) || pagesize <= 0 then None
      else Some(Row(VxLimit, x, Text(limit), [Int(ToStored(limit, soft, pagesize)), Int(ToStored(limit, max, pagesize))]))
    case SchedSet(cpuid, numcpus, fillrate, interval, fillrate2, interval2, tokensmin, tokensmax) =>
      if !(-1 <= cpuid < numcpus)
         || !ValidTokenBucket(fillrate, interval, fillrate2, interval2, tokensmin, tokensmax) then None
      else Some(Row(VxSched, x, Int(cpuid), [Int(fillrate), Int(fillrate2), Int(interval), Int(interval2),
                                             Int(tokensmin), Int(tokensmax)]))
    case CpusetSet(cpus, mems, virtualize, valid) =>
      if !valid then None else Some(Row(VxCpuset, x, Null, [Text(cpus), Text(mems), Flag(virtualize)]))
    case PlainSet(t, key, data) =>
      if !PlainTable(t) then None else Some(Row(t, x, key, data))
  }

  function DoConfigure(db: Db, name: string, setting: Setting): Reply {
    var xid := GetXid(db, name);
    if RowOf(setting, xid).None? then Reply(db, Invalid)
    else if xid == 0 then Reply(db, NoVps)
    else Answer(Exec(db, Replace(RowOf(setting, xid).value)), db)
  }

  function DoUnconfigure(db: Db, name: string, t: Table, only: Option<Val>): Reply {
    var xid := GetXid(db, name);
    if !Removable(t) then Reply(db, Invalid)
    else if xid == 0 then Reply(db, NoVps)
    else Answer(Exec(db, Delete(t, if only.Some? then ByBoth(xid, only.value) else ById(xid))), db)
  }

  function DoHelperRestart(db: Db, xid: int): Reply {
    if GetName(db, xid).None? then Reply(db, NoVps)
    else Answer(Exec(db, Replace(Row(Restart, xid, Null, []))), db)
  }

  function DoHelperShutdown(db: Db, xid: int): Reply {
    if GetName(db, xid).None? then Reply(db, NoVps)
    else Answer(Exec(db, Delete(Restart, ById(xid))), db)
  }

  function DoRemove(db: Db, name: string, running: bool): Reply {
    var xid := GetXid(db, name);
    if xid == 0 then Reply(db, NoVps)
    else if running then Reply(db, Fault.Running)
    else Answer(Run(db, DeleteAll(REMOVED, xid)), db)
  }

  function DoRename(db: Db, name: string, newname: string): Reply {
    var xid := GetXid(db, name);
    if !ValidName(newname) then Reply(db, Invalid)
    else if GetXid(db, newname) != 0 then Reply(db, Exists)
    else if xid == 0 then Reply(db, NoVps)
    else Answer(Exec(db, RenameStmt(xid, newname)), db)
  }

  /** vx.create up to the point where file system work starts: NoFault means go on. */
  function CreateGate(db: Db, user: string, name: string, vdir: string, force: bool, world: World): Fault {
    var xid := GetXid(db, name);
    if world.templateFault != NoFault then world.templateFault
    else if xid != 0 && !IsOwner(db, user, name) then NoVps
    else if xid != 0 && !force then Exists
    else if xid != 0 && world.running then Fault.Running
    else if xid == 0 && !IsAdmin(db, user) then Denied
    else
      var v := CreateVdir(db, user, name, vdir, world);
      if !ValidPath(v) || |v| > 31 then Invalid
      else if !force && world.vdirTaken then Exists
      else if xid != 0 && !ValidPath(GetVdir(db, name, world.vbasedir)) then BadConf
      else NoFault
  }

  /** Only administrators choose the directory. */
  function CreateVdir(db: Db, user: string, name: string, vdir: string, world: World): string {
    if vdir == [] || !IsAdmin(db, user) then GetVdir(db, name, world.vbasedir) else vdir
  }

  function CreateXid(db: Db, name: string): int {
    if GetXid(db, name) != 0 then GetXid(db, name) else FreeXid(db)
  }

  /** vx.create from that point on, for context id x and directory v. */
  function Commit(db: Db, gate: Fault, x: int, name: string, v: string, cfg: Config, built: bool): Reply {
    if gate != NoFault then Reply(db, gate)
    else if x == 0 then Reply(db, DbError)
    else if !built then Reply(db, SysError)
    else if !ValidConfig(cfg) then Reply(db, BadConf)
    else Answer(Run(db, CreateScript(x, name, v, cfg)), db)
  }

  function DoCreate(db: Db, user: string, name: string, vdir: string, force: bool, cfg: Config, world: World): Reply {
    Commit(db, CreateGate(db, user, name, vdir, force, world), CreateXid(db, name), name,
           CreateVdir(db, user, name, vdir, world), cfg, world.built)
  }

  /** What remains to be done can still fail; the store stays as it is by then. */
  function Then(out: Reply, after: Fault): Reply {
    if out.fault == NoFault then Reply(out.db, after) else out
  }

  /** Requests about users, groups and owners. */
  function PerformAdmin(db: Db, c: Call): Reply
    requires CapOf(c) == CapAuth
  {
    match c
    case UserSet(username, pass, hash, admin) => DoUserSet(db, username, pass, hash, admin)
    case UserRemove(username) => DoUserRemove(db, username)
    case CapsAdd(username, cap) => DoCapsAdd(db, username, cap)
    case CapsRemove(username, cap) => DoCapsRemove(db, username, cap)
    case GroupAdd(group, name) => DoGroupAdd(db, group, name)
    case GroupRemove(group, name) => DoGroupRemove(db, group, name)
    case OwnerAdd(name, username) => DoOwnerAdd(db, name, username)
    case OwnerRemove(name, username) => DoOwnerRemove(db, name, username)
  }

  /** Requests about contexts that exist. */
  function PerformContext(db: Db, c: Call): Reply
    requires CapOf(c) != CapAuth && !c.Create?
  {
    match c
    case Configure(name, setting) => DoConfigure(db, name, setting)
    case Unconfigure(name, t, only) => DoUnconfigure(db, name, t, only)
    case HelperRestart(xid) => DoHelperRestart(db, xid)
    case HelperShutdown(xid, after) => Then(DoHelperShutdown(db, xid), if Has(db, Restart, xid) then after else NoFault)
    case Remove(name, running, after) => Then(DoRemove(db, name, running), after)
    case Rename(name, newname, after) => Then(DoRename(db, name, newname), after)
  }

  function Perform(db: Db, user: string, c: Call): Reply {
    if c.Create? then DoCreate(db, user, c.name, c.vdir, c.force, c.cfg, c.world)
    else if CapOf(c) == CapAuth then PerformAdmin(db, c)
    else PerformContext(db, c)
  }

  function Handle(db: Db, req: Request): Reply {
    var f := Admit(db, req);
    if f != NoFault then Reply(db, f) else Perform(db, req.user, req.call)
  }

  function Serve(db: Db, reqs: seq<Request>): Db
    decreases |reqs|
  {
    if reqs == [] then db else Serve(Handle(db, reqs[0]).db, reqs[1..])
  }
}
