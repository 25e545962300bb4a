/** Which fault a request answers with, fault by fault: the methods check their parameters, look up users,
    groups and contexts and write, in an order that differs from method to method and decides which of several
    things that are wrong the caller is told about. */
module Faults {
  import opened Wrappers
  import opened Schema
  import opened Store
  import opened Validate
  import opened Lookup
  import opened Auth
  import opened Template
  import opened Invariant
  import opened Requests
  import opened Reachable
  import opened Guarantees
  import opened Outcomes
  import Atomicity

  // ----- parameters

  /** 2^64-1 and 2^64-2 stand for "infinity" and "keep". */
  predicate LimitInRange(v: int) {
    0 <= v < 0xffff_ffff_ffff_fffe
  }

  predicate BadSetting(s: Setting) {
    match s
    case MountSet(src, dst, fstype, _) => dst == "" || dst[0] != '/' || (src == "" && fstype == "")
    case LimitSet(limit, soft, max, pagesize) => limit !in RLIMITS || !LimitInRange(soft) || !LimitInRange(max) || pagesize <= 0
    case SchedSet(cpuid, numcpus, fillrate, interval, fillrate2, interval2, tokensmin, tokensmax) =>
      cpuid < -1 || cpuid >= numcpus || !ValidTokenBucket(fillrate, interval, fillrate2, interval2, tokensmin, tokensmax)
    case CpusetSet(_, _, _, valid) => !valid
    case PlainSet(t, _, _) =>
      t !in {DxLimit, Init, NxAddr, NxBroadcast, VxBcaps, VxCcaps, VxFlags, VxUname}
  }

  /** Names of users and groups are letters and digits, at least one. */
  predicate BadWord(s: string) {
    s == "" || exists c | c in s :: !('a' <= c <= 'z' || 'A' <= c <= 'Z' || '0' <= c <= '9')
  }

  /** Names of contexts are 3 to 32 letters, digits, dashes and underscores. */
  predicate BadName(s: string) {
    |s| < 3 || |s| > 32
    || exists c | c in s :: !('a' <= c <= 'z' || 'A' <= c <= 'Z' || '0' <= c <= '9' || c == '-' || c == '_')
  }

  predicate BadParameters(db: Db, c: Call) {
    match c
    case UserSet(username, pass, _, _) =>
      BadWord(username) || ((pass != "" || GetUid(db, username) == 0) && |pass| < 8)
    case CapsAdd(_, cap) => !ValidCap(cap)
    case CapsRemove(_, cap) => cap != "" && !ValidCap(cap)
    case GroupAdd(group, name) => BadWord(group) || (group != "all" && name != "" && BadName(name))
    case GroupRemove(group, name) =>
      BadWord(group) || group == "all" || (GetGid(db, group) != 0 && name != "" && BadName(name))
    case Configure(_, setting) => BadSetting(setting)
    case Unconfigure(_, t, _) =>
      t !in {DxLimit, Mount, NxAddr, NxBroadcast, VxBcaps, VxCcaps, VxCpuset, VxFlags, VxLimit, VxSched, VxUname}
    case Rename(_, newname, _) => BadName(newname)
    case _ => false
  }

  // ----- what is missing or in the way

  predicate MissesUser(db: Db, c: Call) {
    match c
    case UserRemove(username) => GetUid(db, username) == 0
    case CapsAdd(username, cap) => ValidCap(cap) && GetUid(db, username) == 0
    case CapsRemove(username, cap) => (cap == "" || ValidCap(cap)) && GetUid(db, username) == 0
    case OwnerAdd(_, username) => GetUid(db, username) == 0
    case OwnerRemove(name, username) => GetXid(db, name) != 0 && username != "" && GetUid(db, username) == 0
    case _ => false
  }

  /** vxdb.owner.add asks for the user first, vxdb.owner.remove for the context. */
  predicate MissesContext(db: Db, c: Call) {
    match c
    case GroupAdd(group, name) => ValidGroup(group) && group != "all" && ValidName(name) && GetXid(db, name) == 0
    case GroupRemove(group, name) =>
      ValidGroup(group) && group != "all" && GetGid(db, group) != 0 && ValidName(name) && GetXid(db, name) == 0
    case OwnerAdd(name, username) => GetUid(db, username) != 0 && GetXid(db, name) == 0
    case OwnerRemove(name, _) => GetXid(db, name) == 0
    case Configure(name, setting) => !BadSetting(setting) && GetXid(db, name) == 0
    case Unconfigure(name, _, _) => !BadParameters(db, c) && GetXid(db, name) == 0
    case HelperRestart(xid) => GetName(db, xid).None?
    case HelperShutdown(xid, _) => GetName(db, xid).None?
    case Remove(name, _, _) => GetXid(db, name) == 0
    case Rename(name, newname, _) => ValidName(newname) && GetXid(db, newname) == 0 && GetXid(db, name) == 0
    case _ => false
  }

  /** The condition under which a request other than vx.create answers with this fault. */
  ghost predicate Refused(db: Db, user: string, c: Call, f: Fault) {
    match f
    case Invalid => BadParameters(db, c)
    case NoUser => MissesUser(db, c)
    case NoVps => MissesContext(db, c)
    case NoVg => c.GroupRemove? && ValidGroup(c.group) && c.group != "all" && GetGid(db, c.group) == 0
    case Exists => c.Rename? && ValidName(c.newname) && GetXid(db, c.newname) != 0
    case Running => c.Remove? && GetXid(db, c.name) != 0 && c.running
    case DbError => HitsIndex(db, user, c)
    case _ => false
  }

  lemma BadWordIs(s: string)
    ensures BadWord(s) <==> !ValidUsername(s)
    ensures BadWord(s) <==> !ValidGroup(s)
  {
  }

  lemma BadNameIs(s: string)
    ensures BadName(s) <==> !ValidName(s)
  {
  }

  lemma UserSetFault(db: Db, user: string, c: Call, f: Fault)
    requires Inv(db) && c.UserSet? && f != NoFault
    ensures DoUserSet(db, c.username, c.pass, c.hash, c.admin).fault == f <==> Refused(db, user, c, f)
  {
    BadWordIs(c.username);
    UserSetNoError(db, c.username, c.pass, c.hash, c.admin);
  }

  lemma UserRemoveFault(db: Db, user: string, c: Call, f: Fault)
    requires Inv(db) && c.UserRemove? && f != NoFault
    ensures DoUserRemove(db, c.username).fault == f <==> Refused(db, user, c, f)
  {
    UserRemoveNoError(db, c.username);
  }

  lemma CapsAddFault(db: Db, user: string, c: Call, f: Fault)
    requires c.CapsAdd? && f != NoFault
    ensures DoCapsAdd(db, c.username, c.cap).fault == f <==> Refused(db, user, c, f)
  {
  }

  lemma CapsRemoveFault(db: Db, user: string, c: Call, f: Fault)
    requires c.CapsRemove? && f != NoFault
    ensures DoCapsRemove(db, c.username, c.cap).fault == f <==> Refused(db, user, c, f)
  {
  }

  lemma OwnerAddFault(db: Db, user: string, c: Call, f: Fault)
    requires c.OwnerAdd? && f != NoFault
    ensures DoOwnerAdd(db, c.name, c.username).fault == f <==> Refused(db, user, c, f)
  {
  }

  lemma OwnerRemoveFault(db: Db, user: string, c: Call, f: Fault)
    requires c.OwnerRemove? && f != NoFault
    ensures DoOwnerRemove(db, c.name, c.username).fault == f <==> Refused(db, user, c, f)
  {
  }

  lemma KnownGroupFault(db: Db, user: string, c: Call, f: Fault)
    requires Inv(db) && c.GroupAdd? && ValidGroup(c.group) && c.group != "all" && GetGid(db, c.group) != 0
    requires f != NoFault && f != DbError
    ensures DoGroupAdd(db, c.group, c.name).fault == f <==> Refused(db, user, c, f)
  {
    BadWordIs(c.group);
    BadNameIs(c.name);
  }

  lemma NewGroupFault(db: Db, user: string, c: Call, f: Fault)
    requires Inv(db) && c.GroupAdd? && ValidGroup(c.group) && c.group != "all" && GetGid(db, c.group) == 0
    requires f != NoFault && f != DbError
    ensures DoGroupAdd(db, c.group, c.name).fault == f <==> Refused(db, user, c, f)
  {
    BadWordIs(c.group);
    BadNameIs(c.name);
    NewGroupAnswers(db, c.group, c.name);
  }

  lemma NewGroupAnswers(db: Db, group: string, name: string)
    requires Inv(db) && ValidGroup(group) && group != "all" && GetGid(db, group) == 0
    ensures DoGroupAdd(db, group, name).fault ==
            if name == [] || GetXid(db, name) != 0 then NoFault else if ValidName(name) then NoVps else Invalid
  {
    Atomicity.NewGroup(db, group, name);
    NewGroupNoError(db, group, name);
    NewGroupChecks(db, group, name);
  }

  lemma NewGroupChecks(db: Db, group: string, name: string)
    requires ValidGroup(group) && group != "all" && GetGid(db, group) == 0
    ensures DoGroupAdd(db, group, name).fault in {NoFault, DbError, if ValidName(name) then NoVps else Invalid}
  {
  }

  lemma GroupAddFault(db: Db, user: string, c: Call, f: Fault)
    requires Inv(db) && c.GroupAdd? && f != NoFault
    ensures DoGroupAdd(db, c.group, c.name).fault == f <==> Refused(db, user, c, f)
  {
    BadWordIs(c.group);
    if f == DbError {
      GroupAddError(db, user, c);
    } else if ValidGroup(c.group) && c.group != "all" {
      if GetGid(db, c.group) != 0 {
        KnownGroupFault(db, user, c, f);
      } else {
        NewGroupFault(db, user, c, f);
      }
    }
  }

  lemma GroupRemoveFault(db: Db, user: string, c: Call, f: Fault)
    requires Inv(db) && c.GroupRemove? && f != NoFault
    ensures DoGroupRemove(db, c.group, c.name).fault == f <==> Refused(db, user, c, f)
  {
    BadWordIs(c.group);
    BadNameIs(c.name);
    GroupRemoveNoError(db, c.group, c.name);
  }

  lemma SettingFault(s: Setting, x: int)
    ensures RowOf(s, x).None? <==> BadSetting(s)
  {
  }

  lemma ConfigureFault(db: Db, user: string, c: Call, f: Fault)
    requires c.Configure? && f != NoFault
    ensures DoConfigure(db, c.name, c.setting).fault == f <==> Refused(db, user, c, f)
  {
    SettingFault(c.setting, GetXid(db, c.name));
  }

  lemma UnconfigureFault(db: Db, user: string, c: Call, f: Fault)
    requires c.Unconfigure? && f != NoFault
    ensures DoUnconfigure(db, c.name, c.t, c.only).fault == f <==> Refused(db, user, c, f)
  {
  }

  lemma RemoveFault(db: Db, user: string, c: Call, f: Fault)
    requires c.Remove? && c.after == NoFault && f != NoFault
    ensures Then(DoRemove(db, c.name, c.running), c.after).fault == f <==> Refused(db, user, c, f)
  {
    Atomicity.RemoveRuns(db, c.name);
  }

  lemma RenameFault(db: Db, user: string, c: Call, f: Fault)
    requires Inv(db) && c.Rename? && c.after == NoFault && f != NoFault
    ensures Then(DoRename(db, c.name, c.newname), c.after).fault == f <==> Refused(db, user, c, f)
  {
    BadNameIs(c.newname);
    RenameSucceedsIff(db, c.name, c.newname);
  }

  lemma HelperFault(db: Db, user: string, c: Call, f: Fault)
    requires (c.HelperRestart? || (c.HelperShutdown? && c.after == NoFault)) && f != NoFault
    ensures PerformContext(db, c).fault == f <==> Refused(db, user, c, f)
  {
  }

  lemma AdminFault(db: Db, user: string, c: Call, f: Fault)
    requires Inv(db) && CapOf(c) == CapAuth && f != NoFault
    ensures PerformAdmin(db, c).fault == f <==> Refused(db, user, c, f)
  {
    match c
    case UserSet(_, _, _, _) => UserSetFault(db, user, c, f);
    case UserRemove(_) => UserRemoveFault(db, user, c, f);
    case CapsAdd(_, _) => CapsAddFault(db, user, c, f);
    case CapsRemove(_, _) => CapsRemoveFault(db, user, c, f);
    case GroupAdd(_, _) => GroupAddFault(db, user, c, f);
    case GroupRemove(_, _) => GroupRemoveFault(db, user, c, f);
    case OwnerAdd(_, _) => OwnerAddFault(db, user, c, f);
    case OwnerRemove(_, _) => OwnerRemoveFault(db, user, c, f);
  }

  lemma ContextFault(db: Db, user: string, c: Call, f: Fault)
    requires Inv(db) && CapOf(c) != CapAuth && !c.Create? && Outside(c) == NoFault && f != NoFault
    ensures PerformContext(db, c).fault == f <==> Refused(db, user, c, f)
  {
    match c
    case Configure(_, _) => ConfigureFault(db, user, c, f);
    case Unconfigure(_, _, _) => UnconfigureFault(db, user, c, f);
    case HelperRestart(_) => HelperFault(db, user, c, f);
    case HelperShutdown(_, _) => HelperFault(db, user, c, f);
    case Remove(_, _, _) => RemoveFault(db, user, c, f);
    case Rename(_, _, _) => RenameFault(db, user, c, f);
  }

  /** In every reachable state, a request other than vx.create whose work outside the database succeeds answers
      with a fault exactly under its condition; it succeeds if and only if none of the conditions holds. */
  lemma FaultIff(db: Db, user: string, c: Call, f: Fault)
    requires Inv(db) && !c.Create? && Outside(c) == NoFault && f != NoFault
    ensures Perform(db, user, c).fault == f <==> Refused(db, user, c, f)
  {
    if CapOf(c) == CapAuth {
      AdminFault(db, user, c, f);
    } else {
      ContextFault(db, user, c, f);
    }
  }

  // ----- vx.create

  predicate MayTouch(db: Db, user: string, name: string) {
    if GetXid(db, name) != 0 then IsOwner(db, user, name) else IsAdmin(db, user)
  }

  /** The caller may create or rebuild this context, which is not running. */
  predicate Goes(db: Db, user: string, c: Call)
    requires c.Create?
  {
    MayTouch(db, user, c.name) && (GetXid(db, c.name) != 0 ==> c.force && !c.world.running)
  }

  predicate BadVdir(v: string) {
    v == "" || v[0] != '/' || |v| > 31
  }

  /** The checks before any file system work are passed. */
  predicate Placed(db: Db, user: string, c: Call)
    requires c.Create?
  {
    Goes(db, user, c) && !BadVdir(CreateVdir(db, user, c.name, c.vdir, c.world)) && (c.world.vdirTaken ==> c.force)
  }

  /** What goes wrong after that, in this order: no id is left, the file system work fails, the template is
      invalid, it repeats itself or the directory belongs to another context. */
  ghost predicate FailsLate(db: Db, x: int, v: string, cfg: Config, built: bool, f: Fault) {
    match f
    case SysError => x != 0 && !built
    case BadConf => x != 0 && built && !ValidConfig(cfg)
    case DbError => x == 0 || (built && ValidConfig(cfg) && !(RepeatsNothing(cfg) && Unclaimed(db, Vdir, x, v)))
    case _ => false
  }

  /** The condition under which vx.create answers with this fault. */
  ghost predicate CreateRefused(db: Db, user: string, c: Call, f: Fault)
    requires c.Create?
  {
    var known, mayTouch := GetXid(db, c.name) != 0, MayTouch(db, user, c.name);
    var v := CreateVdir(db, user, c.name, c.vdir, c.world);
    match f
    case NoVps => known && !mayTouch
    case Denied => !known && !mayTouch
    case Exists => !c.force && ((known && mayTouch) || (Goes(db, user, c) && !BadVdir(v) && c.world.vdirTaken))
    case Running => known && mayTouch && c.force && c.world.running
    case Invalid => Goes(db, user, c) && BadVdir(v)
    case _ => Placed(db, user, c) && FailsLate(db, CreateXid(db, c.name), v, c.cfg, c.world.built, f)
  }

  lemma TouchFault(db: Db, user: string, c: Call, f: Fault)
    requires c.Create? && c.world.templateFault == NoFault && f in {NoVps, Denied, Fault.Running}
    ensures CreateGate(db, user, c.name, c.vdir, c.force, c.world) == f <==> CreateRefused(db, user, c, f)
  {
  }

  lemma ExistsFault(db: Db, user: string, c: Call)
    requires c.Create? && c.world.templateFault == NoFault
    ensures CreateGate(db, user, c.name, c.vdir, c.force, c.world) == Exists <==> CreateRefused(db, user, c, Exists)
  {
  }

  lemma InvalidFault(db: Db, user: string, c: Call)
    requires c.Create? && c.world.templateFault == NoFault
    ensures CreateGate(db, user, c.name, c.vdir, c.force, c.world) == Invalid <==> CreateRefused(db, user, c, Invalid)
  {
  }

  lemma GateFault(db: Db, user: string, c: Call, f: Fault)
    requires c.Create? && c.world.templateFault == NoFault && f in GATE_FAULTS
    ensures CreateGate(db, user, c.name, c.vdir, c.force, c.world) == f <==> CreateRefused(db, user, c, f)
  {
    if f == Exists {
      ExistsFault(db, user, c);
    } else if f == Invalid {
      InvalidFault(db, user, c);
    } else {
      TouchFault(db, user, c, f);
    }
  }

  lemma GatePlaced(db: Db, user: string, c: Call)
    requires Inv(db) && c.Create? && c.world.templateFault == NoFault
    ensures CreateGate(db, user, c.name, c.vdir, c.force, c.world) == NoFault <==> Placed(db, user, c)
  {
    GateIff(db, user, c.name, c.vdir, c.force, c.world);
  }

  lemma CommitFault(db: Db, name: string, x: int, v: string, cfg: Config, built: bool, f: Fault)
    requires Inv(db) && ValidName(name) && x == CreateXid(db, name) && f != NoFault
    ensures Commit(db, NoFault, x, name, v, cfg, built).fault == f <==> FailsLate(db, x, v, cfg, built, f)
  {
    CommitIff(db, name, x, v, cfg, built);
  }

  lemma CommitStops(db: Db, gate: Fault, x: int, name: string, v: string, cfg: Config, built: bool)
    requires gate != NoFault
    ensures Commit(db, gate, x, name, v, cfg, built).fault == gate
  {
  }

  lemma DoCreateFault(db: Db, user: string, c: Call, f: Fault)
    requires Inv(db) && c.Create? && ValidName(c.name) && c.world.templateFault == NoFault && f != NoFault
    ensures DoCreate(db, user, c.name, c.vdir, c.force, c.cfg, c.world).fault == f <==> CreateRefused(db, user, c, f)
  {
    var gate := CreateGate(db, user, c.name, c.vdir, c.force, c.world);
    var x, v := CreateXid(db, c.name), CreateVdir(db, user, c.name, c.vdir, c.world);
    GateAnswers(db, user, c);
    GatePlaced(db, user, c);
    if gate == NoFault {
      CommitFault(db, c.name, x, v, c.cfg, c.world.built, f);
    } else {
      CommitStops(db, gate, x, c.name, v, c.cfg, c.world.built);
    }
    if f in GATE_FAULTS {
      GateFault(db, user, c, f);
    }
  }

  /** vx.create, given that the template can be read, answers with a fault exactly under its condition. */
  lemma CreateFaultIff(db: Db, user: string, c: Call, f: Fault)
    requires Inv(db) && c.Create? && ValidName(c.name) && c.world.templateFault == NoFault && f != NoFault
    ensures Perform(db, user, c).fault == f <==> CreateRefused(db, user, c, f)
  {
    DoCreateFault(db, user, c, f);
  }

  const GATE_FAULTS: set<Fault> := {NoVps, Denied, Exists, Fault.Running, Invalid}

  lemma GateAnswers(db: Db, user: string, c: Call)
    requires Inv(db) && c.Create? && c.world.templateFault == NoFault
    ensures var gate := CreateGate(db, user, c.name, c.vdir, c.force, c.world);
            gate == NoFault || gate in GATE_FAULTS
  {
    if GetXid(db, c.name) != 0 {
      XidIff(db, c.name, GetXid(db, c.name));
      VdirOfContext(db, c.name, GetXid(db, c.name), c.world.vbasedir);
    }
  }
}
