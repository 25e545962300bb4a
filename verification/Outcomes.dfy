/** When requests succeed, when they run into a database error, and what configuration requests amount
    to: a keyed register per context that the last accepted write determines. */
module Outcomes {
  import opened Wrappers
  import opened Schema
  import opened Store
  import opened Validate
  import opened Lookup
  import opened Auth
  import opened Template
  import opened Invariant
  import opened Alloc
  import opened Requests
  import opened Reachable
  import opened Guarantees
  import Atomicity
  import Rights

  // ----- creation

  lemma NameUnclaimed(db: Db, name: string, x: int)
    requires ContextInv(db) && ValidName(name) && (GetXid(db, name) == 0 || GetXid(db, name) == x)
    ensures Unclaimed(db, XidNameMap, x, name)
  {
    forall r | r in db && r.t == XidNameMap && r.key == Text(name) ensures r.id == x {
      var q :| q in db && q.t == XidNameMap && q.key == Text(name) && q.id == IdOf(db, XidNameMap, name);
      SameKeySameRow(db, XidNameMap, r, q);
    }
  }

  /** Once past the checks, only the template and the directory decide. */
  lemma CommitIff(db: Db, name: string, x: int, v: string, cfg: Config, built: bool)
    requires Inv(db) && ValidName(name) && x == CreateXid(db, name)
    ensures Commit(db, NoFault, x, name, v, cfg, built).fault == NoFault <==>
            x != 0 && built && ValidConfig(cfg) && RepeatsNothing(cfg) && Unclaimed(db, Vdir, x, v)
  {
    CreateOutcome(db, x, name, v, cfg);
    NameUnclaimed(db, name, x);
  }

  /** The checks under the invariant: the stored directory of an existing context is always valid. */
  lemma GateIff(db: Db, user: string, name: string, vdir: string, force: bool, world: World)
    requires Inv(db)
    ensures var v := CreateVdir(db, user, name, vdir, world);
            CreateGate(db, user, name, vdir, force, world) == NoFault <==>
            && world.templateFault == NoFault
            && (if GetXid(db, name) != 0 then IsOwner(db, user, name) && force && !world.running else IsAdmin(db, user))
            && ValidPath(v) && |v| <= 31 && (force || !world.vdirTaken)
  {
    if GetXid(db, name) != 0 {
      XidIff(db, name, GetXid(db, name));
      VdirOfContext(db, name, GetXid(db, name), world.vbasedir);
    }
  }

  /** vx.create succeeds if and only if: the template is there, complete and free of repetitions; an
      existing context is rebuilt by an owner, with force, while it is down, and a new one is made by an
      administrator while an id is left; the directory is an absolute path of at most 31 characters that
      no other context uses; and the file system work succeeds. */
  lemma CreateSucceedsIff(db: Db, user: string, name: string, vdir: string, force: bool, cfg: Config, world: World)
    requires Inv(db) && ValidName(name)
    ensures var v := CreateVdir(db, user, name, vdir, world);
            DoCreate(db, user, name, vdir, force, cfg, world).fault == NoFault <==>
            && world.templateFault == NoFault && ValidConfig(cfg) && RepeatsNothing(cfg)
            && (if GetXid(db, name) != 0 then IsOwner(db, user, name) && force && !world.running
                else IsAdmin(db, user) && exists x :: 2 <= x <= MAX_XID && !Named(db, x))
            && ValidPath(v) && |v| <= 31 && (force || !world.vdirTaken)
            && Unclaimed(db, Vdir, CreateXid(db, name), v)
            && world.built
  {
    var v, x := CreateVdir(db, user, name, vdir, world), CreateXid(db, name);
    GateIff(db, user, name, vdir, force, world);
    CommitIff(db, name, x, v, cfg, world.built);
    FreeXidSpec(db);
  }

  // ----- database errors

  ghost predicate RefusedLate(db: Db, x: int, v: string, cfg: Config, built: bool) {
    x == 0 || (built && ValidConfig(cfg) && !(RepeatsNothing(cfg) && Unclaimed(db, Vdir, x, v)))
  }

  /** vg.add does not tolerate a membership that exists, and vx.create finds out late that there is no id
      left, that a template repeats itself, or that a directory belongs to another context. */
  ghost predicate HitsIndex(db: Db, user: string, c: Call) {
    || (c.GroupAdd? && c.group != "all" && Rights.Member(db, c.group, c.name))
    || (c.Create? && CreateGate(db, user, c.name, c.vdir, c.force, c.world) == NoFault
        && RefusedLate(db, CreateXid(db, c.name), CreateVdir(db, user, c.name, c.vdir, c.world), c.cfg, c.world.built))
  }

  lemma MembershipInserts(db: Db, x: int, gid: int)
    ensures Exec(db, Insert(Row(XidGidMap, x, Int(gid), []))).Some? <==>
            !exists r | r in db :: r.t == XidGidMap && r.id == x && r.key == Int(gid)
  {
    var link := Row(XidGidMap, x, Int(gid), []);
    if !Free(db, link) {
      var q :| q in db && Clash(q, link);
      assert q.t == XidGidMap && q.id == x && q.key == Int(gid);
    }
    if r :| r in db && r.t == XidGidMap && r.id == x && r.key == Int(gid) {
      assert Clash(r, link);
    }
  }

  lemma KnownGroupError(db: Db, group: string, name: string)
    requires ContextInv(db) && ValidGroup(group) && group != "all" && GetGid(db, group) != 0
    ensures DoGroupAdd(db, group, name).fault == DbError <==> Rights.Member(db, group, name)
  {
    MembershipInserts(db, GetXid(db, name), GetGid(db, group));
    assert GetXid(db, []) == 0;
  }

  lemma NewUserInserts(db: Db, username: string, row: Row)
    requires Inv(db) && ValidUsername(username) && GetUid(db, username) == 0
    requires row.t == User && row.id == MaxId(db, User) + 1 && row.key == Text(username)
    ensures Free(db, row)
  {
    assert forall q | q in db && q.t == User :: q.id >= 1 && q.key != Text(username);
  }

  lemma UserSetNoError(db: Db, username: string, pass: string, hash: string, admin: bool)
    requires Inv(db)
    ensures DoUserSet(db, username, pass, hash, admin).fault != DbError
  {
    var uid := GetUid(db, username);
    if uid != 0 {
      UpdateUser(db, uid, 1, Flag(admin));
      UpdateUser(Exec(db, Update(User, uid, DataCol(1), Flag(admin))).value, uid, 0, Text(hash));
    } else if ValidUsername(username) {
      NewUserInserts(db, username, UserRow(MaxId(db, User) + 1, username, hash, admin));
    }
  }

  lemma GroupAddError(db: Db, user: string, c: Call)
    requires Inv(db) && c.GroupAdd?
    ensures DoGroupAdd(db, c.group, c.name).fault == DbError <==> HitsIndex(db, user, c)
  {
    if ValidGroup(c.group) && c.group != "all" {
      if GetGid(db, c.group) != 0 {
        KnownGroupError(db, c.group, c.name);
      } else {
        NewGroupNoError(db, c.group, c.name);
      }
    }
  }

  lemma NewGroupNoError(db: Db, group: string, name: string)
    requires Inv(db) && ValidGroup(group) && group != "all" && GetGid(db, group) == 0
    ensures DoGroupAdd(db, group, name).fault != DbError
  {
    var row := Row(Groups, MaxId(db, Groups) + 1, Text(group), []);
    Atomicity.NewGroupInserts(db, group);
    MaxIdNonNegative(db, Groups);
    var d := Exec(db, Insert(row)).value;
    Atomicity.NewMembershipInserts(db, d, row, GetXid(d, name));
  }

  /** How the work outside the database ends. */
  function Outside(c: Call): Fault {
    match c
    case Create(_, _, _, _, world) => world.templateFault
    case HelperShutdown(_, after) => after
    case Remove(_, _, after) => after
    case Rename(_, _, after) => after
    case _ => NoFault
  }

  lemma GateNoError(db: Db, user: string, name: string, vdir: string, force: bool, world: World)
    requires world.templateFault != DbError
    ensures CreateGate(db, user, name, vdir, force, world) != DbError
  {
  }

  lemma CommitError(db: Db, gate: Fault, name: string, x: int, v: string, cfg: Config, built: bool)
    requires Inv(db) && ValidName(name) && x == CreateXid(db, name) && gate != DbError
    ensures Commit(db, gate, x, name, v, cfg, built).fault == DbError <==> gate == NoFault && RefusedLate(db, x, v, cfg, built)
  {
    CommitIff(db, name, x, v, cfg, built);
  }

  lemma CreateError(db: Db, user: string, c: Call)
    requires Inv(db) && c.Create? && ValidName(c.name) && c.world.templateFault != DbError
    ensures DoCreate(db, user, c.name, c.vdir, c.force, c.cfg, c.world).fault == DbError <==> HitsIndex(db, user, c)
  {
    GateNoError(db, user, c.name, c.vdir, c.force, c.world);
    CommitError(db, CreateGate(db, user, c.name, c.vdir, c.force, c.world), c.name, CreateXid(db, c.name),
                CreateVdir(db, user, c.name, c.vdir, c.world), c.cfg, c.world.built);
  }

  lemma SettingsNoError(db: Db, name: string, setting: Setting, t: Table, only: Option<Val>)
    ensures DoConfigure(db, name, setting).fault != DbError && DoUnconfigure(db, name, t, only).fault != DbError
  {
  }

  lemma ContextCallError(db: Db, c: Call)
    requires Inv(db) && CapOf(c) != CapAuth && !c.Create? && Outside(c) != DbError
    ensures PerformContext(db, c).fault != DbError
  {
    match c
    case Configure(name, setting) => SettingsNoError(db, name, setting, Mount, None);
    case Unconfigure(name, t, only) => SettingsNoError(db, name, PlainSet(t, Null, []), t, only);
    case Remove(name, running, _) => Atomicity.RemoveRuns(db, name);
    case Rename(name, newname, _) => RenameSucceedsIff(db, name, newname);
    case _ =>
  }

  lemma UserRemoveNoError(db: Db, username: string)
    ensures DoUserRemove(db, username).fault != DbError
  {
    UserRemoveRows(db, GetUid(db, username));
  }

  lemma GroupRemoveNoError(db: Db, group: string, name: string)
    ensures DoGroupRemove(db, group, name).fault != DbError
  {
    GroupRemoveRows(db, GetGid(db, group));
  }

  lemma PlainAdminError(db: Db, c: Call)
    requires Inv(db) && CapOf(c) == CapAuth && !c.GroupAdd?
    ensures PerformAdmin(db, c).fault != DbError
  {
    match c
    case UserSet(username, pass, hash, admin) => UserSetNoError(db, username, pass, hash, admin);
    case UserRemove(username) => UserRemoveNoError(db, username);
    case GroupRemove(group, name) => GroupRemoveNoError(db, group, name);
    case _ =>
  }

  lemma HitsNothing(db: Db, user: string, c: Call)
    requires !c.GroupAdd? && !c.Create?
    ensures !HitsIndex(db, user, c)
  {
  }

  lemma AdminCallError(db: Db, user: string, c: Call)
    requires Inv(db) && CapOf(c) == CapAuth
    ensures PerformAdmin(db, c).fault == DbError <==> HitsIndex(db, user, c)
  {
    if c.GroupAdd? {
      GroupAddError(db, user, c);
    } else {
      PlainAdminError(db, c);
      HitsNothing(db, user, c);
    }
  }

  /** In every reachable state, these are all the requests that end in a database error. */
  lemma DbErrorIff(db: Db, user: string, c: Call)
    requires Inv(db) && (c.Create? ==> ValidName(c.name)) && Outside(c) != DbError
    ensures Perform(db, user, c).fault == DbError <==> HitsIndex(db, user, c)
  {
    if c.Create? {
      CreateError(db, user, c);
    } else if CapOf(c) == CapAuth {
      AdminCallError(db, user, c);
    } else {
      ContextCallError(db, c);
    }
  }

  // ----- configuration

  /** The registers of a context: one per table, or one per table and second column. */
  predicate SameRegister(a: Row, b: Row) {
    a.t == b.t && a.id == b.id && (UniquenessOf(a.t) == OnPair ==> a.key == b.key)
  }

  lemma RegisterIffClash(a: Row, b: Row)
    requires ConfigTable(a.t)
    ensures SameRegister(a, b) <==> Clash(a, b)
  {
  }

  /** An accepted setting writes its register and nothing else. */
  lemma ConfigureEffect(db: Db, name: string, setting: Setting)
    requires DoConfigure(db, name, setting).fault == NoFault
    ensures var x := GetXid(db, name);
            && x != 0 && RowOf(setting, x).Some?
            && forall r :: r in DoConfigure(db, name, setting).db <==>
                 r == RowOf(setting, x).value || (r in db && !SameRegister(RowOf(setting, x).value, r))
  {
    var x := GetXid(db, name);
    RowOfTable(setting, x);
    var row := RowOf(setting, x).value;
    forall r ensures Clash(r, row) <==> SameRegister(row, r) {
      RegisterIffClash(row, r);
      ClashSymmetric(row, r);
    }
  }

  lemma ConfigureKeepsNames(db: Db, name: string, setting: Setting, n: string)
    requires DoConfigure(db, name, setting).fault == NoFault
    ensures GetXid(DoConfigure(db, name, setting).db, n) == GetXid(db, n)
  {
    var x := GetXid(db, name);
    RowOfTable(setting, x);
    ConfigTableKind(RowOf(setting, x).value.t);
    ExecFrame(db, Replace(RowOf(setting, x).value));
    IdOfSame(db, DoConfigure(db, name, setting).db, XidNameMap, n);
  }

  /** The last write wins: a setting for the same register makes an earlier one irrelevant. */
  lemma LastWriteWins(db: Db, name: string, first: Setting, second: Setting)
    requires DoConfigure(db, name, first).fault == NoFault && DoConfigure(db, name, second).fault == NoFault
    requires SameRegister(RowOf(first, GetXid(db, name)).value, RowOf(second, GetXid(db, name)).value)
    ensures DoConfigure(DoConfigure(db, name, first).db, name, second) == DoConfigure(db, name, second)
  {
    var d := DoConfigure(db, name, first).db;
    ConfigureKeepsNames(db, name, first, name);
    ConfigureEffect(db, name, first);
    ConfigureEffect(db, name, second);
    ConfigureEffect(d, name, second);
    assert DoConfigure(d, name, second).db == DoConfigure(db, name, second).db;
  }

  /** Settings for different registers, of one context or of two, do not depend on their order. */
  lemma SettingsCommute(db: Db, m: string, first: Setting, n: string, second: Setting)
    requires DoConfigure(db, m, first).fault == NoFault && DoConfigure(db, n, second).fault == NoFault
    requires !SameRegister(RowOf(first, GetXid(db, m)).value, RowOf(second, GetXid(db, n)).value)
    ensures DoConfigure(DoConfigure(db, m, first).db, n, second) == DoConfigure(DoConfigure(db, n, second).db, m, first)
    ensures DoConfigure(DoConfigure(db, m, first).db, n, second).fault == NoFault
  {
    var d, e := DoConfigure(db, m, first).db, DoConfigure(db, n, second).db;
    ConfigureKeepsNames(db, m, first, n);
    ConfigureKeepsNames(db, n, second, m);
    ConfigureEffect(db, m, first);
    ConfigureEffect(db, n, second);
    ConfigureEffect(d, n, second);
    ConfigureEffect(e, m, first);
    assert DoConfigure(d, n, second).db == DoConfigure(e, m, first).db;
  }

  /** Removing a setting restores the store exactly, if and only if its register was empty before and its
      table has a removing request at all. */
  lemma UnsetUndoesSetIff(db: Db, name: string, setting: Setting)
    requires DoConfigure(db, name, setting).fault == NoFault
    ensures var row := RowOf(setting, GetXid(db, name)).value;
            DoUnconfigure(DoConfigure(db, name, setting).db, name, row.t, Some(row.key)) == Reply(db, NoFault)
            <==> row.t != Init && forall r | r in db :: !SameRegister(row, r)
  {
    var x := GetXid(db, name);
    var row := RowOf(setting, x).value;
    var d := DoConfigure(db, name, setting).db;
    ConfigureEffect(db, name, setting);
    ConfigureKeepsNames(db, name, setting, name);
    RowOfTable(setting, x);
    UnsetRows(d, name, row.t, row.key);
    RegisterRestored(db, d, row);
  }

  lemma UnsetRows(d: Db, name: string, t: Table, key: Val)
    requires ConfigTable(t) && GetXid(d, name) != 0
    ensures DoUnconfigure(d, name, t, Some(key)) == if t == Init then Reply(d, Invalid)
              else Reply(Exec(d, Delete(t, ByBoth(GetXid(d, name), key))).value, NoFault)
  {
  }

  /** Writing a register and deleting its row restores the store iff the register was empty. */
  lemma RegisterRestored(db: Db, d: Db, row: Row)
    requires forall r :: r in d <==> r == row || (r in db && !SameRegister(row, r))
    ensures Exec(d, Delete(row.t, ByBoth(row.id, row.key))).value == db <==> forall r | r in db :: !SameRegister(row, r)
  {
    var back := Exec(d, Delete(row.t, ByBoth(row.id, row.key))).value;
    if forall r | r in db :: !SameRegister(row, r) {
      forall r ensures r in back <==> r in db {
      }
      assert back == db;
    } else {
      var r :| r in db && SameRegister(row, r);
      assert r !in back;
    }
  }
}
