/** The interleaved model and the sequential one describe the same requests: what a locked write does to
    the store is what the whole request does there, if and only if the request would still be admitted. */
module Refinement {
  import opened Wrappers
  import opened Schema
  import opened Store
  import opened Validate
  import opened Lookup
  import opened Auth
  import opened Template
  import opened Invariant
  import opened Alloc
  import L = Locking
  import R = Requests
  import Race
  import Reachable

  lemma RemoveAgrees(db: Db, name: string)
    ensures L.Atomic(db, name, L.Remove) == R.DoRemove(db, name, false).db
  {
  }

  lemma RenameAgrees(db: Db, name: string, newname: string)
    requires ValidName(newname)
    ensures L.Atomic(db, name, L.Rename(newname)) == R.DoRename(db, name, newname).db
  {
  }

  /** Every accepted setting is a `Put` on a table that needs the lock. */
  lemma ConfigureAgrees(db: Db, name: string, setting: R.Setting)
    requires R.RowOf(setting, GetXid(db, name)).Some?
    ensures var row := R.RowOf(setting, GetXid(db, name)).value;
            && L.ValidJob(L.Put(row.t, row.key, row.data))
            && L.Atomic(db, name, L.Put(row.t, row.key, row.data)) == R.DoConfigure(db, name, setting).db
  {
    var x := GetXid(db, name);
    var row := R.RowOf(setting, x).value;
    assert row == Row(row.t, x, row.key, row.data);
  }

  lemma UnconfigureAgrees(db: Db, name: string, t: Table, only: Option<Val>)
    requires R.Removable(t)
    ensures L.ValidJob(L.Unset(t, only))
    ensures L.Atomic(db, name, L.Unset(t, only)) == R.DoUnconfigure(db, name, t, only).db
  {
  }

  lemma RebuildCommits(db: Db, user: string, name: string, vdir: string, force: bool, cfg: Config, world: R.World)
    requires GetXid(db, name) != 0 && world.built && ValidConfig(cfg)
    requires R.CreateGate(db, user, name, vdir, force, world) == R.NoFault
    ensures R.DoCreate(db, user, name, vdir, force, cfg, world) ==
            R.Answer(Run(db, CreateScript(GetXid(db, name), name, R.CreateVdir(db, user, name, vdir, world), cfg)), db)
  {
  }

  lemma GateVdirValid(db: Db, user: string, name: string, vdir: string, force: bool, world: R.World)
    requires R.CreateGate(db, user, name, vdir, force, world) == R.NoFault
    ensures ValidPath(R.CreateVdir(db, user, name, vdir, world))
  {
  }

  lemma RebuildAtomic(db: Db, name: string, v: string, cfg: Config)
    requires GetXid(db, name) != 0
    ensures L.Atomic(db, name, L.Create(v, cfg)) == R.Answer(Run(db, CreateScript(GetXid(db, name), name, v, cfg)), db).db
  {
  }

  /** Rebuilding an existing context. */
  lemma RebuildAgrees(db: Db, user: string, name: string, vdir: string, force: bool, cfg: Config, world: R.World)
    requires GetXid(db, name) != 0 && world.built && ValidConfig(cfg)
    requires R.CreateGate(db, user, name, vdir, force, world) == R.NoFault
    ensures var v := R.CreateVdir(db, user, name, vdir, world);
            && L.ValidJob(L.Create(v, cfg))
            && L.Atomic(db, name, L.Create(v, cfg)) == R.DoCreate(db, user, name, vdir, force, cfg, world).db
  {
    var v := R.CreateVdir(db, user, name, vdir, world);
    GateVdirValid(db, user, name, vdir, force, world);
    RebuildCommits(db, user, name, vdir, force, cfg, world);
    RebuildAtomic(db, name, v, cfg);
  }

  /** Committing a fresh creation under id x. */
  lemma FreshAgrees(db: Db, name: string, vdir: string, cfg: Config, x: int)
    requires x != 0 && ValidConfig(cfg)
    ensures L.Perform(db, name, L.Create(vdir, cfg), x) == R.Commit(db, R.NoFault, x, name, vdir, cfg, true).db
  {
  }

  /** `job` is the locked part of call c on a context that exists. */
  ghost predicate CarriesContext(db: Db, c: R.Call, job: L.Job) {
    match c
    case Configure(name, setting) =>
      var row := R.RowOf(setting, GetXid(db, name));
      row.Some? && job == L.Put(row.value.t, row.value.key, row.value.data)
    case Unconfigure(name, t, only) => R.Removable(t) && job == L.Unset(t, only)
    case Remove(name, running, _) => !running && job == L.Remove
    case Rename(name, newname, _) => ValidName(newname) && job == L.Rename(newname)
    case _ => false
  }

  /** `job` is the locked part of vx.create, as far as its checks let it come. */
  ghost predicate CarriesCreate(db: Db, user: string, c: R.Call, job: L.Job)
    requires c.Create?
  {
    && c.world.built && ValidConfig(c.cfg) && R.CreateGate(db, user, c.name, c.vdir, c.force, c.world) == R.NoFault
    && job == L.Create(R.CreateVdir(db, user, c.name, c.vdir, c.world), c.cfg)
  }

  /** `job` is the locked part of request `req`. */
  ghost predicate Carries(db: Db, req: R.Request, job: L.Job) {
    if req.call.Create? then CarriesCreate(db, req.user, req.call, job) else CarriesContext(db, req.call, job)
  }

  lemma RemoveJob(db: Db, name: string, running: bool, after: R.Fault)
    requires !running
    ensures L.Atomic(db, name, L.Remove) == R.PerformContext(db, R.Remove(name, running, after)).db
  {
    RemoveAgrees(db, name);
  }

  lemma RenameJob(db: Db, name: string, newname: string, after: R.Fault)
    requires ValidName(newname)
    ensures L.Atomic(db, name, L.Rename(newname)) == R.PerformContext(db, R.Rename(name, newname, after)).db
  {
    RenameAgrees(db, name, newname);
  }

  lemma ContextJobAgrees(db: Db, c: R.Call, job: L.Job)
    requires CarriesContext(db, c, job)
    ensures L.Atomic(db, c.name, job) == R.PerformContext(db, c).db
  {
    match c
    case Configure(name, setting) => ConfigureAgrees(db, name, setting);
    case Unconfigure(name, t, only) => UnconfigureAgrees(db, name, t, only);
    case Remove(name, running, after) => RemoveJob(db, name, running, after);
    case Rename(name, newname, after) => RenameJob(db, name, newname, after);
  }

  lemma CreateJobAgrees(db: Db, user: string, c: R.Call, job: L.Job)
    requires c.Create? && CarriesCreate(db, user, c, job) && GetXid(db, c.name) != 0
    ensures L.Atomic(db, c.name, job) == R.DoCreate(db, user, c.name, c.vdir, c.force, c.cfg, c.world).db
  {
    RebuildAgrees(db, user, c.name, c.vdir, c.force, c.cfg, c.world);
  }

  lemma HandledContext(db: Db, req: R.Request)
    requires R.LocksName(req.call) && !req.call.Create?
    ensures R.CapOf(req.call) != CapAuth
    ensures R.Handle(db, req).db == if R.Admit(db, req) != R.NoFault then db else R.PerformContext(db, req.call).db
  {
    Reachable.LockedCap(req.call);
    Reachable.PerformsContext(db, req.user, req.call);
  }

  lemma ContextIff(db: Db, req: R.Request, job: L.Job, d: Db)
    requires R.LocksName(req.call) && !req.call.Create? && Carries(db, req, job) && d == L.Atomic(db, req.call.name, job)
    ensures d == R.Handle(db, req).db <==> R.Admit(db, req) == R.NoFault || d == db
  {
    ContextJobAgrees(db, req.call, job);
    HandledContext(db, req);
  }

  lemma HandledRebuild(db: Db, req: R.Request)
    requires req.call.Create?
    ensures var c := req.call;
            R.Handle(db, req).db == if R.Admit(db, req) != R.NoFault then db
              else R.DoCreate(db, req.user, c.name, c.vdir, c.force, c.cfg, c.world).db
  {
  }

  lemma RebuildIff(db: Db, req: R.Request, job: L.Job, d: Db)
    requires req.call.Create? && Carries(db, req, job) && GetXid(db, req.call.name) != 0 && d == L.Atomic(db, req.call.name, job)
    ensures d == R.Handle(db, req).db <==> R.Admit(db, req) == R.NoFault || d == db
  {
    CreateJobAgrees(db, req.user, req.call, job);
    HandledRebuild(db, req);
  }

  /** The write of a lock holder that resolved its name is the whole request at that moment, owner check
      included, if and only if the request would still be admitted then or the write changes nothing. */
  lemma LockedWriteIff(states: seq<L.State>, acts: seq<L.Action>, k: nat, req: R.Request)
    requires L.IsRun(states, acts) && k < |acts| && acts[k].Write? && L.NoneCollides(states, acts, k + 1)
    requires acts[k].p in states[k].procs
    requires var me := states[k].procs[acts[k].p];
             me.phase.Resolved? && R.LocksName(req.call) && req.call.name == me.name && Carries(states[k].db, req, me.job)
    ensures states[k + 1].db == R.Handle(states[k].db, req).db <==>
            R.Admit(states[k].db, req) == R.NoFault || states[k + 1].db == states[k].db
  {
    var me := states[k].procs[acts[k].p];
    L.WritesAreAtomic(states, acts, k);
    L.RunKeeps(states, acts, k);
    NameRoundTrip(states[k].db, me.name, me.phase.xid);
    if req.call.Create? {
      RebuildIff(states[k].db, req, me.job, states[k + 1].db);
    } else {
      ContextIff(states[k].db, req, me.job, states[k + 1].db);
    }
  }

  /** A commit that changes the store shows its id. */
  lemma CommitShows(db: Db, x: int, name: string, v: string, cfg: Config, d: Db)
    requires d == R.Commit(db, R.NoFault, x, name, v, cfg, true).db && d != db
    ensures Bound(d, name, x)
  {
    CreateNames(db, x, name, v, cfg, d);
  }

  /** Two commits for the same name have the same effect iff they use the same id or have none. */
  lemma SameCommitIff(db: Db, x: int, y: int, name: string, v: string, cfg: Config, d: Db, e: Db)
    requires d == R.Commit(db, R.NoFault, x, name, v, cfg, true).db && e == R.Commit(db, R.NoFault, y, name, v, cfg, true).db
    ensures d == e <==> x == y || (d == db && e == db)
  {
    if d == e != db {
      CommitShows(db, x, name, v, cfg, d);
      CommitShows(db, y, name, v, cfg, e);
      BindingOneToOne(d, name, name, x, y);
    }
  }

  lemma HandledCreate(db: Db, req: R.Request, job: L.Job)
    requires req.call.Create? && Carries(db, req, job)
    ensures R.Handle(db, req).db == if R.Admit(db, req) != R.NoFault then db
              else R.Commit(db, R.NoFault, R.CreateXid(db, req.call.name), req.call.name, job.vdir, job.cfg, true).db
  {
  }

  lemma FreshIff(db: Db, req: R.Request, job: L.Job, x: int, d: Db)
    requires req.call.Create? && Carries(db, req, job) && x != 0 && d == L.Perform(db, req.call.name, job, x)
    ensures d == R.Handle(db, req).db <==>
            (R.Admit(db, req) == R.NoFault && R.CreateXid(db, req.call.name) == x) || (d == db && R.Handle(db, req).db == db)
  {
    var name, v, cfg := req.call.name, job.vdir, job.cfg;
    FreshAgrees(db, name, v, cfg, x);
    HandledCreate(db, req, job);
    if R.Admit(db, req) == R.NoFault {
      SameCommitIff(db, x, R.CreateXid(db, name), name, v, cfg, d, R.Handle(db, req).db);
    }
  }

  /** The commit of a fresh creation is the whole request at that moment if and only if the request would
      still be admitted and would use the same id, or nothing changes either way. */
  lemma FreshWriteIff(states: seq<L.State>, acts: seq<L.Action>, k: nat, req: R.Request)
    requires L.IsRun(states, acts) && k < |acts| && acts[k].Write? && L.NoneCollides(states, acts, k + 1)
    requires acts[k].p in states[k].procs
    requires var me := states[k].procs[acts[k].p];
             me.phase.Chosen? && req.call.Create? && req.call.name == me.name && Carries(states[k].db, req, me.job)
    ensures var me, db, d := states[k].procs[acts[k].p], states[k].db, states[k + 1].db;
            d == R.Handle(db, req).db <==>
            (R.Admit(db, req) == R.NoFault && R.CreateXid(db, me.name) == me.phase.xid) || (d == db && R.Handle(db, req).db == db)
  {
    var me := states[k].procs[acts[k].p];
    L.WritesAreAtomic(states, acts, k);
    L.RunKeeps(states, acts, k);
    assert L.ProcInv(me);
    FreshIff(states[k].db, req, me.job, me.phase.xid, states[k + 1].db);
  }

  /** Who is no owner is refused. */
  lemma Refused(db: Db, req: R.Request)
    requires R.OwnerOnly(req.call) && !IsOwner(db, req.user, req.call.name)
    ensures R.Admit(db, req) != R.NoFault && R.Handle(db, req).db == db
  {
  }

  lemma PutShows(db: Db, name: string, row: Row, x: int)
    requires row.id == x
    ensures row in L.Perform(db, name, L.Put(row.t, row.key, row.data), x)
  {
    assert row == Row(row.t, x, row.key, row.data);
  }

  lemma Unconfigured(db: Db, d: Db, stmt: Stmt, row: Row)
    requires row !in db && stmt.Delete? && Exec(db, stmt) == Some(d)
    ensures row !in d
  {
  }

  /** The write of a request that lost its claim while it waited. */
  lemma StaleRequest(db: Db, req: R.Request, setting: R.Setting, name: string, x: int, row: Row)
    returns (states: seq<L.State>, acts: seq<L.Action>, d: Db)
    requires ContextInv(db) && !IsAdmin(db, req.user) && IsOwner(db, req.user, name) && x == GetXid(db, name)
    requires req.call == R.Configure(name, setting) && R.RowOf(setting, x) == Some(row) && row !in db
    ensures L.IsRun(states, acts) && |acts| == 7 && states[0].db == db && acts[6] == L.Write(0)
    ensures d == states[6].db && !IsOwner(d, req.user, name) && row !in d && row in states[7].db
  {
    Reachable.RowOfTable(setting, x);
    states, acts := StaleWrite(db, req.user, name, x, row);
    d := states[6].db;
  }

  /** Admission can be out of date: a run in which a user configures a context it no longer owns, while
      the whole request would be refused at that moment. */
  lemma RefusedYetWritten(db: Db, req: R.Request, setting: R.Setting, name: string, x: int, row: Row)
    returns (states: seq<L.State>, acts: seq<L.Action>, whole: Db)
    requires ContextInv(db) && !IsAdmin(db, req.user) && IsOwner(db, req.user, name) && x == GetXid(db, name)
    requires req.call == R.Configure(name, setting) && R.RowOf(setting, x) == Some(row) && row !in db
    ensures L.IsRun(states, acts) && |acts| == 7 && states[0].db == db && acts[6] == L.Write(0)
    ensures whole == states[6].db && row in states[7].db && states[7].db != whole
    ensures R.Admit(states[6].db, req) != R.NoFault && R.Handle(states[6].db, req).db == whole
  {
    states, acts, whole := StaleRequest(db, req, setting, name, x, row);
    Refused(whole, req);
  }

  lemma StaleWrite(db: Db, user: string, name: string, x: int, row: Row) returns (states: seq<L.State>, acts: seq<L.Action>)
    requires ContextInv(db) && !IsAdmin(db, user) && IsOwner(db, user, name) && x == GetXid(db, name) == row.id
    requires L.Configurable(row.t) && row !in db
    ensures L.IsRun(states, acts) && |acts| == 7 && states[0].db == db && acts[6] == L.Write(0)
    ensures !IsOwner(states[6].db, user, name) && row !in states[6].db && row in states[7].db
  {
    states, acts := Race.StaleAdmission(db, user, name, x, L.Put(row.t, row.key, row.data));
    Unconfigured(db, states[6].db, Delete(XidUidMap, ByBoth(x, Int(GetUid(db, user)))), row);
    PutShows(states[6].db, name, row, x);
  }
}
