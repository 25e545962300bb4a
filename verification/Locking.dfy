/** Interleaved requests and the per-name lock (method_check_flags and method_lock,
src/vcd/methods.c:175-218).

Every external request runs in a process of its own. A request flagged M_LOCK passes its owner check,
opens the lock file of its context name, tests it (F_TEST), takes it (F_LOCK, which may block) and
keeps it until the process exits. Every database access is one step; steps of different processes
interleave freely. A process may stop after any step, which covers every fault the request can run
into. It may also come to method_check_flags again and again, for further external calls and for the
internal calls a method makes, about any name. Requests without M_LOCK are arbitrary sequences of
statements on the tables such requests write.
*/
module Locking {
  import opened Wrappers
  import opened Schema
  import opened Store
  import opened Validate
  import opened Lookup
  import opened Auth
  import opened Template
  import opened Invariant
  import opened Alloc
  import opened Traces

  type Pid = nat

  datatype Job =
    | Put(t: Table, key: Val, data: seq<Val>)     // vxdb.*.set and vxdb.*.add
    | Unset(t: Table, only: Option<Val>)          // vxdb.*.remove
    | Look                                        // vx.start, vx.stop, vx.kill, ...: no write
    | Remove                                      // vx.remove
    | Rename(newname: string)                     // vx.rename
    | Create(vdir: string, cfg: Config)           // vx.create

  datatype Phase =
    | Begin          // method_init not entered yet
    | Admitted       // the owner check passed, method_lock not entered yet or still blocked
    | Locked         // F_LOCK returned
    | Checked        // vx.rename: the new name was seen unused
    | Resolved(xid: int)   // vxdb_getxid(name) returned xid
    | Fresh          // vx.create: the name is unused, no xid chosen yet
    | Chosen(xid: int)     // vx.create: find_free_xid returned xid
    | Finished       // database work done, or refused

  /** What method_lock has done in a process: `fd` is the name whose lock file is open in lockfd,
      `waiting` the name whose lock F_LOCK is blocked on, `held` the names whose lock it has. */
  datatype Lock = Lock(fd: Option<string>, waiting: Option<string>, held: set<string>)

  datatype Proc = Proc(user: string, name: string, job: Job, phase: Phase, lock: Lock)

  datatype State = State(db: Db, procs: map<Pid, Proc>)

  datatype Action =
    | Spawn(p: Pid, user: string, name: string, job: Job)
    | Admit(p: Pid)                                // the owner check
    | Enter(p: Pid, about: string, internal: bool) // method_check_flags decides about locking
    | Acquire(p: Pid)                              // F_LOCK returns
    | Check(p: Pid) | Read(p: Pid) | Choose(p: Pid) | Write(p: Pid)
    | Exit(p: Pid)
    | Unlocked(stmt: Stmt)

  predicate Configurable(t: Table) {
    (PerContext(t) && t != Vdir) || t == VxCpuset
  }

  /** Tables written by requests without M_LOCK. */
  predicate LockFree(t: Table) {
    Linked(t) || t == User || t == UserCaps || t == Groups
  }

  predicate ValidJob(job: Job) {
    match job
    case Put(t, _, _) => Configurable(t)
    case Unset(t, _) => Configurable(t)
    case Rename(newname) => ValidName(newname)
    case Create(vdir, _) => ValidPath(vdir)
    case _ => true
  }

  predicate Holder(s: State, p: Pid, name: string) {
    p in s.procs && name in s.procs[p].lock.held
  }

  /** Another process than p has the lock of `name`. */
  predicate HeldByOther(s: State, p: Pid, name: string) {
    exists q | q in s.procs :: q != p && Holder(s, q, name)
  }

  /** Process p exists and is not blocked in F_LOCK. */
  predicate Runs(s: State, p: Pid) {
    p in s.procs && s.procs[p].lock.waiting.None?
  }

  predicate Enabled(s: State, a: Action) {
    match a
    case Spawn(p, _, name, job) => p !in s.procs && ValidName(name) && ValidJob(job)
    case Admit(p) => Runs(s, p) && s.procs[p].phase.Begin?
    case Enter(p, _, _) => Runs(s, p)
    case Acquire(p) => p in s.procs && s.procs[p].lock.waiting.Some? && !HeldByOther(s, p, s.procs[p].lock.waiting.value)
    case Check(p) => Runs(s, p) && s.procs[p].phase.Locked? && s.procs[p].job.Rename?
    case Read(p) => Runs(s, p) && (if s.procs[p].job.Rename? then s.procs[p].phase.Checked?
                                   else s.procs[p].phase.Locked?)
    case Choose(p) => Runs(s, p) && s.procs[p].phase.Fresh?
    case Write(p) => Runs(s, p) && (s.procs[p].phase.Resolved? || s.procs[p].phase.Chosen?)
    case Exit(p) => p in s.procs
    case Unlocked(stmt) => LockFree(TableOf(stmt))
  }

  /** The lock attempt is the one the process's own job asks for. */
  predicate OwnAttempt(me: Proc, about: string) {
    me.phase.Admitted? && about == me.name
  }

  /** method_lock: refused while lockfd is open already; otherwise opens the file, and goes on to F_LOCK
      unless F_TEST finds the lock taken. A refusal ends the job it was for. */
  function MethodLock(s: State, p: Pid, about: string): Proc
    requires p in s.procs
  {
    var me := s.procs[p];
    var refused := if OwnAttempt(me, about) then me.(phase := Finished) else me;
    if me.lock.fd.Some? then refused
    else if HeldByOther(s, p, about) then refused.(lock := me.lock.(fd := Some(about)))
    else me.(lock := me.lock.(fd := Some(about), waiting := Some(about)))
  }

  function Acquired(me: Proc): Proc
    requires me.lock.waiting.Some?
  {
    var about := me.lock.waiting.value;
    me.(lock := me.lock.(waiting := None, held := me.lock.held + {about}),
        phase := if OwnAttempt(me, about) then Locked else me.phase)
  }

  /** M_OWNER: everything but vx.create asks for an owner. */
  predicate PassesOwnerCheck(db: Db, me: Proc) {
    me.job.Create? || IsOwner(db, me.user, me.name)
  }

  /** The database part of a request, once its context id is x. A failed statement or transaction
      leaves the store as it was. */
  function Perform(db: Db, name: string, job: Job, x: int): Db {
    match job
    case Put(t, key, data) => Or(Exec(db, Replace(Row(t, x, key, data))), db)
    case Unset(t, only) => Or(Exec(db, Delete(t, if only.Some? then ByBoth(x, only.value) else ById(x))), db)
    case Look => db
    case Remove => Or(Run(db, DeleteAll(REMOVED, x)), db)
    case Rename(newname) => Or(Exec(db, RenameStmt(x, newname)), db)
    case Create(vdir, cfg) => Or(Run(db, CreateScript(x, name, vdir, cfg)), db)
  }

  function Move(s: State, p: Pid, phase: Phase): State
    requires p in s.procs
  {
    s.(procs := s.procs[p := s.procs[p].(phase := phase)])
  }

  function Apply(s: State, a: Action): State
    requires Enabled(s, a)
  {
    match a
    case Spawn(p, user, name, job) => s.(procs := s.procs[p := Proc(user, name, job, Begin, Lock(None, None, {}))])
    case Admit(p) => Move(s, p, if PassesOwnerCheck(s.db, s.procs[p]) then Admitted else Finished)
    case Enter(p, about, internal) =>
      if internal then s else s.(procs := s.procs[p := MethodLock(s, p, about)])
    case Acquire(p) => s.(procs := s.procs[p := Acquired(s.procs[p])])
    case Check(p) => Move(s, p, if GetXid(s.db, s.procs[p].job.newname) != 0 then Finished else Checked)
    case Read(p) =>
      var x := GetXid(s.db, s.procs[p].name);
      Move(s, p, if x != 0 then Resolved(x) else if s.procs[p].job.Create? then Fresh else Finished)
    case Choose(p) =>
      var x := FreeXid(s.db);
      Move(s, p, if x != 0 then Chosen(x) else Finished)
    case Write(p) =>
      var me := s.procs[p];
      Move(s.(db := Perform(s.db, me.name, me.job, me.phase.xid)), p, Finished)
    case Exit(p) => s.(procs := s.procs - {p})
    case Unlocked(stmt) => s.(db := Or(Exec(s.db, stmt), s.db))
  }

  // ----- the invariant

  ghost predicate ProcInv(me: Proc) {
    && ValidName(me.name) && ValidJob(me.job)
    && (me.phase.Fresh? ==> me.job.Create?)
    && (me.phase.Chosen? ==> me.job.Create? && 2 <= me.phase.xid <= MAX_XID)
  }

  ghost predicate ProcsInv(s: State) {
    forall p | p in s.procs :: ProcInv(s.procs[p])
  }

  /** Phases that a process reaches only under the lock of its name. */
  predicate UnderLock(phase: Phase) {
    phase.Locked? || phase.Checked? || phase.Resolved? || phase.Fresh? || phase.Chosen?
  }

  /** A lock belongs to the one open lock file; a process blocked in F_LOCK has none yet. */
  ghost predicate LockFile(me: Proc) {
    && (forall n | n in me.lock.held :: me.lock.fd == Some(n))
    && (me.lock.waiting.Some? ==> me.lock.fd == me.lock.waiting && me.lock.held == {})
    && (UnderLock(me.phase) ==> me.name in me.lock.held)
  }

  ghost predicate LockFiles(s: State) {
    forall p | p in s.procs :: LockFile(s.procs[p])
  }

  /** At most one process holds the lock of a name. */
  ghost predicate Mutex(s: State) {
    forall p, q, n {:trigger Holder(s, p, n), Holder(s, q, n)} :: Holder(s, p, n) && Holder(s, q, n) ==> p == q
  }

  /** What a lock holder has read stays true. */
  ghost predicate Stable(s: State) {
    forall p | p in s.procs && s.procs[p].phase.Resolved? :: Bound(s.db, s.procs[p].name, s.procs[p].phase.xid)
  }

  ghost predicate LockInv(s: State) {
    ProcsInv(s) && LockFiles(s) && Mutex(s) && Stable(s) && ContextInv(s.db)
  }

  /** A creation commits to an id that meanwhile belongs to another context. */
  predicate Collides(s: State, a: Action) {
    && a.Write? && a.p in s.procs && s.procs[a.p].phase.Chosen?
    && Named(s.db, s.procs[a.p].phase.xid)
  }

  // ----- one step

  ghost predicate KeepsForeign(db: Db, d: Db, name: string) {
    forall n, y {:trigger Bound(db, n, y)} :: n != name && Bound(db, n, y) ==> Bound(d, n, y)
  }

  lemma SameNamesKeep(db: Db, d: Db, name: string)
    requires SameRows(db, d, XidNameMap)
    ensures KeepsForeign(db, d, name)
    ensures forall n, y :: Bound(db, n, y) <==> Bound(d, n, y)
  {
  }

  lemma ConfigureKeeps(db: Db, stmt: Stmt, x: int)
    requires ContextInv(db) && Named(db, x) && Configurable(TableOf(stmt))
    requires stmt.Delete? || (stmt.Replace? && stmt.row.id == x)
    ensures Exec(db, stmt).Some? && ContextInv(Exec(db, stmt).value)
    ensures SameRows(db, Exec(db, stmt).value, XidNameMap)
  {
    ExecFrame(db, stmt);
    ContextKept(db, Exec(db, stmt).value);
  }

  /** A name bound to x is the only name bound to x. */
  lemma OwnName(db: Db, name: string, x: int)
    requires Bound(db, name, x)
    ensures forall n, y :: n != name && Bound(db, n, y) ==> y != x
  {
    forall n, y | n != name && Bound(db, n, y) ensures y != x {
      BindingOneToOne(db, name, n, x, y);
    }
  }

  lemma OtherIdsKeep(db: Db, d: Db, name: string, x: int)
    requires forall r: Row :: r.t == XidNameMap && r.id != x ==> (r in d <==> r in db)
    requires forall n, y :: n != name && Bound(db, n, y) ==> y != x
    ensures KeepsForeign(db, d, name)
  {
    forall n, y | n != name && Bound(db, n, y) ensures Bound(d, n, y) {
      var r :| r in db && r.t == XidNameMap && r.id == y && r.key == Text(n);
      assert r in d;
    }
  }

  /** The write of a lock holder, on an id that is its own or unused, keeps the invariant and every
      other name's binding. */
  lemma PerformKeeps(db: Db, name: string, job: Job, x: int)
    requires ContextInv(db) && ValidJob(job) && ValidName(name)
    requires Bound(db, name, x) || (job.Create? && 2 <= x <= MAX_XID && !Named(db, x))
    ensures ContextInv(Perform(db, name, job, x))
    ensures KeepsForeign(db, Perform(db, name, job, x), name)
    ensures forall y :: Named(Perform(db, name, job, x), y) ==> Named(db, y) || y == x
  {
    var d := Perform(db, name, job, x);
    if Bound(db, name, x) {
      OwnName(db, name, x);
    }
    match job
    case Put(t, key, data) =>
      ConfigureKeeps(db, Replace(Row(t, x, key, data)), x);
      HasSame(db, d, XidNameMap);
    case Unset(t, only) =>
      ConfigureKeeps(db, Delete(t, if only.Some? then ByBoth(x, only.value) else ById(x)), x);
      HasSame(db, d, XidNameMap);
    case Look =>
    case Remove =>
      RunDeleteAll(db, REMOVED, x);
      RemoveKeeps(db, x);
      OtherIdsKeep(db, d, name, x);
    case Rename(newname) =>
      if Exec(db, RenameStmt(x, newname)).Some? {
        RenameKeeps(db, x, newname, d);
        RenameRows(db, x, newname, d);
        OtherIdsKeep(db, d, name, x);
      }
    case Create(vdir, cfg) =>
      if Run(db, CreateScript(x, name, vdir, cfg)).Some? {
        assert 2 <= x <= MAX_XID;
        CreateKeeps(db, x, name, vdir, cfg, d);
        CreateNames(db, x, name, vdir, cfg, d);
      }
  }

  lemma ChooseProc(s: State, p: Pid)
    requires ProcsInv(s) && ContextInv(s.db) && Enabled(s, Choose(p))
    ensures ProcInv(Apply(s, Choose(p)).procs[p])
  {
    assert ProcInv(s.procs[p]);
    FreeXidSpec(s.db);
  }

  /** The process that acts; the others stay as they are. */
  lemma ActorProc(s: State, a: Action, p: Pid)
    requires ProcsInv(s) && Enabled(s, a) && !a.Choose? && p in Apply(s, a).procs
    ensures ProcInv(Apply(s, a).procs[p])
  {
    assert p in s.procs ==> ProcInv(s.procs[p]);
  }

  lemma StepProcs(s: State, a: Action)
    requires ProcsInv(s) && ContextInv(s.db) && Enabled(s, a)
    ensures ProcsInv(Apply(s, a))
  {
    forall p | p in Apply(s, a).procs ensures ProcInv(Apply(s, a).procs[p]) {
      if !a.Choose? {
        ActorProc(s, a, p);
      } else if a.p == p {
        ChooseProc(s, p);
      } else {
        assert ProcInv(s.procs[p]);
      }
    }
  }

  lemma EnteredFile(s: State, p: Pid, about: string)
    requires Runs(s, p) && LockFile(s.procs[p])
    ensures LockFile(MethodLock(s, p, about))
  {
  }

  lemma AcquiredFile(me: Proc)
    requires me.lock.waiting.Some? && LockFile(me)
    ensures LockFile(Acquired(me))
  {
  }

  lemma MovedFile(me: Proc, phase: Phase)
    requires LockFile(me) && (UnderLock(phase) ==> UnderLock(me.phase))
    ensures LockFile(me.(phase := phase))
  {
  }

  /** The process that acts. */
  lemma ActorFile(s: State, a: Action, p: Pid)
    requires LockFiles(s) && Enabled(s, a) && p in Apply(s, a).procs && p in s.procs
    ensures LockFile(Apply(s, a).procs[p])
  {
    var me := s.procs[p];
    assert LockFile(me);
    if a.Enter? && a.p == p {
      EnteredFile(s, p, a.about);
    } else if a.Acquire? && a.p == p {
      AcquiredFile(me);
    } else {
      MovedFile(me, Apply(s, a).procs[p].phase);
    }
  }

  lemma StepLockFiles(s: State, a: Action)
    requires LockFiles(s) && Enabled(s, a)
    ensures LockFiles(Apply(s, a))
  {
    forall p | p in Apply(s, a).procs ensures LockFile(Apply(s, a).procs[p]) {
      if p in s.procs {
        ActorFile(s, a, p);
      }
    }
  }

  /** A lock is taken by Acquire and nothing else. */
  lemma HolderBefore(s: State, a: Action, p: Pid, n: string)
    requires Enabled(s, a) && Holder(Apply(s, a), p, n)
    ensures Holder(s, p, n) || (a == Acquire(p) && s.procs[p].lock.waiting == Some(n))
  {
  }

  lemma StepMutex(s: State, a: Action)
    requires Mutex(s) && Enabled(s, a)
    ensures Mutex(Apply(s, a))
  {
    var t := Apply(s, a);
    forall p, q, n | Holder(t, p, n) && Holder(t, q, n) ensures p == q {
      HolderBefore(s, a, p, n);
      HolderBefore(s, a, q, n);
    }
  }

  /** The database after a step; `Write` steps that collide are treated separately. */
  lemma StepDb(s: State, a: Action)
    requires LockInv(s) && Enabled(s, a) && !Collides(s, a)
    ensures ContextInv(Apply(s, a).db)
    ensures a.Write? ==> KeepsForeign(s.db, Apply(s, a).db, s.procs[a.p].name)
    ensures !a.Write? ==> forall n, y :: Bound(s.db, n, y) <==> Bound(Apply(s, a).db, n, y)
    ensures forall y :: Named(Apply(s, a).db, y) ==>
              Named(s.db, y) || (a.Write? && s.procs[a.p].phase == Chosen(y))
  {
    if a.Write? {
      WriteDb(s, a.p);
    } else if a.Unlocked? {
      UnlockedDb(s.db, a.stmt);
    } else {
      assert Apply(s, a).db == s.db;
    }
  }

  lemma WriteDb(s: State, p: Pid)
    requires LockInv(s) && Enabled(s, Write(p)) && !Collides(s, Write(p))
    ensures var me, d := s.procs[p], Apply(s, Write(p)).db;
            && ContextInv(d) && KeepsForeign(s.db, d, me.name)
            && forall y :: Named(d, y) ==> Named(s.db, y) || me.phase == Chosen(y)
  {
    var me := s.procs[p];
    assert ProcInv(me);
    if me.phase.Resolved? {
      assert Bound(s.db, me.name, me.phase.xid);
    }
    PerformKeeps(s.db, me.name, me.job, me.phase.xid);
  }

  lemma UnlockedDb(db: Db, stmt: Stmt)
    requires ContextInv(db) && LockFree(TableOf(stmt))
    ensures var d := Or(Exec(db, stmt), db);
            && ContextInv(d) && (forall n, y :: Bound(db, n, y) <==> Bound(d, n, y))
            && forall y :: Named(d, y) ==> Named(db, y)
  {
    if Exec(db, stmt).Some? {
      var d := Exec(db, stmt).value;
      ExecFrame(db, stmt);
      ContextKept(db, d);
      SameNamesKeep(db, d, "");
      HasSame(db, d, XidNameMap);
    }
  }

  /** A process other than the one that acts stays as it is, and a phase is new only for the actor. */
  lemma ResolvedBefore(s: State, a: Action, q: Pid)
    requires Enabled(s, a) && q in Apply(s, a).procs && Apply(s, a).procs[q].phase.Resolved?
    ensures q in s.procs && s.procs[q].name == Apply(s, a).procs[q].name
    ensures a == Read(q) || (s.procs[q].phase == Apply(s, a).procs[q].phase && a != Write(q))
    ensures a == Read(q) ==> GetXid(s.db, s.procs[q].name) == Apply(s, a).procs[q].phase.xid != 0 && Apply(s, a).db == s.db
  {
  }

  lemma StepStable(s: State, a: Action)
    requires LockInv(s) && Enabled(s, a) && !Collides(s, a)
    ensures Stable(Apply(s, a))
  {
    var t := Apply(s, a);
    StepDb(s, a);
    forall q | q in t.procs && t.procs[q].phase.Resolved?
      ensures Bound(t.db, t.procs[q].name, t.procs[q].phase.xid)
    {
      ResolvedBefore(s, a, q);
      if a == Read(q) {
        NameRoundTrip(s.db, s.procs[q].name, t.procs[q].phase.xid);
      } else if a.Write? {
        assert LockFile(s.procs[q]) && LockFile(s.procs[a.p]);
        assert Holder(s, q, s.procs[q].name);
        assert Holder(s, a.p, s.procs[a.p].name);
      }
    }
  }

  lemma StepKeeps(s: State, a: Action)
    requires LockInv(s) && Enabled(s, a) && !Collides(s, a)
    ensures LockInv(Apply(s, a))
  {
    StepProcs(s, a);
    StepLockFiles(s, a);
    StepMutex(s, a);
    StepDb(s, a);
    StepStable(s, a);
  }

  /** The exact reach of the allocator race: a step takes away another name's binding if and only if
      it is a committing creation whose chosen id belongs to another name by then. */
  lemma ForeignLossIff(s: State, a: Action)
    requires LockInv(s) && Enabled(s, a)
    ensures (exists n, y :: (a.Write? ==> n != s.procs[a.p].name) && Bound(s.db, n, y) && !Bound(Apply(s, a).db, n, y))
            <==>
            && Collides(s, a)
            && (var me := s.procs[a.p];
                && Creatable(s.db, me.phase.xid, me.name, me.job.vdir, me.job.cfg)
                && exists n :: n != me.name && Bound(s.db, n, me.phase.xid))
  {
    if Collides(s, a) {
      var me := s.procs[a.p];
      var x, d := me.phase.xid, Apply(s, a).db;
      CreateOutcome(s.db, x, me.name, me.job.vdir, me.job.cfg);
      if Creatable(s.db, x, me.name, me.job.vdir, me.job.cfg) {
        CreateNames(s.db, x, me.name, me.job.vdir, me.job.cfg, d);
      }
    } else {
      StepDb(s, a);
    }
  }

  // ----- whole runs

  ghost predicate Step(s: State, a: Action, t: State) {
    Enabled(s, a) && t == Apply(s, a)
  }

  ghost predicate IsRun(states: seq<State>, acts: seq<Action>) {
    Chain(Step, states, acts) && states[0].procs == map[] && ContextInv(states[0].db)
  }

  /** No creation commits to an id that meanwhile belongs to another context, up to state k. */
  ghost predicate NoneCollides(states: seq<State>, acts: seq<Action>, k: nat)
    requires |states| == |acts| + 1 && k < |states|
  {
    forall i {:trigger acts[i]} | 0 <= i < k :: !Collides(states[i], acts[i])
  }

  /** As long as no creation collides, the lock invariant holds in every state of every interleaving. */
  lemma {:induction false} RunKeeps(states: seq<State>, acts: seq<Action>, k: nat)
    requires IsRun(states, acts) && k < |states| && NoneCollides(states, acts, k)
    ensures LockInv(states[k])
  {
    if k > 0 {
      At(Step, states, acts, k - 1);
      RunKeeps(states, acts, k - 1);
      var a := acts[k - 1];
      StepKeeps(states[k - 1], a);
    }
  }

  // ----- what keeps creations from colliding

  ghost predicate InFlight(s: State, p: Pid) {
    p in s.procs && s.procs[p].phase.Chosen?
  }

  /** At most one process is between choosing a fresh id and committing it. */
  ghost predicate OneInFlight(s: State) {
    forall p, q :: InFlight(s, p) && InFlight(s, q) ==> p == q
  }

  ghost predicate ChosenUnused(s: State) {
    forall p | InFlight(s, p) :: !Named(s.db, s.procs[p].phase.xid)
  }

  lemma InFlightBefore(s: State, a: Action, p: Pid)
    requires Enabled(s, a) && InFlight(Apply(s, a), p)
    ensures a == Choose(p) || (InFlight(s, p) && s.procs[p].phase == Apply(s, a).procs[p].phase && a != Write(p))
    ensures a == Choose(p) ==> Apply(s, a).procs[p].phase.xid == FreeXid(s.db) != 0 && Apply(s, a).db == s.db
  {
  }

  lemma StepChosen(s: State, a: Action)
    requires LockInv(s) && Enabled(s, a) && OneInFlight(s) && ChosenUnused(s)
    ensures !Collides(s, a)
    ensures ChosenUnused(Apply(s, a))
  {
    assert a.Write? && s.procs[a.p].phase.Chosen? ==> InFlight(s, a.p);
    var t := Apply(s, a);
    StepDb(s, a);
    forall p | InFlight(t, p) ensures !Named(t.db, t.procs[p].phase.xid) {
      InFlightBefore(s, a, p);
      if a == Choose(p) {
        FreeXidSpec(s.db);
      }
    }
  }

  lemma FlightStep(s: State, a: Action)
    requires LockInv(s) && OneInFlight(s) && ChosenUnused(s) && Enabled(s, a)
    ensures !Collides(s, a) && LockInv(Apply(s, a)) && ChosenUnused(Apply(s, a))
  {
    StepChosen(s, a);
    StepKeeps(s, a);
  }

  lemma {:induction false} FlightKeeps(states: seq<State>, acts: seq<Action>, k: nat)
    requires IsRun(states, acts) && k < |states|
    requires forall i | 0 <= i < |states| :: OneInFlight(states[i])
    ensures LockInv(states[k]) && ChosenUnused(states[k])
  {
    if k > 0 {
      At(Step, states, acts, k - 1);
      FlightKeeps(states, acts, k - 1);
      var a := acts[k - 1];
      FlightStep(states[k - 1], a);
    }
  }

  /** With at most one creation between its choice and its commit at a time, none collides. */
  lemma OneInFlightSuffices(states: seq<State>, acts: seq<Action>)
    requires IsRun(states, acts)
    requires forall i | 0 <= i < |states| :: OneInFlight(states[i])
    ensures NoneCollides(states, acts, |acts|)
  {
    forall i | 0 <= i < |acts| ensures !Collides(states[i], acts[i]) {
      At(Step, states, acts, i);
      FlightKeeps(states, acts, i);
      FlightStep(states[i], acts[i]);
    }
  }

  // ----- what the lock buys

  /** The write itself takes the name away from its context: a removal, or a renaming that takes effect. */
  predicate Rebinds(db: Db, name: string, job: Job) {
    job.Remove? || (job.Rename? && job.newname != name && GetXid(db, job.newname) == 0)
  }

  lemma RenameRebinds(db: Db, name: string, newname: string, x: int)
    requires ContextInv(db) && Bound(db, name, x) && ValidName(newname)
    ensures Bound(Or(Exec(db, RenameStmt(x, newname)), db), name, x) <==> newname == name || GetXid(db, newname) != 0
  {
    if newname != name && GetXid(db, newname) == 0 {
      RenameFits(db, x, newname);
      RenameRows(db, x, newname, Exec(db, RenameStmt(x, newname)).value);
    } else if newname == name {
      RenameToOwnName(db, x, name);
    } else {
      RenameBlocked(db, name, newname, x);
    }
  }

  /** A lock holder's own write keeps the binding exactly when it is no removal and no effective renaming. */
  lemma OwnWriteKeepsIff(db: Db, name: string, job: Job, x: int)
    requires ContextInv(db) && Bound(db, name, x) && ValidJob(job)
    ensures Bound(Perform(db, name, job, x), name, x) <==> !Rebinds(db, name, job)
  {
    var d := Perform(db, name, job, x);
    match job
    case Put(t, key, data) =>
      ConfigureKeeps(db, Replace(Row(t, x, key, data)), x);
      SameNamesKeep(db, d, "");
    case Unset(t, only) =>
      ConfigureKeeps(db, Delete(t, if only.Some? then ByBoth(x, only.value) else ById(x)), x);
      SameNamesKeep(db, d, "");
    case Look =>
    case Remove =>
      RunDeleteAll(db, REMOVED, x);
      RemoveKeeps(db, x);
    case Rename(newname) =>
      RenameRebinds(db, name, newname, x);
    case Create(vdir, cfg) =>
      if Run(db, CreateScript(x, name, vdir, cfg)).Some? {
        CreateNames(db, x, name, vdir, cfg, d);
      }
  }

  /** Process p has resolved its name to x, under its lock, and may have written since. */
  ghost predicate Owns(s: State, p: Pid, name: string, job: Job, x: int) {
    && Holder(s, p, name) && s.procs[p].name == name && s.procs[p].job == job
    && (s.procs[p].phase == Resolved(x) || s.procs[p].phase == Finished)
    && Bound(s.db, name, x)
  }

  /** Further calls leave a lock holder as it is. */
  lemma EnterKeepsOwner(s: State, p: Pid, about: string)
    requires LockFiles(s) && Enabled(s, Enter(p, about, false)) && s.procs[p].lock.held != {} && !s.procs[p].phase.Admitted?
    ensures MethodLock(s, p, about) == s.procs[p]
  {
    assert LockFile(s.procs[p]);
  }

  lemma OwnerStays(s: State, a: Action, p: Pid, name: string, job: Job, x: int)
    requires LockFiles(s) && Enabled(s, a) && Owns(s, p, name, job, x) && a != Exit(p)
    ensures Holder(Apply(s, a), p, name) && Apply(s, a).procs[p].name == name && Apply(s, a).procs[p].job == job
    ensures Apply(s, a).procs[p].phase == if a == Write(p) then Finished else s.procs[p].phase
  {
    assert LockFile(s.procs[p]);
    if a.Enter? && a.p == p && !a.internal {
      EnterKeepsOwner(s, p, a.about);
    }
  }

  /** A process that writes holds the lock of its own name. */
  lemma OtherWriter(s: State, q: Pid, p: Pid, name: string)
    requires LockFiles(s) && Mutex(s) && Enabled(s, Write(q)) && Holder(s, p, name) && q != p
    ensures s.procs[q].name != name
  {
    assert LockFile(s.procs[q]);
    assert Holder(s, q, s.procs[q].name);
  }

  lemma OwnWrite(s: State, p: Pid, name: string, job: Job, x: int)
    requires LockInv(s) && Enabled(s, Write(p)) && Owns(s, p, name, job, x) && !Rebinds(s.db, name, job)
    ensures Bound(Apply(s, Write(p)).db, name, x)
  {
    assert ProcInv(s.procs[p]);
    OwnWriteKeepsIff(s.db, name, job, x);
  }

  lemma BindingStays(s: State, a: Action, p: Pid, name: string, job: Job, x: int)
    requires LockInv(s) && Enabled(s, a) && !Collides(s, a) && Owns(s, p, name, job, x)
    requires !(a == Write(p) && Rebinds(s.db, name, job))
    ensures Bound(Apply(s, a).db, name, x)
  {
    if a == Write(p) {
      OwnWrite(s, p, name, job, x);
    } else {
      StepDb(s, a);
      if a.Write? {
        OtherWriter(s, a.p, p, name);
      }
    }
  }

  lemma OwnsStep(s: State, a: Action, p: Pid, name: string, job: Job, x: int)
    requires LockInv(s) && !Collides(s, a) && Enabled(s, a) && Owns(s, p, name, job, x)
    requires a != Exit(p) && !(a == Write(p) && Rebinds(s.db, name, job))
    ensures Owns(Apply(s, a), p, name, job, x)
  {
    OwnerStays(s, a, p, name, job, x);
    BindingStays(s, a, p, name, job, x);
  }

  /** Between states i and j, p neither exits nor takes the name away from its context itself. */
  ghost predicate KeepsAtIt(states: seq<State>, acts: seq<Action>, i: nat, j: nat, p: Pid, name: string, job: Job)
    requires |states| == |acts| + 1 && j < |states|
  {
    forall k {:trigger acts[k]} | i <= k < j :: acts[k] != Exit(p) && !(acts[k] == Write(p) && Rebinds(states[k].db, name, job))
  }

  lemma {:induction false} OwnsInRuns(states: seq<State>, acts: seq<Action>, i: nat, j: nat, p: Pid, name: string, job: Job, x: int)
    requires IsRun(states, acts) && i <= j < |states| && NoneCollides(states, acts, j)
    requires Owns(states[i], p, name, job, x) && KeepsAtIt(states, acts, i, j, p, name, job)
    ensures Owns(states[j], p, name, job, x)
    decreases j
  {
    if i < j {
      At(Step, states, acts, j - 1);
      OwnsInRuns(states, acts, i, j - 1, p, name, job, x);
      RunKeeps(states, acts, j - 1);
      var a := acts[j - 1];
      OwnsStep(states[j - 1], a, p, name, job, x);
    }
  }

  /** What the lock buys: once a process that holds the lock of a name has resolved it to x, it keeps the
      lock and the name stays bound to x until the process itself removes or renames the context, or exits. */
  lemma LockKeepsBinding(states: seq<State>, acts: seq<Action>, i: nat, j: nat, p: Pid, x: int)
    requires IsRun(states, acts) && i <= j < |states| && NoneCollides(states, acts, j)
    requires p in states[i].procs && states[i].procs[p].phase == Resolved(x)
    requires KeepsAtIt(states, acts, i, j, p, states[i].procs[p].name, states[i].procs[p].job)
    ensures Owns(states[j], p, states[i].procs[p].name, states[i].procs[p].job, x)
    ensures GetXid(states[j].db, states[i].procs[p].name) == x
  {
    var me := states[i].procs[p];
    RunKeeps(states, acts, i);
    assert LockFile(me);
    OwnsInRuns(states, acts, i, j, p, me.name, me.job, x);
    RunKeeps(states, acts, j);
    NameRoundTrip(states[j].db, me.name, x);
  }

  /** Lookup and insert are separate steps, yet no configuration row is ever left without its
      context, and every context has its directory. */
  lemma NoOrphanRows(states: seq<State>, acts: seq<Action>, k: nat, r: Row)
    requires IsRun(states, acts) && k < |states| && NoneCollides(states, acts, k) && r in states[k].db
    ensures PerContext(r.t) ==> Named(states[k].db, r.id)
    ensures r.t == XidNameMap ==> HasVdir(states[k].db, r.id)
  {
    RunKeeps(states, acts, k);
  }

  /** Lookup and write as one indivisible step. */
  function Atomic(db: Db, name: string, job: Job): Db {
    var x := GetXid(db, name);
    if x == 0 || (job.Rename? && GetXid(db, job.newname) != 0) then db else Perform(db, name, job, x)
  }

  /** An update to a name that is taken fails by itself. */
  lemma RenameToTakenName(db: Db, x: int, y: int, newname: string)
    requires ContextInv(db) && Named(db, x) && Bound(db, newname, y) && x != y
    ensures Exec(db, RenameStmt(x, newname)).None?
  {
    var a :| a in db && a.t == XidNameMap && a.id == x;
    var b :| b in db && b.t == XidNameMap && b.id == y && b.key == Text(newname);
    var u, v := Updated(a, XidNameMap, x, KeyCol, Text(newname)), Updated(b, XidNameMap, x, KeyCol, Text(newname));
  }

  /** An update to the name the context has already changes nothing. */
  lemma RenameToOwnName(db: Db, x: int, name: string)
    requires Bound(db, name, x)
    ensures Or(Exec(db, RenameStmt(x, name)), db) == db
  {
    var a :| a in db && a.t == XidNameMap && a.id == x && a.key == Text(name);
    forall r | r in db ensures Updated(r, XidNameMap, x, KeyCol, Text(name)) == r {
      if r.t == XidNameMap {
        SameKeySameRow(db, XidNameMap, a, r);
      }
    }
    assert db == set q | q in db :: Updated(q, XidNameMap, x, KeyCol, Text(name));
  }

  lemma RenameBlocked(db: Db, name: string, newname: string, x: int)
    requires ContextInv(db) && Bound(db, name, x) && GetXid(db, newname) != 0
    ensures Or(Exec(db, RenameStmt(x, newname)), db) == db
  {
    var y := GetXid(db, newname);
    NameRoundTrip(db, newname, y);
    BindingOneToOne(db, name, newname, x, y);
    if newname == name {
      RenameToOwnName(db, x, name);
    } else {
      RenameToTakenName(db, x, y, newname);
    }
  }

  lemma ResolvedIsAtomic(db: Db, name: string, job: Job, x: int)
    requires ContextInv(db) && Bound(db, name, x)
    ensures Perform(db, name, job, x) == Atomic(db, name, job)
  {
    assert GetXid(db, name) == x != 0 by {
      NameRoundTrip(db, name, x);
    }
    if job.Rename? && GetXid(db, job.newname) != 0 {
      RenameBlocked(db, name, job.newname, x);
    }
  }

  /** Linearization: although lookup and write are separate steps, a lock holder changes the store
      exactly as if both happened at the moment of its write; a fresh creation commits under an id that is
      unused at that moment. The owner check lies before the lock and is not part of this; see
      `Refinement`. */
  lemma WritesAreAtomic(states: seq<State>, acts: seq<Action>, k: nat)
    requires IsRun(states, acts) && k < |acts| && acts[k].Write? && NoneCollides(states, acts, k + 1)
    ensures acts[k].p in states[k].procs
    ensures var me := states[k].procs[acts[k].p];
            && (me.phase.Resolved? ==> states[k + 1].db == Atomic(states[k].db, me.name, me.job))
            && (!me.phase.Resolved? ==>
                  && me.phase.Chosen? && me.job.Create? && !Named(states[k].db, me.phase.xid)
                  && states[k + 1].db == Perform(states[k].db, me.name, me.job, me.phase.xid))
  {
    At(Step, states, acts, k);
    RunKeeps(states, acts, k);
    var me := states[k].procs[acts[k].p];
    if me.phase.Resolved? {
      ResolvedIsAtomic(states[k].db, me.name, me.job, me.phase.xid);
    } else {
      assert !Collides(states[k], acts[k]);
    }
  }

  // ----- mutual exclusion and waiting; these hold in every run, with any number of creations

  lemma {:induction false} MutualExclusion(states: seq<State>, acts: seq<Action>, k: nat)
    requires IsRun(states, acts) && k < |states|
    ensures Mutex(states[k])
  {
    if k > 0 {
      At(Step, states, acts, k - 1);
      MutualExclusion(states, acts, k - 1);
      StepMutex(states[k - 1], acts[k - 1]);
    }
  }

  lemma {:induction false} LockFilesInRuns(states: seq<State>, acts: seq<Action>, k: nat)
    requires IsRun(states, acts) && k < |states|
    ensures LockFiles(states[k])
  {
    if k > 0 {
      At(Step, states, acts, k - 1);
      LockFilesInRuns(states, acts, k - 1);
      StepLockFiles(states[k - 1], acts[k - 1]);
    }
  }

  /** However often and for whatever names a process comes to method_lock, it never holds two locks, and
      it holds none while it is blocked. */
  lemma OneLockPerProcess(states: seq<State>, acts: seq<Action>, k: nat, p: Pid)
    requires IsRun(states, acts) && k < |states| && p in states[k].procs
    ensures |states[k].procs[p].lock.held| <= 1
    ensures states[k].procs[p].lock.waiting.Some? ==> states[k].procs[p].lock.held == {}
  {
    LockFilesInRuns(states, acts, k);
    var me := states[k].procs[p];
    assert LockFile(me);
    if n :| n in me.lock.held {
      assert me.lock.held == {n};
    }
  }

  /** p is blocked in F_LOCK on a lock that q holds. */
  ghost predicate WaitsFor(s: State, p: Pid, q: Pid) {
    p in s.procs && s.procs[p].lock.waiting.Some? && Holder(s, q, s.procs[p].lock.waiting.value)
  }

  function Succ(i: nat, n: nat): nat {
    if i + 1 < n then i + 1 else 0
  }

  /** A process that somebody waits for is not waiting itself, so no circle of waiting processes
      occurs in any run. */
  lemma NoDeadlock(states: seq<State>, acts: seq<Action>, k: nat, circle: seq<Pid>)
    requires IsRun(states, acts) && k < |states| && |circle| > 0
    ensures !forall i | 0 <= i < |circle| :: WaitsFor(states[k], circle[i], circle[Succ(i, |circle|)])
  {
    var s, n := states[k], |circle|;
    LockFilesInRuns(states, acts, k);
    if WaitsFor(s, circle[0], circle[Succ(0, n)]) {
      assert LockFile(s.procs[circle[Succ(0, n)]]);
      assert !WaitsFor(s, circle[Succ(0, n)], circle[Succ(Succ(0, n), n)]);
    }
  }

  /** A blocked process can take the lock as soon as the one it waits for exits: there is no second
      holder to wait for. */
  lemma ReleaseUnblocks(states: seq<State>, acts: seq<Action>, k: nat, p: Pid, q: Pid)
    requires IsRun(states, acts) && k < |states| && WaitsFor(states[k], p, q)
    ensures p != q && Enabled(states[k], Exit(q)) && Enabled(Apply(states[k], Exit(q)), Acquire(p))
  {
    MutualExclusion(states, acts, k);
    LockFilesInRuns(states, acts, k);
    var s, n := states[k], states[k].procs[p].lock.waiting.value;
    var t := Apply(s, Exit(q));
    assert LockFile(s.procs[p]);
    assert forall r :: Holder(t, r, n) ==> Holder(s, r, n) && r != q;
    assert Holder(s, q, n);
  }

  // ----- what method_lock answers

  /** Nobody but p has the lock of `name`. */
  ghost predicate FoundFree(s: State, p: Pid, name: string) {
    forall q | q in s.procs && q != p :: name !in s.procs[q].lock.held
  }

  lemma AttemptIff(s: State, p: Pid, about: string)
    requires Runs(s, p)
    ensures var me, now := s.procs[p], MethodLock(s, p, about);
            && (now.lock.waiting.Some? <==> me.lock.fd.None? && FoundFree(s, p, about))
            && (now.lock.waiting.Some? ==> now.lock.waiting == Some(about) && now.phase == me.phase)
            && (now.lock.waiting.None? && me.phase.Admitted? && about == me.name ==> now.phase.Finished?)
            && (now.lock.waiting.None? && !(me.phase.Admitted? && about == me.name) ==> now.phase == me.phase)
            && now.lock.held == me.lock.held && now.lock.fd.Some?
  {
    assert HeldByOther(s, p, about) <==> !FoundFree(s, p, about) by {
      if q :| q in s.procs && q != p && about in s.procs[q].lock.held {
        assert Holder(s, q, about);
      }
    }
  }

  /** In every run, an attempt goes on to F_LOCK if and only if lockfd was closed and F_TEST found the lock
      with nobody else. Otherwise it is refused at once, and if it was the process's own, that is the end of
      its job; nothing is held then unless it was held before, and nothing at all if lockfd was closed. Either
      way lockfd is open from then on. An internal call changes nothing. */
  lemma AttemptsInRuns(states: seq<State>, acts: seq<Action>, k: nat, p: Pid, about: string)
    requires IsRun(states, acts) && k < |acts| && (acts[k] == Enter(p, about, false) || acts[k] == Enter(p, about, true))
    ensures p in states[k].procs && p in states[k + 1].procs
    ensures var me, now := states[k].procs[p], states[k + 1].procs[p];
            if acts[k].internal then states[k + 1] == states[k]
            else
              && (now.lock.waiting.Some? <==> me.lock.fd.None? && FoundFree(states[k], p, about))
              && (now.lock.waiting.Some? ==> now.lock.waiting == Some(about) && now.phase == me.phase)
              && (now.lock.waiting.None? && me.phase.Admitted? && about == me.name ==> now.phase.Finished?)
              && (now.lock.waiting.None? && !(me.phase.Admitted? && about == me.name) ==> now.phase == me.phase)
              && now.lock.held == me.lock.held && (me.lock.fd.None? ==> now.lock.held == {}) && now.lock.fd.Some?
  {
    At(Step, states, acts, k);
    LockFilesInRuns(states, acts, k);
    assert LockFile(states[k].procs[p]);
    if !acts[k].internal {
      AttemptIff(states[k], p, about);
    }
  }

  /** A process is blocked only because of its own attempt. */
  lemma BlockedBefore(s: State, a: Action, p: Pid)
    requires Enabled(s, a) && p in Apply(s, a).procs && Apply(s, a).procs[p].lock.waiting.Some?
    ensures p in s.procs
    ensures s.procs[p].lock.waiting == Apply(s, a).procs[p].lock.waiting
            || a == Enter(p, Apply(s, a).procs[p].lock.waiting.value, false)
    ensures a.Enter? && a.p == p ==> s.procs[p].lock.waiting.None?
  {
  }

  /** Whoever is blocked in F_LOCK found the lock free when it tested it: the test and the call are two
      steps, and only another process that passed its own test in between can be in the way. */
  lemma {:induction false} BlockedFoundFree(states: seq<State>, acts: seq<Action>, k: nat, p: Pid) returns (j: nat)
    requires IsRun(states, acts) && k < |states| && p in states[k].procs && states[k].procs[p].lock.waiting.Some?
    ensures j < k && acts[j] == Enter(p, states[k].procs[p].lock.waiting.value, false)
    ensures p in states[j].procs && states[j].procs[p].lock.fd.None? && FoundFree(states[j], p, states[k].procs[p].lock.waiting.value)
    ensures forall i | j < i <= k :: p in states[i].procs && states[i].procs[p].lock.waiting == states[k].procs[p].lock.waiting
    decreases k
  {
    At(Step, states, acts, k - 1);
    var a, n := acts[k - 1], states[k].procs[p].lock.waiting.value;
    BlockedBefore(states[k - 1], a, p);
    if a == Enter(p, n, false) {
      AttemptsInRuns(states, acts, k - 1, p, n);
      j := k - 1;
    } else {
      j := BlockedFoundFree(states, acts, k - 1, p);
    }
  }

  /** A process that finds the lock taken is refused: the holder works on, and the other process never comes
      to a lookup or a write. */
  lemma {:induction false} RefusedForGood(states: seq<State>, acts: seq<Action>, k: nat, j: nat, p: Pid)
    requires IsRun(states, acts) && k < |acts| && k < j < |states|
    requires p in states[k].procs && acts[k] == Enter(p, states[k].procs[p].name, false)
    requires states[k].procs[p].phase.Admitted? && states[k].procs[p].lock.fd.None?
    requires !FoundFree(states[k], p, states[k].procs[p].name)
    requires forall i | k < i < j :: acts[i] != Exit(p)
    ensures p in states[j].procs && states[j].procs[p].phase.Finished? && states[j].procs[p].lock.held == {}
    ensures states[j].procs[p].lock.waiting.None? && states[j].procs[p].lock.fd.Some?
    ensures forall i | k <= i < j :: acts[i] != Read(p) && acts[i] != Write(p) && acts[i] != Acquire(p)
    decreases j
  {
    if j == k + 1 {
      AttemptsInRuns(states, acts, k, p, states[k].procs[p].name);
    } else {
      RefusedForGood(states, acts, k, j - 1, p);
      At(Step, states, acts, j - 1);
      StaysRefused(states[j - 1], acts[j - 1], p);
    }
  }

  lemma StaysRefused(s: State, a: Action, p: Pid)
    requires Enabled(s, a) && a != Exit(p) && p in s.procs && s.procs[p].phase.Finished? && s.procs[p].lock.held == {}
    requires s.procs[p].lock.waiting.None? && s.procs[p].lock.fd.Some?
    ensures a != Read(p) && a != Write(p) && a != Acquire(p)
    ensures p in Apply(s, a).procs && Apply(s, a).procs[p].phase.Finished? && Apply(s, a).procs[p].lock == s.procs[p].lock
  {
  }

  // ----- what a writer has been through

  /** The process exists, and asks for the same as in state s. */
  ghost predicate SameJob(s: State, p: Pid, me: Proc) {
    p in s.procs && s.procs[p].user == me.user && s.procs[p].name == me.name && s.procs[p].job == me.job
  }

  /** The request is let in: vx.create asks for no owner. */
  ghost predicate LetIn(db: Db, me: Proc) {
    me.job.Create? || IsOwner(db, me.user, me.name)
  }

  /** In every run, the owner check lets a process on if and only if its user owns the context by then. */
  lemma OwnerCheckInRuns(states: seq<State>, acts: seq<Action>, k: nat, p: Pid)
    requires IsRun(states, acts) && k < |acts| && acts[k] == Admit(p)
    ensures p in states[k].procs && p in states[k + 1].procs && states[k + 1].db == states[k].db
    ensures states[k + 1].procs[p].phase == if LetIn(states[k].db, states[k].procs[p]) then Admitted else Finished
  {
    At(Step, states, acts, k);
  }

  /** A process that is neither new nor finished was there before, with the same job, unless it has just been
      let in. */
  lemma ActiveBefore(s: State, a: Action, p: Pid)
    requires Enabled(s, a) && p in Apply(s, a).procs && !Apply(s, a).procs[p].phase.Begin? && !Apply(s, a).procs[p].phase.Finished?
    ensures SameJob(s, p, Apply(s, a).procs[p])
    ensures a == Admit(p) || (!s.procs[p].phase.Begin? && !s.procs[p].phase.Finished?)
    ensures a == Admit(p) ==> LetIn(s.db, s.procs[p])
  {
  }

  lemma {:induction false} WasLetIn(states: seq<State>, acts: seq<Action>, k: nat, p: Pid) returns (j: nat)
    requires IsRun(states, acts) && k < |states| && p in states[k].procs
    requires !states[k].procs[p].phase.Begin? && !states[k].procs[p].phase.Finished?
    ensures j < k && acts[j] == Admit(p) && LetIn(states[j].db, states[k].procs[p])
    ensures forall i | j <= i <= k :: SameJob(states[i], p, states[k].procs[p])
    decreases k
  {
    At(Step, states, acts, k - 1);
    ActiveBefore(states[k - 1], acts[k - 1], p);
    if acts[k - 1] == Admit(p) {
      j := k - 1;
    } else {
      j := WasLetIn(states, acts, k - 1, p);
    }
  }

  /** vx.rename has looked at the new name, under its lock. */
  predicate HasChecked(me: Proc) {
    me.job.Rename? && (me.phase.Checked? || me.phase.Resolved?)
  }

  lemma CheckedBefore(s: State, a: Action, p: Pid)
    requires Enabled(s, a) && p in Apply(s, a).procs && HasChecked(Apply(s, a).procs[p])
    ensures SameJob(s, p, Apply(s, a).procs[p])
    ensures HasChecked(s.procs[p]) || (a == Check(p) && s.procs[p].phase.Locked? && GetXid(s.db, s.procs[p].job.newname) == 0)
  {
  }

  lemma {:induction false} HasSeenNewName(states: seq<State>, acts: seq<Action>, k: nat, p: Pid) returns (j: nat)
    requires IsRun(states, acts) && k < |states| && p in states[k].procs && HasChecked(states[k].procs[p])
    ensures j < k && acts[j] == Check(p) && GetXid(states[j].db, states[k].procs[p].job.newname) == 0
    ensures p in states[j].procs && states[j].procs[p].phase.Locked? && SameJob(states[j], p, states[k].procs[p])
    decreases k
  {
    At(Step, states, acts, k - 1);
    CheckedBefore(states[k - 1], acts[k - 1], p);
    if HasChecked(states[k - 1].procs[p]) {
      j := HasSeenNewName(states, acts, k - 1, p);
    } else {
      j := k - 1;
    }
  }

  /** In every run a write comes from a process that was let in as an owner, unless it creates, and, if it
      renames, has seen the new name unused after that and under its lock. */
  lemma WriterWasChecked(states: seq<State>, acts: seq<Action>, k: nat) returns (i: nat, j: nat)
    requires IsRun(states, acts) && k < |acts| && acts[k].Write?
    ensures acts[k].p in states[k].procs
    ensures var p, me := acts[k].p, states[k].procs[acts[k].p];
            && i < k && acts[i] == Admit(p) && LetIn(states[i].db, me)
            && (me.job.Rename? ==> i < j < k && acts[j] == Check(p) && GetXid(states[j].db, me.job.newname) == 0
                                   && p in states[j].procs && me.name in states[j].procs[p].lock.held)
  {
    At(Step, states, acts, k);
    var p, me := acts[k].p, states[k].procs[acts[k].p];
    if me.job.Rename? {
      RenamesResolved(states, acts, k, p);
      j := HasSeenNewName(states, acts, k, p);
      i := WasLetIn(states, acts, j, p);
      LockFilesInRuns(states, acts, j);
      assert LockFile(states[j].procs[p]);
    } else {
      i := WasLetIn(states, acts, k, p);
      j := i;
    }
  }

  /** A process has an id of its own choice only for vx.create. */
  lemma {:induction false} RenamesResolved(states: seq<State>, acts: seq<Action>, k: nat, p: Pid)
    requires IsRun(states, acts) && k < |states| && p in states[k].procs
    ensures states[k].procs[p].phase.Fresh? || states[k].procs[p].phase.Chosen? ==> states[k].procs[p].job.Create?
    decreases k
  {
    if k > 0 {
      At(Step, states, acts, k - 1);
      if p in states[k - 1].procs {
        RenamesResolved(states, acts, k - 1, p);
      }
      CreatesOnly(states[k - 1], acts[k - 1], p);
    }
  }

  lemma CreatesOnly(s: State, a: Action, p: Pid)
    requires Enabled(s, a) && p in Apply(s, a).procs
    requires p in s.procs && (s.procs[p].phase.Fresh? || s.procs[p].phase.Chosen?) ==> s.procs[p].job.Create?
    ensures Apply(s, a).procs[p].phase.Fresh? || Apply(s, a).procs[p].phase.Chosen? ==> Apply(s, a).procs[p].job.Create?
  {
  }

  // ----- what changes under the lock

  /** The rows a lock protects: names, directories and configuration, the cpuset included. */
  predicate Protected(t: Table) {
    t == XidNameMap || t == Vdir || Configurable(t)
  }

  lemma PerformTouches(db: Db, name: string, job: Job, x: int, r: Row)
    requires ValidJob(job) && r.id != x
    ensures r in Perform(db, name, job, x) <==> r in db
  {
    match job
    case Put(t, key, data) => PutTouches(db, Row(t, x, key, data), r);
    case Unset(t, only) =>
    case Look =>
    case Remove => RunDeleteAll(db, REMOVED, x);
    case Rename(newname) =>
      if Exec(db, RenameStmt(x, newname)).Some? {
        RenameRows(db, x, newname, Perform(db, name, job, x));
      }
    case Create(vdir, cfg) => CreateOutcome(db, x, name, vdir, cfg);
  }

  lemma PutTouches(db: Db, row: Row, r: Row)
    requires Configurable(row.t) && r.id != row.id
    ensures r in Exec(db, Replace(row)).value <==> r in db
  {
  }

  lemma StepTouches(s: State, a: Action, r: Row)
    requires ProcsInv(s) && Enabled(s, a) && Protected(r.t) && !(r in Apply(s, a).db <==> r in s.db)
    ensures a.Write? && a.p in s.procs && (s.procs[a.p].phase == Resolved(r.id) || s.procs[a.p].phase == Chosen(r.id))
  {
    if a.Write? {
      assert ProcInv(s.procs[a.p]);
      if r.id != s.procs[a.p].phase.xid {
        PerformTouches(s.db, s.procs[a.p].name, s.procs[a.p].job, s.procs[a.p].phase.xid, r);
      }
    } else if a.Unlocked? && Exec(s.db, a.stmt).Some? {
      ExecFrame(s.db, a.stmt);
    }
  }

  /** In every run, names, directories and configuration change in writes alone, of a process that holds the
      lock of its name, and only for the id it has looked up for that name or chosen for it. */
  lemma ChangesAreLocked(states: seq<State>, acts: seq<Action>, k: nat, r: Row)
    requires IsRun(states, acts) && k < |acts| && NoneCollides(states, acts, k)
    requires r.t == XidNameMap || r.t == Vdir || r.t == VxCpuset || PerContext(r.t)
    requires !(r in states[k + 1].db <==> r in states[k].db)
    ensures acts[k].Write? && acts[k].p in states[k].procs
    ensures var me := states[k].procs[acts[k].p];
            && me.name in me.lock.held && !HeldByOther(states[k], acts[k].p, me.name)
            && ((me.phase.Resolved? && Bound(states[k].db, me.name, r.id)) || (me.phase == Chosen(r.id) && me.job.Create?))
  {
    At(Step, states, acts, k);
    RunKeeps(states, acts, k);
    StepTouches(states[k], acts[k], r);
    var p, me := acts[k].p, states[k].procs[acts[k].p];
    assert LockFile(me) && ProcInv(me);
    assert Holder(states[k], p, me.name);
  }
}
