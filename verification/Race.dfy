/** Where the lock does not help: two creations under different names, and an owner check that is out of
    date when the write happens. */
module Race {
  import opened Wrappers
  import opened Schema
  import opened Store
  import opened Validate
  import opened Lookup
  import opened Auth
  import opened Template
  import opened Invariant
  import opened Alloc
  import opened Traces
  import opened Locking
  import Reachable
  import Rights

  ghost predicate NoWrites(acts: seq<Action>) {
    forall i | 0 <= i < |acts| :: !acts[i].Write?
  }

  /** A process that has its lock. */
  function Inside(user: string, name: string, job: Job, phase: Phase): Proc {
    Proc(user, name, job, phase, Lock(Some(name), None, {name}))
  }

  /** A process that has passed its owner check. */
  function Outside(user: string, name: string, job: Job, phase: Phase): Proc {
    Proc(user, name, job, phase, Lock(None, None, {}))
  }

  /** State s with process p as `me`. */
  function With(s: State, p: Pid, me: Proc): State {
    s.(procs := s.procs[p := me])
  }

  lemma WithTwice(s: State, p: Pid, a: Proc, b: Proc)
    ensures With(With(s, p, a), p, b) == With(s, p, b)
  {
    assert s.procs[p := a][p := b] == s.procs[p := b];
  }

  /** A further step that writes nothing. */
  lemma ExtendQuiet(states: seq<State>, acts: seq<Action>, a: Action, t: State) returns (ss: seq<State>, bs: seq<Action>)
    requires IsRun(states, acts) && NoWrites(acts) && Step(Last(states), a, t) && !a.Write?
    ensures IsRun(ss, bs) && NoWrites(bs) && Last(ss) == t
    ensures ss == states + [t] && bs == acts + [a]
  {
    ss, bs := Extend(Step, states, acts, a, t);
  }

  ghost predicate Admits(s: State, p: Pid, user: string, name: string, job: Job) {
    && Step(s, Spawn(p, user, name, job), With(s, p, Outside(user, name, job, Begin)))
    && Step(With(s, p, Outside(user, name, job, Begin)), Admit(p), With(s, p, Outside(user, name, job, Admitted)))
  }

  lemma SpawnStep(s: State, p: Pid, user: string, name: string, job: Job)
    requires p !in s.procs && ValidName(name) && ValidJob(job)
    ensures Step(s, Spawn(p, user, name, job), With(s, p, Outside(user, name, job, Begin)))
  {
  }

  lemma AdmitStep(s: State, p: Pid, user: string, name: string, job: Job)
    requires p in s.procs && s.procs[p] == Outside(user, name, job, Begin) && PassesOwnerCheck(s.db, s.procs[p])
    ensures Step(s, Admit(p), With(s, p, Outside(user, name, job, Admitted)))
  {
  }

  /** Spawned and admitted; a creation needs no owner. */
  lemma AdmittedSteps(s: State, p: Pid, user: string, name: string, job: Job)
    requires p !in s.procs && ValidName(name) && ValidJob(job) && PassesOwnerCheck(s.db, Outside(user, name, job, Begin))
    ensures Admits(s, p, user, name, job)
  {
    SpawnStep(s, p, user, name, job);
    AdmitStep(With(s, p, Outside(user, name, job, Begin)), p, user, name, job);
    WithTwice(s, p, Outside(user, name, job, Begin), Outside(user, name, job, Admitted));
  }

  lemma AdmitRun(states: seq<State>, acts: seq<Action>, p: Pid, user: string, name: string, job: Job)
    returns (ss: seq<State>, bs: seq<Action>)
    requires IsRun(states, acts) && NoWrites(acts) && p !in Last(states).procs
    requires Admits(Last(states), p, user, name, job)
    ensures IsRun(ss, bs) && NoWrites(bs) && bs == acts + [Spawn(p, user, name, job), Admit(p)]
    ensures |ss| == |states| + 2 && ss[0] == states[0]
    ensures Last(ss) == With(Last(states), p, Outside(user, name, job, Admitted))
  {
    var s := Last(states);
    ss, bs := ExtendQuiet(states, acts, Spawn(p, user, name, job), With(s, p, Outside(user, name, job, Begin)));
    ss, bs := ExtendQuiet(ss, bs, Admit(p), With(s, p, Outside(user, name, job, Admitted)));
  }

  lemma LockSteps(s: State, p: Pid, user: string, name: string, job: Job) returns (waiting: State)
    requires p in s.procs && s.procs[p] == Outside(user, name, job, Admitted) && FoundFree(s, p, name)
    ensures Step(s, Enter(p, name, false), waiting)
    ensures Step(waiting, Acquire(p), With(s, p, Inside(user, name, job, Locked)))
  {
    var me := Proc(user, name, job, Admitted, Lock(Some(name), Some(name), {}));
    waiting := With(s, p, me);
    var none: set<string> := {};
    assert none + {name} == {name};
    assert Acquired(me) == Inside(user, name, job, Locked);
    WithTwice(s, p, me, Inside(user, name, job, Locked));
  }

  /** A lock nobody else has is taken in two steps. */
  lemma LockRun(states: seq<State>, acts: seq<Action>, p: Pid, user: string, name: string, job: Job)
    returns (ss: seq<State>, bs: seq<Action>)
    requires IsRun(states, acts) && NoWrites(acts) && p in Last(states).procs
    requires Last(states).procs[p] == Outside(user, name, job, Admitted) && FoundFree(Last(states), p, name)
    ensures IsRun(ss, bs) && NoWrites(bs) && bs == acts + [Enter(p, name, false), Acquire(p)]
    ensures |ss| == |states| + 2 && ss[0] == states[0]
    ensures Last(ss) == With(Last(states), p, Inside(user, name, job, Locked))
  {
    var waiting := LockSteps(Last(states), p, user, name, job);
    ss, bs := ExtendQuiet(states, acts, Enter(p, name, false), waiting);
    ss, bs := ExtendQuiet(ss, bs, Acquire(p), With(Last(states), p, Inside(user, name, job, Locked)));
  }

  lemma ReadStep(s: State, p: Pid, user: string, name: string, job: Job)
    requires p in s.procs && s.procs[p] == Inside(user, name, job, Locked) && !job.Rename?
    ensures GetXid(s.db, name) != 0 ==> Step(s, Read(p), With(s, p, Inside(user, name, job, Resolved(GetXid(s.db, name)))))
    ensures GetXid(s.db, name) == 0 && job.Create? ==> Step(s, Read(p), With(s, p, Inside(user, name, job, Fresh)))
  {
  }

  /** A creation under an unused, unlocked name gets as far as choosing its id. */
  lemma ToFresh(states: seq<State>, acts: seq<Action>, p: Pid, user: string, name: string, job: Job)
    returns (ss: seq<State>, bs: seq<Action>)
    requires IsRun(states, acts) && NoWrites(acts)
    requires p !in Last(states).procs && ValidName(name) && job.Create? && ValidJob(job)
    requires FoundFree(Last(states), p, name) && GetXid(Last(states).db, name) == 0
    ensures IsRun(ss, bs) && NoWrites(bs) && Last(ss) == With(Last(states), p, Inside(user, name, job, Fresh))
  {
    var s := Last(states);
    AdmittedSteps(s, p, user, name, job);
    ss, bs := AdmitRun(states, acts, p, user, name, job);
    ss, bs := LockRun(ss, bs, p, user, name, job);
    WithTwice(s, p, Outside(user, name, job, Admitted), Inside(user, name, job, Locked));
    WithTwice(s, p, Inside(user, name, job, Locked), Inside(user, name, job, Fresh));
    ReadStep(Last(ss), p, user, name, job);
    ss, bs := ExtendQuiet(ss, bs, Read(p), With(s, p, Inside(user, name, job, Fresh)));
  }

  lemma EmptyStoreAllocatesTwo()
    ensures FreeXid({}) == 2
    ensures forall n :: GetXid({}, n) == 0
  {
    assert Ids({}, XidNameMap) == {};
  }

  /** Both processes hold their own lock and have chosen context id x. */
  function BothChosen(db: Db, x: int, u: string, m: string, n: string, j: Job, k: Job): State {
    State(db, map[0 := Inside(u, m, j, Chosen(x)), 1 := Inside(u, n, k, Chosen(x))])
  }

  /** Both creations have found their names unused. */
  lemma ReachBothFresh(u: string, m: string, n: string, j: Job, k: Job) returns (states: seq<State>, acts: seq<Action>)
    requires ValidName(m) && ValidName(n) && m != n
    requires j.Create? && k.Create? && ValidJob(j) && ValidJob(k)
    ensures IsRun(states, acts) && NoWrites(acts)
    ensures Last(states) == State({}, map[0 := Inside(u, m, j, Fresh), 1 := Inside(u, n, k, Fresh)])
  {
    EmptyStoreAllocatesTwo();
    var s0 := State({}, map[]);
    states, acts := ToFresh([s0], [], 0, u, m, j);
    assert Last(states).procs == map[0 := Inside(u, m, j, Fresh)];
    states, acts := ToFresh(states, acts, 1, u, n, k);
  }

  lemma ChooseSteps(u: string, m: string, n: string, j: Job, k: Job) returns (mid: State)
    requires FreeXid({}) != 0
    ensures Step(State({}, map[0 := Inside(u, m, j, Fresh), 1 := Inside(u, n, k, Fresh)]), Choose(0), mid)
    ensures Step(mid, Choose(1), BothChosen({}, FreeXid({}), u, m, n, j, k))
  {
    var x := FreeXid({});
    mid := State({}, map[0 := Inside(u, m, j, Chosen(x)), 1 := Inside(u, n, k, Fresh)]);
    assert map[0 := Inside(u, m, j, Fresh), 1 := Inside(u, n, k, Fresh)][0 := Inside(u, m, j, Chosen(x))] == mid.procs;
    assert mid.procs[1 := Inside(u, n, k, Chosen(x))] == BothChosen({}, x, u, m, n, j, k).procs;
  }

  lemma ReachBothChosen(u: string, m: string, n: string, j: Job, k: Job)
    returns (states: seq<State>, acts: seq<Action>, x: int)
    requires ValidName(m) && ValidName(n) && m != n
    requires j.Create? && k.Create? && ValidJob(j) && ValidJob(k)
    ensures IsRun(states, acts) && NoWrites(acts) && Last(states) == BothChosen({}, x, u, m, n, j, k)
  {
    EmptyStoreAllocatesTwo();
    states, acts := ReachBothFresh(u, m, n, j, k);
    var mid := ChooseSteps(u, m, n, j, k);
    x := FreeXid({});
    states, acts := ExtendQuiet(states, acts, Choose(0), mid);
    states, acts := ExtendQuiet(states, acts, Choose(1), BothChosen({}, x, u, m, n, j, k));
  }

  /** In a store that knows no other context the creation always commits. */
  lemma LoneCommit(db: Db, x: int, name: string, vdir: string, cfg: Config)
    requires RepeatsNothing(cfg) && forall r | r in db :: r.id == x
    ensures var out := Run(db, CreateScript(x, name, vdir, cfg));
            out.Some? && (forall r | r in out.value :: r.id == x) && forall n :: Bound(out.value, n, x) <==> n == name
  {
    CreateOutcome(db, x, name, vdir, cfg);
    var d := Run(db, CreateScript(x, name, vdir, cfg)).value;
    CreateRows(db, x, name, vdir, cfg, d);
    CreateNames(db, x, name, vdir, cfg, d);
  }

  /** The first commit binds m; the second one takes the binding away. */
  lemma SecondCommitWipesFirst(db: Db, x: int, u: string, m: string, n: string, j: Job, k: Job)
    returns (mid: State, end: State)
    requires m != n && j.Create? && k.Create? && RepeatsNothing(j.cfg) && RepeatsNothing(k.cfg)
    requires forall r | r in db :: r.id == x
    ensures Step(BothChosen(db, x, u, m, n, j, k), Write(0), mid) && Step(mid, Write(1), end)
    ensures 1 in mid.procs && mid.procs[1] == Inside(u, n, k, Chosen(x))
    ensures Bound(mid.db, m, x) && !Bound(end.db, m, x)
  {
    mid := Apply(BothChosen(db, x, u, m, n, j, k), Write(0));
    LoneCommit(db, x, m, j.vdir, j.cfg);
    assert mid.procs[1] == Inside(u, n, k, Chosen(x));
    end := Apply(mid, Write(1));
    LoneCommit(mid.db, x, n, k.vdir, k.cfg);
  }

  /** Two creations under different names choose the same id, and the second commit wipes out the
      first context although nobody removed or renamed it: the only two writes are creations. */
  lemma TwoCreationsCollide(u: string, m: string, n: string, j: Job, k: Job)
    returns (states: seq<State>, acts: seq<Action>, i: nat, x: int)
    requires ValidName(m) && ValidName(n) && m != n
    requires j.Create? && k.Create? && ValidJob(j) && ValidJob(k) && RepeatsNothing(j.cfg) && RepeatsNothing(k.cfg)
    ensures IsRun(states, acts) && |acts| == i + 2 && NoWrites(acts[..i])
    ensures acts[i] == Write(0) && acts[i + 1] == Write(1)
    ensures 1 in states[i + 1].procs && states[i + 1].procs[1] == Inside(u, n, k, Chosen(x))
    ensures Bound(states[i + 1].db, m, x) && !Bound(states[i + 2].db, m, x)
  {
    var ss, as_;
    ss, as_, x := ReachBothChosen(u, m, n, j, k);
    var mid, end := SecondCommitWipesFirst({}, x, u, m, n, j, k);
    i := |as_|;
    states, acts := Extend(Step, ss, as_, Write(0), mid);
    states, acts := Extend(Step, states, acts, Write(1), end);
    assert acts[..i] == as_;
  }

  // ----- an owner check out of date

  /** A process on its way to a lock nobody else has. */
  function OnlyProc(db: Db, me: Proc): State {
    State(db, map[0 := me])
  }

  lemma OnlyWith(s: State, me: Proc)
    requires s.procs == map[] || (s.procs.Keys == {0})
    ensures With(s, 0, me) == OnlyProc(s.db, me)
  {
    assert s.procs[0 := me] == map[0 := me];
  }

  lemma UnlockedStep(db: Db, stmt: Stmt, d: Db, me: Proc)
    requires LockFree(TableOf(stmt)) && Exec(db, stmt) == Some(d)
    ensures Step(OnlyProc(db, me), Unlocked(stmt), OnlyProc(d, me))
  {
  }

  /** One process passes its owner check. */
  lemma AdmittedRun(db: Db, user: string, name: string, job: Job) returns (states: seq<State>, acts: seq<Action>)
    requires ContextInv(db) && ValidName(name) && ValidJob(job) && PassesOwnerCheck(db, Outside(user, name, job, Begin))
    ensures IsRun(states, acts) && NoWrites(acts) && acts == [Spawn(0, user, name, job), Admit(0)]
    ensures |states| == 3 && states[0].db == db && Last(states) == OnlyProc(db, Outside(user, name, job, Admitted))
  {
    var s := State(db, map[]);
    OnlyWith(s, Outside(user, name, job, Admitted));
    AdmittedSteps(s, 0, user, name, job);
    states, acts := AdmitRun([s], [], 0, user, name, job);
  }

  /** A statement of somebody else. */
  lemma UnlockedRun(states: seq<State>, acts: seq<Action>, me: Proc, stmt: Stmt, db: Db, d: Db)
    returns (ss: seq<State>, bs: seq<Action>)
    requires IsRun(states, acts) && NoWrites(acts) && Last(states) == OnlyProc(db, me)
    requires LockFree(TableOf(stmt)) && Exec(db, stmt) == Some(d)
    ensures IsRun(ss, bs) && NoWrites(bs) && bs == acts + [Unlocked(stmt)]
    ensures |ss| == |states| + 1 && ss[0] == states[0] && Last(ss) == OnlyProc(d, me)
  {
    UnlockedStep(db, stmt, d, me);
    ss, bs := ExtendQuiet(states, acts, Unlocked(stmt), OnlyProc(d, me));
  }

  lemma ReadWriteSteps(db: Db, user: string, name: string, job: Job, x: int) returns (end: State)
    requires !job.Rename? && GetXid(db, name) == x != 0
    ensures Step(OnlyProc(db, Inside(user, name, job, Locked)), Read(0), OnlyProc(db, Inside(user, name, job, Resolved(x))))
    ensures Step(OnlyProc(db, Inside(user, name, job, Resolved(x))), Write(0), end) && end.db == Perform(db, name, job, x)
  {
    ReadStep(OnlyProc(db, Inside(user, name, job, Locked)), 0, user, name, job);
    OnlyWith(OnlyProc(db, Inside(user, name, job, Locked)), Inside(user, name, job, Resolved(x)));
    end := Apply(OnlyProc(db, Inside(user, name, job, Resolved(x))), Write(0));
  }

  /** From there to the write. */
  lemma WritingRun(states: seq<State>, acts: seq<Action>, db: Db, user: string, name: string, job: Job, x: int)
    returns (ss: seq<State>, bs: seq<Action>)
    requires IsRun(states, acts) && NoWrites(acts) && Last(states) == OnlyProc(db, Outside(user, name, job, Admitted))
    requires !job.Rename? && GetXid(db, name) == x != 0
    ensures IsRun(ss, bs) && bs == acts + [Enter(0, name, false), Acquire(0), Read(0), Write(0)]
    ensures |ss| == |states| + 4 && ss[0] == states[0]
    ensures ss[|ss| - 2] == OnlyProc(db, Inside(user, name, job, Resolved(x)))
    ensures ss[|ss| - 1].db == Perform(db, name, job, x)
  {
    ss, bs := LockRun(states, acts, 0, user, name, job);
    OnlyWith(Last(states), Inside(user, name, job, Locked));
    ss, bs := ReadWriteRun(ss, bs, db, user, name, job, x);
  }

  lemma ReadWriteRun(states: seq<State>, acts: seq<Action>, db: Db, user: string, name: string, job: Job, x: int)
    returns (ss: seq<State>, bs: seq<Action>)
    requires IsRun(states, acts) && NoWrites(acts) && Last(states) == OnlyProc(db, Inside(user, name, job, Locked))
    requires !job.Rename? && GetXid(db, name) == x != 0
    ensures IsRun(ss, bs) && bs == acts + [Read(0), Write(0)]
    ensures |ss| == |states| + 2 && ss[0] == states[0]
    ensures ss[|ss| - 2] == OnlyProc(db, Inside(user, name, job, Resolved(x)))
    ensures ss[|ss| - 1].db == Perform(db, name, job, x)
  {
    var end := ReadWriteSteps(db, user, name, job, x);
    ss, bs := ExtendQuiet(states, acts, Read(0), OnlyProc(db, Inside(user, name, job, Resolved(x))));
    ss, bs := Extend(Step, ss, bs, Write(0), end);
  }

  /** The owner check comes before the lock: a user who has just lost its only claim to a context still
      gets to write its configuration. */
  lemma StaleAdmission(db: Db, user: string, name: string, x: int, job: Job)
    returns (states: seq<State>, acts: seq<Action>)
    requires ContextInv(db) && !IsAdmin(db, user) && IsOwner(db, user, name) && x == GetXid(db, name)
    requires job.Put? && ValidJob(job)
    ensures IsRun(states, acts) && |acts| == 7 && states[0].db == db
    ensures acts == [Spawn(0, user, name, job), Admit(0)] + [Unlocked(Delete(XidUidMap, ByBoth(x, Int(GetUid(db, user)))))]
                    + [Enter(0, name, false), Acquire(0), Read(0), Write(0)]
    ensures !IsOwner(states[6].db, user, name) && GetXid(states[6].db, name) == x
    ensures Exec(db, Delete(XidUidMap, ByBoth(x, Int(GetUid(db, user))))) == Some(states[6].db)
    ensures states[6].procs == map[0 := Inside(user, name, job, Resolved(x))]
    ensures states[7].db == Perform(states[6].db, name, job, x)
  {
    var stmt := Delete(XidUidMap, ByBoth(x, Int(GetUid(db, user))));
    var d := OwnerDropped(db, user, name, x, stmt);
    states, acts := StaleRun(db, user, name, x, job, stmt, d);
  }

  lemma StaleRun(db: Db, user: string, name: string, x: int, job: Job, stmt: Stmt, d: Db)
    returns (states: seq<State>, acts: seq<Action>)
    requires ContextInv(db) && ValidName(name) && ValidJob(job) && !job.Rename?
    requires PassesOwnerCheck(db, Outside(user, name, job, Begin))
    requires LockFree(TableOf(stmt)) && Exec(db, stmt) == Some(d) && GetXid(d, name) == x != 0
    ensures IsRun(states, acts) && |acts| == 7 && states[0].db == db
    ensures acts == [Spawn(0, user, name, job), Admit(0)] + [Unlocked(stmt)] + [Enter(0, name, false), Acquire(0), Read(0), Write(0)]
    ensures states[6] == OnlyProc(d, Inside(user, name, job, Resolved(x)))
    ensures states[7].db == Perform(d, name, job, x)
  {
    var ss, as_ := AdmittedRun(db, user, name, job);
    ss, as_ := UnlockedRun(ss, as_, Outside(user, name, job, Admitted), stmt, db, d);
    states, acts := WritingRun(ss, as_, d, user, name, job, x);
  }

  lemma OwnerDropped(db: Db, user: string, name: string, x: int, stmt: Stmt) returns (d: Db)
    requires !IsAdmin(db, user) && IsOwner(db, user, name) && x == GetXid(db, name)
    requires stmt == Delete(XidUidMap, ByBoth(x, Int(GetUid(db, user))))
    ensures Exec(db, stmt) == Some(d) && !IsOwner(d, user, name) && GetXid(d, name) == x != 0
  {
    d := Exec(db, stmt).value;
    Rights.OwnerRevoked(db, name, stmt.w, d, user, name);
    ExecFrame(db, stmt);
    Reachable.IdOfSame(db, d, XidNameMap, name);
  }
}
