/** Automatic restarts, interleaved: helper.restart records a request, helper.shutdown consumes it, and a
    child waits and then starts a context (src/vcd/methods/helper/helper_restart.c, helper_shutdown.c).

The child keeps the name it looked up before it waits; vx.start resolves that name again, without a lock.
Other requests come in between: they never add a restart record.
*/
module Restarts {
  import opened Wrappers
  import opened Schema
  import opened Store
  import opened Validate
  import opened Lookup
  import opened Auth
  import opened Template
  import opened Invariant
  import opened Alloc
  import opened Requests
  import opened Reachable
  import opened Guarantees
  import opened Traces
  import Rebirth

  type Pid = nat

  datatype Phase =
    | RestartCalled(x: int)                 // helper.restart: name not looked up yet
    | RestartFound(x: int)                  // helper.restart: vxdb_getname found the context
    | ShutdownCalled(x: int)                // helper.shutdown
    | ShutdownFound(x: int, name: string)
    | Waiting(x: int, name: string)         // child of helper.shutdown, restart record consumed
    | Done

  datatype Event =
    | Requested(x: int, merged: bool)   // INSERT OR REPLACE; merged: the record was there already
    | Consumed(x: int)                  // DELETE removed a record
    | Cleared(gone: set<int>)           // records that went with other requests
    | Started(y: int, x: int)           // the child that waited for x called vx.start, which found y
    | Abandoned(x: int)                 // the child gave up, was killed, or found no context

  datatype State = State(db: Db, procs: map<Pid, Phase>, log: seq<Event>)

  datatype Action =
    | Call(p: Pid, phase: Phase)            // a helper request arrives
    | Look(p: Pid)                          // vxdb_getname
    | Record(p: Pid)                        // helper.restart writes its record
    | Consume(p: Pid)                       // helper.shutdown deletes the record and looks at the change count
    | Child(p: Pid, out: Rebirth.Outcome)   // the child's wait ends
    | Exit(p: Pid)                          // a process goes away
    | Other(d: Db)                          // another request leaves the store as d

  function Pending(db: Db): set<int> {
    Ids(db, Restart)
  }

  predicate Enabled(s: State, a: Action) {
    match a
    case Call(p, phase) => p !in s.procs && (phase.RestartCalled? || phase.ShutdownCalled?)
    case Look(p) => p in s.procs && (s.procs[p].RestartCalled? || s.procs[p].ShutdownCalled?)
    case Record(p) => p in s.procs && s.procs[p].RestartFound?
    case Consume(p) => p in s.procs && s.procs[p].ShutdownFound?
    case Child(p, _) => p in s.procs && s.procs[p].Waiting?
    case Exit(p) => p in s.procs && !s.procs[p].Waiting?
    case Other(d) => Pending(d) <= Pending(s.db)
  }

  function Move(s: State, p: Pid, phase: Phase, ev: seq<Event>): State {
    s.(procs := s.procs[p := phase], log := s.log + ev)
  }

  function Found(db: Db, phase: Phase): Phase
    requires phase.RestartCalled? || phase.ShutdownCalled?
  {
    var key := GetName(db, phase.x);
    if key.None? || !key.value.Text? then Done
    else if phase.RestartCalled? then RestartFound(phase.x)
    else ShutdownFound(phase.x, key.value.s)
  }

  function WithRecord(db: Db, x: int): Db {
    Exec(db, Replace(Row(Restart, x, Null, []))).value
  }

  function WithoutRecord(db: Db, x: int): Db {
    Exec(db, Delete(Restart, ById(x))).value
  }

  /** What the child does when its wait is over: vx.start looks the name up again. */
  function Ending(db: Db, x: int, name: string, out: Rebirth.Outcome): Event {
    var y := GetXid(db, name);
    if out == Rebirth.Start && y != 0 then Started(y, x) else Abandoned(x)
  }

  function Apply(s: State, a: Action): State
    requires Enabled(s, a)
  {
    match a
    case Call(p, phase) => Move(s, p, phase, [])
    case Look(p) => Move(s, p, Found(s.db, s.procs[p]), [])
    case Record(p) =>
      var x := s.procs[p].x;
      Move(s.(db := WithRecord(s.db, x)), p, Done, [Requested(x, x in Pending(s.db))])
    case Consume(p) =>
      var x := s.procs[p].x;
      var t := s.(db := WithoutRecord(s.db, x));
      if x in Pending(s.db) then Move(t, p, Waiting(x, s.procs[p].name), [Consumed(x)]) else Move(t, p, Done, [])
    case Child(p, out) => Move(s, p, Done, [Ending(s.db, s.procs[p].x, s.procs[p].name, out)])
    case Exit(p) => s.(procs := s.procs - {p})
    case Other(d) => s.(db := d, log := s.log + [Cleared(Pending(s.db) - Pending(d))])
  }

  // ----- the steps are the requests

  lemma RecordPending(db: Db, x: int)
    ensures Pending(WithRecord(db, x)) == Pending(db) + {x}
  {
    var row := Row(Restart, x, Null, []);
    var d := WithRecord(db, x);
    assert row in d;
    forall i | i in Pending(db) ensures i in Pending(d) {
      var r :| r in db && r.t == Restart && r.id == i;
      assert r.id != x ==> r in d;
    }
  }

  lemma ConsumePending(db: Db, x: int)
    ensures Pending(WithoutRecord(db, x)) == Pending(db) - {x}
  {
    var d := WithoutRecord(db, x);
    forall i | i in Pending(db) && i != x ensures i in Pending(d) {
      var r :| r in db && r.t == Restart && r.id == i;
      assert r in d;
    }
  }

  /** Lookup and write with nothing in between are helper.restart and helper.shutdown. */
  lemma StepsAreRequests(db: Db, x: int)
    requires ContextInv(db)
    ensures DoHelperRestart(db, x).db == if Found(db, RestartCalled(x)).Done? then db else WithRecord(db, x)
    ensures DoHelperShutdown(db, x).db == if Found(db, ShutdownCalled(x)).Done? then db else WithoutRecord(db, x)
    ensures Found(db, ShutdownCalled(x)).ShutdownFound? ==> Bound(db, Found(db, ShutdownCalled(x)).name, x)
  {
  }

  /** Requests of other processes are such steps: only the two helper requests ever add a restart record. */
  lemma OtherRequests(s: State, user: string, c: Requests.Call)
    requires Inv(s.db) && !c.HelperRestart? && !c.HelperShutdown?
    ensures Enabled(s, Other(Perform(s.db, user, c).db))
  {
    NoNewRecords(s.db, user, c);
    ShrinksPending(s.db, Perform(s.db, user, c).db);
  }

  lemma ShrinksPending(db: Db, d: Db)
    requires Shrinks(db, d)
    ensures Pending(d) <= Pending(db)
  {
    forall i | i in Pending(d) ensures i in Pending(db) {
      var r :| r in d && r.t == Restart && r.id == i;
    }
  }

  ghost predicate Shrinks(db: Db, d: Db) {
    forall r :: r in d && r.t == Restart ==> r in db
  }

  lemma StmtShrinks(db: Db, s: Stmt)
    requires TableOf(s) != Restart && Exec(db, s).Some?
    ensures Shrinks(db, Exec(db, s).value)
  {
    ExecFrame(db, s);
  }

  lemma UserSetShrinks(db: Db, username: string, pass: string, hash: string, admin: bool)
    requires Inv(db)
    ensures Shrinks(db, DoUserSet(db, username, pass, hash, admin).db)
  {
    var uid := GetUid(db, username);
    if uid != 0 {
      var s := Update(User, uid, DataCol(1), Flag(admin));
      UpdateUser(db, uid, 1, Flag(admin));
      StmtShrinks(db, s);
      var d := Exec(db, s).value;
      UpdateUser(d, uid, 0, Text(hash));
      StmtShrinks(d, Update(User, uid, DataCol(0), Text(hash)));
    }
  }

  lemma GroupAddShrinks(db: Db, group: string, name: string)
    ensures Shrinks(db, DoGroupAdd(db, group, name).db)
  {
  }

  lemma UserRemoveShrinks(db: Db, username: string)
    ensures Shrinks(db, DoUserRemove(db, username).db)
  {
    UserRemoveRows(db, GetUid(db, username));
  }

  lemma GroupRemoveShrinks(db: Db, group: string, name: string)
    ensures Shrinks(db, DoGroupRemove(db, group, name).db)
  {
    GroupRemoveRows(db, GetGid(db, group));
  }

  lemma CapsShrink(db: Db, username: string, cap: string)
    ensures Shrinks(db, DoCapsAdd(db, username, cap).db) && Shrinks(db, DoCapsRemove(db, username, cap).db)
  {
  }

  lemma OwnerAddShrinks(db: Db, name: string, username: string)
    ensures Shrinks(db, DoOwnerAdd(db, name, username).db)
  {
  }

  lemma OwnerRemoveShrinks(db: Db, name: string, username: string)
    ensures Shrinks(db, DoOwnerRemove(db, name, username).db)
  {
  }

  lemma AdminShrinks(db: Db, c: Requests.Call)
    requires Inv(db) && CapOf(c) == CapAuth
    ensures Shrinks(db, PerformAdmin(db, c).db)
  {
    match c
    case UserSet(username, pass, hash, admin) => UserSetShrinks(db, username, pass, hash, admin);
    case UserRemove(username) => UserRemoveShrinks(db, username);
    case CapsAdd(username, cap) => CapsShrink(db, username, cap);
    case CapsRemove(username, cap) => CapsShrink(db, username, cap);
    case GroupAdd(group, name) => GroupAddShrinks(db, group, name);
    case GroupRemove(group, name) => GroupRemoveShrinks(db, group, name);
    case OwnerAdd(name, username) => OwnerAddShrinks(db, name, username);
    case OwnerRemove(name, username) => OwnerRemoveShrinks(db, name, username);
  }

  lemma ConfigureShrinks(db: Db, name: string, setting: Setting)
    ensures Shrinks(db, DoConfigure(db, name, setting).db)
  {
    var xid := GetXid(db, name);
    if RowOf(setting, xid).Some? {
      RowOfTable(setting, xid);
      ConfigTableKind(RowOf(setting, xid).value.t);
      StmtShrinks(db, Replace(RowOf(setting, xid).value));
    }
  }

  lemma CreateShrinks(db: Db, user: string, name: string, vdir: string, force: bool, cfg: Config, world: World)
    ensures Shrinks(db, DoCreate(db, user, name, vdir, force, cfg, world).db)
  {
    CreateCases(db, user, name, vdir, force, cfg, world);
    var out := DoCreate(db, user, name, vdir, force, cfg, world);
    if out.fault == NoFault {
      CreateRows(db, CreateXid(db, name), name, CreateVdir(db, user, name, vdir, world), cfg, out.db);
    }
  }

  lemma RenameShrinks(db: Db, name: string, newname: string)
    ensures Shrinks(db, DoRename(db, name, newname).db)
  {
    var s := RenameStmt(GetXid(db, name), newname);
    if Exec(db, s).Some? {
      StmtShrinks(db, s);
    }
  }

  lemma RemoveShrinks(db: Db, name: string, running: bool)
    ensures Shrinks(db, DoRemove(db, name, running).db)
  {
    RunDeleteAll(db, REMOVED, GetXid(db, name));
  }

  lemma UnconfigureShrinks(db: Db, name: string, t: Table, only: Option<Val>)
    ensures Shrinks(db, DoUnconfigure(db, name, t, only).db)
  {
  }

  lemma ContextShrinks(db: Db, c: Requests.Call)
    requires CapOf(c) != CapAuth && !c.Create? && !c.HelperRestart? && !c.HelperShutdown?
    ensures Shrinks(db, PerformContext(db, c).db)
  {
    match c
    case Configure(name, setting) => ConfigureShrinks(db, name, setting);
    case Unconfigure(name, t, only) => UnconfigureShrinks(db, name, t, only);
    case Remove(name, running, _) => RemoveShrinks(db, name, running);
    case Rename(name, newname, _) => RenameShrinks(db, name, newname);
  }

  lemma NoNewRecords(db: Db, user: string, c: Requests.Call)
    requires Inv(db) && !c.HelperRestart? && !c.HelperShutdown?
    ensures Shrinks(db, Perform(db, user, c).db)
  {
    if c.Create? {
      CreateShrinks(db, user, c.name, c.vdir, c.force, c.cfg, c.world);
    } else if CapOf(c) == CapAuth {
      AdminShrinks(db, c);
    } else {
      ContextShrinks(db, c);
    }
  }

  // ----- accounting

  datatype Kind = MergedRequest | FreshRequest | Consumption | Clearing | Start | Abandonment

  /** `who` selects one awaited id, or all of them. */
  predicate Selects(who: Option<int>, x: int) {
    who.None? || who.value == x
  }

  predicate Is(e: Event, kind: Kind, who: Option<int>) {
    match e
    case Requested(x, merged) => kind == (if merged then MergedRequest else FreshRequest) && Selects(who, x)
    case Consumed(x) => kind == Consumption && Selects(who, x)
    case Cleared(gone) => kind == Clearing && (who.Some? ==> who.value in gone)
    case Started(_, x) => kind == Start && Selects(who, x)
    case Abandoned(x) => kind == Abandonment && Selects(who, x)
  }

  function Count(log: seq<Event>, kind: Kind, who: Option<int>): nat {
    if log == [] then 0
    else Count(log[..|log| - 1], kind, who) + if Is(log[|log| - 1], kind, who) then 1 else 0
  }

  ghost function Waiters(s: State, who: Option<int>): set<Pid> {
    set p | p in s.procs && s.procs[p].Waiting? && Selects(who, s.procs[p].x)
  }

  /** Every consumed record has led to a start, was abandoned, or its child still waits. */
  ghost predicate ChildrenBalance(s: State, who: Option<int>) {
    Count(s.log, Consumption, who) == Count(s.log, Start, who) + Count(s.log, Abandonment, who) + |Waiters(s, who)|
  }

  /** Every record of x, written since or there at the beginning, was consumed, cleared or is pending. */
  ghost predicate RecordsBalance(s: State, x: int, before: bool) {
    Count(s.log, FreshRequest, Some(x)) + (if before then 1 else 0)
    == Count(s.log, Consumption, Some(x)) + Count(s.log, Clearing, Some(x)) + (if x in Pending(s.db) then 1 else 0)
  }

  /** All consumed and pending records together are at most those written and those there at the beginning. */
  ghost predicate TotalBalance(s: State, before: nat) {
    Count(s.log, Consumption, None) + |Pending(s.db)| <= Count(s.log, FreshRequest, None) + before
  }

  lemma CountSnoc(log: seq<Event>, e: Event, kind: Kind, who: Option<int>)
    ensures Count(log + [e], kind, who) == Count(log, kind, who) + if Is(e, kind, who) then 1 else 0
  {
    assert (log + [e])[..|log|] == log;
  }

  /** What one more event does to all counts. */
  lemma CountsSnoc(log: seq<Event>, e: Event, longer: seq<Event>, who: Option<int>)
    requires longer == log + [e]
    ensures Count(longer, FreshRequest, who) == Count(log, FreshRequest, who) + if Is(e, FreshRequest, who) then 1 else 0
    ensures Count(longer, Consumption, who) == Count(log, Consumption, who) + if Is(e, Consumption, who) then 1 else 0
    ensures Count(longer, Clearing, who) == Count(log, Clearing, who) + if Is(e, Clearing, who) then 1 else 0
    ensures Count(longer, Start, who) == Count(log, Start, who) + if Is(e, Start, who) then 1 else 0
    ensures Count(longer, Abandonment, who) == Count(log, Abandonment, who) + if Is(e, Abandonment, who) then 1 else 0
  {
    CountSnoc(log, e, FreshRequest, who);
    CountSnoc(log, e, Consumption, who);
    CountSnoc(log, e, Clearing, who);
    CountSnoc(log, e, Start, who);
    CountSnoc(log, e, Abandonment, who);
  }

  /** A process that moves on changes the set of waiting children in itself only. */
  lemma MoveWaiters(s: State, t: State, p: Pid, who: Option<int>)
    requires p in t.procs && t.procs == s.procs[p := t.procs[p]]
    ensures Waiters(t, who) == if t.procs[p].Waiting? && Selects(who, t.procs[p].x) then Waiters(s, who) + {p} else Waiters(s, who) - {p}
    ensures p in Waiters(s, who) <==> p in s.procs && s.procs[p].Waiting? && Selects(who, s.procs[p].x)
  {
  }

  lemma ConsumeWaiters(s: State, p: Pid, who: Option<int>)
    requires Enabled(s, Consume(p))
    ensures |Waiters(Apply(s, Consume(p)), who)| ==
            |Waiters(s, who)| + if s.procs[p].x in Pending(s.db) && Selects(who, s.procs[p].x) then 1 else 0
  {
    MoveWaiters(s, Apply(s, Consume(p)), p, who);
    assert Waiters(s, who) - {p} == Waiters(s, who);
  }

  lemma ConsumeBalances(s: State, p: Pid, who: Option<int>)
    requires Enabled(s, Consume(p)) && ChildrenBalance(s, who)
    ensures ChildrenBalance(Apply(s, Consume(p)), who)
  {
    var t, x := Apply(s, Consume(p)), s.procs[p].x;
    ConsumeWaiters(s, p, who);
    if x in Pending(s.db) {
      CountsSnoc(s.log, Consumed(x), t.log, who);
    } else {
      assert t.log == s.log;
    }
  }

  lemma ChildWaiters(s: State, p: Pid, out: Rebirth.Outcome, who: Option<int>)
    requires Enabled(s, Child(p, out))
    ensures |Waiters(Apply(s, Child(p, out)), who)| == |Waiters(s, who)| - if Selects(who, s.procs[p].x) then 1 else 0
  {
    MoveWaiters(s, Apply(s, Child(p, out)), p, who);
    assert !Selects(who, s.procs[p].x) ==> Waiters(s, who) - {p} == Waiters(s, who);
  }

  lemma ChildEvent(s: State, p: Pid, out: Rebirth.Outcome) returns (e: Event)
    requires Enabled(s, Child(p, out))
    ensures (e.Started? || e.Abandoned?) && e.x == s.procs[p].x
    ensures Apply(s, Child(p, out)).log == s.log + [e] && Apply(s, Child(p, out)).db == s.db
  {
    e := Ending(s.db, s.procs[p].x, s.procs[p].name, out);
  }

  lemma ChildBalances(s: State, p: Pid, out: Rebirth.Outcome, who: Option<int>)
    requires Enabled(s, Child(p, out)) && ChildrenBalance(s, who)
    ensures ChildrenBalance(Apply(s, Child(p, out)), who)
  {
    var e := ChildEvent(s, p, out);
    ChildWaiters(s, p, out, who);
    CountsSnoc(s.log, e, Apply(s, Child(p, out)).log, who);
  }

  /** Steps that change neither the store nor the log. */
  predicate Quiet(a: Action) {
    a.Call? || a.Look? || a.Exit?
  }

  lemma QuietStep(s: State, a: Action, who: Option<int>)
    requires Enabled(s, a) && Quiet(a)
    ensures Apply(s, a).log == s.log && Apply(s, a).db == s.db && Waiters(Apply(s, a), who) == Waiters(s, who)
  {
    if !a.Exit? {
      MoveWaiters(s, Apply(s, a), a.p, who);
    }
  }

  lemma RecordBalances(s: State, p: Pid, who: Option<int>)
    requires Enabled(s, Record(p)) && ChildrenBalance(s, who)
    ensures ChildrenBalance(Apply(s, Record(p)), who)
  {
    var t, y := Apply(s, Record(p)), s.procs[p].x;
    MoveWaiters(s, t, p, who);
    assert Waiters(t, who) == Waiters(s, who);
    CountsSnoc(s.log, Requested(y, y in Pending(s.db)), t.log, who);
  }

  lemma OtherBalances(s: State, d: Db, who: Option<int>)
    requires Enabled(s, Other(d)) && ChildrenBalance(s, who)
    ensures ChildrenBalance(Apply(s, Other(d)), who)
  {
    var t := Apply(s, Other(d));
    assert Waiters(t, who) == Waiters(s, who);
    CountsSnoc(s.log, Cleared(Pending(s.db) - Pending(d)), t.log, who);
  }

  lemma StepChildren(s: State, a: Action, who: Option<int>)
    requires Enabled(s, a) && ChildrenBalance(s, who)
    ensures ChildrenBalance(Apply(s, a), who)
  {
    match a
    case Consume(p) => ConsumeBalances(s, p, who);
    case Child(p, out) => ChildBalances(s, p, out, who);
    case Record(p) => RecordBalances(s, p, who);
    case Other(d) => OtherBalances(s, d, who);
    case _ => QuietStep(s, a, who);
  }

  lemma RequestedBalances(s: State, t: State, y: int, x: int, before: bool)
    requires RecordsBalance(s, x, before) && t.log == s.log + [Requested(y, y in Pending(s.db))]
    requires Pending(t.db) == Pending(s.db) + {y}
    ensures RecordsBalance(t, x, before)
  {
    CountsSnoc(s.log, Requested(y, y in Pending(s.db)), t.log, Some(x));
  }

  lemma RecordStepBalances(s: State, p: Pid, x: int, before: bool)
    requires Enabled(s, Record(p)) && RecordsBalance(s, x, before)
    ensures RecordsBalance(Apply(s, Record(p)), x, before)
  {
    RecordPending(s.db, s.procs[p].x);
    RequestedBalances(s, Apply(s, Record(p)), s.procs[p].x, x, before);
  }

  lemma ConsumedBalances(s: State, t: State, y: int, x: int, before: bool)
    requires RecordsBalance(s, x, before) && t.log == s.log + (if y in Pending(s.db) then [Consumed(y)] else [])
    requires Pending(t.db) == Pending(s.db) - {y}
    ensures RecordsBalance(t, x, before)
  {
    if y in Pending(s.db) {
      CountsSnoc(s.log, Consumed(y), t.log, Some(x));
    } else {
      assert t.log == s.log;
    }
  }

  lemma ConsumeStepBalances(s: State, p: Pid, x: int, before: bool)
    requires Enabled(s, Consume(p)) && RecordsBalance(s, x, before)
    ensures RecordsBalance(Apply(s, Consume(p)), x, before)
  {
    ConsumePending(s.db, s.procs[p].x);
    ConsumedBalances(s, Apply(s, Consume(p)), s.procs[p].x, x, before);
  }

  lemma ClearedBalances(s: State, t: State, gone: set<int>, x: int, before: bool)
    requires RecordsBalance(s, x, before) && t.log == s.log + [Cleared(gone)]
    requires x in gone <==> x in Pending(s.db) && x !in Pending(t.db)
    requires x in Pending(t.db) ==> x in Pending(s.db)
    ensures RecordsBalance(t, x, before)
  {
    CountsSnoc(s.log, Cleared(gone), t.log, Some(x));
  }

  lemma OtherStepBalances(s: State, d: Db, x: int, before: bool)
    requires Enabled(s, Other(d)) && RecordsBalance(s, x, before)
    ensures RecordsBalance(Apply(s, Other(d)), x, before)
  {
    ClearedBalances(s, Apply(s, Other(d)), Pending(s.db) - Pending(d), x, before);
  }

  lemma EndingBalances(s: State, t: State, e: Event, x: int, before: bool)
    requires RecordsBalance(s, x, before) && t.log == s.log + [e] && t.db == s.db && (e.Started? || e.Abandoned?)
    ensures RecordsBalance(t, x, before)
  {
    CountsSnoc(s.log, e, t.log, Some(x));
  }

  lemma ChildStepBalances(s: State, p: Pid, out: Rebirth.Outcome, x: int, before: bool)
    requires Enabled(s, Child(p, out)) && RecordsBalance(s, x, before)
    ensures RecordsBalance(Apply(s, Child(p, out)), x, before)
  {
    var e := ChildEvent(s, p, out);
    EndingBalances(s, Apply(s, Child(p, out)), e, x, before);
  }

  lemma StepRecords(s: State, a: Action, x: int, before: bool)
    requires Enabled(s, a) && RecordsBalance(s, x, before)
    ensures RecordsBalance(Apply(s, a), x, before)
  {
    match a
    case Record(p) => RecordStepBalances(s, p, x, before);
    case Consume(p) => ConsumeStepBalances(s, p, x, before);
    case Other(d) => OtherStepBalances(s, d, x, before);
    case Child(p, out) => ChildStepBalances(s, p, out, x, before);
    case _ => QuietStep(s, a, None);
  }

  lemma RequestedTotal(s: State, t: State, y: int, before: nat)
    requires TotalBalance(s, before) && t.log == s.log + [Requested(y, y in Pending(s.db))]
    requires Pending(t.db) == Pending(s.db) + {y}
    ensures TotalBalance(t, before)
  {
    assert y in Pending(s.db) ==> Pending(t.db) == Pending(s.db);
    CountsSnoc(s.log, Requested(y, y in Pending(s.db)), t.log, None);
  }

  lemma RecordTotal(s: State, p: Pid, before: nat)
    requires Enabled(s, Record(p)) && TotalBalance(s, before)
    ensures TotalBalance(Apply(s, Record(p)), before)
  {
    RecordPending(s.db, s.procs[p].x);
    RequestedTotal(s, Apply(s, Record(p)), s.procs[p].x, before);
  }

  lemma ConsumedTotal(s: State, t: State, y: int, before: nat)
    requires TotalBalance(s, before) && t.log == s.log + (if y in Pending(s.db) then [Consumed(y)] else [])
    requires Pending(t.db) == Pending(s.db) - {y}
    ensures TotalBalance(t, before)
  {
    if y in Pending(s.db) {
      CountsSnoc(s.log, Consumed(y), t.log, None);
    } else {
      assert t.log == s.log && Pending(t.db) == Pending(s.db);
    }
  }

  lemma ConsumeTotal(s: State, p: Pid, before: nat)
    requires Enabled(s, Consume(p)) && TotalBalance(s, before)
    ensures TotalBalance(Apply(s, Consume(p)), before)
  {
    ConsumePending(s.db, s.procs[p].x);
    ConsumedTotal(s, Apply(s, Consume(p)), s.procs[p].x, before);
  }

  lemma OtherTotal(s: State, d: Db, before: nat)
    requires Enabled(s, Other(d)) && TotalBalance(s, before)
    ensures TotalBalance(Apply(s, Other(d)), before)
  {
    SubsetCard(Pending(d), Pending(s.db));
    CountsSnoc(s.log, Cleared(Pending(s.db) - Pending(d)), Apply(s, Other(d)).log, None);
  }

  lemma EndingTotal(s: State, t: State, e: Event, before: nat)
    requires TotalBalance(s, before) && t.log == s.log + [e] && t.db == s.db && (e.Started? || e.Abandoned?)
    ensures TotalBalance(t, before)
  {
    CountsSnoc(s.log, e, t.log, None);
  }

  lemma ChildTotal(s: State, p: Pid, out: Rebirth.Outcome, before: nat)
    requires Enabled(s, Child(p, out)) && TotalBalance(s, before)
    ensures TotalBalance(Apply(s, Child(p, out)), before)
  {
    var e := ChildEvent(s, p, out);
    EndingTotal(s, Apply(s, Child(p, out)), e, before);
  }

  lemma StepTotal(s: State, a: Action, before: nat)
    requires Enabled(s, a) && TotalBalance(s, before)
    ensures TotalBalance(Apply(s, a), before)
  {
    match a
    case Record(p) => RecordTotal(s, p, before);
    case Consume(p) => ConsumeTotal(s, p, before);
    case Other(d) => OtherTotal(s, d, before);
    case Child(p, out) => ChildTotal(s, p, out, before);
    case _ => QuietStep(s, a, None);
  }

  lemma SubsetCard(a: set<int>, b: set<int>)
    requires a <= b
    ensures |a| <= |b|
  {
    assert b == a + (b - a);
  }

  // ----- whole runs

  ghost predicate Step(s: State, a: Action, t: State) {
    Enabled(s, a) && t == Apply(s, a)
  }

  ghost predicate IsRun(states: seq<State>, acts: seq<Action>) {
    && Chain(Step, states, acts)
    && states[0].procs == map[] && states[0].log == []
  }

  lemma StepContexts(s: State, a: Action)
    requires Enabled(s, a) && ContextInv(s.db) && (a.Other? ==> ContextInv(a.d))
    ensures ContextInv(Apply(s, a).db)
  {
    if a.Record? {
      ContextUntouched(s.db, Replace(Row(Restart, s.procs[a.p].x, Null, [])));
    } else if a.Consume? {
      ContextUntouched(s.db, Delete(Restart, ById(s.procs[a.p].x)));
    }
  }

  /** The steps of the helper requests keep names and contexts in order, if the others do. */
  lemma {:induction false} RunContexts(states: seq<State>, acts: seq<Action>, k: nat)
    requires IsRun(states, acts) && k < |states| && ContextInv(states[0].db)
    requires forall i | 0 <= i < |acts| && acts[i].Other? :: ContextInv(acts[i].d)
    ensures ContextInv(states[k].db)
  {
    if k > 0 {
      At(Step, states, acts, k - 1);
      RunContexts(states, acts, k - 1);
      var a := acts[k - 1];
      StepContexts(states[k - 1], a);
    }
  }

  lemma {:induction false} RunBalanced(states: seq<State>, acts: seq<Action>, k: nat, x: int, who: Option<int>)
    requires IsRun(states, acts) && k < |states|
    ensures ChildrenBalance(states[k], who)
    ensures RecordsBalance(states[k], x, x in Pending(states[0].db))
    ensures TotalBalance(states[k], |Pending(states[0].db)|)
  {
    if k > 0 {
      At(Step, states, acts, k - 1);
      RunBalanced(states, acts, k - 1, x, who);
      var s, a := states[k - 1], acts[k - 1];
      StepChildren(s, a, who);
      StepRecords(s, a, x, x in Pending(states[0].db));
      StepTotal(s, a, |Pending(states[0].db)|);
    } else {
      assert Waiters(states[0], who) == {};
    }
  }

  /** In every interleaving: the starts on behalf of x never outnumber the consumed records of x, nor those
      its unmerged requests; the same holds of all starts together; and while nobody has asked for a restart,
      nothing at all is started. A pending record from before the run counts as a request. */
  lemma StartsBounded(states: seq<State>, acts: seq<Action>, k: nat, x: int)
    requires IsRun(states, acts) && k < |states|
    ensures var log := states[k].log;
            && Count(log, Start, Some(x)) <= Count(log, Consumption, Some(x))
               <= Count(log, FreshRequest, Some(x)) + (if x in Pending(states[0].db) then 1 else 0)
            && Count(log, Start, None) <= Count(log, Consumption, None)
               <= Count(log, FreshRequest, None) + |Pending(states[0].db)|
            && (Count(log, FreshRequest, None) == 0 && Pending(states[0].db) == {} ==> Count(log, Start, None) == 0)
  {
    RunBalanced(states, acts, k, x, Some(x));
    RunBalanced(states, acts, k, x, None);
  }

  /** Which context a child starts: the one its name is bound to when the wait is over, if that ended with both
      gone in time. So it is the awaited one if and only if the name is still bound to it at that step, and none
      if the name is gone. */
  lemma StartedWhichIff(states: seq<State>, acts: seq<Action>, k: nat, p: Pid, out: Rebirth.Outcome, y: int)
    requires IsRun(states, acts) && k < |acts| && acts[k] == Child(p, out) && ContextInv(states[k].db)
    ensures p in states[k].procs && states[k].procs[p].Waiting?
    ensures var w := states[k].procs[p];
            && (states[k + 1].log == states[k].log + [Started(y, w.x)] <==> out == Rebirth.Start && Bound(states[k].db, w.name, y))
            && (states[k + 1].log == states[k].log + [Abandoned(w.x)] <==>
                  out != Rebirth.Start || forall z :: !Bound(states[k].db, w.name, z))
  {
    At(Step, states, acts, k);
    var w := states[k].procs[p];
    EndingIff(states[k].db, w.x, w.name, y);
    assert states[k + 1].log == states[k].log + [Ending(states[k].db, w.x, w.name, out)];
    assert states[k + 1].log[|states[k].log|] == Ending(states[k].db, w.x, w.name, out);
  }

  lemma EndingIff(db: Db, x: int, name: string, y: int)
    requires ContextInv(db)
    ensures Ending(db, x, name, Rebirth.Start) == Started(y, x) <==> Bound(db, name, y)
    ensures Ending(db, x, name, Rebirth.Start) == Abandoned(x) <==> forall z :: !Bound(db, name, z)
  {
    forall z ensures Bound(db, name, z) <==> z != 0 && GetXid(db, name) == z {
      XidIff(db, name, z);
    }
    assert GetXid(db, name) != 0 ==> Bound(db, name, GetXid(db, name));
  }

  // ----- one record, one shutdown

  /** The record of x is consumed by this step. */
  ghost predicate Consumes(s: State, a: Action, x: int) {
    a.Consume? && a.p in s.procs && s.procs[a.p].ShutdownFound? && s.procs[a.p].x == x && x in Pending(s.db)
  }

  ghost predicate Records(s: State, a: Action, x: int) {
    a.Record? && a.p in s.procs && s.procs[a.p] == RestartFound(x)
  }

  /** A record that is there was there before, unless this step wrote it. */
  lemma RecordOrigin(s: State, a: Action, x: int)
    requires Enabled(s, a) && x in Pending(Apply(s, a).db)
    ensures x in Pending(s.db) || Records(s, a, x)
  {
    if a.Record? {
      RecordPending(s.db, s.procs[a.p].x);
    } else if a.Consume? {
      ConsumePending(s.db, s.procs[a.p].x);
    }
  }

  lemma ConsumedGone(s: State, a: Action, x: int)
    requires Enabled(s, a) && Consumes(s, a, x)
    ensures x !in Pending(Apply(s, a).db)
  {
    ConsumePending(s.db, x);
  }

  /** Between a state without a record of x and a later one with it, some step wrote it. */
  lemma {:induction false} RecordWritten(states: seq<State>, acts: seq<Action>, i: nat, j: nat, x: int)
    requires IsRun(states, acts) && i < j <= |acts| && x !in Pending(states[i].db) && x in Pending(states[j].db)
    ensures exists k | i <= k < j :: Records(states[k], acts[k], x)
    decreases j - i
  {
    var s, a := states[j - 1], acts[j - 1];
    At(Step, states, acts, j - 1);
    RecordOrigin(s, a, x);
    if !Records(s, a, x) {
      RecordWritten(states, acts, i, j - 1, x);
    }
  }

  /** A record serves one shutdown: between two shutdowns that consume a record of x, a new request
      for x was recorded, however many requests came before the first. */
  lemma RequestBetweenConsumptions(states: seq<State>, acts: seq<Action>, i: nat, j: nat, x: int)
    requires IsRun(states, acts) && i < j < |acts|
    requires Consumes(states[i], acts[i], x) && Consumes(states[j], acts[j], x)
    ensures exists k | i < k < j :: Records(states[k], acts[k], x)
  {
    At(Step, states, acts, i);
    ConsumedGone(states[i], acts[i], x);
    RecordWritten(states, acts, i + 1, j, x);
  }

  // ----- a start nobody asked for

  lemma FoundByName(db: Db, name: string, x: int)
    requires ContextInv(db) && Bound(db, name, x) && x != MAX_XID
    ensures Found(db, RestartCalled(x)) == RestartFound(x) && Found(db, ShutdownCalled(x)) == ShutdownFound(x, name)
  {
    NameRoundTrip(db, name, x);
  }

  /** State s with process p in that phase. */
  function With(s: State, p: Pid, phase: Phase): State {
    s.(procs := s.procs[p := phase])
  }

  lemma WithTwice(s: State, p: Pid, a: Phase, b: Phase)
    ensures With(With(s, p, a), p, b) == With(s, p, b)
  {
    assert s.procs[p := a][p := b] == s.procs[p := b];
  }

  lemma CallStep(s: State, p: Pid, phase: Phase)
    requires p !in s.procs && (phase.RestartCalled? || phase.ShutdownCalled?)
    ensures Step(s, Call(p, phase), With(s, p, phase))
  {
    assert s.log + [] == s.log;
  }

  lemma LookStep(s: State, p: Pid)
    requires p in s.procs && (s.procs[p].RestartCalled? || s.procs[p].ShutdownCalled?)
    ensures Step(s, Look(p), With(s, p, Found(s.db, s.procs[p])))
  {
    assert s.log + [] == s.log;
  }

  /** A helper request up to the end of its lookup. */
  lemma FoundRun(states: seq<State>, acts: seq<Action>, p: Pid, phase: Phase, found: Phase)
    returns (ss: seq<State>, bs: seq<Action>)
    requires IsRun(states, acts) && p !in Last(states).procs && (phase.RestartCalled? || phase.ShutdownCalled?)
    requires Found(Last(states).db, phase) == found
    ensures IsRun(ss, bs) && ss[0] == states[0] && bs == acts + [Call(p, phase)] + [Look(p)]
    ensures Last(ss) == With(Last(states), p, found)
  {
    var s := Last(states);
    CallStep(s, p, phase);
    ss, bs := Extend(Step, states, acts, Call(p, phase), With(s, p, phase));
    LookStep(With(s, p, phase), p);
    WithTwice(s, p, phase, found);
    ss, bs := Extend(Step, ss, bs, Look(p), With(s, p, found));
  }

  lemma RecordStep(s: State, p: Pid, x: int)
    requires p in s.procs && s.procs[p] == RestartFound(x)
    ensures Step(s, Record(p), With(s, p, Done).(db := WithRecord(s.db, x), log := s.log + [Requested(x, x in Pending(s.db))]))
  {
  }

  lemma ConsumeStep(s: State, p: Pid, x: int, name: string)
    requires p in s.procs && s.procs[p] == ShutdownFound(x, name) && x in Pending(s.db)
    ensures Step(s, Consume(p), With(s, p, Waiting(x, name)).(db := WithoutRecord(s.db, x), log := s.log + [Consumed(x)]))
  {
  }

  lemma Begin(db: Db) returns (states: seq<State>, acts: seq<Action>)
    ensures IsRun(states, acts) && states[0].db == db && Last(states) == State(db, map[], []) && acts == []
  {
    states, acts := [State(db, map[], [])], [];
  }

  lemma RecordRun(states: seq<State>, acts: seq<Action>, p: Pid, x: int) returns (ss: seq<State>, bs: seq<Action>)
    requires IsRun(states, acts) && Last(states).procs == map[p := RestartFound(x)]
    ensures IsRun(ss, bs) && ss[0] == states[0] && bs == acts + [Record(p)]
    ensures var s := Last(states);
            Last(ss) == State(WithRecord(s.db, x), map[p := Done], s.log + [Requested(x, x in Pending(s.db))])
  {
    var s := Last(states);
    RecordStep(s, p, x);
    assert With(s, p, Done).procs == map[p := Done];
    ss, bs := Extend(Step, states, acts, Record(p),
                     State(WithRecord(s.db, x), map[p := Done], s.log + [Requested(x, x in Pending(s.db))]));
  }

  /** helper.restart for x. */
  lemma RestartSteps(db: Db, x: int) returns (states: seq<State>, acts: seq<Action>)
    requires Found(db, RestartCalled(x)) == RestartFound(x)
    ensures IsRun(states, acts) && states[0].db == db && |acts| == 3
    ensures Last(states) == State(WithRecord(db, x), map[0 := Done], [Requested(x, x in Pending(db))])
  {
    states, acts := Begin(db);
    states, acts := FoundRun(states, acts, 0, RestartCalled(x), RestartFound(x));
    states, acts := RecordRun(states, acts, 0, x);
  }

  lemma ConsumeRun(states: seq<State>, acts: seq<Action>, p: Pid, x: int, name: string)
    returns (ss: seq<State>, bs: seq<Action>)
    requires IsRun(states, acts) && p in Last(states).procs && Last(states).procs[p] == ShutdownFound(x, name)
    requires x in Pending(Last(states).db)
    ensures IsRun(ss, bs) && ss[0] == states[0] && bs == acts + [Consume(p)]
    ensures var s := Last(states);
            Last(ss) == With(s, p, Waiting(x, name)).(db := WithoutRecord(s.db, x), log := s.log + [Consumed(x)])
  {
    var s := Last(states);
    ConsumeStep(s, p, x, name);
    ss, bs := Extend(Step, states, acts, Consume(p),
                     With(s, p, Waiting(x, name)).(db := WithoutRecord(s.db, x), log := s.log + [Consumed(x)]));
  }

  /** helper.shutdown for x, up to the fork. */
  lemma ShutdownSteps(states: seq<State>, acts: seq<Action>, name: string, x: int) returns (ss: seq<State>, bs: seq<Action>)
    requires IsRun(states, acts) && Last(states).procs == map[0 := Done]
    requires Found(Last(states).db, ShutdownCalled(x)) == ShutdownFound(x, name) && x in Pending(Last(states).db)
    ensures IsRun(ss, bs) && ss[0] == states[0] && |bs| == |acts| + 3
    ensures Last(ss) == State(WithoutRecord(Last(states).db, x), map[0 := Done, 1 := Waiting(x, name)],
                              Last(states).log + [Consumed(x)])
  {
    ss, bs := FoundRun(states, acts, 1, ShutdownCalled(x), ShutdownFound(x, name));
    ss, bs := ConsumeRun(ss, bs, 1, x, name);
    assert Last(ss).procs == map[0 := Done, 1 := Waiting(x, name)];
  }

  lemma RenameEnabled(s: State, name: string, newname: string)
    requires Inv(s.db) && ValidName(name)
    ensures Enabled(s, Other(DoRename(s.db, name, newname).db))
  {
    RenameCallKeeps(s.db, name, newname);
    RenameShrinks(s.db, name, newname);
    ShrinksPending(s.db, DoRename(s.db, name, newname).db);
  }

  /** The two renamings that hand the name of x to y. */
  lemma TwoRenames(db: Db, foo: string, bar: string, baz: string)
    requires Inv(db) && GetXid(db, foo) != 0 && GetXid(db, baz) != 0 && foo != baz
    requires ValidName(bar) && GetXid(db, bar) == 0
    ensures var d := DoRename(db, foo, bar);
            d.fault == NoFault && Inv(d.db) && DoRename(d.db, baz, foo).fault == NoFault
            && GetXid(DoRename(d.db, baz, foo).db, foo) == GetXid(db, baz)
  {
    var x, y := GetXid(db, foo), GetXid(db, baz);
    RenameSucceedsIff(db, foo, bar);
    RenameCallKeeps(db, foo, bar);
    RenameKeepsContext(db, foo, bar, "");
    var d := DoRename(db, foo, bar).db;
    XidIff(db, foo, x);
    XidIff(db, baz, y);
    BindingOneToOne(db, foo, baz, x, y);
    var r :| r in db && r.t == XidNameMap && r.id == y && r.key == Text(baz);
    assert r in d && Bound(d, baz, y);
    XidIff(d, baz, y);
    RenameSucceedsIff(d, baz, foo);
    RenameKeepsContext(d, baz, foo, "");
  }

  lemma RecordKeeps(db: Db, x: int)
    requires Inv(db) && Named(db, x)
    ensures Inv(WithRecord(db, x)) && SameRows(db, WithRecord(db, x), XidNameMap)
  {
    var s := Replace(Row(Restart, x, Null, []));
    PutLink(db, s);
    ExecFrame(db, s);
  }

  lemma WithoutKeeps(db: Db, x: int)
    requires Inv(db)
    ensures Inv(WithoutRecord(db, x)) && SameRows(db, WithoutRecord(db, x), XidNameMap)
  {
    DropLinks(db, Restart, ById(x));
    ExecFrame(db, Delete(Restart, ById(x)));
  }

  lemma RecordKeepsNames(db: Db, x: int, name: string)
    requires Inv(db) && Named(db, x)
    ensures Inv(WithRecord(db, x)) && Inv(WithoutRecord(WithRecord(db, x), x))
    ensures GetXid(WithRecord(db, x), name) == GetXid(db, name)
    ensures GetXid(WithoutRecord(WithRecord(db, x), x), name) == GetXid(db, name)
  {
    var d := WithRecord(db, x);
    RecordKeeps(db, x);
    WithoutKeeps(d, x);
    IdOfSame(db, d, XidNameMap, name);
    IdOfSame(d, WithoutRecord(d, x), XidNameMap, name);
  }

  /** Per context the bound fails. A restart of foo is requested and consumed; while the child waits, foo is
      renamed to bar and baz to foo; then the child starts what used to be baz, for which nobody ever asked. */
  lemma MisdirectedStart(db: Db, foo: string, bar: string, baz: string)
    returns (states: seq<State>, acts: seq<Action>, d: Db, e: Db, log: seq<Event>)
    requires Inv(db) && GetXid(db, foo) != 0 && GetXid(db, foo) != MAX_XID && GetXid(db, baz) != 0 && foo != baz
    requires ValidName(foo) && ValidName(bar) && ValidName(baz) && GetXid(db, bar) == 0
    ensures IsRun(states, acts) && states[0].db == db && |acts| == 9
    ensures d == DoRename(states[6].db, foo, bar).db && acts[6] == Other(d)
    ensures e == DoRename(d, baz, foo).db && acts[7] == Other(e)
    ensures var x, y := GetXid(db, foo), GetXid(db, baz);
            y != x && Last(states).log == log + [Started(y, x)] && forall ev | ev in log && ev.Requested? :: ev.x == x
  {
    var x := GetXid(db, foo);
    var ss, as_, s, s7, s8;
    ss, as_, s, d, s7, e, s8 := WithRenames(db, foo, bar, baz, x);
    states, acts := TailRun(ss, as_, s, d, s7, e, s8, foo, x);
    log := s8.log;
  }

  lemma WithRenames(db: Db, foo: string, bar: string, baz: string, x: int)
    returns (states: seq<State>, acts: seq<Action>, s: State, d: Db, s7: State, e: Db, s8: State)
    requires Inv(db) && GetXid(db, foo) == x != 0 && x != MAX_XID && GetXid(db, baz) != 0 && foo != baz
    requires ValidName(foo) && ValidName(bar) && ValidName(baz) && GetXid(db, bar) == 0
    ensures IsRun(states, acts) && states[0].db == db && |acts| == 6 && x != GetXid(db, baz)
    ensures s == Last(states) && s.procs == map[0 := Done, 1 := Waiting(x, foo)]
    ensures d == DoRename(s.db, foo, bar).db && Step(s, Other(d), s7)
    ensures e == DoRename(d, baz, foo).db && Step(s7, Other(e), s8)
    ensures GetXid(e, foo) == GetXid(db, baz) && s8.db == e && s8.procs == s.procs
    ensures forall ev | ev in s8.log && ev.Requested? :: ev.x == x
  {
    states, acts := BeforeRenames(db, foo, bar, baz);
    s := Last(states);
    d, s7, e, s8 := RenamesFit(s, foo, bar, baz);
    OneRequest(s8.log, x, x in Pending(db), Pending(s.db) - Pending(d), Pending(d) - Pending(e));
  }

  lemma OneRequest(log: seq<Event>, x: int, merged: bool, g: set<int>, h: set<int>)
    requires log == [Requested(x, merged), Consumed(x)] + [Cleared(g), Cleared(h)]
    ensures forall ev | ev in log && ev.Requested? :: ev.x == x
  {
  }

  lemma BeforeRenames(db: Db, foo: string, bar: string, baz: string) returns (states: seq<State>, acts: seq<Action>)
    requires Inv(db) && GetXid(db, foo) != 0 && GetXid(db, foo) != MAX_XID && GetXid(db, baz) != 0 && foo != baz
    ensures var x := GetXid(db, foo);
            && IsRun(states, acts) && states[0].db == db && |acts| == 6 && x != GetXid(db, baz)
            && Last(states).procs == map[0 := Done, 1 := Waiting(x, foo)]
            && Last(states).log == [Requested(x, x in Pending(db)), Consumed(x)]
    ensures var d := Last(states).db;
            Inv(d) && GetXid(d, foo) == GetXid(db, foo) && GetXid(d, bar) == GetXid(db, bar) && GetXid(d, baz) == GetXid(db, baz)
  {
    var x, y := GetXid(db, foo), GetXid(db, baz);
    assert Bound(db, foo, x) && x != y by {
      XidIff(db, foo, x);
      XidIff(db, baz, y);
      BindingOneToOne(db, foo, baz, x, y);
    }
    RecordKeepsNames(db, x, foo);
    RecordKeepsNames(db, x, bar);
    RecordKeepsNames(db, x, baz);
    StillFound(db, foo, x);
    states, acts := RequestAndShutdown(db, foo, x);
  }

  lemma StillFound(db: Db, foo: string, x: int)
    requires Inv(db) && Bound(db, foo, x) && x != MAX_XID
    ensures Found(db, RestartCalled(x)) == RestartFound(x)
    ensures Found(WithRecord(db, x), ShutdownCalled(x)) == ShutdownFound(x, foo) && x in Pending(WithRecord(db, x))
  {
    RecordKeepsNames(db, x, foo);
    RecordPending(db, x);
    XidIff(db, foo, x);
    XidIff(WithRecord(db, x), foo, x);
    FoundByName(db, foo, x);
    FoundByName(WithRecord(db, x), foo, x);
  }

  lemma RequestAndShutdown(db: Db, foo: string, x: int) returns (states: seq<State>, acts: seq<Action>)
    requires Found(db, RestartCalled(x)) == RestartFound(x)
    requires Found(WithRecord(db, x), ShutdownCalled(x)) == ShutdownFound(x, foo) && x in Pending(WithRecord(db, x))
    ensures IsRun(states, acts) && states[0].db == db && |acts| == 6
    ensures Last(states).db == WithoutRecord(WithRecord(db, x), x)
    ensures Last(states).procs == map[0 := Done, 1 := Waiting(x, foo)]
    ensures Last(states).log == [Requested(x, x in Pending(db)), Consumed(x)]
  {
    states, acts := RestartSteps(db, x);
    states, acts := ShutdownSteps(states, acts, foo, x);
  }

  lemma RenamesFit(s: State, foo: string, bar: string, baz: string) returns (d: Db, s7: State, e: Db, s8: State)
    requires Inv(s.db) && GetXid(s.db, foo) != 0 && GetXid(s.db, baz) != 0 && GetXid(s.db, bar) == 0
    requires foo != baz && ValidName(foo) && ValidName(bar) && ValidName(baz)
    ensures d == DoRename(s.db, foo, bar).db && Step(s, Other(d), s7)
    ensures e == DoRename(d, baz, foo).db && Step(s7, Other(e), s8)
    ensures GetXid(e, foo) == GetXid(s.db, baz) && s8.db == e && s8.procs == s.procs
    ensures s8.log == s.log + [Cleared(Pending(s.db) - Pending(d)), Cleared(Pending(d) - Pending(e))]
  {
    TwoRenames(s.db, foo, bar, baz);
    d := DoRename(s.db, foo, bar).db;
    s7 := RenameStep(s, foo, bar, d);
    e := DoRename(d, baz, foo).db;
    s8 := RenameStep(s7, baz, foo, e);
  }

  lemma RenameStep(s: State, name: string, newname: string, d: Db) returns (t: State)
    requires Inv(s.db) && ValidName(name) && d == DoRename(s.db, name, newname).db
    ensures Step(s, Other(d), t) && t == State(d, s.procs, s.log + [Cleared(Pending(s.db) - Pending(d))])
  {
    RenameEnabled(s, name, newname);
    t := Apply(s, Other(d));
  }

  /** Two requests of others, and the end of the wait. */
  lemma TailRun(ss: seq<State>, as_: seq<Action>, s: State, d: Db, s7: State, e: Db, s8: State, name: string, x: int)
    returns (states: seq<State>, acts: seq<Action>)
    requires IsRun(ss, as_) && s == Last(ss) && s.procs == map[0 := Done, 1 := Waiting(x, name)]
    requires Step(s, Other(d), s7) && Step(s7, Other(e), s8) && s8.db == e && s8.procs == s.procs && GetXid(e, name) != 0
    ensures IsRun(states, acts) && acts == as_ + [Other(d), Other(e), Child(1, Rebirth.Start)]
    ensures states[0] == ss[0] && states[|as_|] == s && Last(states).log == s8.log + [Started(GetXid(e, name), x)]
  {
    states, acts := Extend(Step, ss, as_, Other(d), s7);
    states, acts := Extend(Step, states, acts, Other(e), s8);
    states, acts := Extend(Step, states, acts, Child(1, Rebirth.Start), Move(s8, 1, Done, [Ending(e, x, name, Rebirth.Start)]));
  }
}
