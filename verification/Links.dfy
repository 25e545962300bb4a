/** Requests without M_LOCK that store a reference to another object: vxdb.owner.add, vg.add,
    vcd.user.caps.add and helper.restart. Their lookups and the insert that relies on them are separate
    steps. In between others do whatever keeps the invariant of the store: whole requests, and the writes
    of other requests without a lock, whose lookups may be out of date as well. */
module Links {
  import opened Wrappers
  import opened Schema
  import opened Store
  import opened Validate
  import opened Lookup
  import opened Auth
  import opened Template
  import opened Invariant
  import opened Requests
  import opened Reachable
  import opened Guarantees
  import opened Rights
  import opened Traces
  import Outcomes

  type Pid = nat

  datatype Phase =
    | Called
    | Half(id: int)       // the first of two lookups found the user or group `id`
    | Ready(stmt: Stmt)   // all lookups done, the insert comes next
    | Done

  datatype Proc = Proc(call: Call, phase: Phase)

  datatype State = State(db: Db, procs: map<Pid, Proc>)

  datatype Action =
    | Arrive(p: Pid, call: Call)
    | First(p: Pid) | Second(p: Pid) | Put(p: Pid)
    | Leave(p: Pid)
    | Other(d: Db)        // somebody else leaves the store as d

  predicate LinkCall(c: Call) {
    c.OwnerAdd? || c.GroupAdd? || c.CapsAdd? || c.HelperRestart?
  }

  /** The store after the first lookup: vg.add creates a missing group there. */
  function FirstDb(db: Db, c: Call): Db {
    if c.GroupAdd? then DoGroupAdd(db, c.group, []).db else db
  }

  /** What the first lookup finds. */
  function FirstLook(db: Db, c: Call): Phase {
    match c
    case OwnerAdd(_, username) =>
      var uid := GetUid(db, username);
      if uid == 0 then Done else Half(uid)
    case CapsAdd(username, cap) =>
      var uid := GetUid(db, username);
      if !ValidCap(cap) || uid == 0 then Done else Ready(Replace(Row(UserCaps, uid, Text(cap), [])))
    case HelperRestart(xid) =>
      if GetName(db, xid).None? then Done else Ready(Replace(Row(Restart, xid, Null, [])))
    case GroupAdd(group, name) =>
      if DoGroupAdd(db, group, []).fault != NoFault || group == "all" || name == [] then Done
      else Half(GetGid(FirstDb(db, c), group))
    case _ => Done
  }

  /** The second lookup: the context. */
  function SecondLook(db: Db, c: Call, id: int): Phase {
    match c
    case OwnerAdd(name, _) =>
      var xid := GetXid(db, name);
      if xid == 0 then Done else Ready(Replace(Row(XidUidMap, xid, Int(id), [])))
    case GroupAdd(_, name) =>
      var xid := GetXid(db, name);
      if xid == 0 then Done else Ready(Insert(Row(XidGidMap, xid, Int(id), [])))
    case _ => Done
  }

  predicate Enabled(s: State, a: Action) {
    match a
    case Arrive(p, call) => p !in s.procs && LinkCall(call)
    case First(p) => p in s.procs && s.procs[p].phase.Called?
    case Second(p) => p in s.procs && s.procs[p].phase.Half?
    case Put(p) => p in s.procs && s.procs[p].phase.Ready?
    case Leave(p) => p in s.procs
    case Other(_) => true
  }

  function Move(s: State, p: Pid, phase: Phase): State
    requires p in s.procs
  {
    s.(procs := s.procs[p := s.procs[p].(phase := phase)])
  }

  function Apply(s: State, a: Action): State
    requires Enabled(s, a)
  {
    match a
    case Arrive(p, call) => s.(procs := s.procs[p := Proc(call, Called)])
    case First(p) =>
      var c := s.procs[p].call;
      Move(s.(db := FirstDb(s.db, c)), p, FirstLook(s.db, c))
    case Second(p) => Move(s, p, SecondLook(s.db, s.procs[p].call, s.procs[p].phase.id))
    case Put(p) => Move(s.(db := Or(Exec(s.db, s.procs[p].phase.stmt), s.db)), p, Done)
    case Leave(p) => s.(procs := s.procs - {p})
    case Other(d) => s.(db := d)
  }

  // ----- what others do

  /** Somebody else's step from db to d breaks nothing. */
  ghost predicate Harmless(db: Db, d: Db) {
    Inv(db) ==> Inv(d)
  }

  /** Any whole request, after its admission, is such a step. */
  lemma RequestsAreHarmless(db: Db, user: string, c: Call)
    requires LocksName(c) ==> ValidName(c.name)
    ensures Harmless(db, Perform(db, user, c).db)
  {
    if Inv(db) {
      PerformKeeps(db, user, c);
    }
  }

  /** So are the writes of vcd.user.remove, vg.remove, vcd.user.set and the removers of links, for whatever
      ids their lookups have found at whatever time. */
  lemma LateWritesAreHarmless(db: Db, id: int, col: nat, v: Val, t: Table, w: Where)
    requires Linked(t) || t == UserCaps
    ensures Harmless(db, Or(Run(db, UserRemoveScript(id)), db))
    ensures Harmless(db, Or(Run(db, GroupRemoveScript(id)), db))
    ensures Harmless(db, Or(Exec(db, Update(User, id, DataCol(col), v)), db))
    ensures Harmless(db, Or(Exec(db, Delete(t, w)), db))
  {
    if Inv(db) {
      UserRemoveKeeps(db, id);
      GroupRemoveKeeps(db, id);
      UpdateUser(db, id, col, v);
      DropLinks(db, t, w);
    }
  }

  // ----- undisturbed, the steps are the request

  /** The three steps with nothing in between. */
  function Solo(db: Db, c: Call): Db {
    var d, phase := FirstDb(db, c), FirstLook(db, c);
    var last := if phase.Half? then SecondLook(d, c, phase.id) else phase;
    if last.Ready? then Or(Exec(d, last.stmt), d) else d
  }

  lemma GroupFound(db: Db, group: string)
    requires Inv(db) && ValidGroup(group) && group != "all"
    ensures var out := DoGroupAdd(db, group, []);
            var gid := if GetGid(db, group) != 0 then GetGid(db, group) else MaxId(db, Groups) + 1;
            out.fault == NoFault ==> GetGid(out.db, group) == gid != 0 && Has(out.db, Groups, gid)
  {
    var out := DoGroupAdd(db, group, []);
    if GetGid(db, group) == 0 {
      var row := Row(Groups, MaxId(db, Groups) + 1, Text(group), []);
      MaxIdNonNegative(db, Groups);
      if out.fault == NoFault {
        assert row in out.db;
        var q :| q in out.db && q.t == Groups && q.key == Text(group) && q.id == IdOf(out.db, Groups, group);
        SameKeySameRow(out.db, Groups, row, q);
      }
    } else {
      IdOfHas(db, Groups, group);
    }
  }

  lemma SoloKnownGroup(db: Db, group: string, name: string)
    requires ValidGroup(group) && group != "all" && GetGid(db, group) != 0
    ensures Solo(db, GroupAdd(group, name)) == DoGroupAdd(db, group, name).db
  {
  }

  lemma SoloNewGroup(db: Db, group: string, name: string)
    requires Inv(db) && ValidGroup(group) && group != "all" && GetGid(db, group) == 0
    ensures Solo(db, GroupAdd(group, name)) == DoGroupAdd(db, group, name).db
  {
    GroupFound(db, group);
  }

  lemma SoloGroupAdd(db: Db, group: string, name: string)
    requires Inv(db)
    ensures Solo(db, GroupAdd(group, name)) == DoGroupAdd(db, group, name).db
  {
    if ValidGroup(group) && group != "all" {
      if GetGid(db, group) != 0 {
        SoloKnownGroup(db, group, name);
      } else {
        SoloNewGroup(db, group, name);
      }
    }
  }

  lemma SoloOwnerAdd(db: Db, name: string, username: string)
    ensures Solo(db, OwnerAdd(name, username)) == DoOwnerAdd(db, name, username).db
  {
    var uid, c := GetUid(db, username), OwnerAdd(name, username);
    if uid == 0 {
      assert FirstLook(db, c) == Done;
    } else {
      assert FirstLook(db, c) == Half(uid);
    }
  }

  lemma SoloCapsAdd(db: Db, username: string, cap: string)
    ensures Solo(db, CapsAdd(username, cap)) == DoCapsAdd(db, username, cap).db
  {
  }

  lemma SoloRestart(db: Db, xid: int)
    ensures Solo(db, HelperRestart(xid)) == DoHelperRestart(db, xid).db
  {
  }

  lemma SoloAdmin(db: Db, c: Call)
    requires Inv(db) && LinkCall(c) && !c.HelperRestart?
    ensures Solo(db, c) == PerformAdmin(db, c).db
  {
    match c
    case OwnerAdd(name, username) => SoloOwnerAdd(db, name, username);
    case CapsAdd(username, cap) => SoloCapsAdd(db, username, cap);
    case GroupAdd(group, name) => SoloGroupAdd(db, group, name);
  }

  lemma SoloIsRequest(db: Db, user: string, c: Call)
    requires Inv(db) && LinkCall(c)
    ensures Solo(db, c) == Perform(db, user, c).db
  {
    if c.HelperRestart? {
      SoloRestart(db, c.xid);
    } else {
      SoloAdmin(db, c);
    }
  }

  // ----- when the insert is safe

  /** The inserts of these requests. */
  predicate LinkStmt(s: Stmt) {
    (s.Insert? || s.Replace?) && match s.row.t
                                 case XidUidMap | XidGidMap => s.row.key.Int?
                                 case Restart | UserCaps => true
                                 case _ => false
  }

  /** Everything the row refers to exists. */
  predicate References(db: Db, row: Row) {
    match row.t
    case XidUidMap => Named(db, row.id) && row.key.Int? && Has(db, User, row.key.i)
    case XidGidMap => Named(db, row.id) && row.key.Int? && Has(db, Groups, row.key.i)
    case Restart => Named(db, row.id)
    case UserCaps => Has(db, User, row.id)
    case _ => true
  }

  /** The insert keeps all references intact if and only if what it refers to exists at that moment,
      whatever the lookups have seen before. */
  lemma InsertSafeIff(db: Db, s: Stmt)
    requires LinkInv(db) && LinkStmt(s) && Exec(db, s).Some?
    ensures LinkInv(Exec(db, s).value) <==> References(db, s.row)
  {
    var d := Exec(db, s).value;
    ExecFrame(db, s);
    HasSame(db, d, User);
    HasSame(db, d, Groups);
    HasSame(db, d, XidNameMap);
    assert s.row in d;
    if References(db, s.row) {
      LinkAdded(db, d, s.row);
    }
  }

  // ----- when the insert is what the request asks for

  /** The insert a request comes to: its table and constant columns are the request's own, its ids are what
      the lookups have found. */
  predicate Shaped(c: Call, s: Stmt) {
    LinkStmt(s) && match c
                   case OwnerAdd(_, _) => s == Replace(Row(XidUidMap, s.row.id, s.row.key, []))
                   case GroupAdd(group, name) =>
                     ValidGroup(group) && group != "all" && name != [] && s == Insert(Row(XidGidMap, s.row.id, s.row.key, []))
                   case CapsAdd(_, cap) => ValidCap(cap) && s == Replace(Row(UserCaps, s.row.id, Text(cap), []))
                   case HelperRestart(xid) => s == Replace(Row(Restart, xid, Null, []))
                   case _ => false
  }

  /** The names of the request still resolve to the ids in the insert. */
  predicate Resolves(db: Db, c: Call, s: Stmt)
    requires LinkStmt(s)
  {
    match c
    case OwnerAdd(name, username) =>
      GetXid(db, name) == s.row.id != 0 && GetUid(db, username) != 0 && s.row.key == Int(GetUid(db, username))
    case GroupAdd(group, name) =>
      GetXid(db, name) == s.row.id != 0 && GetGid(db, group) != 0 && s.row.key == Int(GetGid(db, group))
    case CapsAdd(username, _) => GetUid(db, username) == s.row.id != 0
    case HelperRestart(xid) => GetName(db, xid).Some?
    case _ => false
  }

  lemma ReplaceKnown(db: Db, row: Row)
    requires row in db
    ensures Exec(db, Replace(row)) == Some(db)
  {
    assert forall q :: q in db && Clash(q, row) ==> q == row;
    assert Exec(db, Replace(row)).value == db by {
      forall q ensures q in Exec(db, Replace(row)).value <==> q in db {
      }
    }
  }

  /** Two replacements have the same effect iff they are the same or neither has any. */
  lemma SameReplace(db: Db, a: Row, b: Row)
    ensures Exec(db, Replace(a)) == Exec(db, Replace(b)) <==> a == b || (a in db && b in db)
  {
    if a in db {
      ReplaceKnown(db, a);
    }
    if b in db {
      ReplaceKnown(db, b);
    }
    assert a in Exec(db, Replace(a)).value && b in Exec(db, Replace(b)).value;
  }

  /** A replacement changes nothing iff the row is there. */
  lemma ReplaceIdle(db: Db, a: Row)
    ensures Exec(db, Replace(a)) == Some(db) <==> a in db
  {
    if a in db {
      ReplaceKnown(db, a);
    }
    assert a in Exec(db, Replace(a)).value;
  }

  /** The write d of the steps is the effect e of the whole request, or neither has any. */
  predicate SameOrIdle(db: Db, d: Db, e: Db, resolves: bool) {
    d == e <==> resolves || (d == db && e == db)
  }

  lemma ReplaceIsWhole(db: Db, row: Row, asked: Row, refused: bool, d: Db, e: Db)
    requires Exec(db, Replace(row)) == Some(d)
    requires if refused then e == db else Exec(db, Replace(asked)) == Some(e)
    ensures SameOrIdle(db, d, e, !refused && row == asked)
  {
    ReplaceIdle(db, row);
    ReplaceIdle(db, asked);
    SameReplace(db, row, asked);
  }

  lemma OwnerIsWhole(db: Db, name: string, username: string, s: Stmt)
    requires Shaped(OwnerAdd(name, username), s)
    ensures SameOrIdle(db, Or(Exec(db, s), db), DoOwnerAdd(db, name, username).db, Resolves(db, OwnerAdd(name, username), s))
  {
    var uid, xid := GetUid(db, username), GetXid(db, name);
    ReplaceIsWhole(db, s.row, Row(XidUidMap, xid, Int(uid), []), uid == 0 || xid == 0,
                   Or(Exec(db, s), db), DoOwnerAdd(db, name, username).db);
  }

  lemma CapIsWhole(db: Db, username: string, cap: string, s: Stmt)
    requires Shaped(CapsAdd(username, cap), s)
    ensures SameOrIdle(db, Or(Exec(db, s), db), DoCapsAdd(db, username, cap).db, Resolves(db, CapsAdd(username, cap), s))
  {
    var uid := GetUid(db, username);
    ReplaceIsWhole(db, s.row, Row(UserCaps, uid, Text(cap), []), uid == 0, Or(Exec(db, s), db), DoCapsAdd(db, username, cap).db);
  }

  lemma RestartIsWhole(db: Db, xid: int, s: Stmt)
    requires Shaped(HelperRestart(xid), s)
    ensures SameOrIdle(db, Or(Exec(db, s), db), DoHelperRestart(db, xid).db, Resolves(db, HelperRestart(xid), s))
  {
    ReplaceIsWhole(db, s.row, s.row, GetName(db, xid).None?, Or(Exec(db, s), db), DoHelperRestart(db, xid).db);
  }

  /** What vg.add does to a known group. */
  lemma KnownMemberDoes(db: Db, group: string, name: string)
    requires ValidGroup(group) && group != "all" && GetGid(db, group) != 0 && name != []
    ensures var asked := Row(XidGidMap, GetXid(db, name), Int(GetGid(db, group)), []);
            DoGroupAdd(db, group, name).db == if GetXid(db, name) == 0 then db else Or(Exec(db, Insert(asked)), db)
  {
    IdOfHas(db, XidNameMap, name);
  }

  lemma InsertIsWhole(db: Db, row: Row, asked: Row, refused: bool, d: Db, e: Db)
    requires d == Or(Exec(db, Insert(row)), db) && e == if refused then db else Or(Exec(db, Insert(asked)), db)
    ensures SameOrIdle(db, d, e, !refused && row == asked)
  {
    InsertIdle(db, row);
    InsertIdle(db, asked);
  }

  lemma KnownMemberIsWhole(db: Db, group: string, name: string, s: Stmt)
    requires Shaped(GroupAdd(group, name), s) && GetGid(db, group) != 0
    ensures SameOrIdle(db, Or(Exec(db, s), db), DoGroupAdd(db, group, name).db, Resolves(db, GroupAdd(group, name), s))
  {
    var asked := Row(XidGidMap, GetXid(db, name), Int(GetGid(db, group)), []);
    KnownMemberDoes(db, group, name);
    InsertIsWhole(db, s.row, asked, GetXid(db, name) == 0, Or(Exec(db, s), db), DoGroupAdd(db, group, name).db);
  }

  lemma InsertIdle(db: Db, row: Row)
    ensures Or(Exec(db, Insert(row)), db) == db || (row !in db && Or(Exec(db, Insert(row)), db) == db + {row})
  {
    ClashReflexive(row);
  }

  lemma NewMemberIsWhole(db: Db, group: string, name: string, s: Stmt)
    requires Shaped(GroupAdd(group, name), s) && GetGid(db, group) == 0
    ensures SameOrIdle(db, Or(Exec(db, s), db), DoGroupAdd(db, group, name).db, false)
  {
    var grow := Row(Groups, MaxId(db, Groups) + 1, Text(group), []);
    InsertIdle(db, s.row);
    InsertIdle(db, grow);
    var e := DoGroupAdd(db, group, name).db;
    assert e != db ==> grow in e && grow !in db;
  }

  /** The insert is the whole request at that moment, if and only if the request's names still resolve to the
      ids its lookups have found, or nothing changes either way. */
  lemma InsertIsWholeIff(db: Db, user: string, c: Call, s: Stmt)
    requires LinkCall(c) && Shaped(c, s)
    ensures SameOrIdle(db, Or(Exec(db, s), db), Perform(db, user, c).db, Resolves(db, c, s))
  {
    match c
    case OwnerAdd(name, username) => OwnerIsWhole(db, name, username, s);
    case CapsAdd(username, cap) => CapIsWhole(db, username, cap, s);
    case HelperRestart(xid) => RestartIsWhole(db, xid, s);
    case GroupAdd(group, name) =>
      if GetGid(db, group) != 0 {
        KnownMemberIsWhole(db, group, name, s);
      } else {
        NewMemberIsWhole(db, group, name, s);
      }
  }

  // ----- whole runs

  ghost predicate Step(s: State, a: Action, t: State) {
    Enabled(s, a) && t == Apply(s, a)
  }

  ghost predicate IsRun(states: seq<State>, acts: seq<Action>) {
    Chain(Step, states, acts) && states[0].procs == map[]
  }

  /** The run begins with a sound store, and the others keep it so. */
  ghost predicate Tame(states: seq<State>, acts: seq<Action>)
    requires |states| == |acts| + 1
  {
    Inv(states[0].db) && forall i {:trigger acts[i]} | 0 <= i < |acts| && acts[i].Other? :: Harmless(states[i].db, acts[i].d)
  }

  lemma TameIf(states: seq<State>, acts: seq<Action>)
    requires |states| == |acts| + 1 && Inv(states[0].db) && forall a | a in acts && a.Other? :: Inv(a.d)
    ensures Tame(states, acts)
  {
  }

  predicate TwoLookups(c: Call) {
    c.OwnerAdd? || (c.GroupAdd? && ValidGroup(c.group) && c.group != "all" && c.name != [])
  }

  /** What a process has got to belongs to its request. */
  predicate ProcShaped(p: Proc) {
    && LinkCall(p.call)
    && (p.phase.Half? ==> TwoLookups(p.call))
    && (p.phase.Ready? ==> Shaped(p.call, p.phase.stmt))
  }

  ghost predicate AllShaped(s: State) {
    forall p | p in s.procs :: ProcShaped(s.procs[p])
  }

  lemma FirstShaped(db: Db, c: Call)
    requires LinkCall(c)
    ensures ProcShaped(Proc(c, FirstLook(db, c)))
  {
  }

  lemma SecondShaped(db: Db, c: Call, id: int)
    requires ProcShaped(Proc(c, Half(id)))
    ensures ProcShaped(Proc(c, SecondLook(db, c, id)))
  {
  }

  lemma StepShaped(s: State, a: Action)
    requires AllShaped(s) && Enabled(s, a)
    ensures AllShaped(Apply(s, a))
  {
    if a.First? {
      FirstShaped(s.db, s.procs[a.p].call);
    } else if a.Second? {
      SecondShaped(s.db, s.procs[a.p].call, s.procs[a.p].phase.id);
    }
  }

  lemma {:induction false} RunShaped(states: seq<State>, acts: seq<Action>, k: nat)
    requires IsRun(states, acts) && k < |states|
    ensures AllShaped(states[k])
  {
    if k > 0 {
      At(Step, states, acts, k - 1);
      RunShaped(states, acts, k - 1);
      var a := acts[k - 1];
      StepShaped(states[k - 1], a);
    }
  }

  /** In every interleaving, an insert is the whole request at that moment if and only if the names still
      resolve to the ids found before, or nothing changes either way. */
  lemma PutIsWholeIff(states: seq<State>, acts: seq<Action>, k: nat, user: string)
    requires IsRun(states, acts) && k < |acts| && acts[k].Put?
    ensures acts[k].p in states[k].procs && ProcShaped(states[k].procs[acts[k].p]) && states[k].procs[acts[k].p].phase.Ready?
    ensures var me := states[k].procs[acts[k].p];
            SameOrIdle(states[k].db, states[k + 1].db, Perform(states[k].db, user, me.call).db,
                       Resolves(states[k].db, me.call, me.phase.stmt))
  {
    RunShaped(states, acts, k);
    At(Step, states, acts, k);
    var me := states[k].procs[acts[k].p];
    InsertIsWholeIff(states[k].db, user, me.call, me.phase.stmt);
  }

  /** The step is an insert that takes effect although something it refers to is gone. */
  predicate Dangles(s: State, a: Action) {
    && a.Put? && a.p in s.procs && s.procs[a.p].phase.Ready?
    && var stmt := s.procs[a.p].phase.stmt;
       (stmt.Insert? || stmt.Replace?) && Exec(s.db, stmt).Some? && !References(s.db, stmt.row)
  }

  lemma PutKeepsContexts(db: Db, s: Stmt)
    requires ContextInv(db) && LinkStmt(s) && Exec(db, s).Some?
    ensures ContextInv(Exec(db, s).value)
  {
    ContextUntouched(db, s);
  }

  lemma PutKeeps(s: State, p: Pid)
    requires Inv(s.db) && AllShaped(s) && Enabled(s, Put(p)) && !Dangles(s, Put(p))
    ensures Inv(Apply(s, Put(p)).db)
  {
    var stmt := s.procs[p].phase.stmt;
    assert ProcShaped(s.procs[p]);
    if Exec(s.db, stmt).Some? {
      InsertSafeIff(s.db, stmt);
      PutKeepsContexts(s.db, stmt);
    }
  }

  lemma FirstKeeps(db: Db, c: Call)
    requires Inv(db)
    ensures Inv(FirstDb(db, c))
  {
    if c.GroupAdd? {
      GroupAddKeeps(db, c.group, []);
    }
  }

  lemma SafeStepKeeps(s: State, a: Action)
    requires Inv(s.db) && AllShaped(s) && Enabled(s, a) && !Dangles(s, a) && (a.Other? ==> Harmless(s.db, a.d))
    ensures Inv(Apply(s, a).db)
  {
    match a
    case First(p) => FirstKeeps(s.db, s.procs[p].call);
    case Put(p) => PutKeeps(s, p);
    case Other(d) =>
    case _ => assert Apply(s, a).db == s.db;
  }

  lemma DanglingStepBreaks(s: State, a: Action)
    requires LinkInv(s.db) && AllShaped(s) && Enabled(s, a) && Dangles(s, a)
    ensures !LinkInv(Apply(s, a).db)
  {
    assert ProcShaped(s.procs[a.p]);
    InsertSafeIff(s.db, s.procs[a.p].phase.stmt);
  }

  ghost predicate NoneDangles(states: seq<State>, acts: seq<Action>, k: nat)
    requires |states| == |acts| + 1 && k < |states|
  {
    forall j {:trigger acts[j]} | 0 <= j < k :: !Dangles(states[j], acts[j])
  }

  ghost predicate Intact(states: seq<State>, k: nat)
    requires k < |states|
  {
    forall j {:trigger states[j]} | 0 <= j <= k :: LinkInv(states[j].db)
  }

  lemma {:induction false} SafeRunKeeps(states: seq<State>, acts: seq<Action>, k: nat)
    requires IsRun(states, acts) && Tame(states, acts) && k < |states| && NoneDangles(states, acts, k)
    ensures Inv(states[k].db)
  {
    if k > 0 {
      At(Step, states, acts, k - 1);
      SafeRunKeeps(states, acts, k - 1);
      RunShaped(states, acts, k - 1);
      var a := acts[k - 1];
      SafeStepKeeps(states[k - 1], a);
    }
  }

  /** In every interleaving, references are intact up to state k if and only if no insert up to then
      came after the removal of what it refers to. */
  lemma RunIntactIff(states: seq<State>, acts: seq<Action>, k: nat)
    requires IsRun(states, acts) && Tame(states, acts) && k < |states|
    ensures Intact(states, k) <==> NoneDangles(states, acts, k)
  {
    if NoneDangles(states, acts, k) {
      forall j | 0 <= j <= k ensures LinkInv(states[j].db) {
        SafeRunKeeps(states, acts, j);
      }
    } else {
      var j :| 0 <= j < k && Dangles(states[j], acts[j]);
      At(Step, states, acts, j);
      RunShaped(states, acts, j);
      if LinkInv(states[j].db) {
        DanglingStepBreaks(states[j], acts[j]);
        assert !LinkInv(states[j + 1].db);
      }
    }
  }

  // ----- runs in which it goes wrong

  function Single(db: Db, c: Call, phase: Phase): State {
    State(db, map[0 := Proc(c, phase)])
  }

  function LookupActs(c: Call): seq<Action> {
    [Arrive(0, c), First(0)] + if LooksTwice(c) then [Second(0)] else []
  }

  /** Lookups, somebody else's removal, insert: five or four steps. */
  function Interrupted(c: Call, d: Db): seq<Action> {
    LookupActs(c) + [Other(d)] + [Put(0)]
  }

  lemma ArriveStep(db: Db, c: Call)
    requires LinkCall(c)
    ensures Step(State(db, map[]), Arrive(0, c), Single(db, c, Called))
  {
  }

  lemma FirstStep(db: Db, c: Call, phase: Phase)
    requires FirstDb(db, c) == db && FirstLook(db, c) == phase
    ensures Step(Single(db, c, Called), First(0), Single(db, c, phase))
  {
    assert Apply(Single(db, c, Called), First(0)).procs == map[0 := Proc(c, phase)];
  }

  lemma SecondStep(db: Db, c: Call, id: int, phase: Phase)
    requires SecondLook(db, c, id) == phase
    ensures Step(Single(db, c, Half(id)), Second(0), Single(db, c, phase))
  {
    assert Apply(Single(db, c, Half(id)), Second(0)).procs == map[0 := Proc(c, phase)];
  }

  lemma PutStep(db: Db, c: Call, stmt: Stmt)
    requires Exec(db, stmt).Some?
    ensures Step(Single(db, c, Ready(stmt)), Put(0), Single(Exec(db, stmt).value, c, Done))
  {
    assert Apply(Single(db, c, Ready(stmt)), Put(0)).procs == map[0 := Proc(c, Done)];
  }

  predicate LooksTwice(c: Call) {
    c.OwnerAdd? || c.GroupAdd?
  }

  /** The lookups of a request that finds what it asks for. */
  ghost predicate Finds(db: Db, c: Call, id: int, stmt: Stmt) {
    && LinkCall(c) && FirstDb(db, c) == db
    && if LooksTwice(c) then FirstLook(db, c) == Half(id) && SecondLook(db, c, id) == Ready(stmt)
       else FirstLook(db, c) == Ready(stmt)
  }

  lemma Begin(db: Db) returns (states: seq<State>, acts: seq<Action>)
    ensures IsRun(states, acts) && states[0].db == db && Last(states) == State(db, map[]) && acts == []
  {
    states, acts := [State(db, map[])], [];
  }

  lemma FirstRun(states: seq<State>, acts: seq<Action>, db: Db, c: Call, phase: Phase)
    returns (ss: seq<State>, bs: seq<Action>)
    requires IsRun(states, acts) && Last(states) == State(db, map[]) && LinkCall(c)
    requires FirstDb(db, c) == db && FirstLook(db, c) == phase
    ensures IsRun(ss, bs) && bs == acts + [Arrive(0, c), First(0)]
    ensures ss[0] == states[0] && Last(ss) == Single(db, c, phase)
  {
    ArriveStep(db, c);
    FirstStep(db, c, phase);
    ss, bs := Extend(Step, states, acts, Arrive(0, c), Single(db, c, Called));
    ss, bs := Extend(Step, ss, bs, First(0), Single(db, c, phase));
  }

  lemma LookupRun(states: seq<State>, acts: seq<Action>, db: Db, c: Call, id: int, stmt: Stmt)
    returns (ss: seq<State>, bs: seq<Action>)
    requires IsRun(states, acts) && Last(states) == State(db, map[]) && Finds(db, c, id, stmt)
    ensures bs == acts + LookupActs(c)
    ensures IsRun(ss, bs) && ss[0] == states[0] && Last(ss) == Single(db, c, Ready(stmt))
  {
    if LooksTwice(c) {
      ss, bs := FirstRun(states, acts, db, c, Half(id));
      SecondStep(db, c, id, Ready(stmt));
      ss, bs := Extend(Step, ss, bs, Second(0), Single(db, c, Ready(stmt)));
    } else {
      ss, bs := FirstRun(states, acts, db, c, Ready(stmt));
    }
  }

  lemma OtherRun(states: seq<State>, acts: seq<Action>, d: Db) returns (ss: seq<State>, bs: seq<Action>)
    requires IsRun(states, acts)
    ensures IsRun(ss, bs) && bs == acts + [Other(d)] && ss[0] == states[0]
    ensures Last(ss) == Last(states).(db := d) && ss == states + [Last(ss)]
  {
    ss, bs := Extend(Step, states, acts, Other(d), Last(states).(db := d));
  }

  lemma PutRun(states: seq<State>, acts: seq<Action>, db: Db, c: Call, stmt: Stmt)
    returns (ss: seq<State>, bs: seq<Action>)
    requires IsRun(states, acts) && Last(states) == Single(db, c, Ready(stmt)) && Exec(db, stmt).Some?
    ensures IsRun(ss, bs) && bs == acts + [Put(0)] && ss[0] == states[0]
    ensures ss == states + [Single(Exec(db, stmt).value, c, Done)] && ss[|acts|] == Last(states)
  {
    PutStep(db, c, stmt);
    ss, bs := Extend(Step, states, acts, Put(0), Single(Exec(db, stmt).value, c, Done));
  }

  /** `removal` takes away something `c` has looked up. */
  predicate Cuts(db: Db, c: Call, removal: Call) {
    match c
    case OwnerAdd(name, username) =>
      GetUid(db, username) != 0 && GetXid(db, name) != 0 && (removal == UserRemove(username) || Removes(db, removal, GetXid(db, name)))
    case GroupAdd(group, name) =>
      && ValidGroup(group) && group != "all" && GetGid(db, group) != 0 && GetXid(db, name) != 0
      && (removal == GroupRemove(group, []) || Removes(db, removal, GetXid(db, name)))
    case CapsAdd(username, cap) => GetUid(db, username) != 0 && ValidCap(cap) && removal == UserRemove(username)
    case HelperRestart(xid) => GetName(db, xid).Some? && Removes(db, removal, xid)
    case _ => false
  }

  predicate Removes(db: Db, c: Call, x: int) {
    c.Remove? && !c.running && GetXid(db, c.name) == x != 0
  }

  lemma ContextGone(db: Db, name: string)
    requires GetXid(db, name) != 0
    ensures var x, d := GetXid(db, name), DoRemove(db, name, false).db;
            !Named(d, x) && forall r :: r in d && r.t == XidGidMap ==> r.id != x
  {
    RunDeleteAll(db, REMOVED, GetXid(db, name));
    RemoveKeeps(db, GetXid(db, name));
    RemovedTables(XidGidMap);
  }

  lemma GroupGone(db: Db, group: string)
    requires ValidGroup(group) && group != "all" && GetGid(db, group) != 0
    ensures var d := DoGroupRemove(db, group, []).db;
            !Has(d, Groups, GetGid(db, group)) && forall r :: r in d && r.t == XidGidMap ==> r.key != Int(GetGid(db, group))
  {
    GroupRemoveRows(db, GetGid(db, group));
  }

  lemma UserGone(db: Db, username: string)
    requires GetUid(db, username) != 0
    ensures !Has(DoUserRemove(db, username).db, User, GetUid(db, username))
  {
    UserRemoveRows(db, GetUid(db, username));
  }

  /** The store after the removal. */
  function Remains(db: Db, removal: Call): Db {
    match removal
    case Remove(name, _, _) => DoRemove(db, name, false).db
    case UserRemove(username) => DoUserRemove(db, username).db
    case GroupRemove(group, _) => DoGroupRemove(db, group, []).db
    case _ => db
  }

  lemma RemoveRemains(db: Db, user: string, c: Call)
    requires c.Remove? && !c.running
    ensures Perform(db, user, c).db == Remains(db, c)
  {
    assert Perform(db, user, c) == PerformContext(db, c);
  }

  lemma AdminRemains(db: Db, user: string, c: Call)
    requires c.UserRemove? || (c.GroupRemove? && c.name == [])
    ensures Perform(db, user, c).db == Remains(db, c)
  {
    assert Perform(db, user, c) == PerformAdmin(db, c);
  }

  lemma CutsHow(db: Db, c: Call, removal: Call)
    requires Cuts(db, c, removal)
    ensures removal.UserRemove? || (removal.GroupRemove? && removal.name == [])
            || (removal.Remove? && !removal.running && ValidName(removal.name))
  {
  }

  lemma RemainsIsRequest(db: Db, c: Call, user: string, removal: Call)
    requires Cuts(db, c, removal)
    ensures Remains(db, removal) == Perform(db, user, removal).db
  {
    CutsHow(db, c, removal);
    if removal.Remove? {
      RemoveRemains(db, user, removal);
    } else {
      AdminRemains(db, user, removal);
    }
  }

  lemma CutsNames(db: Db, c: Call, removal: Call)
    requires Cuts(db, c, removal)
    ensures LocksName(removal) ==> ValidName(removal.name)
  {
    CutsHow(db, c, removal);
  }

  function LinkOf(db: Db, c: Call): Stmt
    requires LinkCall(c)
  {
    match c
    case OwnerAdd(name, username) => Replace(Row(XidUidMap, GetXid(db, name), Int(GetUid(db, username)), []))
    case GroupAdd(group, name) => Insert(Row(XidGidMap, GetXid(db, name), Int(GetGid(db, group)), []))
    case CapsAdd(username, cap) => Replace(Row(UserCaps, GetUid(db, username), Text(cap), []))
    case HelperRestart(xid) => Replace(Row(Restart, xid, Null, []))
  }

  function FirstId(db: Db, c: Call): int {
    match c
    case OwnerAdd(_, username) => GetUid(db, username)
    case GroupAdd(group, _) => GetGid(db, group)
    case _ => 0
  }

  lemma GroupLooksUp(db: Db, group: string, name: string)
    requires ValidGroup(group) && group != "all" && GetGid(db, group) != 0 && GetXid(db, name) != 0
    ensures Finds(db, GroupAdd(group, name), GetGid(db, group), LinkOf(db, GroupAdd(group, name)))
  {
    assert name != [];
  }

  lemma CapLooksUp(db: Db, username: string, cap: string)
    requires GetUid(db, username) != 0 && ValidCap(cap)
    ensures Finds(db, CapsAdd(username, cap), 0, LinkOf(db, CapsAdd(username, cap)))
  {
  }

  lemma RestartLooksUp(db: Db, xid: int)
    requires GetName(db, xid).Some?
    ensures Finds(db, HelperRestart(xid), 0, LinkOf(db, HelperRestart(xid)))
  {
  }

  lemma OwnerLooksUp(d: Db, name: string, alice: string)
    requires GetUid(d, alice) != 0 && GetXid(d, name) != 0
    ensures Finds(d, OwnerAdd(name, alice), GetUid(d, alice), LinkOf(d, OwnerAdd(name, alice)))
  {
  }

  lemma LooksUp(db: Db, c: Call, removal: Call)
    requires LinkCall(c) && Cuts(db, c, removal)
    ensures Finds(db, c, FirstId(db, c), LinkOf(db, c))
  {
    match c
    case OwnerAdd(name, username) => OwnerLooksUp(db, name, username);
    case GroupAdd(group, name) => GroupLooksUp(db, group, name);
    case CapsAdd(username, cap) => CapLooksUp(db, username, cap);
    case HelperRestart(xid) => RestartLooksUp(db, xid);
  }

  /** Something `c` refers to is missing from d, which does not hold its row either. */
  ghost predicate Lost(db: Db, c: Call, d: Db) {
    match c
    case OwnerAdd(name, username) => !Named(d, GetXid(db, name)) || !Has(d, User, GetUid(db, username))
    case GroupAdd(group, name) =>
      && (!Named(d, GetXid(db, name)) || !Has(d, Groups, GetGid(db, group)))
      && forall q :: q in d && q.t == XidGidMap ==> q.id != GetXid(db, name) || q.key != Int(GetGid(db, group))
    case CapsAdd(username, cap) => !Has(d, User, GetUid(db, username))
    case HelperRestart(xid) => !Named(d, xid)
    case _ => false
  }

  lemma MemberLost(db: Db, group: string, name: string, d: Db)
    requires Lost(db, GroupAdd(group, name), d)
    ensures var row := Row(XidGidMap, GetXid(db, name), Int(GetGid(db, group)), []);
            !References(d, row) && Free(d, row)
  {
  }

  lemma LostReference(db: Db, c: Call, d: Db)
    requires LinkCall(c) && Lost(db, c, d)
    ensures !References(d, LinkOf(db, c).row)
  {
    if c.GroupAdd? {
      MemberLost(db, c.group, c.name, d);
    }
  }

  lemma LostInserts(db: Db, c: Call, d: Db)
    requires LinkCall(c) && Lost(db, c, d)
    ensures Exec(d, LinkOf(db, c)).Some?
  {
    if c.GroupAdd? {
      MemberLost(db, c.group, c.name, d);
    }
  }

  /** The context a request refers to, 0 for none. */
  function ContextOf(db: Db, c: Call): int {
    match c
    case OwnerAdd(name, _) => GetXid(db, name)
    case GroupAdd(_, name) => GetXid(db, name)
    case HelperRestart(xid) => xid
    case _ => 0
  }

  lemma WithoutContext(db: Db, c: Call, x: int, d: Db)
    requires ContextOf(db, c) == x != 0 && !Named(d, x)
    requires forall r :: r in d && r.t == XidGidMap ==> r.id != x
    ensures Lost(db, c, d)
  {
  }

  lemma CutContext(db: Db, c: Call, removal: Call)
    requires Cuts(db, c, removal) && removal.Remove?
    ensures ContextOf(db, c) == GetXid(db, removal.name) != 0
  {
    if c.HelperRestart? {
      assert Removes(db, removal, c.xid);
    }
  }

  lemma RemoveLoses(db: Db, c: Call, name: string, d: Db)
    requires ContextOf(db, c) == GetXid(db, name) != 0 && d == DoRemove(db, name, false).db
    ensures Lost(db, c, d)
  {
    ContextGone(db, name);
    WithoutContext(db, c, GetXid(db, name), d);
  }

  lemma RemoveCuts(db: Db, c: Call, removal: Call, d: Db)
    requires Cuts(db, c, removal) && removal.Remove? && d == DoRemove(db, removal.name, false).db
    ensures Lost(db, c, d)
  {
    CutContext(db, c, removal);
    RemoveLoses(db, c, removal.name, d);
  }

  lemma RemainsRemove(db: Db, removal: Call, d: Db)
    requires removal.Remove? && d == Remains(db, removal)
    ensures d == DoRemove(db, removal.name, false).db
  {
  }

  lemma RemoveRemainsLoses(db: Db, c: Call, removal: Call, d: Db)
    requires Cuts(db, c, removal) && removal.Remove? && d == Remains(db, removal)
    ensures Lost(db, c, d)
  {
    RemainsRemove(db, removal, d);
    RemoveCuts(db, c, removal, d);
  }

  lemma UserRemoveLoses(db: Db, c: Call, removal: Call, d: Db)
    requires LinkCall(c) && Cuts(db, c, removal) && removal.UserRemove? && d == Remains(db, removal)
    ensures Lost(db, c, d)
  {
    UserGone(db, removal.username);
  }

  lemma GroupRemoveLoses(db: Db, c: Call, removal: Call, d: Db)
    requires LinkCall(c) && Cuts(db, c, removal) && removal.GroupRemove? && d == Remains(db, removal)
    ensures Lost(db, c, d)
  {
    GroupGone(db, removal.group);
  }

  lemma RemovalLoses(db: Db, c: Call, removal: Call, d: Db)
    requires LinkCall(c) && Cuts(db, c, removal) && d == Remains(db, removal)
    ensures Lost(db, c, d)
  {
    CutsHow(db, c, removal);
    if removal.Remove? {
      RemoveRemainsLoses(db, c, removal, d);
    } else if removal.UserRemove? {
      UserRemoveLoses(db, c, removal, d);
    } else {
      GroupRemoveLoses(db, c, removal, d);
    }
  }

  /** All six races are real: whenever a removal takes away what vxdb.owner.add (user or context), vg.add
      (group or context), vcd.user.caps.add (user) or helper.restart (context) has looked up, there is a run
      whose last step, the insert, leaves a dangling row. */
  lemma RemovalDangles(db: Db, c: Call, user: string, removal: Call)
    returns (states: seq<State>, acts: seq<Action>, d: Db)
    requires Inv(db) && LinkCall(c) && Cuts(db, c, removal)
    ensures d == Perform(db, user, removal).db
    ensures IsRun(states, acts) && Tame(states, acts) && states[0].db == db && acts == Interrupted(c, d)
    ensures states[|acts| - 1].db == d && LinkInv(d) && !LinkInv(states[|acts|].db)
    ensures LinkOf(db, c).row in states[|acts|].db
  {
    d := RemovalLeaves(db, c, user, removal);
    states, acts := InterruptedRun(db, c, FirstId(db, c), LinkOf(db, c), d);
    InterruptedTame(states, acts, c, d);
  }

  lemma InterruptedTame(states: seq<State>, acts: seq<Action>, c: Call, d: Db)
    requires acts == Interrupted(c, d) && |states| == |acts| + 1 && Inv(states[0].db) && Inv(d)
    ensures Tame(states, acts)
  {
    TameIf(states, acts);
  }

  lemma RemovalLeaves(db: Db, c: Call, user: string, removal: Call) returns (d: Db)
    requires Inv(db) && LinkCall(c) && Cuts(db, c, removal)
    ensures d == Perform(db, user, removal).db && Inv(d) && Finds(db, c, FirstId(db, c), LinkOf(db, c))
    ensures Exec(d, LinkOf(db, c)).Some? && !LinkInv(Exec(d, LinkOf(db, c)).value)
    ensures LinkOf(db, c).row in Exec(d, LinkOf(db, c)).value
  {
    d := Remains(db, removal);
    RemainsIsRequest(db, c, user, removal);
    CutsNames(db, c, removal);
    LooksUp(db, c, removal);
    RemovalLoses(db, c, removal, d);
    PerformKeeps(db, user, removal);
    LostDangles(db, c, d);
  }

  lemma LostDangles(db: Db, c: Call, d: Db)
    requires LinkCall(c) && Inv(d) && Lost(db, c, d)
    ensures Exec(d, LinkOf(db, c)).Some? && !LinkInv(Exec(d, LinkOf(db, c)).value)
    ensures LinkOf(db, c).row in Exec(d, LinkOf(db, c)).value
  {
    LostReference(db, c, d);
    LostInserts(db, c, d);
    InsertSafeIff(d, LinkOf(db, c));
  }

  lemma LookedUp(db: Db, c: Call, id: int, stmt: Stmt) returns (states: seq<State>, acts: seq<Action>)
    requires Finds(db, c, id, stmt)
    ensures IsRun(states, acts) && states[0].db == db && Last(states) == Single(db, c, Ready(stmt)) && acts == LookupActs(c)
  {
    states, acts := Begin(db);
    states, acts := LookupRun(states, acts, db, c, id, stmt);
  }

  lemma InterruptedRun(db: Db, c: Call, id: int, stmt: Stmt, d: Db) returns (states: seq<State>, acts: seq<Action>)
    requires Finds(db, c, id, stmt) && Exec(d, stmt).Some?
    ensures IsRun(states, acts) && states[0].db == db && acts == Interrupted(c, d)
    ensures states[|acts| - 1].db == d && states[|acts|].db == Exec(d, stmt).value
  {
    states, acts := LookedUp(db, c, id, stmt);
    states, acts := LatePutRun(states, acts, db, c, stmt, d);
  }

  /** Somebody else's step between the lookups and the insert. */
  lemma LatePutRun(states: seq<State>, acts: seq<Action>, db: Db, c: Call, stmt: Stmt, d: Db)
    returns (ss: seq<State>, bs: seq<Action>)
    requires IsRun(states, acts) && Last(states) == Single(db, c, Ready(stmt)) && Exec(d, stmt).Some?
    ensures IsRun(ss, bs) && bs == acts + [Other(d)] + [Put(0)] && ss[0] == states[0]
    ensures ss[|bs| - 1].db == d && ss[|bs|].db == Exec(d, stmt).value
  {
    ss, bs := OtherRun(states, acts, d);
    ss, bs := PutRun(ss, bs, d, c, stmt);
  }

  // ----- an id given out again

  /** A dangling owner row does harm: the next user created gets the removed user's id, if that was the
      highest, and owns the context without anybody having said so. */
  lemma ReusedIdOwns(db: Db, username: string, pass: string, hash: string, admin: bool, name: string, uid: int)
    requires GetUid(db, username) == 0 && MaxId(db, User) + 1 == uid != 0
    requires GetXid(db, name) != 0 && OwnerRow(db, GetXid(db, name), uid)
    requires DoUserSet(db, username, pass, hash, admin).fault == NoFault
    ensures IsOwner(DoUserSet(db, username, pass, hash, admin).db, username, name)
  {
    var d := DoUserSet(db, username, pass, hash, admin).db;
    var row := UserRow(uid, username, hash, admin);
    assert row in d && d == db + {row};
    var q :| q in d && q.t == User && q.key == Text(username) && q.id == IdOf(d, User, username);
    SameKeySameRow(d, User, row, q);
    IdOfSame(db, d, XidNameMap, name);
    var r :| r in db && r.t == XidUidMap && r.id == GetXid(db, name) && r.key == Int(uid);
    assert r in d;
  }

  lemma NewUserSucceeds(db: Db, alice: string, pass: string, hash: string)
    requires Inv(db) && ValidUsername(alice) && GetUid(db, alice) == 0 && ValidPassword(pass)
    ensures DoUserSet(db, alice, pass, hash, false).fault == NoFault
  {
    Outcomes.NewUserInserts(db, alice, UserRow(MaxId(db, User) + 1, alice, hash, false));
  }

  /** Nothing refers to an id that no user has. */
  lemma UserDropped(db: Db, d: Db, row: Row)
    requires Inv(db) && row.t == User && d == db + {row} && !Has(db, User, row.id)
    ensures Run(d, UserRemoveScript(row.id)) == Some(db)
  {
    UserRemoveRows(d, row.id);
    var out := Run(d, UserRemoveScript(row.id)).value;
    forall r ensures r in out <==> r in db {
      if r in db {
        assert r.t == User || r.t == UserCaps ==> r.id != row.id;
      }
    }
    assert out == db;
  }

  /** Creating a user and removing it again restores the store. */
  lemma UserComesAndGoes(db: Db, alice: string, pass: string, hash: string) returns (d: Db, row: Row)
    requires Inv(db) && ValidUsername(alice) && GetUid(db, alice) == 0 && ValidPassword(pass)
    ensures DoUserSet(db, alice, pass, hash, false) == Reply(d, NoFault) && Inv(d) && d == db + {row}
    ensures row == UserRow(MaxId(db, User) + 1, alice, hash, false) && !Has(db, User, row.id)
    ensures GetUid(d, alice) == row.id != 0 && DoUserRemove(d, alice) == Reply(db, NoFault)
  {
    NewUserSucceeds(db, alice, pass, hash);
    NewUserRow(db, alice, pass, hash, false);
    UserSetKeeps(db, alice, pass, hash, false);
    row := UserRow(MaxId(db, User) + 1, alice, hash, false);
    d := DoUserSet(db, alice, pass, hash, false).db;
    UserDropped(db, d, row);
  }

  lemma SameNames(db: Db, d: Db, row: Row, name: string, alice: string)
    requires d == db + {row} && row.t == User && row.key != Text(alice)
    ensures GetXid(d, name) == GetXid(db, name) && GetUid(d, alice) == GetUid(db, alice)
  {
    IdOfSame(db, d, XidNameMap, name);
    IdOfSame(db, d, User, alice);
  }

  lemma StillNoOwner(db: Db, d: Db, bob: string, row: Row, name: string)
    requires Inv(db) && d == db + {row} && row.t == User && row.key == Text(bob) && !AdminRow(row)
    requires GetUid(d, bob) == row.id && !Has(db, User, row.id)
    ensures !IsOwner(d, bob, name)
  {
    NewUserHoldsNothing(db, d, bob, row, {});
    NonAdminOwnsNothing(d, bob, row, name);
  }

  /** What comes of bob's account, and of the insert meant for alice. */
  lemma MisledInsert(db: Db, alice: string, bob: string, name: string, pass: string, hash: string, row: Row) returns (d: Db, e: Db)
    requires Inv(db) && ValidUsername(bob) && alice != bob && GetUid(db, alice) == 0 && GetUid(db, bob) == 0
    requires ValidPassword(pass) && GetXid(db, name) != 0
    requires row == Row(XidUidMap, GetXid(db, name), Int(MaxId(db, User) + 1), [])
    ensures d == DoUserSet(db, bob, pass, hash, false).db && Inv(d) && Exec(d, Replace(row)) == Some(e)
    ensures GetUid(d, alice) == 0 && GetUid(d, bob) == MaxId(db, User) + 1 != 0 && GetXid(d, name) == GetXid(db, name)
    ensures !IsOwner(d, bob, name) && IsOwner(e, bob, name)
  {
    var user;
    d, user := UserComesAndGoes(db, bob, pass, hash);
    SameNames(db, d, user, name, alice);
    StillNoOwner(db, d, bob, user, name);
    e := Exec(d, Replace(row)).value;
    OwnerGranted(d, name, bob, e, bob, name);
  }

  lemma NothingDangles(d: Db, bob: string, name: string, row: Row)
    requires GetUid(d, bob) != 0 && GetXid(d, name) != 0 && row == Row(XidUidMap, GetXid(d, name), Int(GetUid(d, bob)), [])
    ensures References(d, row)
  {
    IdOfHas(d, XidNameMap, name);
    IdOfHas(d, User, bob);
  }

  /** Dangling is not the only harm: a run without a dangling row in which bob becomes the owner of a context
      because alice, for whom the owner was added, is gone and bob has got her id. At the moment of the insert
      the whole request would be refused. */
  lemma ReusedIdMisleads(db: Db, alice: string, bob: string, name: string, pass: string, hash: string)
    returns (states: seq<State>, acts: seq<Action>, d1: Db, d2: Db, d3: Db)
    requires Inv(db) && ValidUsername(alice) && ValidUsername(bob) && alice != bob
    requires GetUid(db, alice) == 0 && GetUid(db, bob) == 0 && ValidPassword(pass) && GetXid(db, name) != 0
    ensures IsRun(states, acts) && Tame(states, acts) && |acts| == 7 && states[0].db == db && states[6].db == d3
    ensures acts == [Other(d1)] + LookupActs(OwnerAdd(name, alice)) + [Other(d2)] + [Other(d3)] + [Put(0)]
    ensures NoneDangles(states, acts, 7)
    ensures !IsOwner(d3, bob, name) && IsOwner(states[7].db, bob, name)
    ensures d1 == DoUserSet(db, alice, pass, hash, false).db
    ensures d2 == DoUserRemove(d1, alice).db && d3 == DoUserSet(d2, bob, pass, hash, false).db
    ensures DoOwnerAdd(d3, name, alice).fault == NoUser
  {
    var id, row, after;
    d1, d2, d3, id, row, after := MisleadingStores(db, alice, bob, name, pass, hash);
    states, acts := MisledSafely(d2, d1, d3, name, alice, id, row, after);
  }

  lemma MisledSafely(db: Db, d: Db, e: Db, name: string, username: string, id: int, row: Row, after: Db)
    returns (states: seq<State>, acts: seq<Action>)
    requires Exec(e, Replace(row)) == Some(after)
    requires Finds(d, OwnerAdd(name, username), id, Replace(row)) && References(e, row) && Inv(db) && Inv(d) && Inv(e)
    ensures IsRun(states, acts) && Tame(states, acts) && states[0].db == db
    ensures acts == [Other(d)] + LookupActs(OwnerAdd(name, username)) + [Other(db)] + [Other(e)] + [Put(0)] && |acts| == 7
    ensures NoneDangles(states, acts, 7) && states[6].db == e && states[7].db == after
  {
    states, acts := MisledOnce(db, d, e, name, username, id, row, after);
    MisledTame(states, acts, OwnerAdd(name, username), d, db, e);
  }

  lemma MisledOnce(db: Db, d: Db, e: Db, name: string, username: string, id: int, row: Row, after: Db)
    returns (states: seq<State>, acts: seq<Action>)
    requires Exec(e, Replace(row)) == Some(after)
    requires Finds(d, OwnerAdd(name, username), id, Replace(row)) && References(e, row)
    ensures IsRun(states, acts) && states[0].db == db
    ensures acts == [Other(d)] + LookupActs(OwnerAdd(name, username)) + [Other(db)] + [Other(e)] + [Put(0)] && |acts| == 7
    ensures NoneDangles(states, acts, 7) && states[6].db == e && states[7].db == after
  {
    var c := OwnerAdd(name, username);
    states, acts := MisledRun(db, d, e, c, id, Replace(row));
    MisledPuts(states, acts, c, d, db, e, Replace(row));
  }

  lemma MisleadingStores(db: Db, alice: string, bob: string, name: string, pass: string, hash: string)
    returns (d: Db, gone: Db, e: Db, id: int, row: Row, after: Db)
    requires Inv(db) && ValidUsername(alice) && ValidUsername(bob) && alice != bob
    requires GetUid(db, alice) == 0 && GetUid(db, bob) == 0 && ValidPassword(pass) && GetXid(db, name) != 0
    ensures d == DoUserSet(db, alice, pass, hash, false).db && gone == DoUserRemove(d, alice).db == db && Inv(d) && Inv(gone)
    ensures e == DoUserSet(gone, bob, pass, hash, false).db && Inv(e) && DoOwnerAdd(e, name, alice).fault == NoUser
    ensures Finds(d, OwnerAdd(name, alice), id, Replace(row)) && References(e, row)
    ensures Exec(e, Replace(row)) == Some(after) && !IsOwner(e, bob, name) && IsOwner(after, bob, name)
  {
    gone := db;
    row := Row(XidUidMap, GetXid(db, name), Int(MaxId(db, User) + 1), []);
    d := AliceFound(db, alice, name, pass, hash, Replace(row));
    OwnerLooksUp(d, name, alice);
    id := GetUid(d, alice);
    e, after := MisledInsert(db, alice, bob, name, pass, hash, row);
    NothingDangles(e, bob, name, row);
  }

  lemma MisledPuts(states: seq<State>, acts: seq<Action>, c: Call, d1: Db, d2: Db, d3: Db, stmt: Stmt)
    requires acts == [Other(d1)] + LookupActs(c) + [Other(d2)] + [Other(d3)] + [Put(0)] && |states| == |acts| + 1 == 8
    requires states[6] == Single(d3, c, Ready(stmt)) && (stmt.Insert? || stmt.Replace?) && References(d3, stmt.row)
    ensures NoneDangles(states, acts, 7)
  {
    OnlyLastPuts(states, acts, [Other(d1)], LookupActs(c), [Other(d2)], [Other(d3)], c, stmt);
  }

  lemma MisledTame(states: seq<State>, acts: seq<Action>, c: Call, d1: Db, d2: Db, d3: Db)
    requires acts == [Other(d1)] + LookupActs(c) + [Other(d2)] + [Other(d3)] + [Put(0)] && |states| == |acts| + 1
    requires Inv(states[0].db) && Inv(d1) && Inv(d2) && Inv(d3)
    ensures Tame(states, acts)
  {
    TameIf(states, acts);
  }

  lemma AliceFound(db: Db, alice: string, name: string, pass: string, hash: string, stmt: Stmt) returns (d: Db)
    requires Inv(db) && ValidUsername(alice) && GetUid(db, alice) == 0 && ValidPassword(pass) && GetXid(db, name) != 0
    requires stmt == Replace(Row(XidUidMap, GetXid(db, name), Int(MaxId(db, User) + 1), []))
    ensures d == DoUserSet(db, alice, pass, hash, false).db && Inv(d) && DoUserRemove(d, alice).db == db
    ensures GetUid(d, alice) != 0 && GetXid(d, name) != 0 && stmt == LinkOf(d, OwnerAdd(name, alice))
  {
    var user;
    d, user := UserComesAndGoes(db, alice, pass, hash);
    XidSame(db, d, user, name);
  }

  lemma XidSame(db: Db, d: Db, row: Row, name: string)
    requires d == db + {row} && row.t == User
    ensures GetXid(d, name) == GetXid(db, name)
  {
    IdOfSame(db, d, XidNameMap, name);
  }

  /** One insert at the end, of a row whose references exist. */
  lemma OnlyLastPuts(states: seq<State>, acts: seq<Action>, a: seq<Action>, b: seq<Action>, e: seq<Action>, f: seq<Action>,
                     c: Call, stmt: Stmt)
    requires |states| == 8 && acts == a + b + e + f + [Put(0)] && |acts| == 7
    requires forall x | x in a + b + e + f :: !x.Put?
    requires states[6] == Single(states[6].db, c, Ready(stmt)) && (stmt.Insert? || stmt.Replace?) && References(states[6].db, stmt.row)
    ensures NoneDangles(states, acts, 7)
  {
    forall j | 0 <= j < 7 ensures !Dangles(states[j], acts[j]) {
      if j < 6 {
        assert acts[j] in a + b + e + f;
      }
    }
  }

  /** The seven steps. */
  lemma MisledRun(db: Db, d: Db, e: Db, c: Call, id: int, stmt: Stmt) returns (states: seq<State>, acts: seq<Action>)
    requires Finds(d, c, id, stmt) && LooksTwice(c)
    requires Exec(e, stmt).Some?
    ensures IsRun(states, acts) && states[0].db == db
    ensures acts == [Other(d)] + LookupActs(c) + [Other(db)] + [Other(e)] + [Put(0)] && |acts| == 7
    ensures states[6] == Single(e, c, Ready(stmt)) && states[7].db == Exec(e, stmt).value
  {
    states, acts := BeforePut(db, d, e, c, id, stmt);
    states, acts := PutRun(states, acts, e, c, stmt);
  }

  lemma BeforePut(db: Db, d: Db, e: Db, c: Call, id: int, stmt: Stmt) returns (states: seq<State>, acts: seq<Action>)
    requires Finds(d, c, id, stmt) && LooksTwice(c)
    ensures IsRun(states, acts) && states[0].db == db && Last(states) == Single(e, c, Ready(stmt))
    ensures acts == [Other(d)] + LookupActs(c) + [Other(db)] + [Other(e)] && |acts| == 6
  {
    states, acts := FirstHalf(db, d, c, id, stmt);
    states, acts := TwoOthers(states, acts, d, c, stmt, db, e);
  }

  lemma FirstHalf(db: Db, d: Db, c: Call, id: int, stmt: Stmt) returns (states: seq<State>, acts: seq<Action>)
    requires Finds(d, c, id, stmt) && LooksTwice(c)
    ensures IsRun(states, acts) && states[0].db == db && Last(states) == Single(d, c, Ready(stmt))
    ensures acts == [Other(d)] + LookupActs(c)
  {
    states, acts := Begin(db);
    states, acts := OtherRun(states, acts, d);
    states, acts := LookupRun(states, acts, d, c, id, stmt);
  }

  lemma TwoOthers(states: seq<State>, acts: seq<Action>, db: Db, c: Call, stmt: Stmt, d: Db, e: Db)
    returns (ss: seq<State>, bs: seq<Action>)
    requires IsRun(states, acts) && Last(states) == Single(db, c, Ready(stmt))
    ensures IsRun(ss, bs) && bs == acts + [Other(d)] + [Other(e)] && ss[0] == states[0]
    ensures Last(ss) == Single(e, c, Ready(stmt))
  {
    ss, bs := OtherRun(states, acts, d);
    ss, bs := OtherRun(ss, bs, e);
  }
}
