/** A new installation: the store the schema check creates from an empty file, and what requests make of it. */
module Installation {
  import opened Wrappers
  import opened Schema
  import opened Store
  import opened Validate
  import opened Lookup
  import opened Auth
  import opened Template
  import opened Invariant
  import opened Alloc
  import opened Requests
  import opened Reachable
  import opened Guarantees
  import opened Outcomes
  import Rights
  import Sanity

  /** From an empty file on, whatever is asked for: the invariant holds after every sequence of requests. */
  lemma AlwaysValid(reqs: seq<Request>)
    ensures Sanity.Repairable(Sanity.EMPTY_FILE, TABLES)
    ensures Inv(Serve(Sanity.Repaired(Sanity.EMPTY_FILE, TABLES), reqs))
  {
    Sanity.TablesListed();
    Sanity.FreshStart(TABLES);
    ServeKeeps(Sanity.Repaired(Sanity.EMPTY_FILE, TABLES), reqs);
  }

  // ----- the cpuset row that nobody deletes

  /** An administrator who may create and schedule, and the password it logs in with. */
  ghost predicate Operator(db: Db, user: string, pass: string, digest: string) {
    && AuthValid(db, user, pass, digest) && IsAdmin(db, user)
    && HasCapability(db, user, CapCreate) && HasCapability(db, user, CapSched)
  }

  lemma OperatorSame(db: Db, d: Db, user: string, pass: string, digest: string)
    requires SameRows(db, d, User) && SameRows(db, d, UserCaps)
    ensures Operator(db, user, pass, digest) <==> Operator(d, user, pass, digest)
  {
    Rights.LoginSame(db, d, user);
    Rights.CapsSame(db, d, user);
  }

  lemma OperatorAdmitted(db: Db, req: Request)
    requires Operator(db, req.user, req.pass, req.digest) && LocksName(req.call) && ValidName(req.call.name)
    requires CapOf(req.call) == CapCreate || CapOf(req.call) == CapSched
    ensures Admit(db, req) == NoFault
  {
    assert Capable(db, req.user, {CapOf(req.call)});
    assert IsOwner(db, req.user, req.call.name);
  }

  lemma HandledIfAdmitted(db: Db, req: Request)
    requires Admit(db, req) == NoFault
    ensures Handle(db, req) == Perform(db, req.user, req.call)
  {
  }

  /** The world is ready for a creation. */
  const READY := World(NoFault, "", false, false, true)

  /** A context can be created under that name and in that directory. */
  ghost predicate Room(db: Db, name: string, v: string) {
    && ValidName(name) && GetXid(db, name) == 0 && FreeXid(db) != 0
    && ValidPath(v) && |v| <= 31 && forall r :: r in db && r.t == Vdir ==> r.key != Text(v)
  }

  lemma CreatesFresh(db: Db, user: string, name: string, v: string, cfg: Config)
    requires Inv(db) && IsAdmin(db, user) && Room(db, name, v) && ValidConfig(cfg) && RepeatsNothing(cfg)
    ensures var out := DoCreate(db, user, name, v, false, cfg, READY);
            && out.fault == NoFault && Inv(out.db) && GetXid(out.db, name) == FreeXid(db) && !Named(db, FreeXid(db))
            && forall r: Row :: !(r.t in REBUILT && r.id == FreeXid(db)) ==> (r in out.db <==> r in db)
  {
    assert CreateVdir(db, user, name, v, READY) == v;
    FreeXidSpec(db);
    CreateSucceedsIff(db, user, name, v, false, cfg, READY);
    FreshCreate(db, user, name, v, false, cfg, READY);
    CreateCallKeeps(db, user, name, v, false, cfg, READY);
  }

  /** The stores differ in cpuset rows at most. */
  ghost predicate SameButCpusets(db: Db, d: Db) {
    forall r: Row :: r.t != VxCpuset ==> (r in d <==> r in db)
  }

  lemma RoomSame(db: Db, d: Db, name: string, v: string)
    requires SameButCpusets(db, d)
    ensures Room(db, name, v) <==> Room(d, name, v)
    ensures FreeXid(d) == FreeXid(db)
  {
    FreeXidSame(db, d);
    IdOfSame(db, d, XidNameMap, name);
    assert forall r: Row | r.t == Vdir :: r in db <==> r in d;
  }

  function CpusetRow(x: int, cpus: string, mems: string): Row {
    Row(VxCpuset, x, Null, [Text(cpus), Text(mems), Flag(false)])
  }

  lemma CpusetSetRows(d: Db, name: string, cpus: string, mems: string, x: int)
    requires Inv(d) && GetXid(d, name) == x != 0
    ensures var e := DoConfigure(d, name, CpusetSet(cpus, mems, false, true));
            && e.fault == NoFault && Inv(e.db) && GetXid(e.db, name) == x && SameButCpusets(d, e.db)
            && CpusetRow(x, cpus, mems) in e.db && Exec(d, Replace(CpusetRow(x, cpus, mems))) == Some(e.db)
  {
    var setting := CpusetSet(cpus, mems, false, true);
    assert RowOf(setting, x) == Some(CpusetRow(x, cpus, mems));
    ConfigureCallKeeps(d, name, setting);
    ConfigureKeepsNames(d, name, setting, name);
    ExecFrame(d, Replace(CpusetRow(x, cpus, mems)));
  }

  /** Removing a context that was created and given a cpuset leaves the cpuset row behind and nothing else. */
  lemma RemovedAgain(db: Db, d: Db, e: Db, name: string, x: int, row: Row)
    requires Inv(db) && !Named(db, x) && Inv(e) && GetXid(e, name) == x != 0
    requires forall r: Row :: !(r.t in REBUILT && r.id == x) ==> (r in d <==> r in db)
    requires SameButCpusets(d, e) && row in e && row.t == VxCpuset
    ensures var f := DoRemove(e, name, false);
            f.fault == NoFault && Inv(f.db) && SameButCpusets(db, f.db) && row in f.db
  {
    RemoveCallKeeps(e, name, false);
    RunDeleteAll(e, REMOVED, x);
    PurgeUndoes(db, d, x);
    PurgeApart(d, e, x, row);
  }

  lemma PurgeApart(d: Db, e: Db, x: int, row: Row)
    requires SameButCpusets(d, e) && row in e && row.t == VxCpuset
    ensures SameButCpusets(Purge(d, REMOVED, x), Purge(e, REMOVED, x)) && row in Purge(e, REMOVED, x)
  {
    RemovedTables(VxCpuset);
  }

  /** Create m, give it a cpuset, remove it, create n. */
  function InheritingRequests(user: string, pass: string, digest: string, m: string, n: string, v: string, cfg: Config,
                              cpus: string, mems: string): seq<Request>
  {
    [CreateReq(user, pass, digest, m, v, cfg), CpusetReq(user, pass, digest, m, cpus, mems),
     RemoveReq(user, pass, digest, m), CreateReq(user, pass, digest, n, v, cfg)]
  }

  function CreateReq(user: string, pass: string, digest: string, name: string, v: string, cfg: Config): Request {
    Request(user, pass, digest, Create(name, v, false, cfg, READY))
  }

  function CpusetReq(user: string, pass: string, digest: string, name: string, cpus: string, mems: string): Request {
    Request(user, pass, digest, Configure(name, CpusetSet(cpus, mems, false, true)))
  }

  function RemoveReq(user: string, pass: string, digest: string, name: string): Request {
    Request(user, pass, digest, Remove(name, false, NoFault))
  }

  lemma ServeOne(db: Db, a: Request, reqs: seq<Request>, d: Db)
    requires d == Handle(db, a).db
    ensures Serve(db, [a] + reqs) == Serve(d, reqs)
  {
    assert ([a] + reqs)[1..] == reqs;
  }

  lemma ServeTwo(db: Db, a: Request, b: Request, reqs: seq<Request>, d: Db, e: Db)
    requires d == Handle(db, a).db && e == Handle(d, b).db
    ensures Serve(db, [a, b] + reqs) == Serve(e, reqs)
  {
    ServeOne(db, a, [b] + reqs, d);
    ServeOne(d, b, reqs, e);
    assert [a] + ([b] + reqs) == [a, b] + reqs;
  }

  lemma ServeFour(db: Db, a: Request, b: Request, c: Request, d: Request, d1: Db, d2: Db, d3: Db, d4: Db)
    requires d1 == Handle(db, a).db && d2 == Handle(d1, b).db && d3 == Handle(d2, c).db && d4 == Handle(d3, d).db
    ensures Serve(db, [a, b, c, d]) == d4
  {
    ServeTwo(db, a, b, [c, d], d1, d2);
    ServeTwo(d2, c, d, [], d3, d4);
    assert [a, b] + [c, d] == [a, b, c, d] && [c, d] + [] == [c, d];
  }

  lemma AdmitsCreate(db: Db, user: string, pass: string, digest: string, name: string, v: string, cfg: Config)
    requires Operator(db, user, pass, digest) && ValidName(name)
    ensures Admit(db, CreateReq(user, pass, digest, name, v, cfg)) == NoFault
  {
    OperatorAdmitted(db, CreateReq(user, pass, digest, name, v, cfg));
  }

  lemma HandlesCreate(db: Db, user: string, pass: string, digest: string, name: string, v: string, cfg: Config)
    requires Operator(db, user, pass, digest) && ValidName(name)
    ensures Handle(db, CreateReq(user, pass, digest, name, v, cfg)).db == DoCreate(db, user, name, v, false, cfg, READY).db
  {
    AdmitsCreate(db, user, pass, digest, name, v, cfg);
    HandledIfAdmitted(db, CreateReq(user, pass, digest, name, v, cfg));
  }

  lemma HandlesContext(db: Db, req: Request)
    requires Operator(db, req.user, req.pass, req.digest) && LocksName(req.call) && ValidName(req.call.name)
    requires !req.call.Create? && (CapOf(req.call) == CapCreate || CapOf(req.call) == CapSched)
    ensures CapOf(req.call) != CapAuth && Handle(db, req) == PerformContext(db, req.call)
  {
    OperatorAdmitted(db, req);
    HandledIfAdmitted(db, req);
    PerformsContext(db, req.user, req.call);
  }

  lemma PerformsCpuset(db: Db, c: Call)
    requires c.Configure? && c.setting.CpusetSet?
    ensures CapOf(c) == CapSched && PerformContext(db, c) == DoConfigure(db, c.name, c.setting)
  {
  }

  lemma HandlesCpuset(db: Db, user: string, pass: string, digest: string, name: string, cpus: string, mems: string, d: Db)
    requires Operator(db, user, pass, digest) && ValidName(name)
    requires d == DoConfigure(db, name, CpusetSet(cpus, mems, false, true)).db
    ensures Handle(db, CpusetReq(user, pass, digest, name, cpus, mems)).db == d
  {
    var req := CpusetReq(user, pass, digest, name, cpus, mems);
    PerformsCpuset(db, req.call);
    HandlesContext(db, req);
  }

  lemma HandlesRemove(db: Db, user: string, pass: string, digest: string, name: string)
    requires Operator(db, user, pass, digest) && ValidName(name)
    ensures Handle(db, RemoveReq(user, pass, digest, name)).db == DoRemove(db, name, false).db
  {
    HandlesContext(db, RemoveReq(user, pass, digest, name));
  }

  lemma OperatorStays(db: Db, d1: Db, d2: Db, d3: Db, user: string, pass: string, digest: string, row: Row, x: int)
    requires Operator(db, user, pass, digest)
    requires forall r: Row :: !(r.t in REBUILT && r.id == x) ==> (r in d1 <==> r in db)
    requires SameButCpusets(d1, d2) && SameButCpusets(db, d3)
    ensures Operator(d1, user, pass, digest) && Operator(d2, user, pass, digest) && Operator(d3, user, pass, digest)
  {
    RebuiltTables(User);
    RebuiltTables(UserCaps);
    OperatorSame(db, d1, user, pass, digest);
    OperatorSame(d1, d2, user, pass, digest);
    OperatorSame(db, d3, user, pass, digest);
  }

  /** The four stores the requests lead through. */
  lemma FourStores(db: Db, user: string, pass: string, digest: string, m: string, n: string, v: string, cfg: Config,
                   cpus: string, mems: string) returns (d1: Db, d2: Db, d3: Db, d4: Db)
    requires Inv(db) && Operator(db, user, pass, digest) && ValidConfig(cfg) && RepeatsNothing(cfg)
    requires Room(db, m, v) && Room(db, n, v)
    ensures d1 == DoCreate(db, user, m, v, false, cfg, READY).db
    ensures d2 == DoConfigure(d1, m, CpusetSet(cpus, mems, false, true)).db
    ensures d3 == DoRemove(d2, m, false).db && d4 == DoCreate(d3, user, n, v, false, cfg, READY).db
    ensures Operator(d1, user, pass, digest) && Operator(d2, user, pass, digest) && Operator(d3, user, pass, digest)
    ensures GetXid(d4, n) == FreeXid(db) != 0 && CpusetRow(FreeXid(db), cpus, mems) in d4
  {
    var x := FreeXid(db);
    var row := CpusetRow(x, cpus, mems);
    CreatesFresh(db, user, m, v, cfg);
    d1 := DoCreate(db, user, m, v, false, cfg, READY).db;
    CpusetSetRows(d1, m, cpus, mems, x);
    d2 := DoConfigure(d1, m, CpusetSet(cpus, mems, false, true)).db;
    RemovedAgain(db, d1, d2, m, x, row);
    d3 := DoRemove(d2, m, false).db;
    OperatorStays(db, d1, d2, d3, user, pass, digest, row, x);
    d4 := LastStore(db, d3, user, n, v, cfg, row);
  }

  lemma LastStore(db: Db, d: Db, user: string, name: string, v: string, cfg: Config, row: Row) returns (e: Db)
    requires Room(db, name, v) && SameButCpusets(db, d) && Inv(d) && IsAdmin(d, user) && ValidConfig(cfg) && RepeatsNothing(cfg)
    requires row in d && row.t == VxCpuset
    ensures e == DoCreate(d, user, name, v, false, cfg, READY).db && GetXid(e, name) == FreeXid(db) && row in e
  {
    RoomSame(db, d, name, v);
    CreatesFresh(d, user, name, v, cfg);
    RebuiltTables(VxCpuset);
    e := DoCreate(d, user, name, v, false, cfg, READY).db;
  }

  /** Whoever runs these four requests ends up with a context that has a cpuset nobody gave it. */
  lemma CpusetInherited(db: Db, user: string, pass: string, digest: string, m: string, n: string, v: string, cfg: Config,
                        cpus: string, mems: string)
    requires Inv(db) && Operator(db, user, pass, digest) && ValidConfig(cfg) && RepeatsNothing(cfg)
    requires Room(db, m, v) && Room(db, n, v)
    ensures var d := Serve(db, InheritingRequests(user, pass, digest, m, n, v, cfg, cpus, mems));
            GetXid(d, n) == FreeXid(db) != 0 && CpusetRow(GetXid(d, n), cpus, mems) in d
  {
    var d1, d2, d3, d4 := FourStores(db, user, pass, digest, m, n, v, cfg, cpus, mems);
    HandlesCreate(db, user, pass, digest, m, v, cfg);
    HandlesCpuset(d1, user, pass, digest, m, cpus, mems, d2);
    HandlesRemove(d2, user, pass, digest, m);
    HandlesCreate(d3, user, pass, digest, n, v, cfg);
    ServeFour(db, CreateReq(user, pass, digest, m, v, cfg), CpusetReq(user, pass, digest, m, cpus, mems),
              RemoveReq(user, pass, digest, m), CreateReq(user, pass, digest, n, v, cfg), d1, d2, d3, d4);
  }

  // ----- and it happens in a new installation

  lemma FreshOperator(db: Db, pass: string)
    requires Inv(db) && pass != [] && forall r | r in Sanity.AdminRows(1) :: r in db
    ensures Operator(db, "admin", pass, "*")
  {
    var rows := Sanity.AdminRows(1);
    assert rows[0] in rows;
    Rights.RowDecides(db, "admin", rows[0]);
    FreshCapability(db, 11);
    FreshCapability(db, 9);
  }

  lemma FreshCapability(db: Db, i: nat)
    requires i < |LISTED| && GetUid(db, "admin") == 1 && forall r | r in Sanity.AdminRows(1) :: r in db
    ensures HasCapability(db, "admin", LISTED[i])
  {
    var rows := Sanity.AdminRows(1);
    assert rows[i + 1] in rows && rows[i + 1] == Row(UserCaps, 1, Text(KeyOfCap(LISTED[i])), []);
  }

  lemma FreshRoom(db: Db, name: string, v: string)
    requires ValidName(name) && ValidPath(v) && |v| <= 31 && forall r | r in db :: r.t != XidNameMap && r.t != Vdir
    ensures Room(db, name, v)
  {
    assert Ids(db, XidNameMap) == {};
  }

  /** The store the schema check creates. */
  lemma NewStore() returns (db: Db)
    ensures Sanity.Repairable(Sanity.EMPTY_FILE, TABLES) && db == Sanity.Repaired(Sanity.EMPTY_FILE, TABLES)
    ensures Inv(db) && (forall r | r in Sanity.AdminRows(1) :: r in db)
    ensures forall r | r in db :: r.t != XidNameMap && r.t != Vdir
  {
    Sanity.TablesListed();
    Sanity.FreshStart(TABLES);
    Sanity.FreshRows(TABLES);
    db := Sanity.Repaired(Sanity.EMPTY_FILE, TABLES);
  }

  /** In a new installation, for any two names, directory and sound template. */
  lemma CpusetInheritedFromScratch(pass: string, m: string, n: string, v: string, cfg: Config, cpus: string, mems: string)
    returns (db: Db)
    requires pass != [] && ValidName(m) && ValidName(n) && ValidPath(v) && |v| <= 31
    requires ValidConfig(cfg) && RepeatsNothing(cfg)
    ensures Sanity.Repairable(Sanity.EMPTY_FILE, TABLES) && db == Sanity.Repaired(Sanity.EMPTY_FILE, TABLES)
    ensures var d := Serve(db, InheritingRequests("admin", pass, "*", m, n, v, cfg, cpus, mems));
            GetXid(d, n) != 0 && CpusetRow(GetXid(d, n), cpus, mems) in d
  {
    db := NewStore();
    FreshOperator(db, pass);
    FreshRoom(db, m, v);
    FreshRoom(db, n, v);
    CpusetInherited(db, "admin", pass, "*", m, n, v, cfg, cpus, mems);
  }

  // ----- up to the last id

  /** The store's only context is i, with that name and that directory. */
  ghost predicate Only(db: Db, i: int, name: string, v: string) {
    && TagRow(XidNameMap, i, name) in db
    && (forall r :: r in db && r.t == XidNameMap ==> r == TagRow(XidNameMap, i, name))
    && (forall r :: r in db && r.t == Vdir ==> r == TagRow(Vdir, i, v))
  }

  lemma OnlyAllocates(db: Db, i: int, name: string, v: string)
    requires Only(db, i, name, v) && 2 <= i < MAX_XID
    ensures FreeXid(db) == i + 1 && MaxId(db, XidNameMap) == i
  {
    assert i in Ids(db, XidNameMap);
  }

  lemma OnlyRoom(db: Db, i: int, name: string, v: string, n: string, w: string)
    requires Only(db, i, name, v) && 2 <= i < MAX_XID && name != n && v != w
    requires ValidName(n) && ValidPath(w) && |w| <= 31
    ensures Room(db, n, w)
  {
    OnlyAllocates(db, i, name, v);
  }

  /** The name and directory rows of a store after a creation under a fresh id. */
  lemma CreatedRows(db: Db, user: string, name: string, v: string, cfg: Config)
    requires Inv(db) && IsAdmin(db, user) && Room(db, name, v) && ValidConfig(cfg) && RepeatsNothing(cfg)
    ensures var x, d := FreeXid(db), DoCreate(db, user, name, v, false, cfg, READY).db;
            && TagRow(XidNameMap, x, name) in d
            && (forall r :: r in d && r.t == XidNameMap && r.id == x ==> r == TagRow(XidNameMap, x, name))
            && (forall r :: r in d && r.t == Vdir && r.id == x ==> r == TagRow(Vdir, x, v))
  {
    var x, d := FreeXid(db), DoCreate(db, user, name, v, false, cfg, READY).db;
    CreatesFresh(db, user, name, v, cfg);
    CreateCases(db, user, name, v, false, cfg, READY);
    CreateRows(db, x, name, v, cfg, d);
    CreateOutcome(db, x, name, v, cfg);
    forall r | r in d && r.t == Vdir && r.id == x ensures r == TagRow(Vdir, x, v) {
      RebuiltTables(Vdir);
      ContextRowsIn(x, name, v, cfg, r);
    }
  }

  /** The next context, and the earlier one gone. */
  lemma NextOnly(db: Db, d: Db, i: int, m: string, v: string, n: string, w: string)
    requires Only(db, i, m, v) && i + 1 != i
    requires forall r: Row :: !(r.t in REBUILT && r.id == i + 1) ==> (r in d <==> r in db)
    requires TagRow(XidNameMap, i + 1, n) in d
    requires forall r :: r in d && r.t == XidNameMap && r.id == i + 1 ==> r == TagRow(XidNameMap, i + 1, n)
    requires forall r :: r in d && r.t == Vdir && r.id == i + 1 ==> r == TagRow(Vdir, i + 1, w)
    ensures Only(Purge(d, REMOVED, i), i + 1, n, w)
  {
    RemovedTables(XidNameMap);
    RemovedTables(Vdir);
  }

  lemma ClimbStores(db: Db, user: string, i: int, m: string, v: string, n: string, w: string, cfg: Config) returns (d: Db, e: Db)
    requires Inv(db) && IsAdmin(db, user) && Only(db, i, m, v) && 2 <= i < MAX_XID && m != n && v != w
    requires ValidName(m) && ValidName(n) && ValidPath(w) && |w| <= 31 && ValidConfig(cfg) && RepeatsNothing(cfg)
    ensures d == DoCreate(db, user, n, w, false, cfg, READY).db && e == DoRemove(d, m, false).db
    ensures Inv(d) && Inv(e) && Only(e, i + 1, n, w)
    ensures SameRows(db, d, User) && SameRows(db, d, UserCaps) && SameRows(db, e, User) && SameRows(db, e, UserCaps)
  {
    OnlyAllocates(db, i, m, v);
    OnlyRoom(db, i, m, v, n, w);
    CreatesFresh(db, user, n, w, cfg);
    CreatedRows(db, user, n, w, cfg);
    d := DoCreate(db, user, n, w, false, cfg, READY).db;
    StillBound(db, d, i, m);
    RunDeleteAll(d, REMOVED, i);
    RemoveCallKeeps(d, m, false);
    NextOnly(db, d, i, m, v, n, w);
    e := DoRemove(d, m, false).db;
    OtherTables(db, d, e, i);
  }

  lemma StillBound(db: Db, d: Db, i: int, m: string)
    requires Inv(d) && TagRow(XidNameMap, i, m) in db && i != 0
    requires forall r: Row :: !(r.t in REBUILT && r.id == i + 1) ==> (r in d <==> r in db)
    ensures GetXid(d, m) == i
  {
    assert TagRow(XidNameMap, i, m) in d;
    assert Bound(d, m, i);
    XidIff(d, m, i);
  }

  lemma OtherTables(db: Db, d: Db, e: Db, i: int)
    requires forall r: Row :: !(r.t in REBUILT && r.id == i + 1) ==> (r in d <==> r in db)
    requires e == Purge(d, REMOVED, i)
    ensures SameRows(db, d, User) && SameRows(db, d, UserCaps) && SameRows(db, e, User) && SameRows(db, e, UserCaps)
  {
    RebuiltTables(User);
    RebuiltTables(UserCaps);
    RemovedTables(User);
    RemovedTables(UserCaps);
  }

  lemma {:induction false} ServeAppend(db: Db, a: seq<Request>, b: seq<Request>)
    ensures Serve(db, a + b) == Serve(Serve(db, a), b)
    decreases |a|
  {
    if a == [] {
      assert a + b == b;
    } else {
      assert (a + b)[1..] == a[1..] + b;
      ServeAppend(Handle(db, a[0]).db, a[1..], b);
    }
  }

  /** Some sequence of requests leads from db to d. */
  ghost predicate Leads(db: Db, d: Db) {
    exists reqs :: Serve(db, reqs) == d
  }

  lemma LeadsTrans(db: Db, d: Db, e: Db)
    requires Leads(db, d) && Leads(d, e)
    ensures Leads(db, e)
  {
    var a :| Serve(db, a) == d;
    var b :| Serve(d, b) == e;
    ServeAppend(db, a, b);
  }

  lemma LeadsSelf(db: Db)
    ensures Leads(db, db)
  {
    assert Serve(db, []) == db;
  }

  lemma LeadsOne(db: Db, a: Request, d: Db)
    requires d == Handle(db, a).db
    ensures Leads(db, d)
  {
    ServeOne(db, a, [], d);
    assert Serve(db, [a] + []) == d;
  }

  lemma LeadsTwo(db: Db, a: Request, b: Request, d: Db, e: Db)
    requires d == Handle(db, a).db && e == Handle(d, b).db
    ensures Leads(db, e)
  {
    LeadsOne(db, a, d);
    LeadsOne(d, b, e);
    LeadsTrans(db, d, e);
  }

  datatype Plan = Plan(user: string, pass: string, digest: string, m: string, v: string, n: string, w: string, cfg: Config)

  ghost predicate Sound(p: Plan) {
    && p.m != p.n && p.v != p.w && ValidName(p.m) && ValidName(p.n)
    && ValidPath(p.v) && |p.v| <= 31 && ValidPath(p.w) && |p.w| <= 31 && ValidConfig(p.cfg) && RepeatsNothing(p.cfg)
  }

  function NameAt(p: Plan, i: int): string {
    if i % 2 == 0 then p.m else p.n
  }

  function DirAt(p: Plan, i: int): string {
    if i % 2 == 0 then p.v else p.w
  }

  /** The store holds one context, with id i. */
  ghost predicate Stage(p: Plan, i: int, db: Db) {
    Only(db, i, NameAt(p, i), DirAt(p, i))
  }

  /** The requests that lead from db to d have left users and capabilities alone. */
  ghost predicate Follows(db: Db, d: Db) {
    Leads(db, d) && SameRows(db, d, User) && SameRows(db, d, UserCaps)
  }

  lemma FollowsTrans(a: Db, b: Db, c: Db)
    requires Follows(a, b) && Follows(b, c)
    ensures Follows(a, c)
  {
    LeadsTrans(a, b, c);
  }

  lemma Alternates(p: Plan, i: int)
    requires Sound(p)
    ensures NameAt(p, i) != NameAt(p, i + 1) && DirAt(p, i) != DirAt(p, i + 1)
    ensures ValidName(NameAt(p, i)) && ValidName(NameAt(p, i + 1)) && ValidPath(DirAt(p, i + 1)) && |DirAt(p, i + 1)| <= 31
  {
  }

  lemma LeadsKeeps(db: Db, d: Db)
    requires Inv(db) && Leads(db, d)
    ensures Inv(d)
  {
    var reqs :| Serve(db, reqs) == d;
    ServeKeeps(db, reqs);
  }

  lemma NextStage(p: Plan, i: int, db: Db, j: int) returns (e: Db)
    requires Sound(p) && Inv(db) && Operator(db, p.user, p.pass, p.digest) && Stage(p, i, db) && 2 <= i < MAX_XID && j == i + 1
    ensures Stage(p, j, e) && Follows(db, e)
  {
    Alternates(p, i);
    var d;
    d, e := ClimbStep(db, p.user, p.pass, p.digest, i, NameAt(p, i), DirAt(p, i), NameAt(p, j), DirAt(p, j), p.cfg);
    LeadsTwo(db, CreateReq(p.user, p.pass, p.digest, NameAt(p, j), DirAt(p, j), p.cfg),
             RemoveReq(p.user, p.pass, p.digest, NameAt(p, i)), d, e);
  }

  lemma NextReached(p: Plan, db: Db, d: Db, i: int, j: int) returns (e: Db)
    requires Sound(p) && Inv(db) && Operator(db, p.user, p.pass, p.digest)
    requires Follows(db, d) && Stage(p, i, d) && 2 <= i < MAX_XID && j == i + 1
    ensures Follows(db, e) && Stage(p, j, e)
  {
    LeadsKeeps(db, d);
    OperatorSame(db, d, p.user, p.pass, p.digest);
    e := NextStage(p, i, d, j);
    FollowsTrans(db, d, e);
  }

  /** Requests lead from db to a store at stage i. */
  ghost predicate Reaches(p: Plan, db: Db, i: int) {
    exists d :: Follows(db, d) && Stage(p, i, d)
  }

  ghost predicate Rises(p: Plan, db: Db) {
    forall i, j {:trigger Reaches(p, db, i), Reaches(p, db, j)} ::
      2 <= i < MAX_XID && j == i + 1 && Reaches(p, db, i) ==> Reaches(p, db, j)
  }

  lemma AlwaysRises(p: Plan, db: Db)
    requires Sound(p) && Inv(db) && Operator(db, p.user, p.pass, p.digest)
    ensures Rises(p, db)
  {
    forall i, j | 2 <= i < MAX_XID && j == i + 1 && Reaches(p, db, i) ensures Reaches(p, db, j) {
      var d :| Follows(db, d) && Stage(p, i, d);
      var e := NextReached(p, db, d, i, j);
    }
  }

  /** Creating the next context before the earlier one is removed raises the highest id by one, as often as
      one likes. */
  lemma {:induction false} Climb(p: Plan, db: Db, i: int)
    requires Rises(p, db) && Reaches(p, db, 2) && 2 <= i < MAX_XID
    ensures Reaches(p, db, i)
    decreases i
  {
    if i > 2 {
      Climb(p, db, i - 1);
      assert Reaches(p, db, i - 1);
    }
  }

  lemma ClimbStep(db: Db, user: string, pass: string, digest: string, i: int, m: string, v: string, n: string, w: string,
                  cfg: Config) returns (d: Db, e: Db)
    requires Inv(db) && Operator(db, user, pass, digest) && Only(db, i, m, v) && 2 <= i < MAX_XID && m != n && v != w
    requires ValidName(m) && ValidName(n) && ValidPath(w) && |w| <= 31 && ValidConfig(cfg) && RepeatsNothing(cfg)
    ensures d == Handle(db, CreateReq(user, pass, digest, n, w, cfg)).db && e == Handle(d, RemoveReq(user, pass, digest, m)).db
    ensures Only(e, i + 1, n, w) && SameRows(db, e, User) && SameRows(db, e, UserCaps)
  {
    d, e := ClimbStores(db, user, i, m, v, n, w, cfg);
    OperatorSame(db, d, user, pass, digest);
    HandlesCreate(db, user, pass, digest, n, w, cfg);
    HandlesRemove(d, user, pass, digest, m);
  }

  lemma FirstContext(db: Db, user: string, pass: string, digest: string, m: string, v: string, cfg: Config)
    returns (d: Db)
    requires Inv(db) && Operator(db, user, pass, digest) && forall r | r in db :: r.t != XidNameMap && r.t != Vdir
    requires ValidName(m) && ValidPath(v) && |v| <= 31 && ValidConfig(cfg) && RepeatsNothing(cfg)
    ensures d == Handle(db, CreateReq(user, pass, digest, m, v, cfg)).db && Inv(d) && Operator(d, user, pass, digest) && Only(d, 2, m, v)
  {
    FreshRoom(db, m, v);
    CreatesFresh(db, user, m, v, cfg);
    CreatedRows(db, user, m, v, cfg);
    d := DoCreate(db, user, m, v, false, cfg, READY).db;
    assert Ids(db, XidNameMap) == {};
    OtherTables(db, d, Purge(d, REMOVED, 1), 1);
    OperatorSame(db, d, user, pass, digest);
    HandlesCreate(db, user, pass, digest, m, v, cfg);
  }

  /** A run of a new installation after which the next context gets id 65535, and no name that
      vxdb_getname knows. */
  lemma LastIdReached(pass: string, m: string, v: string, n: string, w: string, cfg: Config) returns (db: Db, f: Db)
    requires pass != [] && ValidName(m) && ValidName(n) && m != n && v != w
    requires ValidPath(v) && |v| <= 31 && ValidPath(w) && |w| <= 31 && ValidConfig(cfg) && RepeatsNothing(cfg)
    ensures Sanity.Repairable(Sanity.EMPTY_FILE, TABLES) && db == Sanity.Repaired(Sanity.EMPTY_FILE, TABLES)
    ensures Leads(db, f) && Inv(f) && MaxId(f, XidNameMap) == MAX_XID - 1 && FreeXid(f) == MAX_XID
  {
    db := NewStore();
    FreshOperator(db, pass);
    f := LastId(db, Plan("admin", pass, "*", m, v, n, w, cfg));
  }

  lemma LastId(db: Db, p: Plan) returns (f: Db)
    requires Sound(p) && Inv(db) && Operator(db, p.user, p.pass, p.digest)
    requires forall r | r in db :: r.t != XidNameMap && r.t != Vdir
    ensures Leads(db, f) && Inv(f) && MaxId(f, XidNameMap) == MAX_XID - 1 && FreeXid(f) == MAX_XID
  {
    var d := FirstContext(db, p.user, p.pass, p.digest, p.m, p.v, p.cfg);
    LeadsOne(db, CreateReq(p.user, p.pass, p.digest, p.m, p.v, p.cfg), d);
    LeadsSelf(d);
    assert Follows(d, d);
    AlwaysRises(p, d);
    Climb(p, d, MAX_XID - 1);
    f :| Follows(d, f) && Stage(p, MAX_XID - 1, f);
    LeadsKeeps(d, f);
    LeadsTrans(db, d, f);
    OnlyAllocates(f, MAX_XID - 1, NameAt(p, MAX_XID - 1), DirAt(p, MAX_XID - 1));
  }
}
