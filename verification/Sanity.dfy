/** The schema check at start-up (vxdb_sanity_check, src/vcd/vxdb.c:37-302): a repair procedure that
    creates what is missing, or stops the daemon. */
module Sanity {
  import opened Wrappers
  import opened Schema
  import opened Store
  import opened Lookup
  import opened Auth
  import opened Invariant

  /** A database file. Without its index a table may hold the same row twice. `foreign` says whether
      the file holds schema objects unknown to the daemon. */
  datatype File = File(version: int, tables: set<Table>, indexes: set<(Table, Index)>, rows: multiset<Row>, foreign: bool)

  const VERSION := 0x0101

  ghost predicate UniqueOn(rows: multiset<Row>, t: Table, ix: Index) {
    forall a, b {:trigger Agree(ix, a, b)} ::
      a in rows && b in rows && a.t == t && b.t == t && Agree(ix, a, b) ==> a == b && rows[a] == 1
  }

  /** No NULL in a column that is part of a unique index; there SQLite would take equal rows for different.
      No request ever writes one. */
  predicate Keyed(r: Row) {
    UniquenessOf(r.t) != OnId ==> r.key != Null
  }

  /** What SQLite itself maintains: rows sit in existing tables, existing indexes hold. Of the unique
      indexes a file may have, the declared ones are looked at. */
  ghost predicate Consistent(f: File) {
    && (forall r :: r in f.rows ==> r.t in f.tables && Keyed(r))
    && (forall t, ix :: (t, ix) in f.indexes ==> t in f.tables && ix in UniqueOf(t) && UniqueOn(f.rows, t, ix))
  }

  function DeclaredUpTo(t: Table, n: nat): set<(Table, Index)>
    requires n <= |UniqueOf(t)|
  {
    set i | 0 <= i < n :: (t, UniqueOf(t)[i])
  }

  function Declared(t: Table): set<(Table, Index)> {
    DeclaredUpTo(t, |UniqueOf(t)|)
  }

  /** Version 0 is accepted for an empty file only; otherwise the major version must match and the
      minor version must not be newer. */
  predicate VersionOk(f: File) {
    if f.version == 0 then f.tables == {} && f.indexes == {} && !f.foreign
    else f.version / 256 == 1 && f.version % 256 <= 1
  }

  const ONBOOT := Row(Groups, 1, Text("onboot"), [])

  ghost predicate IndexableUpTo(f: File, t: Table, n: nat)
    requires n <= |UniqueOf(t)|
  {
    forall i | 0 <= i < n :: (t, UniqueOf(t)[i]) in f.indexes || UniqueOn(f.rows, t, UniqueOf(t)[i])
  }

  /** Every declared index that is missing in an existing table could be created. */
  ghost predicate Indexable(f: File, t: Table) {
    IndexableUpTo(f, t, |UniqueOf(t)|)
  }

  function RowSet(f: File): set<Row> {
    set r | r in f.rows
  }

  predicate HasAdmin(rows: set<Row>) {
    exists r | r in rows :: r.t == User && AdminRow(r)
  }

  predicate HasUser(rows: set<Row>, name: string) {
    exists r | r in rows :: r.t == User && r.key == Text(name)
  }

  /** Everything in place: the check has nothing to do. */
  ghost predicate Settled(f: File) {
    && f.version == VERSION
    && (forall t :: t in f.tables && Declared(t) <= f.indexes)
    && HasAdmin(RowSet(f)) && HasUser(RowSet(f), "vshelper")
  }

  // ----- tables and indexes

  /** The file with the first n indexes of table t. */
  ghost function Indexed(f: File, t: Table, n: nat): File
    requires n <= |UniqueOf(t)|
  {
    f.(indexes := f.indexes + DeclaredUpTo(t, n))
  }

  lemma NextIndexable(f: File, t: Table, i: nat)
    requires i < |UniqueOf(t)|
    ensures IndexableUpTo(f, t, i + 1) <==>
            IndexableUpTo(f, t, i) && ((t, UniqueOf(t)[i]) in f.indexes || UniqueOn(f.rows, t, UniqueOf(t)[i]))
  {
  }

  lemma NotYetIndexed(f: File, t: Table, i: nat)
    requires i < |UniqueOf(t)|
    ensures (t, UniqueOf(t)[i]) in Indexed(f, t, i).indexes <==> (t, UniqueOf(t)[i]) in f.indexes
  {
  }

  lemma DeclaredNext(t: Table, i: nat)
    requires i < |UniqueOf(t)|
    ensures DeclaredUpTo(t, i + 1) == DeclaredUpTo(t, i) + {(t, UniqueOf(t)[i])}
  {
  }

  /** One more index of table t. */
  lemma NextIndex(f: File, t: Table, i: nat)
    requires i < |UniqueOf(t)|
    ensures var g, ix := Indexed(f, t, i), UniqueOf(t)[i];
            && g.(indexes := g.indexes + {(t, ix)}) == Indexed(f, t, i + 1)
            && ((t, ix) in g.indexes <==> (t, ix) in f.indexes)
            && (IndexableUpTo(f, t, i + 1) <==> IndexableUpTo(f, t, i) && ((t, ix) in f.indexes || UniqueOn(f.rows, t, ix)))
  {
    NextIndexable(f, t, i);
    NotYetIndexed(f, t, i);
    DeclaredNext(t, i);
  }

  lemma AddIndexes(f: File, t: Table, n: nat)
    requires Consistent(f) && t in f.tables && n <= |UniqueOf(t)| && IndexableUpTo(f, t, n)
    ensures var g := Indexed(f, t, n);
            Consistent(g) && g.(indexes := f.indexes) == f && f.indexes <= g.indexes
  {
  }

  lemma NotIndexable(f: File, t: Table, n: nat)
    requires n <= |UniqueOf(t)| && !IndexableUpTo(f, t, n)
    ensures !Indexable(f, t)
  {
  }

  /** Creates one index unless it is there. */
  method EnsureIndex(g: File, t: Table, ix: Index) returns (h: File, ok: bool)
    ensures ok <==> (t, ix) in g.indexes || UniqueOn(g.rows, t, ix)
    ensures h == if ok then g.(indexes := g.indexes + {(t, ix)}) else g
  {
    if (t, ix) in g.indexes {
      assert g.indexes + {(t, ix)} == g.indexes;
      return g, true;
    }
    ok := CreateIndex(g, t, ix);
    h := if ok then g.(indexes := g.indexes + {(t, ix)}) else g;
  }

  /** vxdb_sanity_check_unique: creates the missing indexes of one table, in order. */
  method CheckUnique(f: File, t: Table) returns (g: File, alive: bool)
    requires Consistent(f) && t in f.tables
    ensures Consistent(g) && g.(indexes := f.indexes) == f && f.indexes <= g.indexes
    ensures alive <==> Indexable(f, t)
    ensures alive ==> g.indexes == f.indexes + Declared(t)
  {
    g := f;
    for i := 0 to |UniqueOf(t)|
      invariant g == Indexed(f, t, i) && IndexableUpTo(f, t, i)
    {
      NextIndex(f, t, i);
      g, alive := EnsureIndex(g, t, UniqueOf(t)[i]);
      if !alive {
        AddIndexes(f, t, i);
        NotIndexable(f, t, i + 1);
        return;
      }
    }
    AddIndexes(f, t, |UniqueOf(t)|);
    alive := true;
  }

  /** CREATE UNIQUE INDEX succeeds when the data allows it. */
  method CreateIndex(f: File, t: Table, ix: Index) returns (ok: bool)
    ensures ok <==> UniqueOn(f.rows, t, ix)
  {
    ok := forall a, b | a in f.rows && b in f.rows :: a.t == t && b.t == t && Agree(ix, a, b) ==> a == b && f.rows[a] == 1;
  }

  function NewTable(f: File, t: Table): File {
    f.(tables := f.tables + {t}, indexes := f.indexes + Declared(t),
       rows := f.rows + if t == Groups then multiset{ONBOOT} else multiset{})
  }

  lemma NewTableConsistent(f: File, t: Table)
    requires Consistent(f) && t !in f.tables
    ensures Consistent(NewTable(f, t))
  {
    var g := NewTable(f, t);
    forall u, ix | (u, ix) in g.indexes ensures u in g.tables && ix in UniqueOf(u) && UniqueOn(g.rows, u, ix) {
      if (u, ix) in f.indexes {
        assert u != t;
      } else {
        assert u == t && ix in UniqueOf(t);
      }
    }
  }

  /** vxdb_sanity_check_table: creates a missing table with its indexes, or completes an existing one. */
  method CheckTable(f: File, t: Table) returns (g: File, alive: bool)
    requires Consistent(f)
    ensures Consistent(g) && f.rows <= g.rows && f.tables <= g.tables && f.indexes <= g.indexes
    ensures alive <==> t !in f.tables || Indexable(f, t)
    ensures alive ==> g == CompleteTable(f, t)
  {
    if t !in f.tables {
      NewTableConsistent(f, t);
      return NewTable(f, t), true;
    } else {
      g, alive := CheckUnique(f, t);
    }
  }

  /** The list names every table once. */
  ghost predicate Listing(all: seq<Table>) {
    (forall t: Table :: t in all) && forall i | 0 <= i < |all| :: all[i] !in all[..i]
  }

  function Position(t: Table): nat {
    match t
    case DxLimit => 0 case Groups => 1 case Init => 2 case Mount => 3 case NxAddr => 4 case NxBroadcast => 5
    case Restart => 6 case User => 7 case UserCaps => 8 case Vcd => 9 case Vdir => 10 case VxBcaps => 11
    case VxCcaps => 12 case VxCpuset => 13 case VxFlags => 14 case VxLimit => 15 case VxSched => 16
    case VxUname => 17 case XidGidMap => 18 case XidNameMap => 19 case XidUidMap => 20
  }

  lemma PositionOf(t: Table)
    ensures Position(t) < |TABLES| && TABLES[Position(t)] == t
  {
  }

  lemma PositionAt(i: nat)
    requires i < |TABLES|
    ensures Position(TABLES[i]) == i
  {
  }

  lemma TablesListed()
    ensures Listing(TABLES)
  {
    forall t: Table ensures t in TABLES {
      PositionOf(t);
    }
    forall i | 0 <= i < |TABLES| ensures TABLES[i] !in TABLES[..i] {
      forall j | 0 <= j < i ensures TABLES[j] != TABLES[i] {
        PositionAt(i);
        PositionAt(j);
      }
    }
  }

  function CompleteTable(f: File, t: Table): File {
    if t in f.tables then f.(indexes := f.indexes + Declared(t)) else NewTable(f, t)
  }

  /** The file once the tables ts have been checked, in order. */
  function Completed(f: File, ts: seq<Table>): File
    decreases |ts|
  {
    if ts == [] then f else CompleteTable(Completed(f, ts[..|ts| - 1]), ts[|ts| - 1])
  }

  lemma {:induction false} CompletedTable(f: File, ts: seq<Table>, t: Table)
    ensures var g := Completed(f, ts);
            && (t in g.tables <==> t in f.tables || t in ts)
            && (t in ts ==> Declared(t) <= g.indexes)
            && (t !in ts ==> forall ix :: (t, ix) in g.indexes <==> (t, ix) in f.indexes)
            && (t !in ts ==> forall r: Row :: r.t == t ==> g.rows[r] == f.rows[r])
    decreases |ts|
  {
    if ts != [] {
      var front, last := ts[..|ts| - 1], ts[|ts| - 1];
      assert ts == front + [last];
      CompletedTable(f, front, t);
    }
  }

  /** Creating the groups table is the only step of the schema check that adds a row. */
  lemma {:induction false} CompletedRows(f: File, ts: seq<Table>)
    ensures var g := Completed(f, ts);
            && g.version == f.version && g.foreign == f.foreign
            && g.rows == f.rows + if Groups in ts && Groups !in f.tables then multiset{ONBOOT} else multiset{}
    decreases |ts|
  {
    if ts != [] {
      var front, last := ts[..|ts| - 1], ts[|ts| - 1];
      assert ts == front + [last];
      CompletedRows(f, front);
      CompletedTable(f, front, Groups);
    }
  }

  /** Nothing changes where everything is there already. */
  lemma {:induction false} CompletedSame(f: File, ts: seq<Table>)
    requires forall t | t in ts :: t in f.tables && Declared(t) <= f.indexes
    ensures Completed(f, ts) == f
    decreases |ts|
  {
    if ts != [] {
      assert ts == ts[..|ts| - 1] + [ts[|ts| - 1]];
      CompletedSame(f, ts[..|ts| - 1]);
      assert f.indexes + Declared(ts[|ts| - 1]) == f.indexes;
    }
  }

  /** Checking other tables first does not matter for table t. */
  lemma IndexableLater(f: File, ts: seq<Table>, t: Table)
    requires t !in ts
    ensures Indexable(Completed(f, ts), t) <==> Indexable(f, t)
  {
    var g := Completed(f, ts);
    CompletedTable(f, ts, t);
    forall ix ensures UniqueOn(g.rows, t, ix) <==> UniqueOn(f.rows, t, ix) {
      assert forall r: Row :: r.t == t ==> (r in g.rows <==> r in f.rows);
    }
  }

  ghost predicate AllIndexable(f: File, ts: seq<Table>) {
    forall t | t in ts && t in f.tables :: Indexable(f, t)
  }

  /** One round of the loop over the tables. */
  lemma NextTable(f: File, all: seq<Table>, i: nat)
    requires i < |all| && all[i] !in all[..i]
    ensures var g, t := Completed(f, all[..i]), all[i];
            && Completed(f, all[..i + 1]) == CompleteTable(g, t)
            && (t in g.tables <==> t in f.tables) && (Indexable(g, t) <==> Indexable(f, t))
            && (AllIndexable(f, all[..i + 1]) <==> AllIndexable(f, all[..i]) && (t in f.tables ==> Indexable(f, t)))
  {
    assert all[..i + 1] == all[..i] + [all[i]];
    assert all[..i + 1][..i] == all[..i];
    CompletedTable(f, all[..i], all[i]);
    IndexableLater(f, all[..i], all[i]);
  }

  lemma {:induction false} AllIndexablePrefix(f: File, all: seq<Table>, i: nat)
    requires i <= |all| && !AllIndexable(f, all[..i])
    ensures !AllIndexable(f, all)
  {
    var t :| t in all[..i] && t in f.tables && !Indexable(f, t);
    assert t in all;
  }

  method CheckTables(f: File, all: seq<Table>) returns (g: File, alive: bool)
    requires Consistent(f) && forall i | 0 <= i < |all| :: all[i] !in all[..i]
    ensures Consistent(g) && f.rows <= g.rows && f.tables <= g.tables && f.indexes <= g.indexes
    ensures alive <==> AllIndexable(f, all)
    ensures alive ==> g == Completed(f, all)
  {
    g := f;
    for i := 0 to |all|
      invariant Consistent(g) && f.rows <= g.rows && f.tables <= g.tables && f.indexes <= g.indexes
      invariant g == Completed(f, all[..i]) && AllIndexable(f, all[..i])
    {
      NextTable(f, all, i);
      g, alive := CheckTable(g, all[i]);
      if !alive {
        AllIndexablePrefix(f, all, i + 1);
        return;
      }
    }
    assert all[..|all|] == all;
    alive := true;
  }

  /** With every declared index in place no row occurs twice and the rows form a store. */
  lemma FullyIndexed(f: File)
    requires Consistent(f) && forall t :: Declared(t) <= f.indexes
    ensures WellFormed(RowSet(f)) && f.rows == multiset(RowSet(f))
  {
    forall a, b | a in RowSet(f) && b in RowSet(f) && Clash(a, b) ensures a == b && f.rows[a] == 1 {
      var i :| 0 <= i < |UniqueOf(a.t)| && Agree(UniqueOf(a.t)[i], a, b);
      assert (a.t, UniqueOf(a.t)[i]) in Declared(a.t);
    }
    forall a | a in f.rows ensures f.rows[a] == 1 {
      ClashReflexive(a);
    }
  }

  // ----- users

  function AdminRows(uid: int): seq<Row> {
    [Row(User, uid, Text("admin"), [Text("*"), Int(1)])]
    + seq(|LISTED|, i requires 0 <= i < |LISTED| => Row(UserCaps, uid, Text(KeyOfCap(LISTED[i])), []))
  }

  function HelperRows(uid: int): seq<Row> {
    [Row(User, uid, Text("vshelper"), [Text("*"), Int(0)]), Row(UserCaps, uid, Text("HELPER"), [])]
  }

  lemma UserRowsKeyed(uid: int)
    ensures forall r :: r in AdminRows(uid) || r in HelperRows(uid) ==> Keyed(r)
  {
    forall r | r in AdminRows(uid) ensures Keyed(r) {
      var i :| 0 <= i < |AdminRows(uid)| && AdminRows(uid)[i] == r;
    }
  }

  function NextUid(db: Db): int {
    MaxId(db, User) + 1
  }

  function WithAdmin(db: Db): Option<Db> {
    if HasAdmin(db) then Some(db) else Run(db, InsertAll(AdminRows(NextUid(db))))
  }

  function WithHelper(db: Db): Option<Db> {
    if HasUser(db, "vshelper") then Some(db) else Run(db, InsertAll(HelperRows(NextUid(db))))
  }

  lemma UsersCreated(db: Db, rows: seq<Row>, d: Db)
    requires Run(db, InsertAll(rows)) == Some(d)
    ensures db <= d && (forall r :: r in rows ==> r in d) && forall r :: r in d ==> r in db || r in rows
  {
    RunInsertAll(db, rows);
  }

  /** vxdb_create_user: one transaction. */
  method CreateUser(db: Db, admin: bool) returns (d: Db, ok: bool)
    ensures var out := Run(db, InsertAll(if admin then AdminRows(NextUid(db)) else HelperRows(NextUid(db))));
            (ok <==> out.Some?) && d == if ok then out.value else db
    ensures db <= d && forall r :: r in d ==> r in db || Keyed(r)
    ensures ok && admin ==> HasAdmin(d)
  {
    var uid := NextUid(db);
    var rows := if admin then AdminRows(uid) else HelperRows(uid);
    var out := Run(db, InsertAll(rows));
    if out.None? {
      return db, false;
    }
    UserRowsKeyed(uid);
    UsersCreated(db, rows, out.value);
    assert rows[0] in rows;
    return out.value, true;
  }

  lemma NoUserNoAdmin(db: Db)
    requires !exists r | r in db :: r.t == User
    ensures !HasAdmin(db)
  {
  }

  /** The user checks: "no user" and "no administrator" are separate tests with the same remedy. */
  method CheckUsers(db: Db) returns (d: Db, alive: bool)
    ensures db <= d && forall r :: r in d ==> r in db || Keyed(r)
    ensures alive <==> WithAdmin(db).Some? && WithHelper(WithAdmin(db).value).Some?
    ensures alive ==> WithHelper(WithAdmin(db).value) == Some(d)
  {
    d, alive := CheckAdmin(db);
    if !alive {
      return;
    }
    if !HasUser(d, "vshelper") {
      d, alive := CreateUser(d, false);
    }
  }

  method CheckAdmin(db: Db) returns (d: Db, alive: bool)
    ensures db <= d && forall r :: r in d ==> r in db || Keyed(r)
    ensures alive <==> WithAdmin(db).Some?
    ensures alive ==> WithAdmin(db) == Some(d)
  {
    d, alive := db, true;
    if !exists r | r in d :: r.t == User {
      NoUserNoAdmin(d);
      d, alive := CreateUser(d, true);
      if !alive {
        return;
      }
    }
    if !HasAdmin(d) {
      d, alive := CreateUser(d, true);
    }
  }

  // ----- the whole check

  /** When the daemon starts; `all` is the list of tables. */
  ghost predicate Repairable(f: File, all: seq<Table>) {
    && VersionOk(f) && AllIndexable(f, all)
    && (var rows := RowSet(Completed(f, all));
        WellFormed(rows) && WithAdmin(rows).Some? && WithHelper(WithAdmin(rows).value).Some?)
  }

  lemma StoreConsistent(g: File, d: Db)
    requires Consistent(g) && (forall t :: t in g.tables) && forall r :: r in d ==> Keyed(r)
    ensures Consistent(g.(rows := multiset(d)))
  {
    var h := g.(rows := multiset(d));
    forall t, ix | (t, ix) in h.indexes ensures UniqueOn(h.rows, t, ix) {
      forall a, b | a in h.rows && b in h.rows && a.t == t && b.t == t && Agree(ix, a, b) ensures a == b {
        var i :| 0 <= i < |UniqueOf(t)| && UniqueOf(t)[i] == ix;
        assert Clash(a, b);
      }
    }
  }

  lemma AdminInPlace(db: Db)
    ensures WithAdmin(db).Some? ==> db <= WithAdmin(db).value && HasAdmin(WithAdmin(db).value)
  {
    RunInsertAll(db, AdminRows(NextUid(db)));
    assert AdminRows(NextUid(db))[0] in AdminRows(NextUid(db));
  }

  lemma HelperInPlace(db: Db)
    ensures WithHelper(db).Some? ==> db <= WithHelper(db).value && HasUser(WithHelper(db).value, "vshelper")
  {
    RunInsertAll(db, HelperRows(NextUid(db)));
    assert HelperRows(NextUid(db))[0] in HelperRows(NextUid(db));
  }

  /** The file with all tables, as a store. */
  lemma CompletedStore(f: File, all: seq<Table>)
    requires Consistent(Completed(f, all)) && Listing(all)
    ensures var g := Completed(f, all);
            && WellFormed(RowSet(g)) && g.rows == multiset(RowSet(g))
            && (forall t :: t in g.tables && Declared(t) <= g.indexes)
            && (Settled(f) ==> g == f)
  {
    forall t ensures t in Completed(f, all).tables && Declared(t) <= Completed(f, all).indexes {
      CompletedTable(f, all, t);
    }
    FullyIndexed(Completed(f, all));
    if Settled(f) {
      CompletedSame(f, all);
    }
  }

  lemma UsersSettled(db: Db, d: Db)
    requires WithAdmin(db).Some? && WithHelper(WithAdmin(db).value) == Some(d)
    ensures HasAdmin(d) && HasUser(d, "vshelper")
    ensures HasAdmin(db) && HasUser(db, "vshelper") ==> d == db
  {
    AdminInPlace(db);
    HelperInPlace(WithAdmin(db).value);
  }

  /** The version test; the daemon refuses older major and any newer version. */
  method CheckVersion(f: File) returns (alive: bool)
    ensures alive <==> VersionOk(f)
    ensures f.version != 0 ==> (alive <==> f.version == 0x100 || f.version == 0x101)
    ensures f.version == 0 ==> (alive <==> f.tables == {} && f.indexes == {} && !f.foreign)
  {
    if f.version == 0 {
      return !(f.tables != {} || f.indexes != {} || f.foreign);
    } else if f.version / 256 < 1 {
      return false;
    } else if f.version / 256 > 1 || f.version % 256 > 1 {
      return false;
    }
    return true;
  }

  /** Either the daemon dies, or the file ends up complete. No row, table or index disappears either
      way, and a complete file is left exactly as it is. */
  method SanityCheck(f: File, all: seq<Table>) returns (g: File, alive: bool)
    requires Consistent(f) && Listing(all)
    ensures f.rows <= g.rows && f.tables <= g.tables && f.indexes <= g.indexes
    ensures alive <==> Repairable(f, all)
    ensures alive ==> Settled(g) && Consistent(g) && WellFormed(RowSet(g)) && g.rows == multiset(RowSet(g))
    ensures alive ==> WithHelper(WithAdmin(RowSet(Completed(f, all))).value) == Some(RowSet(g))
    ensures Settled(f) ==> alive && g == f
  {
    alive := CheckVersion(f);
    if !alive {
      return f, false;
    }
    g, alive := CheckTables(f, all);
    if !alive {
      ghost var t :| t in all && t in f.tables && !Indexable(f, t);
      return;
    }
    CompletedStore(f, all);
    g, alive := FinishCheck(g);
  }

  /** Stamps the version and makes sure of the users. */
  method FinishCheck(f: File) returns (g: File, alive: bool)
    requires Consistent(f) && (forall t :: t in f.tables && Declared(t) <= f.indexes)
    requires WellFormed(RowSet(f)) && f.rows == multiset(RowSet(f))
    ensures f.rows <= g.rows && f.tables == g.tables && f.indexes == g.indexes
    ensures alive <==> WithAdmin(RowSet(f)).Some? && WithHelper(WithAdmin(RowSet(f)).value).Some?
    ensures alive ==> Settled(g) && Consistent(g) && WellFormed(RowSet(g)) && g.rows == multiset(RowSet(g))
    ensures alive ==> WithHelper(WithAdmin(RowSet(f)).value) == Some(RowSet(g))
    ensures Settled(f) ==> alive && g == f
  {
    var db: Db := RowSet(f);
    g := f.(version := VERSION);
    var d;
    d, alive := CheckUsers(db);
    StoreConsistent(g, d);
    g := g.(rows := multiset(d));
    assert RowSet(g) == d;
    if alive {
      UsersSettled(db, d);
    }
  }

  // ----- consequences

  /** Creating the administrator fails exactly when a plain user of that name exists or a capability
      row is left over for the next free user id. */
  lemma AdminCreatableIff(db: Db)
    requires !HasAdmin(db)
    ensures WithAdmin(db).Some? <==>
            && !HasUser(db, "admin")
            && forall r :: r in db && r.t == UserCaps && r.id == NextUid(db) ==>
                 forall i | 0 <= i < |LISTED| :: r.key != Text(KeyOfCap(LISTED[i]))
  {
    var uid := NextUid(db);
    var rows := AdminRows(uid);
    RunInsertAll(db, rows);
    AdminRowsFit(db, uid);
  }

  function CapPosition(c: Cap): nat {
    match c
    case CapAuth => 0 case CapDlim => 1 case CapInit => 2 case CapMount => 3 case CapNet => 4 case CapBcap => 5
    case CapCcap => 6 case CapCflag => 7 case CapRlim => 8 case CapSched => 9 case CapUname => 10
    case CapCreate => 11 case CapExec => 12 case CapInfo => 13 case CapHelper => 14
  }

  lemma CapPositionAt(i: nat)
    requires i < |LISTED|
    ensures CapPosition(LISTED[i]) == i
  {
  }

  lemma CapKeysDistinct(i: nat, j: nat)
    requires i < j < |LISTED|
    ensures KeyOfCap(LISTED[i]) != KeyOfCap(LISTED[j])
  {
    CapPositionAt(i);
    CapPositionAt(j);
    CapKeyInjective(LISTED[i], LISTED[j]);
  }

  lemma CapKeyInjective(a: Cap, b: Cap)
    requires a != b
    ensures KeyOfCap(a) != KeyOfCap(b)
  {
  }

  lemma AdminRowAt(uid: int, i: nat)
    requires 0 < i < |AdminRows(uid)|
    ensures i - 1 < |LISTED| && AdminRows(uid)[i] == Row(UserCaps, uid, Text(KeyOfCap(LISTED[i - 1])), [])
  {
  }

  lemma AdminRowsPairwise(uid: int, i: nat, j: nat)
    requires i < j < |AdminRows(uid)|
    ensures !Clash(AdminRows(uid)[i], AdminRows(uid)[j])
  {
    AdminRowAt(uid, j);
    if i > 0 {
      AdminRowAt(uid, i);
      CapKeysDistinct(i - 1, j - 1);
    } else {
      assert AdminRows(uid)[0].t == User;
    }
  }

  lemma AdminRowsFit(db: Db, uid: int)
    requires forall r :: r in db && r.t == User ==> r.id < uid
    ensures Fits(db, AdminRows(uid)) <==>
            && !HasUser(db, "admin")
            && forall r :: r in db && r.t == UserCaps && r.id == uid ==>
                 forall i | 0 <= i < |LISTED| :: r.key != Text(KeyOfCap(LISTED[i]))
  {
    var rows := AdminRows(uid);
    forall i, j | 0 <= i < j < |rows| ensures !Clash(rows[i], rows[j]) {
      AdminRowsPairwise(uid, i, j);
    }
    assert Free(db, rows[0]) <==> !HasUser(db, "admin");
    CapRowsFree(db, uid, rows);
  }

  lemma CapRowsFree(db: Db, uid: int, rows: seq<Row>)
    requires rows == AdminRows(uid)
    ensures (forall i | 0 < i < |rows| :: Free(db, rows[i])) <==>
            forall r :: r in db && r.t == UserCaps && r.id == uid ==>
              forall i | 0 <= i < |LISTED| :: r.key != Text(KeyOfCap(LISTED[i]))
  {
    assert forall i | 0 <= i < |LISTED| :: rows[i + 1] == Row(UserCaps, uid, Text(KeyOfCap(LISTED[i])), []);
    if forall i | 0 < i < |rows| :: Free(db, rows[i]) {
      forall r, i | r in db && r.t == UserCaps && r.id == uid && 0 <= i < |LISTED| ensures r.key != Text(KeyOfCap(LISTED[i])) {
        assert !Clash(r, rows[i + 1]);
      }
    } else {
      var i :| 0 < i < |rows| && !Free(db, rows[i]);
      var r :| r in db && Clash(r, rows[i]);
      assert r.key == Text(KeyOfCap(LISTED[i - 1]));
    }
  }

  /** A user together with capability rows of its own. */
  ghost predicate UserBundle(rows: seq<Row>) {
    && |rows| > 0 && rows[0].t == User && rows[0].id >= 1 && |rows[0].data| == 2
    && forall i | 0 < i < |rows| :: rows[i].t == UserCaps && rows[i].id == rows[0].id
  }

  lemma BundleRows(rows: seq<Row>, r: Row)
    requires UserBundle(rows) && r in rows
    ensures ((r.t == User && |r.data| == 2) || r.t == UserCaps) && r.id == rows[0].id && r.id >= 1
  {
    var i :| 0 <= i < |rows| && rows[i] == r;
  }

  lemma BundleKeeps(db: Db, rows: seq<Row>, d: Db)
    requires Inv(db) && UserBundle(rows) && d == db + set r | r in rows
    ensures Inv(d)
  {
    forall r | r in rows ensures ((r.t == User && |r.data| == 2) || r.t == UserCaps) && r.id == rows[0].id && r.id >= 1 {
      BundleRows(rows, r);
    }
    ContextKept(db, d);
    BundleLinks(db, rows[0], d);
  }

  lemma BundleLinks(db: Db, user: Row, d: Db)
    requires LinkInv(db) && db <= d && user in d && user.t == User && user.id >= 1
    requires forall r :: r in d ==> r in db || (((r.t == User && |r.data| == 2) || r.t == UserCaps) && r.id == user.id)
    ensures LinkInv(d)
  {
    HasSame(db, d, XidNameMap);
    HasSame(db, d, Groups);
    forall id | Has(db, User, id) ensures Has(d, User, id) {
      var r :| r in db && r.t == User && r.id == id;
      assert r in d;
    }
    assert Has(d, User, user.id);
  }

  lemma NextUidPositive(db: Db)
    requires LinkInv(db)
    ensures NextUid(db) >= 1
  {
    if MaxId(db, User) in Ids(db, User) {
      var r :| r in db && r.t == User && r.id == MaxId(db, User);
    }
  }

  lemma AdminKeepsInv(db: Db)
    requires Inv(db) && WithAdmin(db).Some?
    ensures Inv(WithAdmin(db).value)
  {
    if !HasAdmin(db) {
      NextUidPositive(db);
      RunInsertAll(db, AdminRows(NextUid(db)));
      AdminIsBundle(NextUid(db));
      BundleKeeps(db, AdminRows(NextUid(db)), WithAdmin(db).value);
    }
  }

  lemma AdminIsBundle(uid: int)
    requires uid >= 1
    ensures UserBundle(AdminRows(uid))
  {
  }

  lemma HelperKeepsInv(db: Db)
    requires Inv(db) && WithHelper(db).Some?
    ensures Inv(WithHelper(db).value)
  {
    if !HasUser(db, "vshelper") {
      NextUidPositive(db);
      RunInsertAll(db, HelperRows(NextUid(db)));
      BundleKeeps(db, HelperRows(NextUid(db)), WithHelper(db).value);
    }
  }

  /** The users the check creates fit the invariant of the store. */
  lemma UsersKeepInv(db: Db)
    requires Inv(db)
    ensures WithAdmin(db).Some? ==> Inv(WithAdmin(db).value)
    ensures WithHelper(db).Some? ==> Inv(WithHelper(db).value)
  {
    if WithAdmin(db).Some? {
      AdminKeepsInv(db);
    }
    if WithHelper(db).Some? {
      HelperKeepsInv(db);
    }
  }

  lemma FreshAdmin(db: Db)
    requires forall r | r in db :: r.t == Groups
    ensures WithAdmin(db) == Some(db + set r | r in AdminRows(NextUid(db)))
  {
    assert !HasAdmin(db) && !HasUser(db, "admin");
    AdminCreatableIff(db);
    RunInsertAll(db, AdminRows(NextUid(db)));
  }

  lemma FreshUsers(db: Db, d: Db)
    requires WithAdmin(db) == Some(d) && d == db + set r | r in AdminRows(NextUid(db))
    requires forall r | r in db :: r == ONBOOT
    ensures WithHelper(d).Some?
  {
    var uid := NextUid(db);
    assert AdminRows(uid)[0] in AdminRows(uid);
    FreshHelper(d, uid);
    RunInsertAll(d, HelperRows(NextUid(d)));
  }

  lemma FreshHelper(d: Db, uid: int)
    requires forall q | q in d :: q == ONBOOT || q in AdminRows(uid)
    requires AdminRows(uid)[0] in d
    ensures Fits(d, HelperRows(NextUid(d)))
  {
    var rows := HelperRows(NextUid(d));
    forall q | q in d ensures !Clash(q, rows[0]) && !Clash(q, rows[1]) {
      if q in AdminRows(uid) {
        var i :| 0 <= i < |AdminRows(uid)| && AdminRows(uid)[i] == q;
        assert q.id == uid < NextUid(d);
      }
    }
  }

  lemma FreshStore(db: Db)
    requires Inv(db) && forall r | r in db :: r == ONBOOT
    ensures WithAdmin(db).Some? && WithHelper(WithAdmin(db).value).Some?
    ensures Inv(WithHelper(WithAdmin(db).value).value)
  {
    FreshAdmin(db);
    var d := WithAdmin(db).value;
    FreshUsers(db, d);
    UsersKeepInv(db);
    UsersKeepInv(d);
  }

  lemma OnbootInv(db: Db)
    requires forall r | r in db :: r == ONBOOT
    ensures Inv(db)
  {
  }

  /** The store the check leaves behind. */
  ghost function Repaired(f: File, all: seq<Table>): Db
    requires Repairable(f, all)
  {
    WithHelper(WithAdmin(RowSet(Completed(f, all))).value).value
  }

  const EMPTY_FILE := File(0, {}, {}, multiset{}, false)

  /** From scratch: an empty file becomes a store that satisfies the whole invariant. */
  lemma FreshStart(all: seq<Table>)
    requires Listing(all)
    ensures Consistent(EMPTY_FILE) && Repairable(EMPTY_FILE, all)
    ensures Inv(Repaired(EMPTY_FILE, all))
    ensures RowSet(Completed(EMPTY_FILE, all)) == {ONBOOT}
  {
    CompletedRows(EMPTY_FILE, all);
    var rows := RowSet(Completed(EMPTY_FILE, all));
    assert rows == {ONBOOT};
    OnbootInv(rows);
    FreshStore(rows);
  }

  lemma AdminRowsTables(uid: int, r: Row)
    requires r in AdminRows(uid)
    ensures r.t == User || r.t == UserCaps
  {
    var i :| 0 <= i < |AdminRows(uid)| && AdminRows(uid)[i] == r;
  }

  lemma HelperAdds(d: Db)
    requires WithHelper(d).Some?
    ensures forall r :: r in WithHelper(d).value ==> r in d || r.t == User || r.t == UserCaps
  {
    RunInsertAll(d, HelperRows(NextUid(d)));
  }

  lemma FreshUid(db: Db)
    requires forall r | r in db :: r.t == Groups
    ensures NextUid(db) == 1
  {
    assert Ids(db, User) == {};
  }

  /** What the new store consists of: an administrator with all listed capabilities, and no context. */
  lemma FreshRows(all: seq<Table>)
    requires Listing(all) && Repairable(EMPTY_FILE, all)
    ensures forall r | r in AdminRows(1) :: r in Repaired(EMPTY_FILE, all)
    ensures forall r | r in Repaired(EMPTY_FILE, all) :: r.t == Groups || r.t == User || r.t == UserCaps
  {
    FreshStart(all);
    var db: Db := RowSet(Completed(EMPTY_FILE, all));
    FreshUid(db);
    FreshAdmin(db);
    var d := WithAdmin(db).value;
    HelperInPlace(d);
    HelperAdds(d);
    forall r | r in AdminRows(1) ensures r in d && (r.t == User || r.t == UserCaps) {
      AdminRowsTables(1, r);
    }
  }

  /** The check as the daemon runs it, over all declared tables. */
  method StartUp(f: File) returns (g: File, alive: bool)
    requires Consistent(f)
    ensures f.rows <= g.rows && f.tables <= g.tables && f.indexes <= g.indexes
    ensures alive <==> Repairable(f, TABLES)
    ensures alive ==> Settled(g) && Consistent(g) && RowSet(g) == Repaired(f, TABLES)
    ensures Settled(f) ==> alive && g == f
    ensures f == EMPTY_FILE ==> alive && Inv(RowSet(g))
  {
    TablesListed();
    g, alive := SanityCheck(f, TABLES);
    if f == EMPTY_FILE {
      FreshStart(TABLES);
    }
  }
}
