/** The uniquely indexed store and the SQL statements the daemon runs on it. */
module Store {
  import opened Wrappers
  import opened Schema

  ghost predicate WellFormed(rows: set<Row>) {
    forall a, b {:trigger Clash(a, b)} :: a in rows && b in rows && Clash(a, b) ==> a == b
  }

  /** A database in which every declared unique index holds. */
  type Db = rows: set<Row> | WellFormed(rows) witness {}

  datatype Where = ById(id: int) | ByKey(key: Val) | ByBoth(id: int, key: Val)

  predicate Match(w: Where, r: Row) {
    match w
    case ById(id) => r.id == id
    case ByKey(key) => r.key == key
    case ByBoth(id, key) => r.id == id && r.key == key
  }

  datatype Col = KeyCol | DataCol(i: nat)

  datatype Stmt =
    | Insert(row: Row)                              // INSERT INTO
    | Replace(row: Row)                             // INSERT OR REPLACE INTO
    | Delete(t: Table, w: Where)                    // DELETE FROM t WHERE w
    | Update(t: Table, id: int, col: Col, v: Val)   // UPDATE t SET col = v WHERE <id column> = id

  function TableOf(s: Stmt): Table {
    match s
    case Insert(row) => row.t
    case Replace(row) => row.t
    case Delete(t, _) => t
    case Update(t, _, _, _) => t
  }

  function Assign(r: Row, col: Col, v: Val): Row {
    match col
    case KeyCol => r.(key := v)
    case DataCol(i) => if i < |r.data| then r.(data := r.data[i := v]) else r
  }

  function Updated(r: Row, t: Table, id: int, col: Col, v: Val): Row {
    if r.t == t && r.id == id then Assign(r, col, v) else r
  }

  predicate Free(db: set<Row>, r: Row) {
    forall q | q in db :: !Clash(q, r)
  }

  lemma ClashSymmetric(a: Row, b: Row)
    ensures Clash(a, b) == Clash(b, a)
  {
  }

  lemma ClashReflexive(a: Row)
    ensures Clash(a, a)
  {
  }

  predicate UpdateFits(db: set<Row>, t: Table, id: int, col: Col, v: Val) {
    forall a, b {:trigger Updated(a, t, id, col, v), Updated(b, t, id, col, v)} |
      a in db && b in db && a != b :: !Clash(Updated(a, t, id, col, v), Updated(b, t, id, col, v))
  }

  /** One statement: `None` when it would violate a unique index. */
  function Exec(db: Db, s: Stmt): (r: Option<Db>) {
    match s
    case Insert(row) =>
      if Free(db, row) then InsertKeeps(db, row); Some(db + {row}) else None
    case Replace(row) =>
      ReplaceKeeps(db, row);
      Some((set q | q in db && !Clash(q, row)) + {row})
    case Delete(t, w) =>
      Some(set q | q in db && !(q.t == t && Match(w, q)))
    case Update(t, id, col, v) =>
      if UpdateFits(db, t, id, col, v) then Some(set q | q in db :: Updated(q, t, id, col, v)) else None
  }

  lemma InsertKeeps(db: Db, row: Row)
    requires Free(db, row)
    ensures WellFormed(db + {row})
  {
    forall a, b | a in db + {row} && b in db + {row} && Clash(a, b) ensures a == b {
      ClashSymmetric(a, b);
    }
  }

  lemma ReplaceKeeps(db: Db, row: Row)
    ensures WellFormed((set q | q in db && !Clash(q, row)) + {row})
  {
    var kept := set q | q in db && !Clash(q, row);
    forall a, b | a in kept + {row} && b in kept + {row} && Clash(a, b) ensures a == b {
      ClashSymmetric(a, b);
    }
  }

  /** The store afterwards, if a failure leaves it alone. */
  function Or(out: Option<Db>, db: Db): Db {
    if out.Some? then out.value else db
  }

  /** The statements of one transaction in order; `None` as soon as one fails. */
  function Run(db: Db, ss: seq<Stmt>): Option<Db>
    decreases |ss|
  {
    if ss == [] then Some(db) else
    match Exec(db, ss[0])
    case None => None
    case Some(d) => Run(d, ss[1..])
  }

  lemma {:induction false} RunAppend(db: Db, a: seq<Stmt>, b: seq<Stmt>)
    ensures Run(db, a + b) == match Run(db, a) case None => None case Some(d) => Run(d, b)
    decreases |a|
  {
    if a == [] {
      assert a + b == b;
    } else {
      assert (a + b)[1..] == a[1..] + b;
      match Exec(db, a[0])
      case None =>
      case Some(d) => RunAppend(d, a[1..], b);
    }
  }

  /** A statement leaves every row of the other tables alone. */
  lemma ExecFrame(db: Db, s: Stmt)
    requires Exec(db, s).Some?
    ensures forall r: Row :: r.t != TableOf(s) ==> (r in Exec(db, s).value <==> r in db)
  {
    var d := Exec(db, s).value;
    forall r: Row | r.t != TableOf(s) ensures r in d <==> r in db {
      match s
      case Insert(row) =>
      case Replace(row) =>
      case Delete(t, w) =>
      case Update(t, id, col, v) =>
        if r in db {
          assert Updated(r, t, id, col, v) == r;
        }
    }
  }

  /** One `DELETE FROM t WHERE id = x` per table. */
  function DeleteAll(ts: seq<Table>, x: int): seq<Stmt> {
    if ts == [] then [] else [Delete(ts[0], ById(x))] + DeleteAll(ts[1..], x)
  }

  function Purge(db: Db, ts: seq<Table>, x: int): Db {
    set q | q in db && !(q.t in ts && q.id == x)
  }

  lemma {:induction false} RunDeleteAll(db: Db, ts: seq<Table>, x: int)
    ensures Run(db, DeleteAll(ts, x)) == Some(Purge(db, ts, x))
    decreases |ts|
  {
    if ts == [] {
      assert Purge(db, ts, x) == db;
    } else {
      var d: Db := Exec(db, Delete(ts[0], ById(x))).value;
      assert DeleteAll(ts, x)[1..] == DeleteAll(ts[1..], x);
      RunDeleteAll(d, ts[1..], x);
      assert Purge(d, ts[1..], x) == Purge(db, ts, x);
    }
  }

  function InsertAll(rows: seq<Row>): seq<Stmt> {
    if rows == [] then [] else [Insert(rows[0])] + InsertAll(rows[1..])
  }

  /** The rows violate no unique index, neither among themselves nor against the store. */
  predicate Fits(db: set<Row>, rows: seq<Row>) {
    && (forall i, j {:trigger Clash(rows[i], rows[j])} | 0 <= i < j < |rows| :: !Clash(rows[i], rows[j]))
    && (forall i | 0 <= i < |rows| :: Free(db, rows[i]))
  }

  lemma FitsKeeps(db: Db, rows: seq<Row>)
    requires Fits(db, rows)
    ensures WellFormed(db + set r | r in rows)
  {
    var all := db + set r | r in rows;
    forall a, b | a in all && b in all && Clash(a, b) ensures a == b {
      ClashSymmetric(a, b);
      if a in db && b in db {
      } else if a in rows && b in rows {
        var i :| 0 <= i < |rows| && rows[i] == a;
        var j :| 0 <= j < |rows| && rows[j] == b;
        if i < j {
        } else if j < i {
        }
      }
    }
  }

  lemma {:induction false} RunInsertAll(db: Db, rows: seq<Row>)
    ensures Fits(db, rows) ==> WellFormed(db + set r | r in rows)
    ensures Run(db, InsertAll(rows)) == if Fits(db, rows) then Some(db + set r | r in rows) else None
    decreases |rows|
  {
    if Fits(db, rows) {
      FitsKeeps(db, rows);
    }
    if rows == [] {
      assert db + (set r | r in rows) == db;
    } else {
      var rest := rows[1..];
      assert InsertAll(rows)[1..] == InsertAll(rest);
      if Free(db, rows[0]) {
        var d: Db := Exec(db, Insert(rows[0])).value;
        RunInsertAll(d, rest);
        FitsCons(db, rows, d);
        assert d + (set r | r in rest) == db + set r | r in rows;
      }
    }
  }

  lemma FitsCons(db: Db, rows: seq<Row>, d: Db)
    requires rows != [] && Free(db, rows[0]) && d == db + {rows[0]}
    ensures Fits(db, rows) <==> Fits(d, rows[1..])
  {
    var rest := rows[1..];
    if Fits(d, rest) {
      forall i, j | 0 <= i < j < |rows| ensures !Clash(rows[i], rows[j]) {
        assert rows[j] == rest[j - 1];
        if i == 0 {
          assert rows[0] in d;
        } else {
          assert rows[i] == rest[i - 1];
        }
      }
      forall i | 0 <= i < |rows| ensures Free(db, rows[i]) {
        if i > 0 {
          assert rows[i] == rest[i - 1];
        }
      }
    }
    if Fits(db, rows) {
      forall i | 0 <= i < |rest| ensures Free(d, rest[i]) {
        assert rest[i] == rows[i + 1];
      }
    }
  }

  /** Which rows a store can hold together: one row per id of dx_limit, init, nx_broadcast, restart, vcd and
      vx_cpuset; ids and names one-to-one for users, groups, directories and contexts; and any number of rows
      per id of the other tables, one for each second column. */
  lemma HeldTogetherIff(a: Row, b: Row)
    requires a.t == b.t
    ensures WellFormed({a, b}) <==>
            || a == b
            || (a.id != b.id && a.t in {DxLimit, Init, NxBroadcast, Restart, Vcd, VxCpuset})
            || (a.id != b.id && a.key != b.key && a.t in {Groups, User, Vdir, XidNameMap})
            || ((a.id != b.id || a.key != b.key)
                && a.t in {Mount, NxAddr, UserCaps, VxBcaps, VxCcaps, VxFlags, VxLimit, VxSched, VxUname, XidGidMap, XidUidMap})
  {
    ClashSymmetric(a, b);
    assert WellFormed({a, b}) <==> a == b || !Clash(a, b) by {
      assert a in {a, b} && b in {a, b};
    }
  }
}
