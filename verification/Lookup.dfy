/** Read-only queries: vxdb_getxid and its relatives (src/vcd/vxdb.c), id allocation. */
module Lookup {
  import opened Wrappers
  import opened Schema
  import opened Store
  import opened Validate

  predicate Has(db: set<Row>, t: Table, id: int) {
    exists r :: r in db && r.t == t && r.id == id
  }

  /** Context `x` is bound to some name. */
  predicate Named(db: set<Row>, x: int) {
    Has(db, XidNameMap, x)
  }

  ghost predicate Bound(db: set<Row>, name: string, x: int) {
    exists r :: r in db && r.t == XidNameMap && r.id == x && r.key == Text(name)
  }

  function Ids(db: set<Row>, t: Table): set<int> {
    set r | r in db && r.t == t :: r.id
  }

  function IdsOfKey(db: set<Row>, t: Table, name: string): set<int> {
    set r | r in db && r.t == t && r.key == Text(name) :: r.id
  }

  /** Tables that identify an object both by id and by name. */
  predicate NameTable(t: Table) {
    UniquenessOf(t) == OnEach
  }

  lemma SameKeySameRow(db: Db, t: Table, a: Row, b: Row)
    requires NameTable(t) && a in db && b in db && a.t == t && b.t == t
    ensures a.key == b.key ==> a == b
    ensures a.id == b.id ==> a == b
  {
    assert a.key == b.key || a.id == b.id ==> Clash(a, b);
  }

  /** SELECT <id> FROM t WHERE name = '...'; 0 when there is no such row. */
  function IdOf(db: Db, t: Table, name: string): (id: int)
    requires NameTable(t)
    ensures (exists r :: r in db && r.t == t && r.key == Text(name) && r.id == id)
            || (id == 0 && forall r :: r in db && r.t == t ==> r.key != Text(name))
  {
    var ids := IdsOfKey(db, t, name);
    if ids == {} then
      assert forall r :: r in db && r.t == t && r.key == Text(name) ==> r.id in ids;
      0
    else
      assert forall i, j :: i in ids && j in ids ==> i == j by {
        forall i, j | i in ids && j in ids ensures i == j {
          var a :| a in db && a.t == t && a.key == Text(name) && a.id == i;
          var b :| b in db && b.t == t && b.key == Text(name) && b.id == j;
          SameKeySameRow(db, t, a, b);
        }
      }
      var i :| i in ids; i
  }

  function GetXid(db: Db, name: string): int {
    if ValidName(name) then IdOf(db, XidNameMap, name) else 0
  }

  function GetUid(db: Db, user: string): int {
    if ValidUsername(user) then IdOf(db, User, user) else 0
  }

  function GetGid(db: Db, group: string): int {
    if ValidGroup(group) then IdOf(db, Groups, group) else 0
  }

  function KeysOfId(db: set<Row>, t: Table, id: int): set<Val> {
    set r | r in db && r.t == t && r.id == id :: r.key
  }

  /** SELECT <second column> FROM t WHERE <id> = id. */
  function KeyOf(db: Db, t: Table, id: int): (key: Option<Val>)
    requires NameTable(t)
    ensures key.Some? ==> exists r :: r in db && r.t == t && r.id == id && r.key == key.value
    ensures key.None? <==> !Has(db, t, id)
  {
    var keys := KeysOfId(db, t, id);
    if keys == {} then
      assert forall r :: r in db && r.t == t && r.id == id ==> r.key in keys;
      None
    else
      assert forall i, j :: i in keys && j in keys ==> i == j by {
        forall i, j | i in keys && j in keys ensures i == j {
          var a :| a in db && a.t == t && a.id == id && a.key == i;
          var b :| b in db && b.t == t && b.id == id && b.key == j;
          SameKeySameRow(db, t, a, b);
        }
      }
      var k :| k in keys; Some(k)
  }

  /** vxdb_getname: refuses ids outside 2..65534 before it asks the database. */
  function GetName(db: Db, xid: int): Option<Val> {
    if ValidXid(xid) then KeyOf(db, XidNameMap, xid) else None
  }

  /** vxdb_getvdir: the stored directory, or vbasedir/name when there is none or it is empty. */
  function GetVdir(db: Db, name: string, vbasedir: string): string {
    var xid := GetXid(db, name);
    var key := if xid != 0 then KeyOf(db, Vdir, xid) else None;
    if key.Some? && key.value.Text? && key.value.s != [] then key.value.s
    else vbasedir + "/" + name
  }

  lemma {:induction false} MaxExists(s: set<int>, x: int)
    requires x in s
    ensures exists m :: m in s && forall k :: k in s ==> k <= m
    decreases |s|
  {
    if y :| y in s && y > x {
      assert forall k :: k in s && k > x ==> k in s - {x};
      MaxExists(s - {x}, y);
      var m :| m in s - {x} && forall k :: k in s - {x} ==> k <= m;
      assert forall k :: k in s ==> k == x || k in s - {x};
    }
  }

  /** The largest id in table t; 0 for an empty table. */
  function MaxId(db: Db, t: Table): (m: int)
    ensures forall r :: r in db && r.t == t ==> r.id <= m
    ensures (m == 0 && Ids(db, t) == {}) || m in Ids(db, t)
  {
    var ids := Ids(db, t);
    assert forall r :: r in db && r.t == t ==> r.id in ids;
    if ids == {} then 0 else
      assert exists m :: m in ids && forall k :: k in ids ==> k <= m by {
        var x :| x in ids;
        MaxExists(ids, x);
      }
      var m :| m in ids && forall k | k in ids :: k <= m; m
  }
}
