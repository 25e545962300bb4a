/** The tables of vxdb and their unique indexes (src/vcd/vxdb-tables.h).

Every table starts with an integer id column (xid, uid or gid), and its unique
indexes mention at most one further column. A row keeps those two columns apart
from the rest; for `mount` the second column is `dst`, and for `vcd` the id is the
uptime. Requests update the counters in `vcd`; this model leaves them alone.
*/
module Schema {

  datatype Val = Null | Int(i: int) | Text(s: string)

  datatype Table =
    | DxLimit | Groups | Init | Mount | NxAddr | NxBroadcast | Restart
    | User | UserCaps | Vcd | Vdir | VxBcaps | VxCcaps | VxCpuset | VxFlags
    | VxLimit | VxSched | VxUname | XidGidMap | XidNameMap | XidUidMap

  datatype Row = Row(t: Table, id: int, key: Val, data: seq<Val>)

  /** A unique index is on the id, on the second column, or on the pair of both. */
  datatype Index = IdIx | KeyIx | PairIx

  /** All tables, in the order in which the schema check visits them. */
  const TABLES: seq<Table> := [
    DxLimit, Groups, Init, Mount, NxAddr, NxBroadcast, Restart, User, UserCaps,
    Vcd, Vdir, VxBcaps, VxCcaps, VxCpuset, VxFlags, VxLimit, VxSched, VxUname,
    XidGidMap, XidNameMap, XidUidMap]

  /** The three patterns of unique indexes that occur. */
  datatype Uniqueness = OnId | OnEach | OnPair

  function UniquenessOf(t: Table): Uniqueness {
    match t
    case DxLimit | Init | NxBroadcast | Restart | Vcd | VxCpuset => OnId
    case Groups | User | Vdir | XidNameMap => OnEach
    case Mount | NxAddr | UserCaps | VxBcaps | VxCcaps | VxFlags | VxLimit
      | VxSched | VxUname | XidGidMap | XidUidMap => OnPair
  }

  function UniqueOf(t: Table): seq<Index> {
    match UniquenessOf(t)
    case OnId => [IdIx]
    case OnEach => [IdIx, KeyIx]
    case OnPair => [PairIx]
  }

  predicate Agree(ix: Index, a: Row, b: Row) {
    match ix
    case IdIx => a.id == b.id
    case KeyIx => a.key == b.key
    case PairIx => a.id == b.id && a.key == b.key
  }

  /** Rows `a` and `b` cannot both be stored: they agree on a unique index of their table. */
  predicate Clash(a: Row, b: Row) {
    a.t == b.t && match UniquenessOf(a.t)
                  case OnId => a.id == b.id
                  case OnEach => a.id == b.id || a.key == b.key
                  case OnPair => a.id == b.id && a.key == b.key
  }

  /** Clashing is agreeing on one of the declared indexes. */
  lemma ClashIffAgree(a: Row, b: Row)
    ensures Clash(a, b) <==> a.t == b.t && exists i | 0 <= i < |UniqueOf(a.t)| :: Agree(UniqueOf(a.t)[i], a, b)
  {
    var u := UniqueOf(a.t);
    assert Agree(u[0], a, b) || (|u| == 2 && Agree(u[1], a, b)) <==> exists i | 0 <= i < |u| :: Agree(u[i], a, b);
  }

  /** Tables holding a context's configuration. Only requests that hold the context's lock write
      them, and both creation and removal empty them. `vx_cpuset` is locked as well, but neither
      creation nor removal deletes from it. */
  predicate PerContext(t: Table) {
    match t
    case DxLimit | Init | Mount | NxAddr | NxBroadcast | Vdir | VxBcaps | VxCcaps | VxFlags
      | VxLimit | VxSched | VxUname => true
    case _ => false
  }

  /** Tables keyed by a context id that are written without its lock. */
  predicate Linked(t: Table) {
    t == Restart || t == XidGidMap || t == XidUidMap
  }
}
