/** create_vxdb_entries: from a parsed template configuration to one SQL transaction
    (src/vcd/methods/vx/vx_create.c:379-577). */
module Template {
  import opened Wrappers
  import opened Schema
  import opened Store
  import opened Validate
  import opened Lookup

  datatype MountCfg = MountCfg(dst: string, src: string, fstype: string, opts: string)

  datatype Config = Config(init: string, halt: string, reboot: string, timeout: int,
                           mounts: seq<MountCfg>, bcaps: seq<string>, ccaps: seq<string>,
                           flags: seq<string>)

  predicate ValidMount(m: MountCfg) {
    && ValidPath(m.dst)
    && (ValidPath(m.src) || m.src == "none")
    && m.fstype != [] && IsAlnum(m.fstype)
    && m.opts != [] && IsAscii(m.opts)
  }

  predicate ValidConfig(cfg: Config) {
    && ValidPath(cfg.init) && ValidPath(cfg.halt) && ValidPath(cfg.reboot)
    && (forall m | m in cfg.mounts :: ValidMount(m))
    && KnownTags(cfg)
  }

  predicate KnownTags(cfg: Config) {
    && (forall b | b in cfg.bcaps :: b in BCAPS)
    && (forall c | c in cfg.ccaps :: c in CCAPS)
    && (forall f | f in cfg.flags :: f in CFLAGS)
  }

  /** The fourteen tables the creation transaction empties first. */
  const REBUILT: seq<Table> := [
    DxLimit, Init, Mount, NxAddr, NxBroadcast, Restart, Vdir, VxBcaps, VxCcaps, VxFlags, VxLimit,
    VxSched, VxUname, XidNameMap]

  function MountRow(x: int, m: MountCfg): Row {
    Row(Mount, x, Text(m.dst), [Text(m.src), Text(m.fstype), Text(m.opts)])
  }

  function InitRow(x: int, cfg: Config): Row {
    Row(Init, x, Null, [Text(cfg.init), Text(cfg.halt), Text(cfg.reboot),
                        Int(if cfg.timeout < 0 then 0 else cfg.timeout)])
  }

  function TagRow(t: Table, x: int, tag: string): Row {
    Row(t, x, Text(tag), [])
  }

  const DEFAULT_MOUNTS: seq<MountCfg> := [
    MountCfg("/proc", "none", "proc", "defaults"), MountCfg("/dev/pts", "none", "devpts", "defaults")]

  function MountsOf(cfg: Config): seq<MountCfg> {
    if cfg.mounts == [] then DEFAULT_MOUNTS else cfg.mounts
  }

  function MountRows(x: int, ms: seq<MountCfg>): seq<Row> {
    seq(|ms|, i requires 0 <= i < |ms| => MountRow(x, ms[i]))
  }

  function TagRows(t: Table, x: int, tags: seq<string>): seq<Row> {
    seq(|tags|, i requires 0 <= i < |tags| => TagRow(t, x, tags[i]))
  }

  /** What a freshly created context consists of, table by table in insertion order. */
  function Blocks(x: int, name: string, vdir: string, cfg: Config): seq<seq<Row>> {
    [[InitRow(x, cfg)], MountRows(x, MountsOf(cfg)),
     TagRows(VxBcaps, x, cfg.bcaps), TagRows(VxCcaps, x, cfg.ccaps), TagRows(VxFlags, x, cfg.flags),
     [TagRow(Vdir, x, vdir)], [TagRow(XidNameMap, x, name)]]
  }

  const BLOCK_TABLES: seq<Table> := [Init, Mount, VxBcaps, VxCcaps, VxFlags, Vdir, XidNameMap]

  function Flat(blocks: seq<seq<Row>>): seq<Row> {
    if blocks == [] then [] else blocks[0] + Flat(blocks[1..])
  }

  function ContextRows(x: int, name: string, vdir: string, cfg: Config): seq<Row> {
    Flat(Blocks(x, name, vdir, cfg))
  }

  function CreateScript(x: int, name: string, vdir: string, cfg: Config): seq<Stmt> {
    DeleteAll(REBUILT, x) + InsertAll(ContextRows(x, name, vdir, cfg))
  }

  predicate Distinct<T(==)>(s: seq<T>) {
    forall i, j | 0 <= i < j < |s| :: s[i] != s[j]
  }

  predicate DistinctDst(ms: seq<MountCfg>) {
    forall i, j | 0 <= i < j < |ms| :: ms[i].dst != ms[j].dst
  }

  /** A template that repeats neither a mount point nor a capability nor a flag. */
  predicate RepeatsNothing(cfg: Config) {
    DistinctDst(MountsOf(cfg)) && Distinct(cfg.bcaps) && Distinct(cfg.ccaps) && Distinct(cfg.flags)
  }

  /** No other context uses this second-column value in a doubly indexed table. */
  predicate Unclaimed(db: set<Row>, t: Table, x: int, value: string) {
    forall r | r in db && r.t == t && r.key == Text(value) :: r.id == x
  }

  /** When the transaction commits: the template repeats nothing, and neither the
      directory nor the name belongs to another context. */
  ghost predicate Creatable(db: Db, x: int, name: string, vdir: string, cfg: Config) {
    && RepeatsNothing(cfg)
    && Unclaimed(db, Vdir, x, vdir) && Unclaimed(db, XidNameMap, x, name)
  }

  /** Where each row of `ContextRows` comes from. */
  lemma ContextRowsIn(x: int, name: string, vdir: string, cfg: Config, r: Row)
    ensures r in ContextRows(x, name, vdir, cfg) <==>
            || r == InitRow(x, cfg)
            || (exists m :: m in MountsOf(cfg) && r == MountRow(x, m))
            || (exists b :: b in cfg.bcaps && r == TagRow(VxBcaps, x, b))
            || (exists c :: c in cfg.ccaps && r == TagRow(VxCcaps, x, c))
            || (exists f :: f in cfg.flags && r == TagRow(VxFlags, x, f))
            || r == TagRow(Vdir, x, vdir)
            || r == TagRow(XidNameMap, x, name)
  {
    var blocks := Blocks(x, name, vdir, cfg);
    FlatIn(blocks, r);
    assert r in ContextRows(x, name, vdir, cfg) <==>
           || r in blocks[0] || r in blocks[1] || r in blocks[2] || r in blocks[3] || r in blocks[4]
           || r in blocks[5] || r in blocks[6];
    TagRowsIn(VxBcaps, x, cfg.bcaps, r);
    TagRowsIn(VxCcaps, x, cfg.ccaps, r);
    TagRowsIn(VxFlags, x, cfg.flags, r);
    MountRowsIn(x, MountsOf(cfg), r);
  }

  lemma {:induction false} FlatIn(blocks: seq<seq<Row>>, r: Row)
    ensures r in Flat(blocks) <==> exists i :: 0 <= i < |blocks| && r in blocks[i]
    decreases |blocks|
  {
    if blocks != [] {
      FlatIn(blocks[1..], r);
      if i :| 0 <= i < |blocks| && r in blocks[i] {
        assert i > 0 ==> r in blocks[1..][i - 1];
      }
    }
  }

  lemma TagRowsIn(t: Table, x: int, tags: seq<string>, r: Row)
    ensures r in TagRows(t, x, tags) <==> exists g :: g in tags && r == TagRow(t, x, g)
  {
    if g :| g in tags && r == TagRow(t, x, g) {
      var i :| 0 <= i < |tags| && tags[i] == g;
      assert TagRows(t, x, tags)[i] == r;
    }
  }

  lemma MountRowsIn(x: int, ms: seq<MountCfg>, r: Row)
    ensures r in MountRows(x, ms) <==> exists m :: m in ms && r == MountRow(x, m)
  {
    if m :| m in ms && r == MountRow(x, m) {
      var i :| 0 <= i < |ms| && ms[i] == m;
      assert MountRows(x, ms)[i] == r;
    }
  }

  // ----- when the transaction commits, and what it leaves behind

  ghost predicate Pairwise(rows: seq<Row>) {
    forall i, j {:trigger Clash(rows[i], rows[j])} | 0 <= i < j < |rows| :: !Clash(rows[i], rows[j])
  }

  ghost predicate OfTables(rows: seq<Row>, ts: set<Table>) {
    forall r | r in rows :: r.t in ts
  }

  /** Blocks of rows for different tables clash only within themselves. */
  lemma PairwiseJoin(a: seq<Row>, ts: set<Table>, b: seq<Row>, us: set<Table>)
    requires OfTables(a, ts) && OfTables(b, us) && ts !! us
    ensures Pairwise(a + b) <==> Pairwise(a) && Pairwise(b)
    ensures OfTables(a + b, ts + us)
  {
    var ab := a + b;
    if Pairwise(ab) {
      forall i, j | 0 <= i < j < |b| ensures !Clash(b[i], b[j]) {
        assert ab[|a| + i] == b[i] && ab[|a| + j] == b[j];
      }
      forall i, j | 0 <= i < j < |a| ensures !Clash(a[i], a[j]) {
        assert ab[i] == a[i] && ab[j] == a[j];
      }
    }
    if Pairwise(a) && Pairwise(b) {
      forall i, j | 0 <= i < j < |ab| ensures !Clash(ab[i], ab[j]) {
        if j < |a| {
        } else if i >= |a| {
          assert ab[i] == b[i - |a|] && ab[j] == b[j - |a|];
        } else {
          assert ab[i] in a && ab[j] in b;
        }
      }
    }
  }

  lemma TagRowsPairwise(t: Table, x: int, tags: seq<string>)
    requires UniquenessOf(t) == OnPair
    ensures Pairwise(TagRows(t, x, tags)) <==> Distinct(tags)
  {
    var rows := TagRows(t, x, tags);
    forall i, j | 0 <= i < j < |tags| ensures Clash(rows[i], rows[j]) <==> tags[i] == tags[j] {
    }
  }

  lemma MountRowsPairwise(x: int, ms: seq<MountCfg>)
    ensures Pairwise(MountRows(x, ms)) <==> DistinctDst(ms)
  {
    var rows := MountRows(x, ms);
    forall i, j | 0 <= i < j < |ms| ensures Clash(rows[i], rows[j]) <==> ms[i].dst == ms[j].dst {
    }
  }

  lemma {:induction false} FlatPairwise(blocks: seq<seq<Row>>, ts: seq<Table>)
    requires |blocks| == |ts| && Distinct(ts)
    requires forall i | 0 <= i < |ts| :: OfTables(blocks[i], {ts[i]})
    ensures Pairwise(Flat(blocks)) <==> forall i | 0 <= i < |ts| :: Pairwise(blocks[i])
    ensures OfTables(Flat(blocks), set t | t in ts)
    decreases |blocks|
  {
    if blocks != [] {
      var bs, us := blocks[1..], ts[1..];
      FlatPairwise(bs, us);
      PairwiseJoin(blocks[0], {ts[0]}, Flat(bs), set t | t in us);
      assert (set t | t in ts) == {ts[0]} + set t | t in us;
      assert forall i | 0 <= i < |us| :: bs[i] == blocks[i + 1];
      assert forall i | 0 < i < |ts| :: blocks[i] == bs[i - 1];
    }
  }

  lemma BlocksOfTables(x: int, name: string, vdir: string, cfg: Config)
    ensures Distinct(BLOCK_TABLES)
    ensures forall i | 0 <= i < 7 :: OfTables(Blocks(x, name, vdir, cfg)[i], {BLOCK_TABLES[i]})
  {
    var bs := Blocks(x, name, vdir, cfg);
    forall i | 0 <= i < 7 ensures OfTables(bs[i], {BLOCK_TABLES[i]}) {
      forall r: Row | r in bs[i] ensures r.t == BLOCK_TABLES[i] {
        var k :| 0 <= k < |bs[i]| && bs[i][k] == r;
      }
    }
  }

  lemma BlocksPairwise(x: int, name: string, vdir: string, cfg: Config)
    ensures Pairwise(ContextRows(x, name, vdir, cfg)) <==>
            && Pairwise(MountRows(x, MountsOf(cfg))) && Pairwise(TagRows(VxBcaps, x, cfg.bcaps))
            && Pairwise(TagRows(VxCcaps, x, cfg.ccaps)) && Pairwise(TagRows(VxFlags, x, cfg.flags))
  {
    var bs := Blocks(x, name, vdir, cfg);
    BlocksOfTables(x, name, vdir, cfg);
    FlatPairwise(bs, BLOCK_TABLES);
    SevenBlocks(bs);
  }

  lemma TagsPairwise(x: int, cfg: Config)
    ensures Pairwise(TagRows(VxBcaps, x, cfg.bcaps)) <==> Distinct(cfg.bcaps)
    ensures Pairwise(TagRows(VxCcaps, x, cfg.ccaps)) <==> Distinct(cfg.ccaps)
    ensures Pairwise(TagRows(VxFlags, x, cfg.flags)) <==> Distinct(cfg.flags)
  {
    TagRowsPairwise(VxBcaps, x, cfg.bcaps);
    TagRowsPairwise(VxCcaps, x, cfg.ccaps);
    TagRowsPairwise(VxFlags, x, cfg.flags);
  }

  lemma MountsPairwise(x: int, cfg: Config)
    ensures Pairwise(MountRows(x, MountsOf(cfg))) <==> DistinctDst(MountsOf(cfg))
  {
    MountRowsPairwise(x, MountsOf(cfg));
  }

  lemma ContextRowsPairwise(x: int, name: string, vdir: string, cfg: Config)
    ensures Pairwise(ContextRows(x, name, vdir, cfg)) <==> RepeatsNothing(cfg)
  {
    BlocksPairwise(x, name, vdir, cfg);
    MountsPairwise(x, cfg);
    TagsPairwise(x, cfg);
  }

  lemma SevenBlocks(bs: seq<seq<Row>>)
    requires |bs| == 7 && |bs[0]| == |bs[5]| == |bs[6]| == 1
    ensures (forall i | 0 <= i < 7 :: Pairwise(bs[i])) <==>
            Pairwise(bs[1]) && Pairwise(bs[2]) && Pairwise(bs[3]) && Pairwise(bs[4])
  {
    assert Pairwise(bs[0]) && Pairwise(bs[5]) && Pairwise(bs[6]);
  }

  lemma RebuiltTables(t: Table)
    ensures t in REBUILT <==> PerContext(t) || t == Restart || t == XidNameMap
  {
  }

  lemma RowTables(x: int, name: string, vdir: string, cfg: Config, r: Row)
    requires r in ContextRows(x, name, vdir, cfg)
    ensures r.id == x && r.t in REBUILT && (UniquenessOf(r.t) == OnEach ==> r.t == Vdir || r.t == XidNameMap)
    ensures r.t == Vdir ==> r.key == Text(vdir)
    ensures r.t == XidNameMap ==> r.key == Text(name)
  {
    ContextRowsIn(x, name, vdir, cfg, r);
    RebuiltTables(r.t);
  }

  /** A row of a context whose rows are all gone can only clash in a doubly indexed table. */
  lemma FreeOfOwnRows(rest: Db, r: Row)
    requires forall q | q in rest && q.t == r.t :: q.id != r.id
    ensures Free(rest, r) <==> (UniquenessOf(r.t) == OnEach ==> forall q | q in rest && q.t == r.t :: q.key != r.key)
  {
  }

  /** After the purge only a foreign directory or name can stand in the way. */
  lemma FreeAfterPurge(db: Db, x: int, name: string, vdir: string, cfg: Config, r: Row)
    requires r in ContextRows(x, name, vdir, cfg)
    ensures r.id == x && r.t in REBUILT
    ensures Free(Purge(db, REBUILT, x), r) <==>
            && (r.t == Vdir ==> Unclaimed(db, Vdir, x, vdir))
            && (r.t == XidNameMap ==> Unclaimed(db, XidNameMap, x, name))
  {
    RowTables(x, name, vdir, cfg, r);
    var rest := Purge(db, REBUILT, x);
    FreeOfOwnRows(rest, r);
    assert forall q | q in db && q.t == r.t :: q in rest <==> q.id != x;
  }

  lemma CreateFits(db: Db, x: int, name: string, vdir: string, cfg: Config)
    ensures Fits(Purge(db, REBUILT, x), ContextRows(x, name, vdir, cfg)) <==> Creatable(db, x, name, vdir, cfg)
  {
    var rows := ContextRows(x, name, vdir, cfg);
    ContextRowsPairwise(x, name, vdir, cfg);
    forall i | 0 <= i < |rows|
      ensures Free(Purge(db, REBUILT, x), rows[i]) <==>
              && (rows[i].t == Vdir ==> Unclaimed(db, Vdir, x, vdir))
              && (rows[i].t == XidNameMap ==> Unclaimed(db, XidNameMap, x, name))
    {
      FreeAfterPurge(db, x, name, vdir, cfg, rows[i]);
    }
    ContextRowsIn(x, name, vdir, cfg, TagRow(Vdir, x, vdir));
    ContextRowsIn(x, name, vdir, cfg, TagRow(XidNameMap, x, name));
  }

  /** The creation transaction either fails, exactly when `Creatable` does not hold, or replaces
      the context's rows in the fourteen rebuilt tables by the template's rows and touches nothing
      else: other contexts, and this context's owner, group and cpuset rows, stay as they are. */
  lemma CreateOutcome(db: Db, x: int, name: string, vdir: string, cfg: Config)
    ensures Run(db, CreateScript(x, name, vdir, cfg)).Some? <==> Creatable(db, x, name, vdir, cfg)
    ensures var out := Run(db, CreateScript(x, name, vdir, cfg));
            out.Some? ==> forall r: Row ::
                            if r.t in REBUILT && r.id == x
                            then r in out.value <==> r in ContextRows(x, name, vdir, cfg)
                            else r in out.value <==> r in db
  {
    var rows := ContextRows(x, name, vdir, cfg);
    RunAppend(db, DeleteAll(REBUILT, x), InsertAll(rows));
    RunDeleteAll(db, REBUILT, x);
    RunInsertAll(Purge(db, REBUILT, x), rows);
    CreateFits(db, x, name, vdir, cfg);
    forall r | r in rows ensures r.id == x && r.t in REBUILT {
      FreeAfterPurge(db, x, name, vdir, cfg, r);
    }
  }

  // ----- assembling the script

  lemma {:induction false} InsertAllAppend(a: seq<Row>, b: seq<Row>)
    ensures InsertAll(a + b) == InsertAll(a) + InsertAll(b)
    decreases |a|
  {
    if a == [] {
      assert a + b == b;
    } else {
      assert (a + b)[1..] == a[1..] + b;
      InsertAllAppend(a[1..], b);
    }
  }

  lemma InsertAllSnoc(a: seq<Row>, r: Row)
    ensures InsertAll(a + [r]) == InsertAll(a) + [Insert(r)]
  {
    InsertAllAppend(a, [r]);
    assert InsertAll([r][1..]) == [];
  }

  lemma TagRowsSnoc(t: Table, x: int, tags: seq<string>, i: nat)
    requires i < |tags|
    ensures InsertAll(TagRows(t, x, tags[..i + 1])) == InsertAll(TagRows(t, x, tags[..i])) + [Insert(TagRow(t, x, tags[i]))]
  {
    assert TagRows(t, x, tags[..i + 1]) == TagRows(t, x, tags[..i]) + [TagRow(t, x, tags[i])];
    InsertAllSnoc(TagRows(t, x, tags[..i]), TagRow(t, x, tags[i]));
  }

  lemma MountRowsSnoc(x: int, ms: seq<MountCfg>, i: nat)
    requires i < |ms|
    ensures InsertAll(MountRows(x, ms[..i + 1])) == InsertAll(MountRows(x, ms[..i])) + [Insert(MountRow(x, ms[i]))]
  {
    assert MountRows(x, ms[..i + 1]) == MountRows(x, ms[..i]) + [MountRow(x, ms[i])];
    InsertAllSnoc(MountRows(x, ms[..i]), MountRow(x, ms[i]));
  }

  lemma DefaultsValid()
    ensures forall m | m in DEFAULT_MOUNTS :: ValidMount(m)
  {
    assert ValidMount(DEFAULT_MOUNTS[0]);
    assert ValidMount(DEFAULT_MOUNTS[1]);
  }

  lemma SameBlocks(x: int, name: string, vdir: string, cfg: Config, full: Config)
    requires MountsOf(cfg) == MountsOf(full) && full == cfg.(mounts := full.mounts)
    ensures CreateScript(x, name, vdir, full) == CreateScript(x, name, vdir, cfg)
  {
    assert Blocks(x, name, vdir, full) == Blocks(x, name, vdir, cfg);
  }

  /** Writing the two default mounts out is the same as leaving the list empty. */
  lemma DefaultsSpelledOut(x: int, name: string, vdir: string, cfg: Config, full: Config)
    requires cfg.mounts == []
    requires full == cfg.(mounts := [MountCfg("/proc", "none", "proc", "defaults"), MountCfg("/dev/pts", "none", "devpts", "defaults")])
    ensures ValidConfig(full) <==> ValidConfig(cfg)
    ensures CreateScript(x, name, vdir, full) == CreateScript(x, name, vdir, cfg)
  {
    DefaultsValid();
    SameBlocks(x, name, vdir, cfg, full);
  }

  /** The three tag loops: stop at the first name the list does not know. */
  method AppendTags(script: seq<Stmt>, t: Table, x: int, tags: seq<string>, known: seq<string>)
    returns (ok: bool, out: seq<Stmt>)
    ensures ok <==> forall g :: g in tags ==> g in known
    ensures ok ==> out == script + InsertAll(TagRows(t, x, tags))
  {
    out := script;
    assert TagRows(t, x, tags[..0]) == [];
    for i := 0 to |tags|
      invariant forall k | 0 <= k < i :: tags[k] in known
      invariant out == script + InsertAll(TagRows(t, x, tags[..i]))
    {
      if tags[i] !in known {
        assert tags[i] in tags;
        return false, out;
      }
      out := out + [Insert(TagRow(t, x, tags[i]))];
      TagRowsSnoc(t, x, tags, i);
    }
    assert tags[..|tags|] == tags;
    ok := true;
  }

  /** The mount loop, with the two default mounts of an empty list. */
  method AppendMounts(script: seq<Stmt>, x: int, mounts: seq<MountCfg>) returns (ok: bool, out: seq<Stmt>)
    ensures ok <==> forall m :: m in mounts ==> ValidMount(m)
    ensures ok ==> out == script + InsertAll(MountRows(x, if mounts == [] then DEFAULT_MOUNTS else mounts))
  {
    out := script;
    if |mounts| < 1 {
      out := out + [Insert(MountRow(x, MountCfg("/proc", "none", "proc", "defaults")))];
      out := out + [Insert(MountRow(x, MountCfg("/dev/pts", "none", "devpts", "defaults")))];
      var rows := MountRows(x, DEFAULT_MOUNTS);
      assert InsertAll(rows) == [Insert(rows[0])] + ([Insert(rows[1])] + InsertAll(rows[1..][1..]));
      return true, out;
    }
    assert MountRows(x, mounts[..0]) == [];
    for i := 0 to |mounts|
      invariant forall k | 0 <= k < i :: ValidMount(mounts[k])
      invariant out == script + InsertAll(MountRows(x, mounts[..i]))
    {
      if !ValidMount(mounts[i]) {
        assert mounts[i] in mounts;
        return false, out;
      }
      out := out + [Insert(MountRow(x, mounts[i]))];
      MountRowsSnoc(x, mounts, i);
    }
    assert mounts[..|mounts|] == mounts;
    ok := true;
  }

  lemma {:induction false} FlatSnoc(bs: seq<seq<Row>>, b: seq<Row>)
    ensures Flat(bs + [b]) == Flat(bs) + b
    decreases |bs|
  {
    if bs == [] {
      assert Flat([b][1..]) == [];
    } else {
      assert (bs + [b])[1..] == bs[1..] + [b];
      FlatSnoc(bs[1..], b);
    }
  }

  /** The buffer after the first k blocks. */
  function Buffer(x: int, bs: seq<seq<Row>>, k: nat): seq<Stmt>
    requires k <= |bs|
  {
    DeleteAll(REBUILT, x) + InsertAll(Flat(bs[..k]))
  }

  lemma BufferStep(x: int, bs: seq<seq<Row>>, k: nat)
    requires k < |bs|
    ensures Buffer(x, bs, k + 1) == Buffer(x, bs, k) + InsertAll(bs[k])
  {
    assert bs[..k + 1] == bs[..k] + [bs[k]];
    FlatSnoc(bs[..k], bs[k]);
    InsertAllAppend(Flat(bs[..k]), bs[k]);
  }

  /** A block of one row. */
  lemma BufferRow(x: int, bs: seq<seq<Row>>, k: nat, r: Row)
    requires k < |bs| && bs[k] == [r]
    ensures Buffer(x, bs, k + 1) == Buffer(x, bs, k) + [Insert(r)]
  {
    BufferStep(x, bs, k);
    assert InsertAll([r][1..]) == [];
  }

  method AppendAllTags(x: int, cfg: Config, ghost bs: seq<seq<Row>>, script: seq<Stmt>) returns (ok: bool, sql: seq<Stmt>)
    requires |bs| == 7 && script == Buffer(x, bs, 2)
    requires bs[2] == TagRows(VxBcaps, x, cfg.bcaps) && bs[3] == TagRows(VxCcaps, x, cfg.ccaps)
    requires bs[4] == TagRows(VxFlags, x, cfg.flags)
    ensures ok <==> KnownTags(cfg)
    ensures ok ==> sql == Buffer(x, bs, 5)
  {
    ok, sql := AppendTags(script, VxBcaps, x, cfg.bcaps, BCAPS);
    if !ok {
      return;
    }
    assert sql == Buffer(x, bs, 3) by { BufferStep(x, bs, 2); }
    ok, sql := AppendTags(sql, VxCcaps, x, cfg.ccaps, CCAPS);
    if !ok {
      return;
    }
    assert sql == Buffer(x, bs, 4) by { BufferStep(x, bs, 3); }
    ok, sql := AppendTags(sql, VxFlags, x, cfg.flags, CFLAGS);
    assert ok ==> sql == Buffer(x, bs, 5) by { BufferStep(x, bs, 4); }
  }

  /** Assembles the transaction from the template, or reports an invalid template. */
  method CreateVxdbEntries(x: int, name: string, vdir: string, cfg: Config) returns (script: Option<seq<Stmt>>)
    ensures script.Some? <==> ValidConfig(cfg)
    ensures script.Some? ==> script.value == CreateScript(x, name, vdir, cfg)
  {
    ghost var bs := Blocks(x, name, vdir, cfg);
    var sql := DeleteAll(REBUILT, x);
    if !ValidPath(cfg.init) || !ValidPath(cfg.halt) || !ValidPath(cfg.reboot) {
      return None;
    }
    sql := sql + [Insert(InitRow(x, cfg))];
    assert sql == Buffer(x, bs, 1) by { BufferRow(x, bs, 0, InitRow(x, cfg)); }
    var ok;
    ok, sql := AppendMounts(sql, x, cfg.mounts);
    if !ok {
      return None;
    }
    assert sql == Buffer(x, bs, 2) by { BufferStep(x, bs, 1); }
    ok, sql := AppendAllTags(x, cfg, bs, sql);
    if !ok {
      return None;
    }
    sql := sql + [Insert(TagRow(Vdir, x, vdir))];
    assert sql == Buffer(x, bs, 6) by { BufferRow(x, bs, 5, TagRow(Vdir, x, vdir)); }
    sql := sql + [Insert(TagRow(XidNameMap, x, name))];
    assert sql == Buffer(x, bs, 7) by { BufferRow(x, bs, 6, TagRow(XidNameMap, x, name)); }
    assert bs[..7] == bs;
    return Some(sql);
  }
}
