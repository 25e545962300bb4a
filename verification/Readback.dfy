/** From the request to the reader: what a stored setting turns into when it is read again, by the
    startup helper or by vxdb.vx.limit.get. */
module Readback {
  import opened Wrappers
  import opened Schema
  import opened Store
  import opened Validate
  import opened Lookup
  import opened Template
  import opened Invariant
  import opened Requests
  import opened Reachable
  import opened Outcomes
  import Promises
  import Limits
  import Scheduler

  predicate AllInts(data: seq<Val>) {
    forall v | v in data :: v.Int?
  }

  /** A row of vx_sched as context_scheduler reads it: fillrate, fillrate2, interval, interval2,
      tokensmin, tokensmax. */
  function ReadSched(r: Row): Option<Scheduler.SchedRow> {
    if r.t == VxSched && r.key.Int? && |r.data| == 6 && AllInts(r.data) then
      Some(Scheduler.SchedRow(r.key.i, Scheduler.Bucket(r.data[0].i, r.data[2].i, r.data[1].i, r.data[3].i,
                                                        r.data[4].i, r.data[5].i)))
    else None
  }

  /** `rows` is the answer to the query of the startup helper for context x. */
  ghost predicate SchedRows(db: Db, x: int, rows: seq<Scheduler.SchedRow>) {
    && Scheduler.Ascending(rows)
    && forall s :: s in rows <==> exists r :: r in db && r.id == x && ReadSched(r) == Some(s)
  }

  /** An accepted bucket is what the startup helper finds for that processor, and the only one. */
  lemma BucketStored(db: Db, name: string, cpuid: int, numcpus: int, b: Scheduler.Bucket, s: Scheduler.SchedRow)
    requires DoConfigure(db, name, SchedSet(cpuid, numcpus, b.fillrate, b.interval, b.fillrate2, b.interval2,
                                            b.tokensmin, b.tokensmax)).fault == NoFault
    ensures var d := DoConfigure(db, name, SchedSet(cpuid, numcpus, b.fillrate, b.interval, b.fillrate2, b.interval2,
                                                    b.tokensmin, b.tokensmax)).db;
            && Scheduler.ValidBucket(b) && -1 <= cpuid < numcpus
            && ((exists r :: r in d && r.id == GetXid(db, name) && ReadSched(r) == Some(s)) && s.cpuid == cpuid
                <==> s == Scheduler.SchedRow(cpuid, b))
  {
    var setting := SchedSet(cpuid, numcpus, b.fillrate, b.interval, b.fillrate2, b.interval2, b.tokensmin, b.tokensmax);
    ConfigureEffect(db, name, setting);
    var row := RowOf(setting, GetXid(db, name)).value;
    assert ReadSched(row) == Some(Scheduler.SchedRow(cpuid, b));
    if r :| r in DoConfigure(db, name, setting).db && r.id == GetXid(db, name) && ReadSched(r) == Some(s) {
      assert s.cpuid == cpuid ==> SameRegister(row, r);
    }
  }

  /** So after vxdb.vx.sched.set the bucket governs that processor when the context starts; a bucket for
      all processors governs those without a row of their own. */
  lemma BucketGoverns(db: Db, name: string, cpuid: int, numcpus: int, b: Scheduler.Bucket, rows: seq<Scheduler.SchedRow>, c: int)
    requires DoConfigure(db, name, SchedSet(cpuid, numcpus, b.fillrate, b.interval, b.fillrate2, b.interval2,
                                            b.tokensmin, b.tokensmax)).fault == NoFault
    requires SchedRows(DoConfigure(db, name, SchedSet(cpuid, numcpus, b.fillrate, b.interval, b.fillrate2, b.interval2,
                                                      b.tokensmin, b.tokensmax)).db, GetXid(db, name), rows)
    requires c >= 0
    ensures Scheduler.Governs(rows, c, Scheduler.SchedRow(cpuid, b)) <==>
            c == cpuid || (cpuid == -1 && forall s | s in rows :: s.cpuid != c)
  {
    BucketStored(db, name, cpuid, numcpus, b, Scheduler.SchedRow(cpuid, b));
  }

  /** A row of vx_limit as vxdb.vx.limit.get reads it. */
  function ReadLimit(r: Row): Option<Limits.LimitRow> {
    if r.t == VxLimit && r.key.Text? && |r.data| == 2 && AllInts(r.data) then
      Some(Limits.LimitRow(r.key.s, r.data[0].i, r.data[1].i))
    else None
  }

  /** The value the caller is shown. */
  ghost predicate Shown(limit: string, v: int, shown: int, k: int)
    requires k > 0
  {
    if limit in {"ANON", "AS", "MAPPED", "MEMLOCK", "RSS", "SHMEM"} then shown == v / k * k <==> v < Limits.TWO54
    else shown == v
  }

  lemma LimitStored(limit: string, soft: int, max: int, k: int, x: int)
    requires 0 < k < 0x20_0000 && RowOf(LimitSet(limit, soft, max, 1024 * k), x).Some?
    ensures var l := ReadLimit(RowOf(LimitSet(limit, soft, max, 1024 * k), x).value);
            && l.Some? && l.value.limit == limit
            && Shown(limit, soft, Limits.FromStored(limit, l.value.soft, 1024 * k), k)
            && Shown(limit, max, Limits.FromStored(limit, l.value.max, 1024 * k), k)
  {
    Limits.LimitRoundTrip(limit, soft, k);
    Limits.LimitRoundTrip(limit, max, k);
  }

  /** vxdb.vx.limit.set, then vxdb.vx.limit.get: the context has exactly one limit of that type, shown
      as it was set, or rounded down to whole pages for memory limits below 2^54. */
  lemma LimitShown(db: Db, name: string, limit: string, soft: int, max: int, k: int)
    requires 0 < k < 0x20_0000 && DoConfigure(db, name, LimitSet(limit, soft, max, 1024 * k)).fault == NoFault
    ensures var d := DoConfigure(db, name, LimitSet(limit, soft, max, 1024 * k)).db;
            && (exists r :: r in d && r.t == VxLimit && r.id == GetXid(db, name) && r.key == Text(limit))
            && (forall r :: r in d && r.t == VxLimit && r.id == GetXid(db, name) && r.key == Text(limit) ==>
                  && ReadLimit(r).Some?
                  && Shown(limit, soft, Limits.FromStored(limit, ReadLimit(r).value.soft, 1024 * k), k)
                  && Shown(limit, max, Limits.FromStored(limit, ReadLimit(r).value.max, 1024 * k), k))
  {
    var setting := LimitSet(limit, soft, max, 1024 * k);
    var x := GetXid(db, name);
    ConfigureEffect(db, name, setting);
    LimitStored(limit, soft, max, k, x);
    var row := RowOf(setting, x).value;
    forall r | r in DoConfigure(db, name, setting).db && r.t == VxLimit && r.id == x && r.key == Text(limit) ensures r == row {
      assert SameRegister(row, r);
    }
    assert row in DoConfigure(db, name, setting).db && row.t == VxLimit && row.id == x && row.key == Text(limit);
  }

  // ----- mounts, cpusets and init commands

  predicate AllTexts(data: seq<Val>) {
    forall v | v in data :: v.Text?
  }

  /** A row of mount as vxdb.mount.get and the startup helper read it: src, type, opts beside dst. */
  function ReadMount(r: Row): Option<MountCfg> {
    if r.t == Mount && r.key.Text? && |r.data| == 3 && AllTexts(r.data) then
      Some(MountCfg(r.key.s, r.data[0].s, r.data[1].s, r.data[2].s))
    else None
  }

  /** A row of vx_cpuset. */
  datatype Cpuset = Cpuset(cpus: string, mems: string, virtualize: bool)

  function ReadCpuset(r: Row): Option<Cpuset> {
    if r.t == VxCpuset && |r.data| == 3 && r.data[0].Text? && r.data[1].Text? && r.data[2].Int? then
      Some(Cpuset(r.data[0].s, r.data[1].s, r.data[2].i != 0))
    else None
  }

  /** A row of init: what vx.start, vx.stop and vx.reboot run, and how long vx.stop waits. */
  datatype InitCmds = InitCmds(init: string, halt: string, reboot: string, timeout: int)

  function ReadInit(r: Row): Option<InitCmds> {
    if r.t == Init && |r.data| == 4 && AllTexts(r.data[..3]) && r.data[3].Int? then
      Some(InitCmds(r.data[0].s, r.data[1].s, r.data[2].s, r.data[3].i))
    else None
  }

  /** The context has exactly one mount at m.dst, and it is m. */
  ghost predicate OnlyMount(db: Db, x: int, m: MountCfg) {
    && (exists r :: r in db && r.id == x && ReadMount(r) == Some(m))
    && (forall r :: r in db && r.id == x && r.t == Mount && r.key == Text(m.dst) ==> ReadMount(r) == Some(m))
  }

  lemma MountStored(src: string, dst: string, fstype: string, opts: string, x: int)
    requires RowOf(MountSet(src, dst, fstype, opts), x).Some?
    ensures ReadMount(RowOf(MountSet(src, dst, fstype, opts), x).value) ==
            Some(MountCfg(dst, if src == "" then "none" else src, if fstype == "" then "auto" else fstype,
                          if opts == "" then "defaults" else opts))
  {
  }

  /** After vxdb.mount.set the context has exactly one mount there, read with the given source, type and
      options, and with "none", "auto" and "defaults" where they were not given. */
  lemma MountShown(db: Db, name: string, src: string, dst: string, fstype: string, opts: string)
    requires DoConfigure(db, name, MountSet(src, dst, fstype, opts)).fault == NoFault
    ensures OnlyMount(DoConfigure(db, name, MountSet(src, dst, fstype, opts)).db, GetXid(db, name),
                      MountCfg(dst, if src == "" then "none" else src, if fstype == "" then "auto" else fstype,
                               if opts == "" then "defaults" else opts))
  {
    var setting, x := MountSet(src, dst, fstype, opts), GetXid(db, name);
    ConfigureEffect(db, name, setting);
    MountStored(src, dst, fstype, opts, x);
    var row := RowOf(setting, x).value;
    forall r | r in DoConfigure(db, name, setting).db && r.t == Mount && r.id == x && r.key == Text(dst) ensures r == row {
      assert SameRegister(row, r);
    }
    assert row in DoConfigure(db, name, setting).db;
  }

  /** Setting a template's mount by hand stores the row vx.create stores for it. */
  lemma TemplateMountSet(m: MountCfg, x: int)
    requires ValidMount(m)
    ensures RowOf(MountSet(m.src, m.dst, m.fstype, m.opts), x) == Some(MountRow(x, m))
    ensures ReadMount(MountRow(x, m)) == Some(m)
  {
  }

  /** After vxdb.vx.cpuset.set the context has exactly one cpuset, read as given. */
  lemma CpusetShown(db: Db, name: string, cpus: string, mems: string, virtualize: bool, valid: bool)
    requires DoConfigure(db, name, CpusetSet(cpus, mems, virtualize, valid)).fault == NoFault
    ensures var d := DoConfigure(db, name, CpusetSet(cpus, mems, virtualize, valid)).db;
            && valid
            && (exists r :: r in d && r.id == GetXid(db, name) && ReadCpuset(r) == Some(Cpuset(cpus, mems, virtualize)))
            && (forall r :: r in d && r.id == GetXid(db, name) && r.t == VxCpuset ==> ReadCpuset(r) == Some(Cpuset(cpus, mems, virtualize)))
  {
    var setting, x := CpusetSet(cpus, mems, virtualize, valid), GetXid(db, name);
    ConfigureEffect(db, name, setting);
    var row := RowOf(setting, x).value;
    forall r | r in DoConfigure(db, name, setting).db && r.t == VxCpuset && r.id == x ensures r == row {
      assert SameRegister(row, r);
    }
    assert row in DoConfigure(db, name, setting).db;
  }

  // ----- what a creation leaves for the readers

  /** The names a context has in a table of capabilities or flags. */
  ghost predicate HasTag(db: Db, t: Table, x: int, tag: string) {
    exists r :: r in db && r.t == t && r.id == x && r.key == Text(tag)
  }

  /** Context x is what the template says, as every reader of the store finds it. */
  ghost predicate ReadsAs(db: Db, x: int, name: string, cfg: Config) {
    && (forall r :: r in db && r.t == XidNameMap && r.id == x ==> r.key == Text(name))
    && (forall r :: r in db && r.t == Init && r.id == x ==>
          ReadInit(r) == Some(InitCmds(cfg.init, cfg.halt, cfg.reboot, if cfg.timeout < 0 then 0 else cfg.timeout)))
    && (exists r :: r in db && r.t == Init && r.id == x)
    && (forall b :: HasTag(db, VxBcaps, x, b) <==> b in cfg.bcaps)
    && (forall c :: HasTag(db, VxCcaps, x, c) <==> c in cfg.ccaps)
    && (forall f :: HasTag(db, VxFlags, x, f) <==> f in cfg.flags)
    && (forall r :: r in db && r.id == x ==> r.t !in {DxLimit, NxAddr, NxBroadcast, Restart, VxLimit, VxSched, VxUname})
  }

  /** Every name is one the kernel knows. */
  ghost predicate KnownNames(db: Db, x: int) {
    && (forall b :: HasTag(db, VxBcaps, x, b) ==> b in BCAPS)
    && (forall c :: HasTag(db, VxCcaps, x, c) ==> c in CCAPS)
    && (forall f :: HasTag(db, VxFlags, x, f) ==> f in CFLAGS)
  }

  /** The mounts of context x are the template's, or /proc and /dev/pts if it names none. */
  ghost predicate MountsRead(db: Db, x: int, cfg: Config) {
    forall m :: (exists r :: r in db && r.id == x && ReadMount(r) == Some(m)) <==>
                if cfg.mounts == [] then m in {MountCfg("/proc", "none", "proc", "defaults"), MountCfg("/dev/pts", "none", "devpts", "defaults")}
                else m in cfg.mounts
  }

  /** d holds the template's rows of context x in the rebuilt tables. */
  ghost predicate Built(d: Db, x: int, name: string, v: string, cfg: Config) {
    forall r: Row :: r.t in REBUILT && r.id == x ==> (r in d <==> r in ContextRows(x, name, v, cfg))
  }

  lemma TagsRead(d: Db, x: int, name: string, v: string, cfg: Config, tag: string)
    requires Built(d, x, name, v, cfg)
    ensures HasTag(d, VxBcaps, x, tag) <==> tag in cfg.bcaps
    ensures HasTag(d, VxCcaps, x, tag) <==> tag in cfg.ccaps
    ensures HasTag(d, VxFlags, x, tag) <==> tag in cfg.flags
  {
    TagRead(d, VxBcaps, x, name, v, cfg, tag);
    TagRead(d, VxCcaps, x, name, v, cfg, tag);
    TagRead(d, VxFlags, x, name, v, cfg, tag);
  }

  lemma TagRead(d: Db, t: Table, x: int, name: string, v: string, cfg: Config, tag: string)
    requires Built(d, x, name, v, cfg) && t in {VxBcaps, VxCcaps, VxFlags}
    ensures HasTag(d, t, x, tag) <==> tag in (if t == VxBcaps then cfg.bcaps else if t == VxCcaps then cfg.ccaps else cfg.flags)
  {
    RebuiltTables(t);
    ContextRowsIn(x, name, v, cfg, Row(t, x, Text(tag), []));
    if r :| r in d && r.t == t && r.id == x && r.key == Text(tag) {
      ContextRowsIn(x, name, v, cfg, r);
    }
  }

  lemma SingleRows(d: Db, x: int, name: string, v: string, cfg: Config, r: Row)
    requires Built(d, x, name, v, cfg) && r in d && r.id == x
    ensures r.t == XidNameMap ==> r.key == Text(name)
    ensures r.t == Init ==> ReadInit(r) == Some(InitCmds(cfg.init, cfg.halt, cfg.reboot, if cfg.timeout < 0 then 0 else cfg.timeout))
    ensures r.t !in {DxLimit, NxAddr, NxBroadcast, Restart, VxLimit, VxSched, VxUname}
  {
    RebuiltTables(r.t);
    ContextRowsIn(x, name, v, cfg, r);
  }

  lemma BuiltReads(d: Db, x: int, name: string, v: string, cfg: Config)
    requires Built(d, x, name, v, cfg)
    ensures ReadsAs(d, x, name, cfg)
  {
    forall r | r in d && r.id == x
      ensures (r.t == XidNameMap ==> r.key == Text(name)) && r.t !in {DxLimit, NxAddr, NxBroadcast, Restart, VxLimit, VxSched, VxUname}
      ensures r.t == Init ==> ReadInit(r) == Some(InitCmds(cfg.init, cfg.halt, cfg.reboot, if cfg.timeout < 0 then 0 else cfg.timeout))
    {
      SingleRows(d, x, name, v, cfg, r);
    }
    RebuiltTables(Init);
    ContextRowsIn(x, name, v, cfg, InitRow(x, cfg));
    assert InitRow(x, cfg) in d;
    forall tag ensures (HasTag(d, VxBcaps, x, tag) <==> tag in cfg.bcaps) && (HasTag(d, VxCcaps, x, tag) <==> tag in cfg.ccaps)
                       && (HasTag(d, VxFlags, x, tag) <==> tag in cfg.flags) {
      TagsRead(d, x, name, v, cfg, tag);
    }
  }

  lemma MountRead(d: Db, x: int, name: string, v: string, cfg: Config, m: MountCfg)
    requires Built(d, x, name, v, cfg)
    ensures (exists r :: r in d && r.id == x && ReadMount(r) == Some(m)) <==> m in MountsOf(cfg)
  {
    RebuiltTables(Mount);
    ContextRowsIn(x, name, v, cfg, MountRow(x, m));
    assert ReadMount(MountRow(x, m)) == Some(m);
    if r :| r in d && r.id == x && ReadMount(r) == Some(m) {
      ContextRowsIn(x, name, v, cfg, r);
      var n :| n in MountsOf(cfg) && r == MountRow(x, n);
      assert ReadMount(r) == Some(n);
    }
  }

  lemma MountsOfIn(cfg: Config, m: MountCfg)
    ensures m in MountsOf(cfg) <==>
            if cfg.mounts == [] then m in {MountCfg("/proc", "none", "proc", "defaults"), MountCfg("/dev/pts", "none", "devpts", "defaults")}
            else m in cfg.mounts
  {
  }

  lemma BuiltMounts(d: Db, x: int, name: string, v: string, cfg: Config)
    requires Built(d, x, name, v, cfg)
    ensures MountsRead(d, x, cfg)
  {
    forall m ensures (exists r :: r in d && r.id == x && ReadMount(r) == Some(m)) <==>
                     if cfg.mounts == [] then m in {MountCfg("/proc", "none", "proc", "defaults"), MountCfg("/dev/pts", "none", "devpts", "defaults")}
                     else m in cfg.mounts {
      MountRead(d, x, name, v, cfg, m);
      MountsOfIn(cfg, m);
    }
  }

  /** After a successful vx.create, new context or rebuild, every reader finds the template: the three init
      commands and the timeout, the mounts, the capabilities and flags, and no other setting but a cpuset. */
  lemma TemplateShown(db: Db, user: string, name: string, vdir: string, force: bool, cfg: Config, world: World)
    requires Inv(db) && ValidName(name) && DoCreate(db, user, name, vdir, force, cfg, world).fault == NoFault
    ensures var d := DoCreate(db, user, name, vdir, force, cfg, world).db;
            var x := GetXid(d, name);
            ReadsAs(d, x, name, cfg) && KnownNames(d, x) && MountsRead(d, x, cfg)
  {
    var d := DoCreate(db, user, name, vdir, force, cfg, world).db;
    var x, v := CreateXid(db, name), CreateVdir(db, user, name, vdir, world);
    Promises.CreatePromise(db, user, name, vdir, force, cfg, world);
    CreatedIsValid(db, user, name, vdir, force, cfg, world);
    BuiltReads(d, x, name, v, cfg);
    BuiltMounts(d, x, name, v, cfg);
  }

  lemma CreatedIsValid(db: Db, user: string, name: string, vdir: string, force: bool, cfg: Config, world: World)
    requires DoCreate(db, user, name, vdir, force, cfg, world).fault == NoFault
    ensures (forall b | b in cfg.bcaps :: b in BCAPS) && (forall c | c in cfg.ccaps :: c in CCAPS)
    ensures forall f | f in cfg.flags :: f in CFLAGS
  {
  }
}
