/** The scheduler rows of a context (context_scheduler, src/vcd/methods/helper/helper_startup.c:396-460). */
module Scheduler {
  import opened Validate

  datatype Bucket = Bucket(fillrate: int, interval: int, fillrate2: int, interval2: int, tokensmin: int, tokensmax: int)

  /** cpuid -1 addresses all processors. */
  datatype SchedRow = SchedRow(cpuid: int, bucket: Bucket)

  /** What the kernel keeps per processor; `idle` stands for the three idle-time mask bits. */
  datatype Cell = Cell(bucket: Bucket, idle: bool)

  predicate ValidBucket(b: Bucket) {
    ValidTokenBucket(b.fillrate, b.interval, b.fillrate2, b.interval2, b.tokensmin, b.tokensmax)
  }

  /** Rows as `ORDER BY cpuid ASC` delivers them; (xid, cpuid) is unique. */
  ghost predicate Ascending(rows: seq<SchedRow>) {
    && (forall i, j | 0 <= i < j < |rows| :: rows[i].cpuid < rows[j].cpuid)
    && forall i | 0 <= i < |rows| :: rows[i].cpuid >= -1
  }

  function CellOf(b: Bucket): Cell {
    Cell(b, b.fillrate2 > 0 && b.interval2 > 0)
  }

  /** vx_sched_set: one processor, or all of them when no processor is named. */
  function SchedSet(cpus: seq<Cell>, cpuid: int, c: Cell): seq<Cell>
    requires cpuid < |cpus|
  {
    if cpuid >= 0 then cpus[cpuid := c] else seq(|cpus|, _ => c)
  }

  /** The row that should govern processor c: its own, else the row for all processors. */
  ghost predicate Governs(rows: seq<SchedRow>, c: int, r: SchedRow) {
    r in rows && (r.cpuid == c || (r.cpuid == -1 && forall q | q in rows :: q.cpuid != c))
  }

  /** The loop; `accepts(i)` says whether the i-th kernel call succeeds. */
  method ContextScheduler(rows: seq<SchedRow>, cpus: seq<Cell>, accepts: nat -> bool) returns (out: seq<Cell>, ok: bool)
    requires Ascending(rows)
    ensures |out| == |cpus|
    ensures ok <==> forall i | 0 <= i < |rows| && rows[i].cpuid < |cpus| :: accepts(i)
    ensures ok ==> forall c, r | 0 <= c < |cpus| && Governs(rows, c, r) :: out[c] == CellOf(r.bucket)
    ensures ok ==> forall c | 0 <= c < |cpus| && (forall r | r in rows :: r.cpuid != c && r.cpuid != -1) :: out[c] == cpus[c]
  {
    out := cpus;
    for i := 0 to |rows|
      invariant |out| == |cpus|
      invariant forall k | 0 <= k < i && rows[k].cpuid < |cpus| :: accepts(k)
      invariant forall c, r | 0 <= c < |cpus| && Governs(rows[..i], c, r) :: out[c] == CellOf(r.bucket)
      invariant forall c | 0 <= c < |cpus| && (forall r | r in rows[..i] :: r.cpuid != c && r.cpuid != -1) :: out[c] == cpus[c]
    {
      var row := rows[i];
      ghost var was := out;
      assert rows[..i + 1] == rows[..i] + [row];
      if row.cpuid < |out| {
        if !accepts(i) {
          return out, false;
        }
        out := SchedSet(out, row.cpuid, CellOf(row.bucket));
      }
      ScheduleStep(rows, i, cpus, was, out);
    }
    assert rows[..|rows|] == rows;
    ok := true;
  }

  lemma ScheduleStep(rows: seq<SchedRow>, i: nat, cpus: seq<Cell>, was: seq<Cell>, out: seq<Cell>)
    requires Ascending(rows) && i < |rows| && |was| == |cpus|
    requires out == if rows[i].cpuid < |was| then SchedSet(was, rows[i].cpuid, CellOf(rows[i].bucket)) else was
    requires forall c, r | 0 <= c < |cpus| && Governs(rows[..i], c, r) :: was[c] == CellOf(r.bucket)
    requires forall c | 0 <= c < |cpus| && (forall r | r in rows[..i] :: r.cpuid != c && r.cpuid != -1) :: was[c] == cpus[c]
    ensures forall c, r | 0 <= c < |cpus| && Governs(rows[..i + 1], c, r) :: out[c] == CellOf(r.bucket)
    ensures forall c | 0 <= c < |cpus| && (forall r | r in rows[..i + 1] :: r.cpuid != c && r.cpuid != -1) :: out[c] == cpus[c]
  {
    var row := rows[i];
    assert rows[..i + 1] == rows[..i] + [row];
    assert row.cpuid == -1 ==> i == 0 by {
      if i > 0 {
        assert rows[0].cpuid < rows[i].cpuid;
      }
    }
    forall c, r | 0 <= c < |cpus| && Governs(rows[..i + 1], c, r) ensures out[c] == CellOf(r.bucket) {
      if r != row {
        assert r in rows[..i];
        assert Governs(rows[..i], c, r);
        assert row in rows[..i + 1];
        var k :| 0 <= k < i && rows[k] == r;
        assert rows[k].cpuid < row.cpuid;
      }
    }
    forall c | 0 <= c < |cpus| && (forall r | r in rows[..i + 1] :: r.cpuid != c && r.cpuid != -1)
      ensures out[c] == cpus[c]
    {
      assert row in rows[..i + 1];
      assert forall r | r in rows[..i] :: r in rows[..i + 1];
    }
  }

  /** The kernel gets the bucket as it is, and for every accepted one the idle-time bits are set iff either
      idle value is positive. */
  lemma IdleBitsIff(b: Bucket)
    ensures CellOf(b).bucket == b
    ensures CellOf(b).idle ==> b.fillrate2 > 0 && b.interval2 > 0
    ensures ValidBucket(b) ==> 1 <= b.fillrate <= b.interval && b.fillrate <= b.tokensmax && b.fillrate2 <= b.interval2
    ensures ValidBucket(b) ==> (CellOf(b).idle <==> b.fillrate2 > 0) && (CellOf(b).idle <==> b.interval2 > 0)
  {
  }
}
