/** Resource limits: unit conversion on the way into and out of vx_limit
    (src/vcd/methods/vxdb/vxdb_vx_limit_set.c, vxdb_vx_limit_get.c). All arithmetic is uint64_t. */
module Limits {
  import opened Validate

  const TWO64 := 0x1_0000_0000_0000_0000
  const TWO54 := 0x40_0000_0000_0000

  /** A limit below 2^64; 2^64-1 means "infinity" and 2^64-2 "keep". */
  predicate ValidLimits(soft: int, max: int) {
    0 <= soft < TWO64 - 2 && 0 <= max < TWO64 - 2
  }

  function BytesToPages(bytes: int, pagesize: int): int
    requires pagesize > 0
  {
    (bytes * 1024) % TWO64 / pagesize
  }

  function PagesToBytes(pages: int, pagesize: int): int {
    (pages * pagesize) % TWO64 / 1024
  }

  const MEMORY_TYPES: seq<string> := ["ANON", "AS", "MAPPED", "MEMLOCK", "RSS", "SHMEM"]

  function ToStored(limit: string, v: int, pagesize: int): int
    requires pagesize > 0
  {
    if limit in MEMORY_TYPES then BytesToPages(v, pagesize) else v
  }

  function FromStored(limit: string, v: int, pagesize: int): int {
    if limit in MEMORY_TYPES then PagesToBytes(v, pagesize) else v
  }

  /** The conversion loop of vxdb.vx.limit.set: a type matches at most one entry, so a value is
      converted at most once. */
  method ConvertForSet(limit: string, soft: int, max: int, pagesize: int) returns (s: int, m: int)
    requires pagesize > 0
    ensures s == ToStored(limit, soft, pagesize) && m == ToStored(limit, max, pagesize)
  {
    s, m := soft, max;
    for i := 0 to |MEMORY_TYPES|
      invariant s == if limit in MEMORY_TYPES[..i] then BytesToPages(soft, pagesize) else soft
      invariant m == if limit in MEMORY_TYPES[..i] then BytesToPages(max, pagesize) else max
    {
      assert MEMORY_TYPES[..i + 1] == MEMORY_TYPES[..i] + [MEMORY_TYPES[i]];
      if limit == MEMORY_TYPES[i] {
        DistinctTypes(i);
        s := BytesToPages(s, pagesize);
        m := BytesToPages(m, pagesize);
      }
    }
    assert MEMORY_TYPES[..|MEMORY_TYPES|] == MEMORY_TYPES;
  }

  lemma DistinctTypes(i: nat)
    requires i < |MEMORY_TYPES|
    ensures MEMORY_TYPES[i] !in MEMORY_TYPES[..i]
  {
    forall j | 0 <= j < i ensures MEMORY_TYPES[j] != MEMORY_TYPES[i] {
      assert |MEMORY_TYPES[0]| == 4 && |MEMORY_TYPES[1]| == 2 && |MEMORY_TYPES[2]| == 6
             && |MEMORY_TYPES[3]| == 7 && |MEMORY_TYPES[4]| == 3 && |MEMORY_TYPES[5]| == 5;
    }
  }

  lemma MulDiv(a: int, k: int)
    requires a >= 0 && k > 0
    ensures (a * 1024) / (1024 * k) == a / k
  {
    var q, r := a / k, a % k;
    assert a * 1024 == q * (1024 * k) + r * 1024;
    assert 0 <= r * 1024 < 1024 * k;
    DivUnique(a * 1024, 1024 * k, q, r * 1024);
  }

  lemma DivUnique(n: int, d: int, q: int, r: int)
    requires d > 0 && n == q * d + r && 0 <= r < d
    ensures n / d == q && n % d == r
  {
    var e := n / d - q;
    assert n == (n / d) * d + n % d;
    assert e * d == r - n % d;
    assert e >= 1 ==> e * d >= d;
    assert e <= -1 ==> e * d <= -d;
  }

  /** Storing keeps bytes / k pages for values below 2^54; larger ones lose their high bits first. */
  lemma StoredPages(bytes: int, k: int)
    requires 0 <= bytes < TWO64 && k > 0
    ensures BytesToPages(bytes, 1024 * k) == (bytes % TWO54) / k
  {
    var low, high := bytes % TWO54, bytes / TWO54;
    assert bytes * 1024 == high * TWO64 + low * 1024;
    DivUnique(bytes * 1024, TWO64, high, low * 1024);
    MulDiv(low, k);
  }

  /** Reading back what was stored. */
  lemma ReadBack(bytes: int, k: int)
    requires 0 <= bytes < TWO64 && k > 0
    ensures PagesToBytes(BytesToPages(bytes, 1024 * k), 1024 * k) == (bytes % TWO54) / k * k
  {
    StoredPages(bytes, k);
    var low := bytes % TWO54;
    var q := low / k;
    assert 0 <= q * k <= low;
    assert q * (1024 * k) == (q * k) * 1024;
    DivUnique(q * (1024 * k), TWO64, 0, (q * k) * 1024);
    DivUnique((q * k) * 1024, 1024, q * k, 0);
  }

  /** Rounding down to a multiple of k. */
  lemma RoundDown(n: int, k: int)
    requires n >= 0 && k > 0
    ensures n / k * k <= n < n / k * k + k
  {
    assert n == (n / k) * k + n % k;
  }

  /** Losing the high bits shows after rounding. */
  lemma LowBitsShow(bytes: int, k: int)
    requires TWO54 <= bytes && 0 < k < 0x20_0000
    ensures (bytes % TWO54) / k * k < bytes / k * k
  {
    var low := bytes % TWO54;
    RoundDown(low, k);
    RoundDown(bytes, k);
    assert low <= bytes - TWO54;
  }

  lemma ShownIff(bytes: int, k: int, shown: int)
    requires 0 <= bytes < TWO64 && 0 < k < 0x20_0000 && shown == (bytes % TWO54) / k * k
    ensures shown == bytes / k * k <==> bytes < TWO54
  {
    if bytes >= TWO54 {
      LowBitsShow(bytes, k);
    }
  }

  /** Set then get returns the greatest multiple of pagesize/1024 not above the input, for exactly
      the inputs below 2^54. `pagesize` is 1024 * k and fits an int. */
  lemma SetGetIff(bytes: int, k: int)
    requires 0 <= bytes < TWO64 && 0 < k < 0x20_0000
    ensures PagesToBytes(BytesToPages(bytes, 1024 * k), 1024 * k) == bytes / k * k <==> bytes < TWO54
    ensures bytes / k * k <= bytes < bytes / k * k + k
  {
    var shown := PagesToBytes(BytesToPages(bytes, 1024 * k), 1024 * k);
    assert shown == bytes / k * k <==> bytes < TWO54 by {
      ReadBack(bytes, k);
      ShownIff(bytes, k, shown);
    }
    RoundDown(bytes, k);
  }

  /** Setting what get returned stores the same number of pages again. */
  lemma SetOfGet(pages: int, k: int)
    requires k > 0 && 0 <= pages && pages * k < TWO54
    ensures BytesToPages(PagesToBytes(pages, 1024 * k), 1024 * k) == pages
  {
    assert pages * (1024 * k) == (pages * k) * 1024;
    DivUnique(pages * (1024 * k), TWO64, 0, (pages * k) * 1024);
    DivUnique((pages * k) * 1024, 1024, pages * k, 0);
    StoredPages(pages * k, k);
    DivUnique(pages * k, k, pages, 0);
  }

  lemma MulCancel(p: int, r: int, k: int)
    requires k > 0 && p * k < r * k
    ensures p < r
  {
    var e := p - r;
    assert e * k == p * k - r * k;
    assert e >= 0 ==> e * k >= 0;
  }

  lemma DivMonotone(a: int, b: int, k: int)
    requires 0 <= a <= b && k > 0
    ensures a / k <= b / k
  {
    RoundDown(a, k);
    RoundDown(b, k);
    var p, q := a / k, b / k;
    assert (q + 1) * k == q * k + k;
    MulCancel(p, q + 1, k);
  }

  lemma StoredSmall(bytes: int, k: int, pages: int)
    requires 0 <= bytes < TWO54 && k > 0 && pages == BytesToPages(bytes, 1024 * k)
    ensures pages == bytes / k
  {
    StoredPages(bytes, k);
  }

  /** The order of soft and hard limit survives, below 2^54. */
  lemma OrderKept(soft: int, max: int, k: int)
    requires 0 <= soft <= max < TWO54 && k > 0
    ensures BytesToPages(soft, 1024 * k) <= BytesToPages(max, 1024 * k)
  {
    var p, q := BytesToPages(soft, 1024 * k), BytesToPages(max, 1024 * k);
    assert p <= q by {
      StoredSmall(soft, k, p);
      StoredSmall(max, k, q);
      DivMonotone(soft, max, k);
    }
  }

  // ----- reading the rows back

  datatype LimitRow = LimitRow(limit: string, soft: int, max: int)

  /** The loops of vxdb.vx.limit.get: every row once, converted if its type is a memory limit. */
  method ConvertForGet(rows: seq<LimitRow>, pagesize: int) returns (out: seq<LimitRow>)
    ensures |out| == |rows|
    ensures forall r | 0 <= r < |rows| :: out[r] ==
              LimitRow(rows[r].limit, FromStored(rows[r].limit, rows[r].soft, pagesize), FromStored(rows[r].limit, rows[r].max, pagesize))
  {
    out := [];
    for r := 0 to |rows|
      invariant |out| == r
      invariant forall q | 0 <= q < r :: out[q] ==
                  LimitRow(rows[q].limit, FromStored(rows[q].limit, rows[q].soft, pagesize), FromStored(rows[q].limit, rows[q].max, pagesize))
    {
      var limit, s, m := rows[r].limit, rows[r].soft, rows[r].max;
      for i := 0 to |MEMORY_TYPES|
        invariant s == if limit in MEMORY_TYPES[..i] then PagesToBytes(rows[r].soft, pagesize) else rows[r].soft
        invariant m == if limit in MEMORY_TYPES[..i] then PagesToBytes(rows[r].max, pagesize) else rows[r].max
      {
        assert MEMORY_TYPES[..i + 1] == MEMORY_TYPES[..i] + [MEMORY_TYPES[i]];
        if limit == MEMORY_TYPES[i] {
          DistinctTypes(i);
          s := PagesToBytes(s, pagesize);
          m := PagesToBytes(m, pagesize);
        }
      }
      assert MEMORY_TYPES[..|MEMORY_TYPES|] == MEMORY_TYPES;
      out := out + [LimitRow(limit, s, m)];
    }
  }

  /** A limit that was set reads back as itself, or rounded down to whole pages for memory limits
      below 2^54. */
  lemma LimitRoundTrip(limit: string, v: int, k: int)
    requires 0 <= v < TWO64 && 0 < k < 0x20_0000
    ensures limit !in MEMORY_TYPES ==> FromStored(limit, ToStored(limit, v, 1024 * k), 1024 * k) == v
    ensures limit in MEMORY_TYPES ==> (FromStored(limit, ToStored(limit, v, 1024 * k), 1024 * k) == v / k * k <==> v < TWO54)
  {
    SetGetIff(v, k);
  }
}
