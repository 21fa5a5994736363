/**
 * The reference-counted statistics handle of lib/vminfo.c and the
 * read-and-aggregate step that fills it: `proc_vmem_new`, `proc_vmem_read`,
 * `proc_vmem_unref` and the accessors that read counters out of a handle.
 */
module VmInfo {
  import opened Counters
  import opened VmstatTable
  import opened ProcParser

  /** `ENOMEM` on Linux. */
  const ENOMEM: int := 12

  /** `struct proc_vmem`: a reference count and the record the handle owns. */
  class Vmem {
    var refcount: int
    var data: VmemData
    /** Set when the last reference is dropped and the handle and its record are freed. */
    ghost var freed: bool

    /** A handle that has not been freed holds at least one reference. */
    ghost predicate Valid()
      reads this
    {
      !freed ==> refcount > 0
    }

    /** A handle as `proc_vmem_new` leaves it: one reference and a zeroed record. */
    constructor ()
      ensures Valid() && !freed
      ensures refcount == 1 && data == Zero()
    {
      refcount := 1;
      data := Zero();
      freed := false;
    }
  }

  /**
   * `proc_vmem_new`. The outcome of each of its two `calloc` calls is an
   * input: `handleAllocated` for the handle, `recordAllocated` for the record.
   * On success the new handle is returned; on failure no handle is.
   */
  method New(handleAllocated: bool, recordAllocated: bool) returns (err: int, vmem: Vmem?)
    ensures err == 0 <==> handleAllocated && recordAllocated
    ensures err == 0 ==> vmem != null && fresh(vmem) && vmem.Valid() && !vmem.freed
    ensures err == 0 ==> vmem.refcount == 1 && vmem.data == Zero()
    ensures err != 0 ==> err == -ENOMEM && vmem == null
  {
    if !handleAllocated {
      return -ENOMEM, null;
    }
    var vm := new Vmem();
    if !recordAllocated {
      vm.freed := true;
      return -ENOMEM, null;
    }
    return 0, vm;
  }

  /**
   * `proc_vmem_unref`: drops one reference. The handle is returned while
   * references remain; when the last one goes, the handle and its record are
   * freed and null is returned. A null handle is returned as it came.
   */
  method Unref(vmem: Vmem?) returns (r: Vmem?)
    requires vmem != null ==> vmem.Valid() && !vmem.freed
    modifies vmem
    ensures vmem == null ==> r == null
    ensures vmem != null ==> vmem.Valid() && vmem.data == old(vmem.data)
    ensures vmem != null ==> vmem.refcount == old(vmem.refcount) - 1
    ensures vmem != null ==> (vmem.freed <==> old(vmem.refcount) == 1)
    ensures vmem != null ==> r == if vmem.freed then null else vmem
  {
    if vmem == null {
      return null;
    }
    vmem.refcount := vmem.refcount - 1;
    if vmem.refcount > 0 {
      return vmem;
    }
    vmem.freed := true;
    return null;
  }

  /** The four legacy totals: page allocations, refills, scans and steals. */
  predicate IsAggregate(c: Counter)
  {
    c.Pgalloc? || c.Pgrefill? || c.Pgscan? || c.Pgsteal?
  }

  /** The three direct-reclaim scan counters, one per zone. */
  const DirectScans: seq<Counter> := [PgscanDirectDma, PgscanDirectHigh, PgscanDirectNormal]

  /** The three kswapd scan counters, one per zone. */
  const KswapdScans: seq<Counter> := [PgscanKswapdDma, PgscanKswapdHigh, PgscanKswapdNormal]

  /** The per-zone page allocation counters. */
  const AllocZones: seq<Counter> := [PgallocDma, PgallocHigh, PgallocNormal]

  /** The per-zone refill counters. */
  const RefillZones: seq<Counter> := [PgrefillDma, PgrefillHigh, PgrefillNormal]

  /** The per-zone steal counters. */
  const StealZones: seq<Counter> := [PgstealDma, PgstealHigh, PgstealNormal]

  /** The counters whose sum stands in for aggregate `a` when the kernel does not report it. */
  function Components(a: Counter): seq<Counter>
    requires IsAggregate(a)
  {
    if a.Pgalloc? then AllocZones
    else if a.Pgrefill? then RefillZones
    else if a.Pgsteal? then StealZones
    else DirectScans + KswapdScans
  }

  /** The counters `cs` of `d` added left to right in `unsigned long`, as C adds them. */
  function SumOf(d: VmemData, cs: seq<Counter>): U64
    decreases |cs|
  {
    if cs == [] then 0 else Add(SumOf(d, cs[..|cs| - 1]), Get(d, cs[|cs| - 1]))
  }

  /** A three-counter sum is `(x + y) + z`. */
  lemma SumOf3(d: VmemData, x: Counter, y: Counter, z: Counter)
    ensures SumOf(d, [x, y, z]) == Add(Add(Get(d, x), Get(d, y)), Get(d, z))
  {
    assert [x][..0] == [];
    assert SumOf(d, [x]) == Get(d, x);
    assert [x, y][..1] == [x];
    assert SumOf(d, [x, y]) == Add(Get(d, x), Get(d, y));
    assert [x, y, z][..2] == [x, y];
  }

  /** The direct-reclaim scans summed as `proc_vmem_get_pgscand` sums them. */
  lemma DirectScansSum(d: VmemData)
    ensures SumOf(d, DirectScans) == Add(Add(d.pgscanDirectDma, d.pgscanDirectHigh), d.pgscanDirectNormal)
  {
    SumOf3(d, PgscanDirectDma, PgscanDirectHigh, PgscanDirectNormal);
  }

  /** The kswapd scans summed as `proc_vmem_get_pgscank` sums them. */
  lemma KswapdScansSum(d: VmemData)
    ensures SumOf(d, KswapdScans) == Add(Add(d.pgscanKswapdDma, d.pgscanKswapdHigh), d.pgscanKswapdNormal)
  {
    SumOf3(d, PgscanKswapdDma, PgscanKswapdHigh, PgscanKswapdNormal);
  }

  /** The same sum in unbounded integers. */
  function Total(d: VmemData, cs: seq<Counter>): int
    decreases |cs|
  {
    if cs == [] then 0 else Total(d, cs[..|cs| - 1]) + Get(d, cs[|cs| - 1]) as int
  }

  /** The record with the four aggregates cleared (lib/vminfo.c:185-188). */
  function Reset(d: VmemData): VmemData
  {
    d.(pgalloc := 0, pgrefill := 0, pgscan := 0, pgsteal := 0)
  }

  /** `pgalloc`, if still 0, becomes the sum of its per-zone counters (lib/vminfo.c:192-193). */
  function FillPgalloc(d: VmemData): VmemData
  {
    if d.pgalloc == 0 then d.(pgalloc := Add(Add(d.pgallocDma, d.pgallocHigh), d.pgallocNormal)) else d
  }

  /** `pgrefill`, if still 0, becomes the sum of its per-zone counters (lib/vminfo.c:196-199). */
  function FillPgrefill(d: VmemData): VmemData
  {
    if d.pgrefill == 0 then d.(pgrefill := Add(Add(d.pgrefillDma, d.pgrefillHigh), d.pgrefillNormal)) else d
  }

  /** `pgscan`, if still 0, becomes the sum of the six scan counters (lib/vminfo.c:201-204). */
  function FillPgscan(d: VmemData): VmemData
  {
    if d.pgscan == 0 then
      d.(pgscan := Add(Add(Add(Add(Add(d.pgscanDirectDma, d.pgscanDirectHigh), d.pgscanDirectNormal),
                                   d.pgscanKswapdDma), d.pgscanKswapdHigh), d.pgscanKswapdNormal))
    else d
  }

  /** `pgsteal`, if still 0, becomes the sum of its per-zone counters (lib/vminfo.c:206-208). */
  function FillPgsteal(d: VmemData): VmemData
  {
    if d.pgsteal == 0 then d.(pgsteal := Add(Add(d.pgstealDma, d.pgstealHigh), d.pgstealNormal)) else d
  }

  /** The four fallback sums of lib/vminfo.c:192-208, in the order the code applies them. */
  function Fallback(d: VmemData): VmemData
  {
    FillPgsteal(FillPgscan(FillPgrefill(FillPgalloc(d))))
  }

  /** The record after `proc_vmem_read` has read the vmstat `lines` into `d`. */
  function AfterRead(d: VmemData, lines: seq<Assignment>): VmemData
  {
    Fallback(Parse(Reset(d), lines))
  }

  /**
   * `proc_vmem_read`: clears the aggregates, stores the vmstat lines through
   * the key table, then fills each aggregate still 0 from its per-zone
   * counters. A null handle is left alone.
   */
  method Read(vmem: Vmem?, lines: seq<Assignment>)
    requires vmem != null ==> !vmem.freed
    modifies vmem
    ensures vmem != null ==> vmem.data == AfterRead(old(vmem.data), lines)
    ensures vmem != null ==> vmem.refcount == old(vmem.refcount) && vmem.freed == old(vmem.freed)
  {
    if vmem == null {
      return;
    }
    vmem.data := vmem.data.(pgalloc := 0, pgrefill := 0, pgscan := 0, pgsteal := 0);
    vmem.data := Parse(vmem.data, lines);
    if vmem.data.pgalloc == 0 {
      var d := vmem.data;
      vmem.data := d.(pgalloc := Add(Add(d.pgallocDma, d.pgallocHigh), d.pgallocNormal));
    }
    if vmem.data.pgrefill == 0 {
      var d := vmem.data;
      vmem.data := d.(pgrefill := Add(Add(d.pgrefillDma, d.pgrefillHigh), d.pgrefillNormal));
    }
    if vmem.data.pgscan == 0 {
      var d := vmem.data;
      vmem.data := d.(pgscan := Add(Add(Add(Add(Add(d.pgscanDirectDma, d.pgscanDirectHigh),
                                                    d.pgscanDirectNormal),
                                                d.pgscanKswapdDma),
                                            d.pgscanKswapdHigh),
                                        d.pgscanKswapdNormal));
    }
    if vmem.data.pgsteal == 0 {
      var d := vmem.data;
      vmem.data := d.(pgsteal := Add(Add(d.pgstealDma, d.pgstealHigh), d.pgstealNormal));
    }
  }

  /** A counter that is appended to a sum is added to the sum of the ones before it. */
  lemma SumOfSnoc(d: VmemData, cs: seq<Counter>, c: Counter)
    ensures SumOf(d, cs + [c]) == Add(SumOf(d, cs), Get(d, c))
  {
    assert (cs + [c])[..|cs|] == cs;
  }

  /** `Add` is associative: regrouping a sum of counters does not change its value modulo 2^64. */
  lemma AddAssoc(a: U64, b: U64, c: U64)
    ensures Add(Add(a, b), c) == Add(a, Add(b, c))
  {
  }

  /** The sum of two runs of counters is the sum of their two sums. */
  lemma {:induction false} SumOfConcat(d: VmemData, xs: seq<Counter>, ys: seq<Counter>)
    ensures SumOf(d, xs + ys) == Add(SumOf(d, xs), SumOf(d, ys))
    decreases |ys|
  {
    if ys == [] {
      assert xs + ys == xs;
    } else {
      var init, y := ys[..|ys| - 1], ys[|ys| - 1];
      assert ys == init + [y];
      assert xs + ys == (xs + init) + [y];
      SumOfSnoc(d, xs + init, y);
      SumOfSnoc(d, init, y);
      SumOfConcat(d, xs, init);
      AddAssoc(SumOf(d, xs), SumOf(d, init), Get(d, y));
    }
  }

  /** The wrapped sum is the true sum reduced modulo 2^64. */
  lemma {:induction false} SumOfWraps(d: VmemData, cs: seq<Counter>)
    ensures SumOf(d, cs) as int == Total(d, cs) % WORD
    decreases |cs|
  {
    if cs != [] {
      SumOfWraps(d, cs[..|cs| - 1]);
    }
  }

  /** Two records that hold the same value in each counter of `cs` give the same sum over `cs`. */
  lemma {:induction false} SumOfAgree(d: VmemData, e: VmemData, cs: seq<Counter>)
    requires forall i :: 0 <= i < |cs| ==> Get(d, cs[i]) == Get(e, cs[i])
    ensures SumOf(d, cs) == SumOf(e, cs)
    decreases |cs|
  {
    if cs != [] {
      SumOfAgree(d, e, cs[..|cs| - 1]);
    }
  }

  /** The six scan counters, summed left to right as the fallback for `pgscan` sums them. */
  lemma SumOfScans(d: VmemData)
    ensures SumOf(d, DirectScans + KswapdScans)
         == Add(Add(Add(Add(Add(d.pgscanDirectDma, d.pgscanDirectHigh), d.pgscanDirectNormal),
                            d.pgscanKswapdDma), d.pgscanKswapdHigh), d.pgscanKswapdNormal)
  {
    SumOfConcat(d, DirectScans, KswapdScans);
    DirectScansSum(d);
    KswapdScansSum(d);
    var direct := Add(Add(d.pgscanDirectDma, d.pgscanDirectHigh), d.pgscanDirectNormal);
    AddAssoc(direct, Add(d.pgscanKswapdDma, d.pgscanKswapdHigh), d.pgscanKswapdNormal);
    AddAssoc(direct, d.pgscanKswapdDma, d.pgscanKswapdHigh);
  }

  /** The legacy `pgscan` total splits into the direct-reclaim and the kswapd scans. */
  lemma PgscanSplit(d: VmemData)
    ensures SumOf(d, Components(Pgscan)) == Add(SumOf(d, DirectScans), SumOf(d, KswapdScans))
  {
    SumOfConcat(d, DirectScans, KswapdScans);
  }

  /** Clearing the aggregates zeroes those four and keeps every other counter. */
  lemma ResetGet(d: VmemData, c: Counter)
    ensures Get(Reset(d), c) == if IsAggregate(c) then 0 else Get(d, c)
  {
  }

  /** The components of an aggregate are none of the four aggregates. */
  lemma ComponentsOther(a: Counter, i: nat)
    requires IsAggregate(a) && i < |Components(a)|
    ensures !IsAggregate(Components(a)[i])
  {
  }

  /** What a fill step for aggregate `a` leaves in counter `c` of `d`: the sum of the components if `a` was 0. */
  function Filled(d: VmemData, a: Counter, c: Counter): U64
    requires IsAggregate(a)
  {
    if c == a && Get(d, a) == 0 then SumOf(d, Components(a)) else Get(d, c)
  }

  /** The per-zone pgalloc counters summed as the fallback for `pgalloc` sums them. */
  lemma PgallocSum(d: VmemData)
    ensures SumOf(d, AllocZones) == Add(Add(d.pgallocDma, d.pgallocHigh), d.pgallocNormal)
  {
    SumOf3(d, PgallocDma, PgallocHigh, PgallocNormal);
  }

  /** Storing into `pgalloc` changes that counter and no other. */
  lemma UpdatePgalloc(d: VmemData, x: U64, c: Counter)
    ensures Get(d.(pgalloc := x), c) == if c == Pgalloc then x else Get(d, c)
  {
    assert d.(pgalloc := x) == Set(d, Pgalloc, x);
    GetSet(d, Pgalloc, x, c);
  }

  /** The `pgalloc` step fills `pgalloc` from its components when it is 0 and changes no other counter. */
  lemma FillPgallocGet(d: VmemData, c: Counter)
    ensures Get(FillPgalloc(d), c) == Filled(d, Pgalloc, c)
  {
    if d.pgalloc == 0 {
      PgallocSum(d);
      UpdatePgalloc(d, SumOf(d, AllocZones), c);
    }
  }

  /** The per-zone pgrefill counters summed as the fallback for `pgrefill` sums them. */
  lemma PgrefillSum(d: VmemData)
    ensures SumOf(d, RefillZones) == Add(Add(d.pgrefillDma, d.pgrefillHigh), d.pgrefillNormal)
  {
    SumOf3(d, PgrefillDma, PgrefillHigh, PgrefillNormal);
  }

  /** Storing into `pgrefill` changes that counter and no other. */
  lemma UpdatePgrefill(d: VmemData, x: U64, c: Counter)
    ensures Get(d.(pgrefill := x), c) == if c == Pgrefill then x else Get(d, c)
  {
    assert d.(pgrefill := x) == Set(d, Pgrefill, x);
    GetSet(d, Pgrefill, x, c);
  }

  /** The `pgrefill` step fills `pgrefill` from its components when it is 0 and changes no other counter. */
  lemma FillPgrefillGet(d: VmemData, c: Counter)
    ensures Get(FillPgrefill(d), c) == Filled(d, Pgrefill, c)
  {
    if d.pgrefill == 0 {
      PgrefillSum(d);
      UpdatePgrefill(d, SumOf(d, RefillZones), c);
    }
  }

  /** Storing into `pgscan` changes that counter and no other. */
  lemma UpdatePgscan(d: VmemData, x: U64, c: Counter)
    ensures Get(d.(pgscan := x), c) == if c == Pgscan then x else Get(d, c)
  {
    assert d.(pgscan := x) == Set(d, Pgscan, x);
    GetSet(d, Pgscan, x, c);
  }

  /** The `pgscan` step fills `pgscan` from its components when it is 0 and changes no other counter. */
  lemma FillPgscanGet(d: VmemData, c: Counter)
    ensures Get(FillPgscan(d), c) == Filled(d, Pgscan, c)
  {
    if d.pgscan == 0 {
      SumOfScans(d);
      UpdatePgscan(d, SumOf(d, DirectScans + KswapdScans), c);
    }
  }

  /** The per-zone pgsteal counters summed as the fallback for `pgsteal` sums them. */
  lemma PgstealSum(d: VmemData)
    ensures SumOf(d, StealZones) == Add(Add(d.pgstealDma, d.pgstealHigh), d.pgstealNormal)
  {
    SumOf3(d, PgstealDma, PgstealHigh, PgstealNormal);
  }

  /** Storing into `pgsteal` changes that counter and no other. */
  lemma UpdatePgsteal(d: VmemData, x: U64, c: Counter)
    ensures Get(d.(pgsteal := x), c) == if c == Pgsteal then x else Get(d, c)
  {
    assert d.(pgsteal := x) == Set(d, Pgsteal, x);
    GetSet(d, Pgsteal, x, c);
  }

  /** The `pgsteal` step fills `pgsteal` from its components when it is 0 and changes no other counter. */
  lemma FillPgstealGet(d: VmemData, c: Counter)
    ensures Get(FillPgsteal(d), c) == Filled(d, Pgsteal, c)
  {
    if d.pgsteal == 0 {
      PgstealSum(d);
      UpdatePgsteal(d, SumOf(d, StealZones), c);
    }
  }

  /** Two records that agree on every counter outside the aggregates. */
  ghost predicate SameComponents(d: VmemData, e: VmemData)
  {
    forall c :: !IsAggregate(c) ==> Get(d, c) == Get(e, c)
  }

  /** Records that agree outside the aggregates give every aggregate the same component sum. */
  lemma SameComponentSums(d: VmemData, e: VmemData, a: Counter)
    requires IsAggregate(a) && SameComponents(d, e)
    ensures SumOf(d, Components(a)) == SumOf(e, Components(a))
  {
    var cs := Components(a);
    forall i | 0 <= i < |cs|
      ensures Get(d, cs[i]) == Get(e, cs[i])
    {
      ComponentsOther(a, i);
    }
    SumOfAgree(d, e, cs);
  }

  /** The fill steps leave every counter outside the aggregates as it was. */
  lemma FallbackOther(d: VmemData, c: Counter)
    requires !IsAggregate(c)
    ensures Get(FillPgalloc(d), c) == Get(d, c)
    ensures Get(FillPgrefill(FillPgalloc(d)), c) == Get(d, c)
    ensures Get(FillPgscan(FillPgrefill(FillPgalloc(d))), c) == Get(d, c)
    ensures Get(Fallback(d), c) == Get(d, c)
  {
    var d1 := FillPgalloc(d);
    var d2 := FillPgrefill(d1);
    var d3 := FillPgscan(d2);
    FillPgallocGet(d, c);
    FillPgrefillGet(d1, c);
    FillPgscanGet(d2, c);
    FillPgstealGet(d3, c);
  }

  /** The records between the fill steps agree with the input outside the aggregates. */
  lemma FallbackSteps(d: VmemData)
    ensures SameComponents(FillPgalloc(d), d)
    ensures SameComponents(FillPgrefill(FillPgalloc(d)), d)
    ensures SameComponents(FillPgscan(FillPgrefill(FillPgalloc(d))), d)
  {
    forall x | !IsAggregate(x)
      ensures Get(FillPgalloc(d), x) == Get(d, x)
      ensures Get(FillPgrefill(FillPgalloc(d)), x) == Get(d, x)
      ensures Get(FillPgscan(FillPgrefill(FillPgalloc(d))), x) == Get(d, x)
    {
      FallbackOther(d, x);
    }
  }

  /** The fallback fills an aggregate that is 0 with the sum of its components and changes nothing else. */
  lemma FallbackGet(d: VmemData, c: Counter)
    ensures Get(Fallback(d), c)
         == if IsAggregate(c) && Get(d, c) == 0 then SumOf(d, Components(c)) else Get(d, c)
  {
    if !IsAggregate(c) {
      FallbackOther(d, c);
    } else {
      var d1 := FillPgalloc(d);
      var d2 := FillPgrefill(d1);
      var d3 := FillPgscan(d2);
      FillPgallocGet(d, c);
      FillPgrefillGet(d1, c);
      FillPgscanGet(d2, c);
      FillPgstealGet(d3, c);
      FallbackSteps(d);
      if c.Pgrefill? {
        SameComponentSums(d1, d, c);
      } else if c.Pgscan? {
        SameComponentSums(d2, d, c);
      } else if c.Pgsteal? {
        SameComponentSums(d3, d, c);
      }
    }
  }

  /** The number the vmstat lines give for aggregate `a`: the last one with its key, or 0 without one. */
  function Reported(lines: seq<Assignment>, a: Counter): U64
  {
    match LastValue(lines, Key(a))
    case Some(v) => v
    case None => 0
  }

  /** A counter other than the four aggregates ends a read with the value of its last vmstat line, or keeps its old value. */
  lemma ReadOther(d: VmemData, lines: seq<Assignment>, c: Counter)
    requires !IsAggregate(c)
    ensures Get(AfterRead(d, lines), c) == Parsed(d, lines, c)
  {
    ParseGet(Reset(d), lines, c);
    ResetGet(d, c);
    FallbackGet(Parse(Reset(d), lines), c);
  }

  /**
   * An aggregate ends a read with the non-zero number the vmstat lines give
   * for it, or else with the wrapped sum of its components as the lines left
   * them. What it held before the read plays no part.
   */
  lemma ReadAggregate(d: VmemData, lines: seq<Assignment>, a: Counter)
    requires IsAggregate(a)
    ensures Get(AfterRead(d, lines), a)
         == if Reported(lines, a) != 0 then Reported(lines, a) else SumOf(Parse(d, lines), Components(a))
  {
    var p := Parse(Reset(d), lines);
    ParseGet(Reset(d), lines, a);
    ResetGet(d, a);
    FallbackGet(p, a);
    var cs := Components(a);
    forall i | 0 <= i < |cs|
      ensures Get(p, cs[i]) == Get(Parse(d, lines), cs[i])
    {
      ComponentsOther(a, i);
      ParseGet(Reset(d), lines, cs[i]);
      ResetGet(d, cs[i]);
      ParseGet(d, lines, cs[i]);
    }
    SumOfAgree(p, Parse(d, lines), cs);
  }

  /**
   * A read depends on the old record only through the counters outside the
   * four aggregates: whatever the aggregates held before, they are cleared.
   */
  lemma ReadForgetsAggregates(d: VmemData, e: VmemData, lines: seq<Assignment>, c: Counter)
    requires SameComponents(d, e)
    ensures Get(AfterRead(d, lines), c) == Get(AfterRead(e, lines), c)
  {
    if IsAggregate(c) {
      ReadAggregate(d, lines, c);
      ReadAggregate(e, lines, c);
      var cs := Components(c);
      forall i | 0 <= i < |cs|
        ensures Get(Parse(d, lines), cs[i]) == Get(Parse(e, lines), cs[i])
      {
        ComponentsOther(c, i);
        ParseGet(d, lines, cs[i]);
        ParseGet(e, lines, cs[i]);
      }
      SumOfAgree(Parse(d, lines), Parse(e, lines), cs);
    } else {
      ReadOther(d, lines, c);
      ReadOther(e, lines, c);
    }
  }

  /** Reading the same vmstat lines a second time leaves every counter as the first read left it. */
  lemma ReadTwice(d: VmemData, lines: seq<Assignment>, c: Counter)
    ensures Get(AfterRead(AfterRead(d, lines), lines), c) == Get(AfterRead(d, lines), c)
  {
    var r := AfterRead(d, lines);
    if IsAggregate(c) {
      ReadAggregate(r, lines, c);
      ReadAggregate(d, lines, c);
      var cs := Components(c);
      forall i | 0 <= i < |cs|
        ensures Get(Parse(r, lines), cs[i]) == Get(Parse(d, lines), cs[i])
      {
        ComponentsOther(c, i);
        ParseGet(r, lines, cs[i]);
        ParseGet(d, lines, cs[i]);
        ReadOther(d, lines, cs[i]);
      }
      SumOfAgree(Parse(r, lines), Parse(d, lines), cs);
    } else {
      ReadOther(r, lines, c);
      ReadOther(d, lines, c);
    }
  }

  /** The counters that have a `proc_vmem_get_<name>` accessor (lib/vminfo.c:233-241). */
  predicate HasGetter(c: Counter)
  {
    c.Pgalloc? || c.Pgfault? || c.Pgfree? || c.Pgmajfault? || c.Pgrefill?
    || c.Pgscan? || c.Pgsteal? || c.Pswpin? || c.Pswpout?
  }

  /** `proc_vmem_get_<name>`: 0 for a null handle, otherwise the counter stored in the handle. */
  function GetCounter(p: Vmem?, c: Counter): (r: U64)
    requires HasGetter(c)
    requires p != null ==> !p.freed
    reads p
    ensures p == null ==> r == 0
    ensures p != null ==> r == Get(p.data, c)
  {
    if p == null then 0 else Get(p.data, c)
  }

  /** `proc_vmem_get_pgscand`: the direct-reclaim scans of the three zones, 0 for a null handle. */
  function GetPgscand(p: Vmem?): (r: U64)
    requires p != null ==> !p.freed
    reads p
    ensures p == null ==> r == 0
    ensures p != null ==> r == SumOf(p.data, DirectScans)
  {
    if p == null then 0
    else
      var d := p.data;
      DirectScansSum(d);
      Add(Add(d.pgscanDirectDma, d.pgscanDirectHigh), d.pgscanDirectNormal)
  }

  /** `proc_vmem_get_pgscank`: the kswapd scans of the three zones, 0 for a null handle. */
  function GetPgscank(p: Vmem?): (r: U64)
    requires p != null ==> !p.freed
    reads p
    ensures p == null ==> r == 0
    ensures p != null ==> r == SumOf(p.data, KswapdScans)
  {
    if p == null then 0
    else
      var d := p.data;
      KswapdScansSum(d);
      Add(Add(d.pgscanKswapdDma, d.pgscanKswapdHigh), d.pgscanKswapdNormal)
  }

  /**
   * When the vmstat lines give no non-zero `pgscan`, the `pgscan` a read
   * leaves is the direct-reclaim scans plus the kswapd scans of the record
   * the read leaves.
   */
  lemma ReadPgscanSplit(d: VmemData, lines: seq<Assignment>)
    requires Reported(lines, Pgscan) == 0
    ensures Get(AfterRead(d, lines), Pgscan)
         == Add(SumOf(AfterRead(d, lines), DirectScans), SumOf(AfterRead(d, lines), KswapdScans))
  {
    var r := AfterRead(d, lines);
    ReadAggregate(d, lines, Pgscan);
    FallbackGet(Parse(Reset(d), lines), Pgscan);
    ParseGet(Reset(d), lines, Pgscan);
    ResetGet(d, Pgscan);
    var cs := Components(Pgscan);
    forall i | 0 <= i < |cs|
      ensures Get(Parse(Reset(d), lines), cs[i]) == Get(r, cs[i])
    {
      ComponentsOther(Pgscan, i);
      FallbackGet(Parse(Reset(d), lines), cs[i]);
    }
    SumOfAgree(Parse(Reset(d), lines), r, cs);
    PgscanSplit(r);
  }

  /** The same through the accessors: `proc_vmem_get_pgscan` returns `proc_vmem_get_pgscand` plus `proc_vmem_get_pgscank`. */
  lemma PgscanIsScandPlusScank(p: Vmem, d: VmemData, lines: seq<Assignment>)
    requires !p.freed && Reported(lines, Pgscan) == 0
    ensures p.data == AfterRead(d, lines) ==> GetCounter(p, Pgscan) == Add(GetPgscand(p), GetPgscank(p))
  {
    ReadPgscanSplit(d, lines);
  }
}
