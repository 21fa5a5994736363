/**
 * The readers of lib/vminfo.c that look at the kernel's `/proc/stat` first and
 * fall back to the vmstat table: `proc_vmem_get_pgpgin`,
 * `proc_vmem_get_pgpgout` and `proc_vmem_get_swap_io`.
 *
 * The file is given as its lines, each already classified by what
 * `sscanf (buf, "page %lu %lu", ...)` or `sscanf (buf, "swap %lu %lu", ...)`
 * makes of it: a line that yields both numbers for one of the two markers,
 * or any other line.
 */
module ProcStat {
  import opened Counters
  import opened Wrappers
  import opened VmstatTable
  import opened ProcParser
  import opened VmInfo

  /** The leading word the scan looks for: `page` (paged in, paged out) or `swap` (swapped in, swapped out). */
  datatype Marker = Page | Swap

  /** One line of `/proc/stat`: a marker with its two numbers, or a line that does not match either pattern. */
  datatype StatLine = Pair(marker: Marker, first: U64, second: U64) | Other

  /** Whether `sscanf` with the pattern for `m` returns 2 on this line. */
  predicate Matches(line: StatLine, m: Marker)
  {
    line.Pair? && line.marker == m
  }

  /** Line `i` matches `m` and no line before it does. */
  predicate FirstMatchAt(stat: seq<StatLine>, m: Marker, i: nat)
  {
    i < |stat| && Matches(stat[i], m) && forall j :: 0 <= j < i ==> !Matches(stat[j], m)
  }

  /** No line matches `m`. */
  predicate NoMatch(stat: seq<StatLine>, m: Marker)
  {
    forall j :: 0 <= j < |stat| ==> !Matches(stat[j], m)
  }

  /** The two numbers of the first line that matches `m`, if any line does. */
  function FirstPair(stat: seq<StatLine>, m: Marker): Option<(U64, U64)>
    decreases |stat|
  {
    if stat == [] then None
    else if Matches(stat[0], m) then Some((stat[0].first, stat[0].second))
    else FirstPair(stat[1..], m)
  }

  /** `FirstPair` answers with the numbers of the matching line before which no line matches. */
  lemma {:induction false} FirstPairIsFirst(stat: seq<StatLine>, m: Marker, i: nat)
    requires FirstMatchAt(stat, m, i)
    ensures FirstPair(stat, m) == Some((stat[i].first, stat[i].second))
    decreases i
  {
    if i > 0 {
      assert !Matches(stat[0], m);
      FirstPairIsFirst(stat[1..], m, i - 1);
    }
  }

  /** No matching line, no pair. */
  lemma {:induction false} FirstPairNone(stat: seq<StatLine>, m: Marker)
    ensures FirstPair(stat, m).None? <==> NoMatch(stat, m)
    decreases |stat|
  {
    if stat != [] {
      FirstPairNone(stat[1..], m);
      assert forall j :: 1 <= j < |stat| ==> stat[j] == stat[1..][j - 1];
    }
  }

  /**
   * The `while (fgets ...)` loop the three readers share: it reads lines until
   * one matches `m` and stops there.
   */
  method Scan(stat: seq<StatLine>, m: Marker) returns (found: bool, first: U64, second: U64)
    ensures found <==> FirstPair(stat, m).Some?
    ensures found ==> FirstPair(stat, m) == Some((first, second))
  {
    found, first, second := false, 0, 0;
    var i := 0;
    while i < |stat|
      invariant 0 <= i <= |stat|
      invariant FirstPair(stat[i..], m) == FirstPair(stat, m)
    {
      var line := stat[i];
      if Matches(line, m) {
        assert FirstPair(stat[i..], m) == Some((line.first, line.second));
        found, first, second := true, line.first, line.second;
        break;
      }
      assert stat[i..][1..] == stat[i + 1..];
      i := i + 1;
    }
    if !found {
      assert stat[i..] == [];
    }
  }

  /** 2^32: the range of the `unsigned` that `proc_vmem_get_pgpgin` and `proc_vmem_get_pgpgout` return. */
  const WORD32: int := 0x1_0000_0000

  /** An `unsigned int`. */
  newtype U32 = x: int | 0 <= x < WORD32

  /** The conversion of an `unsigned long` to `unsigned`, which keeps the low 32 bits. */
  function Narrow(x: U64): U32
  {
    (x as int % WORD32) as U32
  }

  /**
   * The count `proc_vmem_get_pgpgin` finds, before it is returned: the first
   * number of the first `page` line, or the handle's `pgpgin` when there is
   * no such line. Without a `page` line the handle is dereferenced, so it
   * must then exist.
   */
  method GetPgpginWide(vmem: Vmem?, stat: seq<StatLine>) returns (r: U64)
    requires vmem != null ==> !vmem.freed
    requires vmem == null ==> !NoMatch(stat, Page)
    ensures forall i: nat :: FirstMatchAt(stat, Page, i) ==> r == stat[i].first
    ensures NoMatch(stat, Page) ==> vmem != null && r == vmem.data.pgpgin
  {
    var found, pgpgin, pgpgout := Scan(stat, Page);
    FirstPairNone(stat, Page);
    forall i: nat | FirstMatchAt(stat, Page, i)
      ensures FirstPair(stat, Page) == Some((stat[i].first, stat[i].second))
    {
      FirstPairIsFirst(stat, Page, i);
    }
    if found {
      r := pgpgin;
    } else {
      r := vmem.data.pgpgin;
    }
  }

  /** The count `proc_vmem_get_pgpgout` finds: the second number of the first `page` line, or the handle's `pgpgout`. */
  method GetPgpgoutWide(vmem: Vmem?, stat: seq<StatLine>) returns (r: U64)
    requires vmem != null ==> !vmem.freed
    requires vmem == null ==> !NoMatch(stat, Page)
    ensures forall i: nat :: FirstMatchAt(stat, Page, i) ==> r == stat[i].second
    ensures NoMatch(stat, Page) ==> vmem != null && r == vmem.data.pgpgout
  {
    var found, pgpgin, pgpgout := Scan(stat, Page);
    FirstPairNone(stat, Page);
    forall i: nat | FirstMatchAt(stat, Page, i)
      ensures FirstPair(stat, Page) == Some((stat[i].first, stat[i].second))
    {
      FirstPairIsFirst(stat, Page, i);
    }
    if found {
      r := pgpgout;
    } else {
      r := vmem.data.pgpgout;
    }
  }

  /**
   * `proc_vmem_get_pgpgin` as written: the `unsigned long` count is returned
   * through an `unsigned` result and so loses all but its low 32 bits.
   */
  method GetPgpgin(vmem: Vmem?, stat: seq<StatLine>) returns (r: U32)
    requires vmem != null ==> !vmem.freed
    requires vmem == null ==> !NoMatch(stat, Page)
    ensures forall i: nat :: FirstMatchAt(stat, Page, i) ==> r == Narrow(stat[i].first)
    ensures NoMatch(stat, Page) ==> vmem != null && r == Narrow(vmem.data.pgpgin)
  {
    var count := GetPgpginWide(vmem, stat);
    r := Narrow(count);
  }

  /** `proc_vmem_get_pgpgout` as written, narrowed to `unsigned` like `GetPgpgin`. */
  method GetPgpgout(vmem: Vmem?, stat: seq<StatLine>) returns (r: U32)
    requires vmem != null ==> !vmem.freed
    requires vmem == null ==> !NoMatch(stat, Page)
    ensures forall i: nat :: FirstMatchAt(stat, Page, i) ==> r == Narrow(stat[i].second)
    ensures NoMatch(stat, Page) ==> vmem != null && r == Narrow(vmem.data.pgpgout)
  {
    var count := GetPgpgoutWide(vmem, stat);
    r := Narrow(count);
  }

  /**
   * The narrowing loses counts: for `/proc/stat` holding the single line
   * `page 4294967296 0`, that line is the first `page` line, so `GetPgpgin`
   * returns 0 while the kernel reported 2^32 pages.
   */
  lemma PgpginTruncates()
    ensures FirstMatchAt([Pair(Page, 0x1_0000_0000, 0)], Page, 0)
    ensures Narrow(0x1_0000_0000) == 0
  {
  }

  /** The same loss for pages paged out, with the line `page 0 4294967296`. */
  lemma PgpgoutTruncates()
    ensures FirstMatchAt([Pair(Page, 0, 0x1_0000_0000)], Page, 0)
    ensures Narrow(0x1_0000_0000) == 0
  {
  }

  /** The call itself: with no handle and the line `page 4294967296 0`, `GetPgpgin` answers 0. */
  method PgpginTruncatedCall() returns (r: U32)
    ensures r == 0
  {
    PgpginTruncates();
    r := GetPgpgin(null, [Pair(Page, 0x1_0000_0000, 0)]);
  }

  /** With the line `page 0 4294967296`, `GetPgpgout` answers 0. */
  method PgpgoutTruncatedCall() returns (r: U32)
    ensures r == 0
  {
    PgpgoutTruncates();
    r := GetPgpgout(null, [Pair(Page, 0, 0x1_0000_0000)]);
  }

  /** Below 2^32 the narrowing keeps the count: the two results differ only for counts of 2^32 or more. */
  lemma NarrowKeepsSmall(x: U64)
    ensures Narrow(x) as int == x as int <==> x as int < WORD32
  {
  }

  /** Why `proc_vmem_get_swap_io` gives up: `/proc/stat` could not be opened, or `proc_vmem_new` failed with `err`. */
  datatype Failure = ProcNotMounted | MemoryExhausted(err: int)

  /** The swap counts that a fresh handle holds after one read of the vmstat `lines`. */
  function SwapFromVmstat(lines: seq<Assignment>): (U64, U64)
  {
    var d := AfterRead(Zero(), lines);
    (Get(d, Pswpin), Get(d, Pswpout))
  }

  /**
   * A counter outside the aggregates, read into a fresh handle, holds the
   * number on the last vmstat line with its key, or 0 without one.
   */
  lemma FreshRead(lines: seq<Assignment>, c: Counter)
    requires !IsAggregate(c)
    ensures Get(AfterRead(Zero(), lines), c) == match LastValue(lines, Key(c)) case Some(v) => v case None => 0
  {
    ReadOther(Zero(), lines, c);
  }

  /**
   * The fallback of `proc_vmem_get_swap_io` takes `pswpin` and `pswpout` from
   * the last vmstat lines with those keys, and 0 for a key with no line.
   */
  lemma SwapFromVmstatLines(lines: seq<Assignment>)
    ensures SwapFromVmstat(lines).0 == match LastValue(lines, "pswpin") case Some(v) => v case None => 0
    ensures SwapFromVmstat(lines).1 == match LastValue(lines, "pswpout") case Some(v) => v case None => 0
  {
    assert Key(Pswpin) == "pswpin";
    assert Key(Pswpout) == "pswpout";
    FreshRead(lines, Pswpin);
    FreshRead(lines, Pswpout);
  }

  /**
   * `proc_vmem_get_swap_io`. `stat` is None when `/proc/stat` cannot be
   * opened; the two booleans are the outcomes of the allocations in
   * `proc_vmem_new`. A `swap` line in `/proc/stat` gives the two counts;
   * without one, a new handle is read from the vmstat `lines`, its `pswpin`
   * and `pswpout` are taken and the handle is released. The `plugin_error`
   * exits become the `Err` results.
   */
  method GetSwapIo(stat: Option<seq<StatLine>>, lines: seq<Assignment>,
                   handleAllocated: bool, recordAllocated: bool)
    returns (res: Result<(U64, U64), Failure>, ghost handle: Vmem?)
    ensures stat.None? ==> res == Err(ProcNotMounted)
    ensures stat.Some? && FirstPair(stat.value, Swap).Some? ==> res == Ok(FirstPair(stat.value, Swap).value)
    ensures stat.Some? && FirstPair(stat.value, Swap).None? ==>
              res == if handleAllocated && recordAllocated then Ok(SwapFromVmstat(lines))
                     else Err(MemoryExhausted(-ENOMEM))
    ensures handle != null <==> stat.Some? && FirstPair(stat.value, Swap).None? && handleAllocated && recordAllocated
    ensures handle != null ==> fresh(handle) && handle.freed && handle.refcount == 0
  {
    handle := null;
    if stat.None? {
      return Err(ProcNotMounted), handle;
    }
    var found, pswpin, pswpout := Scan(stat.value, Swap);
    if found {
      return Ok((pswpin, pswpout)), handle;
    }
    var err, vmem := New(handleAllocated, recordAllocated);
    if err < 0 {
      return Err(MemoryExhausted(err)), handle;
    }
    Read(vmem, lines);
    pswpin := GetCounter(vmem, Pswpin);
    pswpout := GetCounter(vmem, Pswpout);
    var _ := Unref(vmem);
    handle := vmem;
    return Ok((pswpin, pswpout)), handle;
  }
}
