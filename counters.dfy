/**
 * The virtual-memory statistics record of lib/vminfo.c (`struct proc_vmem_data`):
 * 43 `unsigned long` counters, one per statistic the kernel reports in its
 * vmstat table, and the identifiers through which the key table addresses them.
 */
module Counters {

  /** 2^64: every counter is an `unsigned long` of a 64-bit Linux host. */
  const WORD: int := 0x1_0000_0000_0000_0000

  /** An `unsigned long`. */
  newtype U64 = x: int | 0 <= x < WORD

  /** C's `+` on two `unsigned long` values, which wraps modulo 2^64. */
  function Add(a: U64, b: U64): (r: U64)
    ensures r as int == (a as int + b as int) % WORD
  {
    var s := a as int + b as int;
    if s < WORD then s as U64 else (s - WORD) as U64
  }

  /**
   * Names one field of the record. The key table (lib/vminfo.c:137-181)
   * holds the address of a field; here it holds one of these identifiers,
   * and Get and Set resolve it to the field.
   */
  datatype Counter =
    | NrDirty | NrWriteback | NrPagecache | NrPageTablePages
    | NrReverseMaps | NrMapped | NrSlab | Pgpgin
    | Pgpgout | Pswpin | Pswpout | Pgalloc
    | Pgfree | Pgactivate | Pgdeactivate | Pgfault
    | Pgmajfault | Pgscan | Pgrefill | Pgsteal
    | KswapdSteal | Pageoutrun | Allocstall | Pgrotated
    | PgallocDma | PgallocHigh | PgallocNormal | PgrefillDma
    | PgrefillHigh | PgrefillNormal | PgscanDirectDma | PgscanDirectHigh
    | PgscanDirectNormal | PgscanKswapdDma | PgscanKswapdHigh | PgscanKswapdNormal
    | PgstealDma | PgstealHigh | PgstealNormal | KswapdInodesteal
    | NrUnstable | Pginodesteal | SlabsScanned

  /** `struct proc_vmem_data`, fields in declaration order. */
  datatype VmemData = VmemData(
    nrDirty: U64,
    nrWriteback: U64,
    nrPagecache: U64,
    nrPageTablePages: U64,
    nrReverseMaps: U64,
    nrMapped: U64,
    nrSlab: U64,
    pgpgin: U64,
    pgpgout: U64,
    pswpin: U64,
    pswpout: U64,
    pgalloc: U64,
    pgfree: U64,
    pgactivate: U64,
    pgdeactivate: U64,
    pgfault: U64,
    pgmajfault: U64,
    pgscan: U64,
    pgrefill: U64,
    pgsteal: U64,
    kswapdSteal: U64,
    pageoutrun: U64,
    allocstall: U64,
    pgrotated: U64,
    pgallocDma: U64,
    pgallocHigh: U64,
    pgallocNormal: U64,
    pgrefillDma: U64,
    pgrefillHigh: U64,
    pgrefillNormal: U64,
    pgscanDirectDma: U64,
    pgscanDirectHigh: U64,
    pgscanDirectNormal: U64,
    pgscanKswapdDma: U64,
    pgscanKswapdHigh: U64,
    pgscanKswapdNormal: U64,
    pgstealDma: U64,
    pgstealHigh: U64,
    pgstealNormal: U64,
    kswapdInodesteal: U64,
    nrUnstable: U64,
    pginodesteal: U64,
    slabsScanned: U64
  )

  /** The record as `calloc` returns it: every counter 0. */
  function Zero(): (d: VmemData)
    ensures forall c :: Get(d, c) == 0
  {
    VmemData(0, 0, 0, 0, 0, 0, 0, 0, 0, 0, 0, 0, 0, 0, 0, 0, 0, 0, 0, 0, 0, 0, 0, 0, 0, 0, 0, 0, 0, 0, 0, 0, 0, 0, 0, 0, 0, 0, 0, 0, 0, 0, 0)
  }

  /** The field that `c` names. */
  function Get(d: VmemData, c: Counter): U64
  {
    match c
    case NrDirty => d.nrDirty
    case NrWriteback => d.nrWriteback
    case NrPagecache => d.nrPagecache
    case NrPageTablePages => d.nrPageTablePages
    case NrReverseMaps => d.nrReverseMaps
    case NrMapped => d.nrMapped
    case NrSlab => d.nrSlab
    case Pgpgin => d.pgpgin
    case Pgpgout => d.pgpgout
    case Pswpin => d.pswpin
    case Pswpout => d.pswpout
    case Pgalloc => d.pgalloc
    case Pgfree => d.pgfree
    case Pgactivate => d.pgactivate
    case Pgdeactivate => d.pgdeactivate
    case Pgfault => d.pgfault
    case Pgmajfault => d.pgmajfault
    case Pgscan => d.pgscan
    case Pgrefill => d.pgrefill
    case Pgsteal => d.pgsteal
    case KswapdSteal => d.kswapdSteal
    case Pageoutrun => d.pageoutrun
    case Allocstall => d.allocstall
    case Pgrotated => d.pgrotated
    case PgallocDma => d.pgallocDma
    case PgallocHigh => d.pgallocHigh
    case PgallocNormal => d.pgallocNormal
    case PgrefillDma => d.pgrefillDma
    case PgrefillHigh => d.pgrefillHigh
    case PgrefillNormal => d.pgrefillNormal
    case PgscanDirectDma => d.pgscanDirectDma
    case PgscanDirectHigh => d.pgscanDirectHigh
    case PgscanDirectNormal => d.pgscanDirectNormal
    case PgscanKswapdDma => d.pgscanKswapdDma
    case PgscanKswapdHigh => d.pgscanKswapdHigh
    case PgscanKswapdNormal => d.pgscanKswapdNormal
    case PgstealDma => d.pgstealDma
    case PgstealHigh => d.pgstealHigh
    case PgstealNormal => d.pgstealNormal
    case KswapdInodesteal => d.kswapdInodesteal
    case NrUnstable => d.nrUnstable
    case Pginodesteal => d.pginodesteal
    case SlabsScanned => d.slabsScanned
  }

  /** Stores `v` in the field that `c` names and leaves every other field as it was. */
  function Set(d: VmemData, c: Counter, v: U64): VmemData
  {
    VmemData(
      if c.NrDirty? then v else d.nrDirty,
      if c.NrWriteback? then v else d.nrWriteback,
      if c.NrPagecache? then v else d.nrPagecache,
      if c.NrPageTablePages? then v else d.nrPageTablePages,
      if c.NrReverseMaps? then v else d.nrReverseMaps,
      if c.NrMapped? then v else d.nrMapped,
      if c.NrSlab? then v else d.nrSlab,
      if c.Pgpgin? then v else d.pgpgin,
      if c.Pgpgout? then v else d.pgpgout,
      if c.Pswpin? then v else d.pswpin,
      if c.Pswpout? then v else d.pswpout,
      if c.Pgalloc? then v else d.pgalloc,
      if c.Pgfree? then v else d.pgfree,
      if c.Pgactivate? then v else d.pgactivate,
      if c.Pgdeactivate? then v else d.pgdeactivate,
      if c.Pgfault? then v else d.pgfault,
      if c.Pgmajfault? then v else d.pgmajfault,
      if c.Pgscan? then v else d.pgscan,
      if c.Pgrefill? then v else d.pgrefill,
      if c.Pgsteal? then v else d.pgsteal,
      if c.KswapdSteal? then v else d.kswapdSteal,
      if c.Pageoutrun? then v else d.pageoutrun,
      if c.Allocstall? then v else d.allocstall,
      if c.Pgrotated? then v else d.pgrotated,
      if c.PgallocDma? then v else d.pgallocDma,
      if c.PgallocHigh? then v else d.pgallocHigh,
      if c.PgallocNormal? then v else d.pgallocNormal,
      if c.PgrefillDma? then v else d.pgrefillDma,
      if c.PgrefillHigh? then v else d.pgrefillHigh,
      if c.PgrefillNormal? then v else d.pgrefillNormal,
      if c.PgscanDirectDma? then v else d.pgscanDirectDma,
      if c.PgscanDirectHigh? then v else d.pgscanDirectHigh,
      if c.PgscanDirectNormal? then v else d.pgscanDirectNormal,
      if c.PgscanKswapdDma? then v else d.pgscanKswapdDma,
      if c.PgscanKswapdHigh? then v else d.pgscanKswapdHigh,
      if c.PgscanKswapdNormal? then v else d.pgscanKswapdNormal,
      if c.PgstealDma? then v else d.pgstealDma,
      if c.PgstealHigh? then v else d.pgstealHigh,
      if c.PgstealNormal? then v else d.pgstealNormal,
      if c.KswapdInodesteal? then v else d.kswapdInodesteal,
      if c.NrUnstable? then v else d.nrUnstable,
      if c.Pginodesteal? then v else d.pginodesteal,
      if c.SlabsScanned? then v else d.slabsScanned
    )
  }

  /** A store through the key table puts `v` in the counter it names. */
  lemma GetSetSame(d: VmemData, c: Counter, v: U64)
    ensures Get(Set(d, c, v), c) == v
  {
  }

  /** A store through the key table leaves every other counter as it was. */
  lemma GetSetOther(d: VmemData, c: Counter, v: U64, c': Counter)
    requires c' != c
    ensures Get(Set(d, c, v), c') == Get(d, c')
  {
  }

  /**
   * A store through the key table changes exactly the one counter it names:
   * reading any counter after `Set(d, c, v)` gives `v` for `c` and the old
   * value for every other counter.
   */
  lemma GetSet(d: VmemData, c: Counter, v: U64, c': Counter)
    ensures Get(Set(d, c, v), c') == if c' == c then v else Get(d, c')
  {
    if c' == c {
      GetSetSame(d, c, v);
    } else {
      GetSetOther(d, c, v, c');
    }
  }
}
