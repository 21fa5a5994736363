/**
 * The key table of `proc_vmem_read` (lib/vminfo.c:137-181): 43 entries, each
 * the name under which the kernel's vmstat table reports a statistic and the
 * counter of the record that receives it, and the linear search that resolves
 * a key against it.
 *
 * Entry `i` of the table is `(KeyAt(i), CounterAt(i))`; the two columns are
 * written as two functions so that facts about one column do not drag the
 * other into the proof.
 */
module VmstatTable {
  import opened Counters
  import opened Wrappers

  /** The number of entries, `vmem_table_count` (lib/vminfo.c:182-183). */
  const Size: nat := 43

  /** The key column of the table, entries in source order. */
  function KeyAt(i: nat): string
    requires i < Size
  {
    match i
    case 0 => "allocstall"
    case 1 => "kswapd_inodesteal"
    case 2 => "kswapd_steal"
    case 3 => "nr_dirty"
    case 4 => "nr_mapped"
    case 5 => "nr_page_table_pages"
    case 6 => "nr_pagecache"
    case 7 => "nr_reverse_maps"
    case 8 => "nr_slab"
    case 9 => "nr_unstable"
    case 10 => "nr_writeback"
    case 11 => "pageoutrun"
    case 12 => "pgactivate"
    case 13 => "pgalloc"
    case 14 => "pgalloc_dma"
    case 15 => "pgalloc_high"
    case 16 => "pgalloc_normal"
    case 17 => "pgdeactivate"
    case 18 => "pgfault"
    case 19 => "pgfree"
    case 20 => "pginodesteal"
    case 21 => "pgmajfault"
    case 22 => "pgpgin"
    case 23 => "pgpgout"
    case 24 => "pgrefill"
    case 25 => "pgrefill_dma"
    case 26 => "pgrefill_high"
    case 27 => "pgrefill_normal"
    case 28 => "pgrotated"
    case 29 => "pgscan"
    case 30 => "pgscan_direct_dma"
    case 31 => "pgscan_direct_high"
    case 32 => "pgscan_direct_normal"
    case 33 => "pgscan_kswapd_dma"
    case 34 => "pgscan_kswapd_high"
    case 35 => "pgscan_kswapd_normal"
    case 36 => "pgsteal"
    case 37 => "pgsteal_dma"
    case 38 => "pgsteal_high"
    case 39 => "pgsteal_normal"
    case 40 => "pswpin"
    case 41 => "pswpout"
    case 42 => "slabs_scanned"
    case _ => ""
  }

  /** The slot column of the table: the counter entry `i` stores into. */
  function CounterAt(i: nat): Counter
    requires i < Size
  {
    match i
    case 0 => Allocstall
    case 1 => KswapdInodesteal
    case 2 => KswapdSteal
    case 3 => NrDirty
    case 4 => NrMapped
    case 5 => NrPageTablePages
    case 6 => NrPagecache
    case 7 => NrReverseMaps
    case 8 => NrSlab
    case 9 => NrUnstable
    case 10 => NrWriteback
    case 11 => Pageoutrun
    case 12 => Pgactivate
    case 13 => Pgalloc
    case 14 => PgallocDma
    case 15 => PgallocHigh
    case 16 => PgallocNormal
    case 17 => Pgdeactivate
    case 18 => Pgfault
    case 19 => Pgfree
    case 20 => Pginodesteal
    case 21 => Pgmajfault
    case 22 => Pgpgin
    case 23 => Pgpgout
    case 24 => Pgrefill
    case 25 => PgrefillDma
    case 26 => PgrefillHigh
    case 27 => PgrefillNormal
    case 28 => Pgrotated
    case 29 => Pgscan
    case 30 => PgscanDirectDma
    case 31 => PgscanDirectHigh
    case 32 => PgscanDirectNormal
    case 33 => PgscanKswapdDma
    case 34 => PgscanKswapdHigh
    case 35 => PgscanKswapdNormal
    case 36 => Pgsteal
    case 37 => PgstealDma
    case 38 => PgstealHigh
    case 39 => PgstealNormal
    case 40 => Pswpin
    case 41 => Pswpout
    case 42 => SlabsScanned
    case _ => Allocstall
  }

  /** The position of the entry for `c`: every counter has an entry. */
  function Pos(c: Counter): (i: nat)
    ensures i < Size && CounterAt(i) == c
  {
    match c
    case Allocstall => 0
    case KswapdInodesteal => 1
    case KswapdSteal => 2
    case NrDirty => 3
    case NrMapped => 4
    case NrPageTablePages => 5
    case NrPagecache => 6
    case NrReverseMaps => 7
    case NrSlab => 8
    case NrUnstable => 9
    case NrWriteback => 10
    case Pageoutrun => 11
    case Pgactivate => 12
    case Pgalloc => 13
    case PgallocDma => 14
    case PgallocHigh => 15
    case PgallocNormal => 16
    case Pgdeactivate => 17
    case Pgfault => 18
    case Pgfree => 19
    case Pginodesteal => 20
    case Pgmajfault => 21
    case Pgpgin => 22
    case Pgpgout => 23
    case Pgrefill => 24
    case PgrefillDma => 25
    case PgrefillHigh => 26
    case PgrefillNormal => 27
    case Pgrotated => 28
    case Pgscan => 29
    case PgscanDirectDma => 30
    case PgscanDirectHigh => 31
    case PgscanDirectNormal => 32
    case PgscanKswapdDma => 33
    case PgscanKswapdHigh => 34
    case PgscanKswapdNormal => 35
    case Pgsteal => 36
    case PgstealDma => 37
    case PgstealHigh => 38
    case PgstealNormal => 39
    case Pswpin => 40
    case Pswpout => 41
    case SlabsScanned => 42
  }

  /** The text key under which the kernel reports counter `c`. */
  function Key(c: Counter): string
  {
    KeyAt(Pos(c))
  }

  /** The first entry at or after position `i` whose key is `k`, if any. */
  function Find(k: string, i: nat): (r: Option<nat>)
    decreases Size - i
    ensures r.Some? ==> i <= r.value < Size && KeyAt(r.value) == k
    ensures r.None? ==> forall j :: i <= j < Size ==> KeyAt(j) != k
  {
    if i >= Size then None
    else if KeyAt(i) == k then Some(i)
    else Find(k, i + 1)
  }

  /** The counter that a vmstat line with key `k` is stored into, if the table knows `k`. */
  function Lookup(k: string): Option<Counter>
  {
    match Find(k, 0)
    case None => None
    case Some(i) => Some(CounterAt(i))
  }

  /** A search from `i` stops at the first entry whose key is `k`. */
  lemma {:induction false} FindFirst(k: string, i: nat, j: nat)
    requires i <= j < Size && KeyAt(j) == k
    requires forall m :: i <= m < j ==> KeyAt(m) != k
    ensures Find(k, i) == Some(j)
    decreases j - i
  {
    if i < j {
      FindFirst(k, i + 1, j);
    }
  }

  // EntryPos and FindKey are proved a range of entries at a time.

  lemma EntryPosA(i: nat)
    requires 0 <= i < 11
    ensures Pos(CounterAt(i)) == i
  {
    match i
    case 0 =>
    case 1 =>
    case 2 =>
    case 3 =>
    case 4 =>
    case 5 =>
    case 6 =>
    case 7 =>
    case 8 =>
    case 9 =>
    case 10 =>
    case _ =>
  }

  lemma EntryPosB(i: nat)
    requires 11 <= i < 22
    ensures Pos(CounterAt(i)) == i
  {
    match i
    case 11 =>
    case 12 =>
    case 13 =>
    case 14 =>
    case 15 =>
    case 16 =>
    case 17 =>
    case 18 =>
    case 19 =>
    case 20 =>
    case 21 =>
    case _ =>
  }

  lemma EntryPosC(i: nat)
    requires 22 <= i < 33
    ensures Pos(CounterAt(i)) == i
  {
    match i
    case 22 =>
    case 23 =>
    case 24 =>
    case 25 =>
    case 26 =>
    case 27 =>
    case 28 =>
    case 29 =>
    case 30 =>
    case 31 =>
    case 32 =>
    case _ =>
  }

  lemma EntryPosD(i: nat)
    requires 33 <= i < 43
    ensures Pos(CounterAt(i)) == i
  {
    match i
    case 33 =>
    case 34 =>
    case 35 =>
    case 36 =>
    case 37 =>
    case 38 =>
    case 39 =>
    case 40 =>
    case 41 =>
    case 42 =>
    case _ =>
  }

  lemma FindKeyA(c: Counter)
    requires 0 <= Pos(c) < 12
    ensures Find(Key(c), 0) == Some(Pos(c))
  {
    match c
    case Allocstall => FindFirst(Key(c), 0, 0);
    case KswapdInodesteal => FindFirst(Key(c), 0, 1);
    case KswapdSteal => FindFirst(Key(c), 0, 2);
    case NrDirty => FindFirst(Key(c), 0, 3);
    case NrMapped => FindFirst(Key(c), 0, 4);
    case NrPageTablePages => FindFirst(Key(c), 0, 5);
    case NrPagecache => FindFirst(Key(c), 0, 6);
    case NrReverseMaps => FindFirst(Key(c), 0, 7);
    case NrSlab => FindFirst(Key(c), 0, 8);
    case NrUnstable => FindFirst(Key(c), 0, 9);
    case NrWriteback => FindFirst(Key(c), 0, 10);
    case Pageoutrun => FindFirst(Key(c), 0, 11);
    case _ =>
  }

  lemma FindKeyB(c: Counter)
    requires 12 <= Pos(c) < 20
    ensures Find(Key(c), 0) == Some(Pos(c))
  {
    match c
    case Pgactivate => FindFirst(Key(c), 0, 12);
    case Pgalloc => FindFirst(Key(c), 0, 13);
    case PgallocDma => FindFirst(Key(c), 0, 14);
    case PgallocHigh => FindFirst(Key(c), 0, 15);
    case PgallocNormal => FindFirst(Key(c), 0, 16);
    case Pgdeactivate => FindFirst(Key(c), 0, 17);
    case Pgfault => FindFirst(Key(c), 0, 18);
    case Pgfree => FindFirst(Key(c), 0, 19);
    case _ =>
  }

  lemma FindKeyC(c: Counter)
    requires 20 <= Pos(c) < 27
    ensures Find(Key(c), 0) == Some(Pos(c))
  {
    match c
    case Pginodesteal => FindFirst(Key(c), 0, 20);
    case Pgmajfault => FindFirst(Key(c), 0, 21);
    case Pgpgin => FindFirst(Key(c), 0, 22);
    case Pgpgout => FindFirst(Key(c), 0, 23);
    case Pgrefill => FindFirst(Key(c), 0, 24);
    case PgrefillDma => FindFirst(Key(c), 0, 25);
    case PgrefillHigh => FindFirst(Key(c), 0, 26);
    case _ =>
  }

  lemma FindKeyD(c: Counter)
    requires 27 <= Pos(c) < 33
    ensures Find(Key(c), 0) == Some(Pos(c))
  {
    match c
    case PgrefillNormal => FindFirst(Key(c), 0, 27);
    case Pgrotated => FindFirst(Key(c), 0, 28);
    case Pgscan => FindFirst(Key(c), 0, 29);
    case PgscanDirectDma => FindFirst(Key(c), 0, 30);
    case PgscanDirectHigh => FindFirst(Key(c), 0, 31);
    case PgscanDirectNormal => FindFirst(Key(c), 0, 32);
    case _ =>
  }

  lemma FindKeyE(c: Counter)
    requires 33 <= Pos(c) < 37
    ensures Find(Key(c), 0) == Some(Pos(c))
  {
    match c
    case PgscanKswapdDma => FindFirst(Key(c), 0, 33);
    case PgscanKswapdHigh => FindFirst(Key(c), 0, 34);
    case PgscanKswapdNormal => FindFirst(Key(c), 0, 35);
    case Pgsteal => FindFirst(Key(c), 0, 36);
    case _ =>
  }

  lemma FindKeyF(c: Counter)
    requires 37 <= Pos(c) < 40
    ensures Find(Key(c), 0) == Some(Pos(c))
  {
    match c
    case PgstealDma => FindFirst(Key(c), 0, 37);
    case PgstealHigh => FindFirst(Key(c), 0, 38);
    case PgstealNormal => FindFirst(Key(c), 0, 39);
    case _ =>
  }

  lemma FindKeyG(c: Counter)
    requires 40 <= Pos(c) < 43
    ensures Find(Key(c), 0) == Some(Pos(c))
  {
    match c
    case Pswpin => FindFirst(Key(c), 0, 40);
    case Pswpout => FindFirst(Key(c), 0, 41);
    case SlabsScanned => FindFirst(Key(c), 0, 42);
    case _ =>
  }

  /** Entry `i` holds the counter whose entry is `i`: no counter has two entries. */
  lemma EntryPos(i: nat)
    requires i < Size
    ensures Pos(CounterAt(i)) == i
  {
    if i < 11 {
      EntryPosA(i);
    } else if i < 22 {
      EntryPosB(i);
    } else if i < 33 {
      EntryPosC(i);
    } else {
      EntryPosD(i);
    }
  }

  /** The search for the key of `c` stops at the entry of `c`: no earlier entry has that key. */
  lemma FindKey(c: Counter)
    ensures Find(Key(c), 0) == Some(Pos(c))
  {
    var i := Pos(c);
    if i < 12 {
      FindKeyA(c);
    } else if i < 20 {
      FindKeyB(c);
    } else if i < 27 {
      FindKeyC(c);
    } else if i < 33 {
      FindKeyD(c);
    } else if i < 37 {
      FindKeyE(c);
    } else if i < 40 {
      FindKeyF(c);
    } else {
      FindKeyG(c);
    }
  }

  /** The table is a bijection between keys and counters (lib/vminfo.c:137-181). */
  lemma {:induction false} LookupIff(k: string, c: Counter)
    ensures Lookup(k) == Some(c) <==> k == Key(c)
  {
    FindKey(c);
    match Find(k, 0)
    case None =>
    case Some(i) =>
      EntryPos(i);
  }

  /** No two entries share a key. */
  lemma KeysDistinct(i: nat, j: nat)
    requires i < Size && j < Size
    requires KeyAt(i) == KeyAt(j)
    ensures i == j
  {
    EntryPos(i);
    EntryPos(j);
    FindKey(CounterAt(i));
    FindKey(CounterAt(j));
  }

  /** No two entries share a counter. */
  lemma CountersDistinct(i: nat, j: nat)
    requires i < Size && j < Size
    requires CounterAt(i) == CounterAt(j)
    ensures i == j
  {
    EntryPos(i);
    EntryPos(j);
  }
}
