# vminfo: the virtual-memory statistics store, in Dafny

This project models `lib/vminfo.c` of nagios-plugins-linux, the library that
the memory and swap checks use to read the kernel's virtual-memory counters.
It proves properties of the model. The parts modelled are:

- **The record and the key table** (`counters.dfy`, `vmstat_table.dfy`).
  - `struct proc_vmem_data` holds 43 `unsigned long` counters. Here it is the
    datatype `VmemData`, and a `Counter` value names one of its fields.
  - Counters are the newtype `U64`. C's `+` on them wraps modulo 2^64, which
    `Add` writes out.
  - The table of `proc_vmem_read` pairs each vmstat key with the field that
    receives it. It is proved to be a bijection between the 43 keys and the
    43 fields.
- **The scan of the vmstat table** (`proc_parser.dfy`).
  - `procparser` is not part of this model. What it hands on is taken to be
    the vmstat lines as (key, value) pairs, in file order.
  - Each pair is stored through the key table. A key the table does not know
    is skipped.
- **The handle and the read** (`vminfo.dfy`).
  - `struct proc_vmem` is the class `Vmem`, which holds a reference count and
    the record it owns. `New` allocates a handle; `Unref` and `Read` change
    one in place, as the C functions do.
  - `Read` does three things in order:
    1. It clears the four legacy aggregates: `pgalloc`, `pgrefill`, `pgscan`
       and `pgsteal`.
    2. It stores the vmstat lines.
    3. It fills each aggregate that is still 0 with the wrapped sum of its
       per-zone components.
  - `AfterRead` is the function `Read` is proved against. The lemmas beside it
    state the following:
    - what each counter holds after a read;
    - that the old aggregates never survive a read;
    - that reading the same lines twice changes nothing;
    - that a filled `pgscan` is `pgscand + pgscank`.
  - The accessors are functions over the handle.
- **The `/proc/stat` readers** (`proc_stat.dfy`).
  - `/proc/stat` is given as its lines, each already classified: a `page` or
    `swap` line from which both numbers were read, or any other line.
  - `Scan` is the `fgets`/`sscanf` loop that stops at the first matching line.
  - `proc_vmem_get_pgpgin`, `proc_vmem_get_pgpgout` and
    `proc_vmem_get_swap_io` are methods built on `Scan`, each with its
    fallback to the vmstat values.

Calls to `plugin_error`, which end the process, become the `Err` results of
`GetSwapIo`. The outcomes of the `calloc` and `fopen` calls are inputs:
booleans for the allocations, and `None` for a `/proc/stat` that cannot be
opened.

## Model

| member | source | states |
|---|---|---|
| Counters.Get | lib/vminfo.c:44-94 | Definition: reads the field of `struct proc_vmem_data` that a counter names. Its behaviour under stores is stated by `GetSet`. |
| Counters.Set | lib/vminfo.c:44-94 | Definition: stores a value into the field a counter names, as the table's `&data->vm_*` pointers do. `GetSetSame`, `GetSetOther` and `GetSet` state that only that field changes. |
| Counters.Add | lib/vminfo.c:192-208 | The sum of two `unsigned long` counters is their mathematical sum reduced modulo 2^64. |
| Counters.Zero | lib/vminfo.c:115 | The record that `calloc` returns holds 0 in every counter. |
| Counters.GetSetSame | lib/vminfo.c:44-94 | Storing `v` into a field of the record makes that field read `v`. |
| Counters.GetSetOther | lib/vminfo.c:44-94 | Storing into one field leaves every other field of the record unchanged. |
| Counters.GetSet | lib/vminfo.c:44-94 | A store changes exactly the field it names: the new value there, the old value everywhere else. |
| VmstatTable.KeyAt | lib/vminfo.c:137-181 | Definition: the key string of entry `i` of `vmem_table`, in the table's order. `KeysDistinct` and `FindKey` state its properties. |
| VmstatTable.CounterAt | lib/vminfo.c:137-181 | Definition: the field that entry `i` of `vmem_table` points to. `CountersDistinct` and `EntryPos` state its properties. |
| VmstatTable.Lookup | lib/vminfo.c:137-183 | Definition: the counter a vmstat key is routed to, found by searching the table from its first entry. `LookupIff` states that it inverts `Key`. |
| VmstatTable.Pos | lib/vminfo.c:137-181 | Every counter field of the record has an entry in the key table. |
| VmstatTable.Find | lib/vminfo.c:137-183 | A key search over the table returns an entry holding that key, or reports that no entry holds it. |
| VmstatTable.FindFirst | lib/vminfo.c:137-183 | A search stops at the first entry whose key matches. |
| VmstatTable.EntryPos | lib/vminfo.c:137-181 | The counter of entry `i` has its entry at `i`, so no field appears in two entries. |
| VmstatTable.FindKey | lib/vminfo.c:137-181 | The search for a field's key finds that field's own entry, so no earlier entry has the same key. |
| VmstatTable.LookupIff | lib/vminfo.c:137-181 | A key is routed to a counter if and only if it is that counter's key: the table is a bijection between its 43 keys and the 43 fields. |
| VmstatTable.KeysDistinct | lib/vminfo.c:137-181 | No two entries of the table share a key. |
| VmstatTable.CountersDistinct | lib/vminfo.c:137-181 | No two entries of the table point to the same field. |
| ProcParser.Route | lib/vminfo.c:137-190 | Definition: one vmstat line stored through the table; an unknown key changes nothing. `RouteGet` states its effect. |
| ProcParser.Parse | lib/vminfo.c:190 | Definition: the vmstat lines stored one after another, in file order. `ParseGet` and `ParseAbsent` state its effect. |
| ProcParser.LastValue | lib/vminfo.c:190 | There is no last value for a key exactly when no vmstat line carries it. Otherwise the value is the number on a line with that key, and no later line carries the key. |
| ProcParser.RouteGet | lib/vminfo.c:190 | Storing one vmstat line changes exactly the counter its key names, which then holds the line's number. A line with an unknown key changes nothing. |
| ProcParser.ParseGet | lib/vminfo.c:190 | After the scan, each counter holds the number on the last line with its key, or keeps its old value if no line has that key. |
| ProcParser.ParseAbsent | lib/vminfo.c:190 | A counter whose key appears on no line is left as it was. |
| VmInfo.Vmem.constructor | lib/vminfo.c:110-115 | A new handle holds one reference and a record of zeros. |
| VmInfo.New | lib/vminfo.c:105-124 | `proc_vmem_new` returns 0 with a new handle (refcount 1, all counters 0) when both allocations succeed. Otherwise it returns `-ENOMEM` and publishes no handle. |
| VmInfo.Unref | lib/vminfo.c:214-227 | `proc_vmem_unref` returns null for null. Otherwise it lowers the refcount by one and returns the same handle while references remain. It frees the handle and returns null when the last reference goes. The record is not touched. |
| VmInfo.Read | lib/vminfo.c:130-209 | `proc_vmem_read` leaves the record equal to `AfterRead` of the old record and the vmstat lines: reset, then scan, then fallback sums. The refcount is not touched and a null handle is left alone. |
| VmInfo.Reset | lib/vminfo.c:185-188 | Definition: the four aggregate counters set to 0. `ResetGet` states its effect. |
| VmInfo.FillPgalloc | lib/vminfo.c:192-194 | Definition: the `pgalloc` fallback statement. `FillPgallocGet` states its effect. |
| VmInfo.FillPgrefill | lib/vminfo.c:196-199 | Definition: the `pgrefill` fallback statement. `FillPgrefillGet` states its effect. |
| VmInfo.FillPgscan | lib/vminfo.c:201-204 | Definition: the `pgscan` fallback statement, with its six terms summed left to right. `FillPgscanGet` and `SumOfScans` state its effect. |
| VmInfo.FillPgsteal | lib/vminfo.c:206-208 | Definition: the `pgsteal` fallback statement. `FillPgstealGet` states its effect. |
| VmInfo.Fallback | lib/vminfo.c:192-208 | Definition: the four fallback statements in the code's order. `FallbackGet` states their combined effect. |
| VmInfo.AfterRead | lib/vminfo.c:185-208 | Definition: the record after `proc_vmem_read`: reset, then the vmstat scan, then the fallback. `ReadOther`, `ReadAggregate`, `ReadForgetsAggregates` and `ReadTwice` state what it holds. |
| VmInfo.ResetGet | lib/vminfo.c:185-188 | The reset zeroes the four aggregates and keeps every other counter. |
| VmInfo.FillPgallocGet | lib/vminfo.c:192-194 | A `pgalloc` of 0 becomes the sum of the three `pgalloc_*` zones; no other counter changes. |
| VmInfo.FillPgrefillGet | lib/vminfo.c:196-199 | A `pgrefill` of 0 becomes the sum of the three `pgrefill_*` zones; no other counter changes. |
| VmInfo.FillPgscanGet | lib/vminfo.c:201-204 | A `pgscan` of 0 becomes the sum of the six `pgscan_direct_*` and `pgscan_kswapd_*` counters; no other counter changes. |
| VmInfo.FillPgstealGet | lib/vminfo.c:206-208 | A `pgsteal` of 0 becomes the sum of the three `pgsteal_*` zones; no other counter changes. |
| VmInfo.SumOfScans | lib/vminfo.c:201-204 | The six-term left-to-right sum of the code is the sum over the direct-reclaim scans followed by the kswapd scans. |
| VmInfo.FallbackGet | lib/vminfo.c:192-208 | Taken together, the four fallback statements fill each aggregate that is 0 with the sum of its components, and change nothing else. |
| VmInfo.SumOfWraps | lib/vminfo.c:192-208 | Each fallback sum equals the true sum of the counters reduced modulo 2^64. |
| VmInfo.ReadOther | lib/vminfo.c:185-208 | After a read, a counter other than the aggregates holds its last vmstat value, or keeps its old value when no line has its key. |
| VmInfo.ReadAggregate | lib/vminfo.c:185-208 | After a read, an aggregate holds the non-zero value the vmstat lines give it. Without one, it holds the sum of its components as the scan left them; the direct value is never added to the components. |
| VmInfo.ReadForgetsAggregates | lib/vminfo.c:185-188 | Two records that differ only in their aggregates give the same counters after a read: an aggregate's old value never survives. |
| VmInfo.ReadTwice | lib/vminfo.c:130-209 | Reading the same vmstat lines a second time leaves every counter as the first read left it. |
| VmInfo.GetCounter | lib/vminfo.c:229-241 | Each `proc_vmem_get_<field>` returns 0 for a null handle, and otherwise the field stored in the handle. |
| VmInfo.GetPgscand | lib/vminfo.c:289-295 | 0 for a null handle; otherwise the wrapped sum of the three direct-reclaim scan counters. |
| VmInfo.GetPgscank | lib/vminfo.c:297-303 | 0 for a null handle; otherwise the wrapped sum of the three kswapd scan counters. |
| VmInfo.PgscanSplit | lib/vminfo.c:201-204 | The `pgscan` fallback sum is the direct-reclaim sum plus the kswapd sum, modulo 2^64. |
| VmInfo.ReadPgscanSplit | lib/vminfo.c:201-204 | After a read in which the vmstat lines give no non-zero `pgscan`, `pgscan` equals the direct-reclaim scans plus the kswapd scans, modulo 2^64. |
| VmInfo.PgscanIsScandPlusScank | lib/vminfo.c:201-204 | After a read in which the vmstat lines give no non-zero `pgscan`, `proc_vmem_get_pgscan` returns `proc_vmem_get_pgscand` plus `proc_vmem_get_pgscank`. |
| ProcStat.FirstPair | lib/vminfo.c:253-260 | Definition: the two numbers of the first line matching a marker, if there is one. `FirstPairIsFirst` and `FirstPairNone` state its meaning. |
| ProcStat.FirstPairIsFirst | lib/vminfo.c:253-260 | The scan result is the pair from the matching line before which no line matches. |
| ProcStat.FirstPairNone | lib/vminfo.c:253-260 | The scan finds nothing exactly when no line matches. |
| ProcStat.Scan | lib/vminfo.c:253-260 | The `fgets`/`sscanf` loop reports a match exactly when one exists, and then returns the two numbers of the first matching line. |
| ProcStat.Narrow | lib/vminfo.c:243 | Definition: the conversion of an `unsigned long` to the `unsigned` return type. `NarrowKeepsSmall` states when it keeps a count. |
| ProcStat.GetPgpginWide | lib/vminfo.c:243-264 | The count the code finds is the first number of the first `page` line. Without a `page` line it is the `pgpgin` stored in the handle, which must then exist. |
| ProcStat.GetPgpgoutWide | lib/vminfo.c:266-287 | The count the code finds is the second number of the first `page` line, or else the handle's `pgpgout`. |
| ProcStat.GetPgpgin | lib/vminfo.c:243-264 | `proc_vmem_get_pgpgin` as written returns that count reduced to its low 32 bits. |
| ProcStat.GetPgpgout | lib/vminfo.c:266-287 | `proc_vmem_get_pgpgout` as written returns that count reduced to its low 32 bits. |
| ProcStat.PgpginTruncates | lib/vminfo.c:243 | A `page` line carrying 2^32 pages paged in is the first `page` line, and the narrowed result is 0. |
| ProcStat.PgpgoutTruncates | lib/vminfo.c:266 | A `page` line carrying 2^32 pages paged out is the first `page` line, and the narrowed result is 0. |
| ProcStat.PgpginTruncatedCall | lib/vminfo.c:243-264 | Calling `GetPgpgin` with no handle on the `/proc/stat` line `page 4294967296 0` returns 0. |
| ProcStat.PgpgoutTruncatedCall | lib/vminfo.c:266-287 | Calling `GetPgpgout` with no handle on the `/proc/stat` line `page 0 4294967296` returns 0. |
| ProcStat.NarrowKeepsSmall | lib/vminfo.c:243 | The narrowing keeps a count exactly when the count is below 2^32. |
| ProcStat.SwapFromVmstat | lib/vminfo.c:332-339 | Definition: the `pswpin` and `pswpout` of a new, zeroed handle after one read. `SwapFromVmstatLines` states what they are. |
| ProcStat.FreshRead | lib/vminfo.c:332-339 | In a new handle after one read, a counter other than the aggregates holds its last vmstat value, or 0. |
| ProcStat.SwapFromVmstatLines | lib/vminfo.c:330-342 | The fallback swap counts are the last `pswpin` and `pswpout` vmstat values, 0 for a key with no line. |
| ProcStat.GetSwapIo | lib/vminfo.c:309-343 | Results by case: <br>• `/proc/stat` cannot be opened: the not-mounted error. <br>• `/proc/stat` has a `swap` line: the numbers of the first one, and no handle is created. <br>• Otherwise, if allocation fails: the memory error with `-ENOMEM`. <br>• Otherwise: the `pswpin`/`pswpout` of a new handle read from the vmstat lines. That handle ends freed with refcount 0. <br>A handle is created exactly in this last case, and it is a new object. |

## Left out

- `get_vmem_pagesize` (lib/vminfo.c:38-42) is a call to `sysconf`, so there is nothing to model.
- File I/O is not modelled: `fopen`, `fgets`, `fclose` and the static 2048-byte line buffers.
  - The vmstat table enters as a sequence of (key, value) pairs and `/proc/stat` as a sequence of classified lines.
  - How `sscanf` classifies a line of text is not modelled. This includes leniencies such as `page` followed by no space, or a negative number that `%lu` wraps. A line that yields only one number counts as a non-matching line; its partial write into the outputs is always overwritten later.
- `procparser` (declared in `procparser.h`) is not part of this model. Its effect is assumed to be the following:
  - Each line's key is matched against the table, and the first entry with that key receives the line's number.
  - Later lines overwrite earlier ones.
  - Malformed numbers, overlong lines and the choice of delimiter are outside the model.
- `GetPgpgin` and `GetPgpgout`: the path where `fopen` fails is not modelled. The code sets its flag and then reads from a null `FILE *` (lib/vminfo.c:250-253 and 273-276), so the model assumes the file opened. In `GetSwapIo` the same failure is the `ProcNotMounted` error.
- GetPgpgin, GetPgpgout, GetPgpginWide and GetPgpgoutWide require a handle when `/proc/stat` has no `page` line. With a null handle there, the code dereferences NULL (lib/vminfo.c:263 and 286), and the model does not describe that crash.
- `GetPgpgin` and `GetPgpgout` read the `pgpgin`/`pgpgout` already stored in the handle. They do not read the vmstat table themselves, so a caller that has not called `proc_vmem_read` gets zeros. The model keeps this behaviour.
- Sharing a handle: the code has no function that adds a reference. Its refcount only starts at 1 and goes down, and the model follows the code.
- The per-zone counters are not reset by `proc_vmem_read`. A component missing from a later vmstat table keeps its earlier value and enters the fallback sum; `ReadOther` states this as the code does it.
- Freeing is modelled by the ghost flag `Vmem.freed`, not by deallocation. Calling a method on a freed handle is excluded by precondition.
- `GetSwapIo`: `plugin_error` ends the process. Here it is an `Err` result, and the output parameters keep no value.
- lib/container.c is not part of this model. It is a libcurl client for the Docker socket, unrelated to the statistics store.

## Findings

| source | as written | input that shows it | evidently intended | confidence | as-written member | corrected member |
|---|---|---|---|---|---|---|
| lib/vminfo.c:243 | `proc_vmem_get_pgpgin` returns `unsigned`, so the `unsigned long` page count loses everything above its low 32 bits | `/proc/stat` holding the line `page 4294967296 0`: the result is 0 | return `unsigned long`, like every other accessor, so the whole count reaches the caller | medium, not executed | ProcStat.GetPgpgin, ProcStat.PgpginTruncates, ProcStat.PgpginTruncatedCall | ProcStat.GetPgpginWide |
| lib/vminfo.c:266 | `proc_vmem_get_pgpgout` returns `unsigned`, so the page-out count is likewise cut to 32 bits | `/proc/stat` holding the line `page 0 4294967296`: the result is 0 | return `unsigned long` | medium, not executed | ProcStat.GetPgpgout, ProcStat.PgpgoutTruncates, ProcStat.PgpgoutTruncatedCall | ProcStat.GetPgpgoutWide |
