/**
 * The effect of `procparser` on the record (lib/vminfo.c:190). The scanner's
 * own code is not part of this model: what it hands on is taken to be the
 * sequence of (key, value) pairs it read from the vmstat table, in file order,
 * and each pair is stored through the key table.
 */
module ProcParser {
  import opened Counters
  import opened VmstatTable
  import opened Wrappers

  /** One line of the vmstat table as the scanner reports it: its leading key and its number. */
  datatype Assignment = Assignment(key: string, value: U64)

  /** Stores one line: into the counter its key names, or nowhere when the table does not know the key. */
  function Route(d: VmemData, a: Assignment): VmemData
  {
    match Lookup(a.key)
    case None => d
    case Some(c) => Set(d, c, a.value)
  }

  /** Stores every line, first to last. */
  function Parse(d: VmemData, lines: seq<Assignment>): VmemData
    decreases |lines|
  {
    if lines == [] then d else Parse(Route(d, lines[0]), lines[1..])
  }

  /** The number on the last line whose key is `k`, if there is such a line. */
  function LastValue(lines: seq<Assignment>, k: string): (r: Option<U64>)
    decreases |lines|
    ensures r.None? <==> forall i :: 0 <= i < |lines| ==> lines[i].key != k
    ensures r.Some? ==> exists i :: 0 <= i < |lines| && lines[i] == Assignment(k, r.value)
                                 && forall j :: i < j < |lines| ==> lines[j].key != k
  {
    if lines == [] then None
    else
      match LastValue(lines[1..], k)
      case Some(v) =>
        assert forall i :: 1 <= i < |lines| ==> lines[i] == lines[1..][i - 1];
        Some(v)
      case None =>
        assert forall i :: 1 <= i < |lines| ==> lines[i].key == lines[1..][i - 1].key;
        if lines[0].key == k then Some(lines[0].value) else None
  }

  /**
   * What counter `c` holds after the lines are stored into `d`: the number on
   * the last line with its key, or its value in `d` when no line has that key.
   */
  function Parsed(d: VmemData, lines: seq<Assignment>, c: Counter): U64
  {
    match LastValue(lines, Key(c))
    case Some(v) => v
    case None => Get(d, c)
  }

  /**
   * Storing one line changes at most one counter: the one whose key the line
   * carries, which then holds the line's number. A line whose key is not in
   * the table changes nothing.
   */
  lemma RouteGet(d: VmemData, a: Assignment, c: Counter)
    ensures Get(Route(d, a), c) == if a.key == Key(c) then a.value else Get(d, c)
  {
    LookupIff(a.key, c);
    match Lookup(a.key)
    case None =>
    case Some(c') =>
      LookupIff(a.key, c');
      GetSet(d, c', a.value, c);
  }

  /** After the scan, every counter holds the value of the last line with its key, or its old value. */
  lemma {:induction false} ParseGet(d: VmemData, lines: seq<Assignment>, c: Counter)
    ensures Get(Parse(d, lines), c) == Parsed(d, lines, c)
    decreases |lines|
  {
    if lines != [] {
      var d' := Route(d, lines[0]);
      ParseGet(d', lines[1..], c);
      RouteGet(d, lines[0], c);
    }
  }

  /** A scan in which no line carries the key of `c` leaves `c` as it was. */
  lemma ParseAbsent(d: VmemData, lines: seq<Assignment>, c: Counter)
    requires forall i :: 0 <= i < |lines| ==> lines[i].key != Key(c)
    ensures Get(Parse(d, lines), c) == Get(d, c)
  {
    ParseGet(d, lines, c);
  }
}
