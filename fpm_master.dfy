/** The search for the real php-fpm master (`OpenraspAgentManager::search_fpm_master_pid`)
    over a process table. Reading `/proc` is outside the model: the table is given as
    the entries the directory scan returned, in scan order, with the first line of
    each entry's `stat` and `cmdline` files. */
module FpmMaster {
  import opened Common

  /** One entry of `/proc` as the scan saw it. `isDir` is the scan's filter (the entry
      could be stat'ed and is a directory); `statLine` is `None` when `stat` cannot be
      accessed; `cmdline` is empty when it cannot be read. */
  datatype ProcEntry = ProcEntry(name: string, isDir: bool, statLine: Option<string>, cmdline: string)

  const MasterSignature := "php-fpm: master process"

  predicate StartsWith(s: string, prefix: string) {
    |prefix| <= |s| && s[..|prefix|] == prefix
  }

  // ---------------------------------------------------------------------------
  // std::getline(stream, item, ' ') over a string stream

  /** What is left to read, and whether the stream is still good (no eof/fail bit). */
  datatype Stream = Stream(rest: string, good: bool)

  /** Index of the first space, or the length when there is none. */
  function SpaceIndex(s: string): (k: nat)
    ensures k <= |s|
    ensures forall j :: 0 <= j < k ==> s[j] != ' '
    ensures k < |s| ==> s[k] == ' '
  {
    if s == [] || s[0] == ' ' then 0 else 1 + SpaceIndex(s[1..])
  }

  /** One `getline` call: a stream that is no longer good leaves `item` untouched;
      otherwise `item` becomes the text up to the next space, which is consumed, or
      the whole remainder, after which the stream has hit its end. */
  function Getline(st: Stream, item: string): (r: (Stream, string))
    ensures !st.good ==> r == (st, item)
    ensures st.good ==> r.1 + (if r.0.good then " " + r.0.rest else "") == st.rest
    ensures st.good ==> ' ' !in r.1
  {
    if !st.good then (st, item)
    else
      var k := SpaceIndex(st.rest);
      if k < |st.rest| then
        assert st.rest == st.rest[..k] + " " + st.rest[k + 1..];
        (Stream(st.rest[k + 1..], true), st.rest[..k])
      else
        (Stream("", false), st.rest)
  }

  /** Reading `line` against a space delimiter: a field without spaces followed by a
      space is returned whole and the stream stays good. */
  lemma {:induction false} SpaceIndexOfField(field: string, rest: string)
    requires ' ' !in field
    ensures SpaceIndex(field + " " + rest) == |field|
  {
    if field != [] {
      assert (field + " " + rest)[1..] == field[1..] + " " + rest;
      SpaceIndexOfField(field[1..], rest);
    }
  }

  lemma GetlineField(field: string, rest: string, item: string)
    requires ' ' !in field
    ensures Getline(Stream(field + " " + rest, true), item) == (Stream(rest, true), field)
  {
    SpaceIndexOfField(field, rest);
    var s := field + " " + rest;
    assert s[..|field|] == field;
    assert s[|field| + 1..] == rest;
  }

  // ---------------------------------------------------------------------------
  // atoi

  predicate IsDigit(c: char) { '0' <= c <= '9' }

  /** The characters C's `isspace` accepts in the "C" locale. */
  predicate IsSpace(c: char) {
    c == ' ' || c == '\t' || c == '\n' || c == '\U{0B}' || c == '\U{0C}' || c == '\r'
  }

  function SkipSpaces(s: string): (t: string)
    ensures |t| <= |s| && t == s[|s| - |t|..]
    ensures t != [] ==> !IsSpace(t[0])
    ensures forall i :: 0 <= i < |s| - |t| ==> IsSpace(s[i])
  {
    if s != [] && IsSpace(s[0]) then SkipSpaces(s[1..]) else s
  }

  /** The longest prefix made of decimal digits. */
  function DigitRun(s: string): (d: string)
    ensures |d| <= |s| && d == s[..|d|]
    ensures forall i :: 0 <= i < |d| ==> IsDigit(d[i])
    ensures |d| < |s| ==> !IsDigit(s[|d|])
  {
    if s != [] && IsDigit(s[0]) then [s[0]] + DigitRun(s[1..]) else []
  }

  function DecimalValue(d: string): nat
    requires forall i :: 0 <= i < |d| ==> IsDigit(d[i])
  {
    if d == [] then 0
    else
      assert IsDigit(d[|d| - 1]);
      DecimalValue(d[..|d| - 1]) * 10 + (d[|d| - 1] as int - '0' as int)
  }

  /** `std::atoi`: leading white space, an optional sign, then as many digits as follow;
      anything else yields 0. Integer overflow (undefined in C) is not modelled. */
  function Atoi(s: string): (r: int)
    // Only a leading minus sign gives a negative value.
    ensures r < 0 ==> SkipSpaces(s) != [] && SkipSpaces(s)[0] == '-'
    // Input that starts with neither a digit nor a sign, after the white space, reads as 0.
    ensures SkipSpaces(s) == [] || !(IsDigit(SkipSpaces(s)[0]) || SkipSpaces(s)[0] in "+-") ==> r == 0
  {
    var t := SkipSpaces(s);
    if t != [] && (t[0] == '-' || t[0] == '+') then
      var v: int := DecimalValue(DigitRun(t[1..]));
      if t[0] == '-' then -v else v
    else
      DecimalValue(DigitRun(t))
  }

  /** The decimal rendering of a pid, as `/proc` names directories and writes fields. */
  function Decimal(n: nat): (s: string)
    ensures s != []
    ensures forall i :: 0 <= i < |s| ==> IsDigit(s[i])
  {
    var c := ('0' as int + n % 10) as char;
    if n < 10 then [c] else Decimal(n / 10) + [c]
  }

  lemma {:induction false} DecimalValueOfDecimal(n: nat)
    ensures DecimalValue(Decimal(n)) == n
  {
    if n >= 10 {
      DecimalValueOfDecimal(n / 10);
      var s := Decimal(n);
      assert s[..|s| - 1] == Decimal(n / 10);
    }
  }

  lemma {:induction false} DigitRunOfDigits(d: string)
    requires forall i :: 0 <= i < |d| ==> IsDigit(d[i])
    ensures DigitRun(d) == d
  {
    if d != [] {
      DigitRunOfDigits(d[1..]);
    }
  }

  /** Round trip: `atoi` reads back every rendered pid. */
  lemma AtoiOfDecimal(n: nat)
    ensures Atoi(Decimal(n)) == n
  {
    var s := Decimal(n);
    assert !IsSpace(s[0]) && s[0] != '-' && s[0] != '+';
    assert SkipSpaces(s) == s;
    DigitRunOfDigits(s);
    DecimalValueOfDecimal(n);
  }

  // ---------------------------------------------------------------------------
  // The search

  /** Whether the source accepts `e` as the fpm master for the initial pid: a directory
      with a readable, non-empty stat line whose fourth space-separated item parses to
      the initial pid, and whose command line starts with the master's title. */
  predicate IsMasterEntry(e: ProcEntry, initPid: int) {
    && e.isDir
    && e.statLine.Some?
    && e.statLine.value != ""
    && Atoi(FourthItem(e.statLine.value)) == initPid
    && StartsWith(e.cmdline, MasterSignature)
  }

  /** The stream and item after `n` getline calls on `line`, starting from an empty item. */
  function ItemAfter(line: string, n: nat): (r: (Stream, string))
    ensures ' ' !in r.1
  {
    if n == 0 then (Stream(line, true), "") else
      var prev := ItemAfter(line, n - 1);
      Getline(prev.0, prev.1)
  }

  /** The item left after the four getline calls, taken as the parent pid. When the
      line has fewer than four items it is the last item that could be read. */
  function FourthItem(line: string): (item: string)
    ensures ' ' !in item
  {
    ItemAfter(line, 4).1
  }

  /** Four reads on a line made of four space-free fields, each followed by a space,
      leave the fourth field as the item. */
  lemma FourthItemOfFields(line: string, f1: string, f2: string, f3: string, f4: string,
                           r1: string, r2: string, r3: string, r4: string)
    requires ' ' !in f1 && ' ' !in f2 && ' ' !in f3 && ' ' !in f4
    requires line == f1 + " " + r1 && r1 == f2 + " " + r2
    requires r2 == f3 + " " + r3 && r3 == f4 + " " + r4
    ensures FourthItem(line) == f4
  {
    GetlineField(f1, r1, "");
    assert ItemAfter(line, 1) == (Stream(r1, true), f1);
    GetlineField(f2, r2, f1);
    assert ItemAfter(line, 2) == (Stream(r2, true), f2);
    GetlineField(f3, r3, f2);
    assert ItemAfter(line, 3) == (Stream(r3, true), f3);
    GetlineField(f4, r4, f3);
    assert ItemAfter(line, 4) == (Stream(r4, true), f4);
  }

  lemma DecimalHasNoSpace(n: nat)
    ensures ' ' !in Decimal(n)
  {
    var d := Decimal(n);
    forall i | 0 <= i < |d| ensures d[i] != ' ' { assert IsDigit(d[i]); }
  }

  /** On a stat line `pid comm state ppid ...` whose first three items hold no space,
      the parsed parent pid is the fourth field. */
  lemma FourthItemIsPpid(pid: string, comm: string, state: string, ppid: nat, tail: string)
    requires ' ' !in pid && ' ' !in comm && ' ' !in state
    ensures Atoi(FourthItem(pid + " " + comm + " " + state + " " + Decimal(ppid) + " " + tail)) == ppid
  {
    var p := Decimal(ppid);
    DecimalHasNoSpace(ppid);
    var r3 := p + " " + tail;
    var r2 := state + " " + r3;
    var r1 := comm + " " + r2;
    var line := pid + " " + comm + " " + state + " " + p + " " + tail;
    assert line == pid + " " + r1;
    FourthItemOfFields(line, pid, comm, state, p, r1, r2, r3, tail);
    AtoiOfDecimal(ppid);
  }

  /** The pid the source returns: that of the first accepted entry, or 0 when none. */
  function FirstMasterPid(procs: seq<ProcEntry>, initPid: int): int {
    if procs == [] then 0
    else if IsMasterEntry(procs[0], initPid) then Atoi(procs[0].name)
    else FirstMasterPid(procs[1..], initPid)
  }

  /** The first accepted entry in scan order decides the result. */
  lemma {:induction false} FirstMasterPidAt(procs: seq<ProcEntry>, initPid: int, k: nat)
    requires k < |procs| && IsMasterEntry(procs[k], initPid)
    requires forall j :: 0 <= j < k ==> !IsMasterEntry(procs[j], initPid)
    ensures FirstMasterPid(procs, initPid) == Atoi(procs[k].name)
  {
    assert procs[0..] == procs;
    FirstMasterPidFrom(procs, initPid, 0, k);
  }

  /** The scan from entry `i` on, when entry `k` is the first accepted one after it. */
  lemma {:induction false} FirstMasterPidFrom(procs: seq<ProcEntry>, initPid: int, i: nat, k: nat)
    requires i <= k < |procs| && IsMasterEntry(procs[k], initPid)
    requires forall j :: i <= j < k ==> !IsMasterEntry(procs[j], initPid)
    ensures FirstMasterPid(procs[i..], initPid) == Atoi(procs[k].name)
    decreases k - i
  {
    assert procs[i..][0] == procs[i];
    if i < k {
      assert !IsMasterEntry(procs[i], initPid);
      assert procs[i..][1..] == procs[i + 1..];
      FirstMasterPidFrom(procs, initPid, i + 1, k);
    }
  }

  /** With no accepted entry the search yields 0, which the caller reads as "not found". */
  lemma {:induction false} FirstMasterPidNone(procs: seq<ProcEntry>, initPid: int)
    requires forall j :: 0 <= j < |procs| ==> !IsMasterEntry(procs[j], initPid)
    ensures FirstMasterPid(procs, initPid) == 0
  {
    assert procs[0..] == procs;
    FirstMasterPidNoneFrom(procs, initPid, 0);
  }

  /** The scan from entry `i` on, when no entry after it is accepted. */
  lemma {:induction false} FirstMasterPidNoneFrom(procs: seq<ProcEntry>, initPid: int, i: nat)
    requires i <= |procs|
    requires forall j :: i <= j < |procs| ==> !IsMasterEntry(procs[j], initPid)
    ensures FirstMasterPid(procs[i..], initPid) == 0
    decreases |procs| - i
  {
    if i < |procs| {
      assert procs[i..][0] == procs[i];
      assert !IsMasterEntry(procs[i], initPid);
      assert procs[i..][1..] == procs[i + 1..];
      FirstMasterPidNoneFrom(procs, initPid, i + 1);
    }
  }

  /** Index of the first accepted entry, or the table's length when there is none. */
  function MasterIndex(procs: seq<ProcEntry>, initPid: int): (k: nat)
    ensures k <= |procs|
  {
    if procs == [] || IsMasterEntry(procs[0], initPid) then 0
    else 1 + MasterIndex(procs[1..], initPid)
  }

  /** No entry before the first accepted one is accepted. */
  lemma {:induction false} BeforeMasterIndex(procs: seq<ProcEntry>, initPid: int, j: nat)
    requires j < MasterIndex(procs, initPid)
    ensures !IsMasterEntry(procs[j], initPid)
  {
    if j > 0 {
      BeforeMasterIndex(procs[1..], initPid, j - 1);
      assert procs[j] == procs[1..][j - 1];
    }
  }

  /** The entry at the first accepted index is accepted. */
  lemma {:induction false} AtMasterIndex(procs: seq<ProcEntry>, initPid: int)
    requires MasterIndex(procs, initPid) < |procs|
    ensures IsMasterEntry(procs[MasterIndex(procs, initPid)], initPid)
  {
    if !IsMasterEntry(procs[0], initPid) {
      AtMasterIndex(procs[1..], initPid);
      assert procs[MasterIndex(procs, initPid)] == procs[1..][MasterIndex(procs[1..], initPid)];
    }
  }

  /** The scan returns the name of the entry at the first accepted index, or 0. */
  lemma {:induction false} FirstMasterPidByIndex(procs: seq<ProcEntry>, initPid: int)
    ensures FirstMasterPid(procs, initPid) ==
      if MasterIndex(procs, initPid) < |procs| then Atoi(procs[MasterIndex(procs, initPid)].name) else 0
  {
    if procs != [] && !IsMasterEntry(procs[0], initPid) {
      FirstMasterPidByIndex(procs[1..], initPid);
      if MasterIndex(procs, initPid) < |procs| {
        assert procs[MasterIndex(procs, initPid)] == procs[1..][MasterIndex(procs[1..], initPid)];
      }
    }
  }

  lemma {:induction false} MasterIndexSpec(procs: seq<ProcEntry>, initPid: int)
    ensures MasterIndex(procs, initPid) < |procs| ==> IsMasterEntry(procs[MasterIndex(procs, initPid)], initPid)
    ensures forall j :: 0 <= j < MasterIndex(procs, initPid) ==> !IsMasterEntry(procs[j], initPid)
    ensures FirstMasterPid(procs, initPid) ==
      if MasterIndex(procs, initPid) < |procs| then Atoi(procs[MasterIndex(procs, initPid)].name) else 0
  {
    if MasterIndex(procs, initPid) < |procs| {
      AtMasterIndex(procs, initPid);
    }
    forall j | 0 <= j < MasterIndex(procs, initPid)
      ensures !IsMasterEntry(procs[j], initPid)
    {
      BeforeMasterIndex(procs, initPid, j);
    }
    FirstMasterPidByIndex(procs, initPid);
  }

  /** A non-zero result always names an accepted entry, and no earlier entry was accepted. */
  lemma FirstMasterPidWitness(procs: seq<ProcEntry>, initPid: int)
    requires FirstMasterPid(procs, initPid) != 0
    ensures exists k :: (0 <= k < |procs| && IsMasterEntry(procs[k], initPid) &&
      Atoi(procs[k].name) == FirstMasterPid(procs, initPid) &&
      forall j :: 0 <= j < k ==> !IsMasterEntry(procs[j], initPid))
  {
    MasterIndexSpec(procs, initPid);
    var k := MasterIndex(procs, initPid);
    assert 0 <= k < |procs| && IsMasterEntry(procs[k], initPid);
  }

  /** A synthetic table: the entry named `pid`, whose stat line gives `initPid` as parent
      and whose title is the master's, is found when no earlier entry is accepted. */
  lemma MasterChildFound(procs: seq<ProcEntry>, initPid: nat, k: nat, pid: nat,
                         comm: string, state: string, tail: string, title: string)
    requires k < |procs| && ' ' !in comm && ' ' !in state
    requires procs[k] == ProcEntry(Decimal(pid), true,
      Some(Decimal(pid) + " " + comm + " " + state + " " + Decimal(initPid) + " " + tail),
      MasterSignature + title)
    requires forall j :: 0 <= j < k ==> !IsMasterEntry(procs[j], initPid)
    ensures FirstMasterPid(procs, initPid) == pid
  {
    var d := Decimal(pid);
    DecimalHasNoSpace(pid);
    FourthItemIsPpid(d, comm, state, initPid, tail);
    assert (MasterSignature + title)[..|MasterSignature|] == MasterSignature;
    assert IsMasterEntry(procs[k], initPid);
    FirstMasterPidAt(procs, initPid, k);
    AtoiOfDecimal(pid);
  }

  /** The four `getline` calls on one stat line, each reading up to the next space. */
  method ReadFourthItem(line: string) returns (item: string)
    ensures item == FourthItem(line)
  {
    var st := Stream(line, true);
    item := "";
    var n := 0;
    while n < 4
      invariant 0 <= n <= 4
      invariant (st, item) == ItemAfter(line, n)
    {
      var next := Getline(st, item);
      st, item := next.0, next.1;
      n := n + 1;
    }
  }

  /** `search_fpm_master_pid`: scans the table in order and returns at the first match. */
  method SearchFpmMasterPid(procs: seq<ProcEntry>, initPid: int) returns (pid: int)
    ensures pid == FirstMasterPid(procs, initPid)
  {
    var i := 0;
    while i < |procs|
      invariant 0 <= i <= |procs|
      invariant FirstMasterPid(procs, initPid) == FirstMasterPid(procs[i..], initPid)
    {
      var e := procs[i];
      assert procs[i..][1..] == procs[i + 1..];
      if e.isDir && e.statLine.Some? && e.statLine.value != "" {
        var item := ReadFourthItem(e.statLine.value);
        var ppid := Atoi(item);
        if ppid == initPid && StartsWith(e.cmdline, MasterSignature) {
          return Atoi(e.name);
        }
      }
      i := i + 1;
    }
    return 0;
  }
}
