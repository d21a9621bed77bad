/** The rotating JSONL log sink: a current file, numbered backups, and failures at any step. */
module LogRotation {
  import opened Common

  type Record = seq<Byte>

  /** A name in the log directory: a regular log file, or something that is not one. */
  datatype Entry = Log(bytes: seq<Byte>) | Other

  /** Index 0 is the current file, index i the i-th backup; `None` where the name is absent. */
  type Files = seq<Option<Entry>>

  predicate IsLog(e: Option<Entry>) {
    e.Some? && e.value.Log?
  }

  /** Some log name is taken by something that is not a log file. */
  predicate HasOther(files: Files) {
    exists i :: 0 <= i < |files| && files[i] == Some(Other)
  }

  function Fault(failed: bool): nat {
    if failed then 1 else 0
  }

  function Content(e: Option<Entry>): seq<Byte> {
    if IsLog(e) then e.value.bytes else []
  }

  /** Reading all files, the oldest backup first. */
  function ReadBack(files: Files): seq<Byte> {
    if files == [] then [] else ReadBack(files[1..]) + Content(files[0])
  }

  predicate IsSuffix(s: seq<Byte>, history: seq<Byte>) {
    |s| <= |history| && history[|history| - |s|..] == s
  }

  /** A moment of the directory: its files, all bytes ever written, and how many records each file has begun. */
  datatype Moment = Moment(files: Files, history: seq<Byte>, begun: seq<nat>)

  /** A file is within the limit unless it holds only one record. */
  ghost predicate SizesBounded(m: Moment, maxBytes: nat) {
    |m.begun| == |m.files| && forall i :: 0 <= i < |m.files| ==> |Content(m.files[i])| <= maxBytes || m.begun[i] <= 1
  }

  ghost predicate Sound(m: Moment, maxBytes: nat, backups: nat) {
    |m.files| == backups + 1 && IsSuffix(ReadBack(m.files), m.history) && SizesBounded(m, maxBytes)
  }

  /* What each step does, and how it changes what is read back. */

  function Removed(files: Files, i: nat): Files
    requires i < |files|
  {
    files[i := None]
  }

  function Moved(files: Files, i: nat): Files
    requires i + 1 < |files|
  {
    files[i := None][i + 1 := files[i]]
  }

  lemma OldestFreed(files: Files, i: nat)
    requires i + 1 == |files| && i > 0
    ensures Rotated(Removed(files, i)) == Rotated(files) && Removed(files, i)[0] == files[0]
    ensures HasOther(Removed(files, i)) ==> HasOther(files)
  {
    if HasOther(Removed(files, i)) {
      var k :| 0 <= k < |files| && Removed(files, i)[k] == Some(Other);
      assert files[k] == Some(Other);
    }
  }

  /** A completed rotation: each file one backup up, the oldest gone. */
  function Rotated(files: Files): Files
    requires files != []
  {
    [None] + files[..|files| - 1]
  }

  /** Part of a rotation without an oldest backup: the names above `i` have moved, `i + 1` is free. */
  function Shifted(files: Files, i: nat): Files
    requires i + 1 < |files|
  {
    files[..i + 1] + [None] + files[i + 1..|files| - 1]
  }

  lemma ShiftStep(files: Files, i: nat)
    requires 0 < i && i + 1 < |files|
    ensures Shifted(files, i)[i] == files[i] && Shifted(files, i)[i + 1] == None
    ensures files[i].None? ==> Shifted(files, i - 1) == Shifted(files, i)
    ensures Shifted(files, i - 1) == Moved(Shifted(files, i), i)
  {
  }

  lemma ShiftEnds(files: Files)
    requires |files| >= 2
    ensures files[|files| - 1].None? ==> Shifted(files, |files| - 2) == files
    ensures Shifted(files, 0)[0] == files[0] && Shifted(files, 0)[1] == None
    ensures Moved(Shifted(files, 0), 0) == Rotated(files)
  {
  }

  /** The files before a line is written: rotated when the line would not fit the current file. */
  function Roomy(files: Files, line: Record, maxBytes: nat): (r: Files)
    requires files != []
    ensures |r| == |files|
  {
    if files[0].Some? && |Content(files[0])| + |line| > maxBytes then Rotated(files) else files
  }

  /** A completed write: the line ends the current file, after a rotation if it would not have fitted. */
  function Written(files: Files, line: Record, maxBytes: nat): Files
    requires files != []
  {
    var room := Roomy(files, line, maxBytes);
    room[0 := Some(Log(Content(room[0]) + line))]
  }

  /** Moving a file one name up, onto an absent name, keeps the reading. */
  lemma {:induction false} ReadBackMoved(files: Files, i: nat)
    requires i + 1 < |files| && files[i + 1].None?
    ensures ReadBack(Moved(files, i)) == ReadBack(files)
  {
    if i == 0 {
      var moved := Moved(files, 0);
      assert moved[1..][1..] == files[1..][1..];
    } else {
      assert Moved(files, i)[1..] == Moved(files[1..], i - 1);
      ReadBackMoved(files[1..], i - 1);
    }
  }

  /** Removing the oldest backup drops a prefix of the reading. */
  lemma {:induction false} ReadBackRemoved(files: Files)
    requires files != []
    ensures ReadBack(files) == Content(files[|files| - 1]) + ReadBack(Removed(files, |files| - 1))
  {
    if |files| == 1 {
      assert files[1..] == [] && Removed(files, 0)[1..] == [];
    } else {
      var tail, removed := files[1..], Removed(files, |files| - 1);
      var last := Content(files[|files| - 1]);
      assert removed[1..] == Removed(tail, |tail| - 1) && removed[0] == files[0];
      assert tail[|tail| - 1] == files[|files| - 1];
      ReadBackRemoved(tail);
      assert ReadBack(files) == ReadBack(tail) + Content(files[0]);
      assert ReadBack(removed) == ReadBack(removed[1..]) + Content(files[0]);
      assert last + ReadBack(removed[1..]) + Content(files[0]) == last + (ReadBack(removed[1..]) + Content(files[0]));
    }
  }

  lemma SuffixAppend(s: seq<Byte>, history: seq<Byte>, data: seq<Byte>)
    requires IsSuffix(s, history)
    ensures IsSuffix(s + data, history + data)
  {
    assert (history + data)[|history| - |s|..] == history[|history| - |s|..] + data;
  }

  lemma SuffixDrop(front: seq<Byte>, s: seq<Byte>, history: seq<Byte>)
    requires IsSuffix(front + s, history)
    ensures IsSuffix(s, history)
  {
    assert s == (front + s)[|front|..];
  }

  lemma MoreWritten(front: seq<Byte>, done: seq<Byte>, view: seq<Byte>, n: nat)
    requires n <= |view|
    ensures front + done + view[..n] == front + (done + view[..n]) && done + view[..n] + view[n..] == done + view
    ensures front + (done + view[..n]) <= front + (done + view)
  {
  }

  /** Appending to the current file appends to the reading. */
  lemma AppendKeepsSuffix(files: Files, history: seq<Byte>, data: seq<Byte>)
    requires files != [] && IsLog(files[0]) && IsSuffix(ReadBack(files), history)
    ensures IsSuffix(ReadBack(files[0 := Some(Log(Content(files[0]) + data))]), history + data)
  {
    var next := files[0 := Some(Log(Content(files[0]) + data))];
    assert next[1..] == files[1..];
    assert ReadBack(next) == ReadBack(files) + data;
    SuffixAppend(ReadBack(files), history, data);
  }

  class Sink {
    const maxBytes: nat
    const backups: nat
    var files: Files
    var disabled: bool
    ghost var history: seq<Byte>
    ghost var begun: seq<nat>
    /** Every moment of the directory, newest last. */
    ghost var trace: seq<Moment>
    /** How many directory and write calls have failed. */
    ghost var faults: nat

    /** At every moment so far the files were a suffix of the history and within their bounds. */
    ghost predicate Valid()
      reads this
    {
      && backups >= 1
      && trace != [] && trace[|trace| - 1] == Moment(files, history, begun)
      && forall k :: 0 <= k < |trace| ==> Sound(trace[k], maxBytes, backups)
    }

    constructor (maxBytes: nat, backups: nat)
      requires backups >= 1
      ensures Valid() && files == Absent(backups + 1) && history == [] && !disabled
      ensures this.maxBytes == maxBytes && this.backups == backups && faults == 0
    {
      this.maxBytes, this.backups, faults := maxBytes, backups, 0;
      files, disabled := Absent(backups + 1), false;
      history, begun := [], seq(backups + 1, i => 0);
      trace := [Moment(Absent(backups + 1), [], seq(backups + 1, i => 0))];
      new;
      AbsentReadsEmpty(backups + 1);
    }

    /* Directory operations; each may fail without effect. */

    method Fail() returns (ok: bool)
      modifies this`faults
      ensures faults == old(faults) + 1 && !ok
    {
      faults := faults + 1;
      ok := false;
    }

    method UnlinkOldest() returns (ok: bool)
      requires Valid() && files[backups].Some?
      modifies this`files, this`trace, this`faults
      ensures Valid() && old(trace) <= trace && faults == old(faults) + Fault(!ok)
      ensures files == if ok then Removed(old(files), backups) else old(files)
    {
      if * {
        ok := Fail();
        return;
      }
      ReadBackRemoved(files);
      SuffixDrop(Content(files[backups]), ReadBack(Removed(files, backups)), history);
      files := Removed(files, backups);
      trace := trace + [Moment(files, history, begun)];
      ok := true;
    }

    /** A rename, only ever onto an absent name. */
    method Rename(i: nat) returns (ok: bool)
      requires Valid() && i < backups && files[i].Some? && files[i + 1].None?
      modifies this`files, this`begun, this`trace, this`faults
      ensures Valid() && old(trace) <= trace && faults == old(faults) + Fault(!ok)
      ensures files == if ok then Moved(old(files), i) else old(files)
    {
      if * {
        ok := Fail();
        return;
      }
      ReadBackMoved(files, i);
      files, begun := Moved(files, i), begun[i + 1 := begun[i]];
      trace := trace + [Moment(files, history, begun)];
      ok := true;
    }

    method Create() returns (ok: bool)
      requires Valid() && files[0].None?
      modifies this`files, this`begun, this`trace, this`faults
      ensures Valid() && old(trace) <= trace && faults == old(faults) + Fault(!ok)
      ensures files == if ok then old(files)[0 := Some(Log([]))] else old(files)
      ensures ok ==> begun[0] == 0
    {
      if * {
        ok := Fail();
        return;
      }
      assert files[0 := Some(Log([]))][1..] == files[1..];
      files, begun := files[0 := Some(Log([]))], begun[0 := 0];
      trace := trace + [Moment(files, history, begun)];
      ok := true;
    }

    /** One `os.write`: it may fail, or accept any positive number of leading bytes. */
    method WriteSome(view: seq<Byte>) returns (n: nat)
      requires Valid() && IsLog(files[0]) && view != []
      requires |Content(files[0])| + |view| <= maxBytes || begun[0] <= 1
      modifies this`files, this`history, this`trace, this`faults
      ensures Valid() && old(trace) <= trace && faults == old(faults) + Fault(n == 0)
      ensures n <= |view| && files == old(files)[0 := Some(Log(Content(old(files)[0]) + view[..n]))]
      ensures history == old(history) + view[..n]
    {
      n :| 0 <= n <= |view|;
      faults := faults + Fault(n == 0);
      if n > 0 {
        AppendKeepsSuffix(files, history, view[..n]);
        files, history := files[0 := Some(Log(Content(files[0]) + view[..n]))], history + view[..n];
        trace := trace + [Moment(files, history, begun)];
      } else {
        assert files[0].value == Log(Content(files[0]) + view[..0]);
      }
    }

    /** From here on the current file holds one more record. */
    ghost method BeginRecord()
      requires Valid() && (|Content(files[0])| <= maxBytes || begun[0] == 0)
      modifies this`begun, this`trace
      ensures Valid() && old(trace) <= trace && begun[0] == old(begun)[0] + 1
    {
      begun := begun[0 := begun[0] + 1];
      trace := trace + [Moment(files, history, begun)];
    }

    /** Writing a whole line to the open current file. */
    method Append(line: Record) returns (ok: bool)
      requires Valid() && IsLog(files[0])
      requires |Content(files[0])| + |line| <= maxBytes || begun[0] == 0
      modifies this`files, this`history, this`begun, this`trace, this`faults
      ensures Valid() && old(trace) <= trace && faults == old(faults) + Fault(!ok)
      ensures ok ==>
        files == old(files)[0 := Some(Log(Content(old(files)[0]) + line))] && history == old(history) + line
      ensures old(history) <= history <= old(history) + line
    {
      ghost var start, earlier := Content(files[0]), history;
      BeginRecord();
      var view := line;
      ghost var done := [];
      assert start + done == start && files[0] == Some(Log(start));
      while view != []
        invariant Valid() && old(trace) <= trace && faults == old(faults)
        invariant done + view == line && history == earlier + done
        invariant IsLog(files[0]) && files == old(files)[0 := Some(Log(start + done))]
        invariant |start| + |line| <= maxBytes || begun[0] <= 1
        decreases |view|
      {
        var n := WriteSome(view);
        MoreWritten(earlier, done, view, n);
        MoreWritten(start, done, view, n);
        done := done + view[..n];
        view := view[n..];
        if n == 0 {
          return false;
        }
      }
      assert done == line;
      ok := true;
    }

    /** Moving every backup one name up, from the oldest down, once the oldest name is free. */
    method ShiftBackups() returns (ok: bool)
      requires Valid() && files[backups].None?
      modifies this`files, this`begun, this`trace, this`faults
      ensures Valid() && old(trace) <= trace && faults >= old(faults) + Fault(!ok && !HasOther(old(files)))
      ensures ok ==> files == Shifted(old(files), 0)
    {
      ShiftEnds(files);
      var i := backups - 1;
      while i > 0
        invariant 0 <= i < backups
        invariant Valid() && old(trace) <= trace && faults == old(faults)
        invariant files == Shifted(old(files), i)
      {
        ShiftStep(old(files), i);
        assert files[i] == old(files)[i] && files[i + 1] == None;
        if files[i].Some? {
          if !files[i].value.Log? {
            return false;
          }
          ok := Rename(i);
          if !ok {
            return;
          }
        }
        i := i - 1;
      }
      ok := true;
    }

    /** The oldest name is freed; what a rotation makes of the files stays the same. */
    method FreeOldest() returns (ok: bool)
      requires Valid()
      modifies this`files, this`trace, this`faults
      ensures Valid() && old(trace) <= trace && faults >= old(faults) + Fault(!ok && !HasOther(old(files)))
      ensures files[0] == old(files)[0] && (HasOther(files) ==> HasOther(old(files)))
      ensures ok ==> files[backups].None? && Rotated(files) == Rotated(old(files))
    {
      ok := true;
      if files[backups].Some? {
        if !files[backups].value.Log? {
          assert files[backups] == Some(Other);
          return false;
        }
        ok := UnlinkOldest();
        OldestFreed(old(files), backups);
      }
    }

    /** `_rotate`: every file moves one backup up and the oldest is dropped. */
    method Rotate() returns (ok: bool)
      requires Valid() && IsLog(files[0])
      modifies this`files, this`begun, this`trace, this`faults
      ensures Valid() && old(trace) <= trace && faults >= old(faults) + Fault(!ok && !HasOther(old(files)))
      ensures ok ==> files == Rotated(old(files))
    {
      ok := FreeOldest();
      if !ok {
        return;
      }
      ShiftEnds(files);
      ok := ShiftBackups();
      if ok {
        ok := Rename(0);
      }
    }

    method MakeRoom(line: Record) returns (ok: bool)
      requires Valid() && (files[0].None? || IsLog(files[0]))
      modifies this`files, this`begun, this`trace, this`faults
      ensures Valid() && old(trace) <= trace && faults >= old(faults) + Fault(!ok && !HasOther(old(files)))
      ensures ok ==> files == Roomy(old(files), line, maxBytes)
    {
      ok := true;
      if files[0].Some? && |Content(files[0])| + |line| > maxBytes {
        ok := Rotate();
      }
    }

    /** Opening the current file, made if absent. */
    method OpenCurrent() returns (ok: bool)
      requires Valid() && (files[0].None? || IsLog(files[0]))
      modifies this`files, this`begun, this`trace, this`faults
      ensures Valid() && old(trace) <= trace && faults == old(faults) + Fault(!ok)
      ensures ok ==> files == old(files)[0 := Some(Log(Content(old(files)[0])))]
      ensures ok && old(files)[0].None? ==> begun[0] == 0
    {
      if files[0].None? {
        ok := Create();
      } else if * {
        ok := Fail(); // opening or fchmod
      } else {
        ok := true;
      }
    }

    /** `_write`: rotate when the line would not fit, then create or append. */
    method Write(line: Record) returns (ok: bool)
      requires Valid()
      modifies this`files, this`history, this`begun, this`trace, this`faults
      ensures Valid() && old(trace) <= trace && faults >= old(faults) + Fault(!ok && !HasOther(old(files)))
      ensures old(history) <= history <= old(history) + line
      ensures ok ==> files == Written(old(files), line, maxBytes) && history == old(history) + line
    {
      if files[0].Some? && !files[0].value.Log? {
        return false;
      }
      ok := MakeRoom(line);
      if !ok {
        return;
      }
      ok := OpenCurrent();
      if !ok {
        return;
      }
      ok := Append(line);
    }

    /** A new process opens a new sink on the same directory, whatever a failure has left there. */
    method Reopen()
      requires Valid()
      modifies this`disabled
      ensures Valid() && !disabled
    {
      disabled := false;
    }

    /** One logging call: a failure disables the sink for good. */
    method Emit(line: Record) returns (written: bool)
      requires Valid()
      modifies this
      ensures Valid() && old(trace) <= trace
      ensures old(disabled) ==> !written && disabled && files == old(files) && history == old(history)
      ensures written ==> !disabled && files == Written(old(files), line, maxBytes) && history == old(history) + line
      ensures faults >= old(faults) + Fault(!written && !old(disabled) && !HasOther(old(files)))
      ensures !written ==> disabled && old(history) <= history <= old(history) + line
    {
      if disabled {
        return false;
      }
      written := Write(line);
      if !written {
        disabled := true;
      }
    }
  }

  function Absent(n: nat): (files: Files)
    ensures |files| == n && forall i :: 0 <= i < n ==> files[i] == None
  {
    seq(n, i => None)
  }

  lemma {:induction false} AbsentReadsEmpty(n: nat)
    ensures ReadBack(Absent(n)) == []
  {
    if n > 0 {
      assert Absent(n)[1..] == Absent(n - 1);
      AbsentReadsEmpty(n - 1);
    }
  }

  /* Runs without failures. */

  function Flatten(records: seq<Record>): seq<Byte> {
    if records == [] then [] else Flatten(records[..|records| - 1]) + records[|records| - 1]
  }

  /** Records grouped by the rotations between them, newest group first. */
  function GroupsAfter(groups: seq<seq<Record>>, line: Record, maxBytes: nat): seq<seq<Record>> {
    if groups == [] || |Flatten(groups[0])| + |line| > maxBytes then [[line]] + groups
    else [groups[0] + [line]] + groups[1..]
  }

  function Groups(lines: seq<Record>, maxBytes: nat): seq<seq<Record>> {
    if lines == [] then []
    else GroupsAfter(Groups(lines[..|lines| - 1], maxBytes), lines[|lines| - 1], maxBytes)
  }

  /** The directory after every line has been written, starting from an empty one. */
  function FilesAfter(lines: seq<Record>, maxBytes: nat, backups: nat): (files: Files)
    ensures |files| == backups + 1
  {
    if lines == [] then Absent(backups + 1)
    else Written(FilesAfter(lines[..|lines| - 1], maxBytes, backups), lines[|lines| - 1], maxBytes)
  }

  function FileOf(groups: seq<seq<Record>>, r: nat): Option<Entry> {
    if r < |groups| then Some(Log(Flatten(groups[r]))) else None
  }

  /** Backup r holds exactly the group that r rotations have followed. */
  ghost predicate Aligned(files: Files, groups: seq<seq<Record>>) {
    forall r :: 0 <= r < |files| ==> files[r] == FileOf(groups, r)
  }

  lemma FlattenAppend(records: seq<Record>, line: Record)
    ensures Flatten(records + [line]) == Flatten(records) + line
  {
    assert (records + [line])[..|records|] == records;
  }

  lemma CurrentAfterWrite(files: Files, groups: seq<seq<Record>>, line: Record, maxBytes: nat)
    requires files != [] && files[0] == FileOf(groups, 0)
    ensures Written(files, line, maxBytes)[0] == FileOf(GroupsAfter(groups, line, maxBytes), 0)
  {
    FlattenAppend([], line);
    assert [] + [line] == [line] && [] + line == line;
    if groups != [] {
      FlattenAppend(groups[0], line);
    }
  }

  lemma AlignedWrite(files: Files, groups: seq<seq<Record>>, line: Record, maxBytes: nat)
    requires files != [] && Aligned(files, groups)
    ensures Aligned(Written(files, line, maxBytes), GroupsAfter(groups, line, maxBytes))
  {
    assert files[0] == FileOf(groups, 0);
    CurrentAfterWrite(files, groups, line, maxBytes);
    var after, next := Written(files, line, maxBytes), GroupsAfter(groups, line, maxBytes);
    if |next| == |groups| {
      assert forall r :: 0 < r < |files| ==> after[r] == files[r];
    } else {
      assert forall r :: 0 < r < |files| ==> after[r] == files[r - 1];
    }
    forall r | 0 < r < |files| ensures after[r] == FileOf(next, r) {
      assert files[r] == FileOf(groups, r) && files[r - 1] == FileOf(groups, r - 1);
    }
  }

  lemma {:induction false} RunsAreAligned(lines: seq<Record>, maxBytes: nat, backups: nat)
    ensures Aligned(FilesAfter(lines, maxBytes, backups), Groups(lines, maxBytes))
  {
    if lines != [] {
      var earlier := lines[..|lines| - 1];
      RunsAreAligned(earlier, maxBytes, backups);
      AlignedWrite(FilesAfter(earlier, maxBytes, backups), Groups(earlier, maxBytes), lines[|lines| - 1], maxBytes);
    }
  }

  /** How many rotations have happened since record `j` was written. */
  function RotationsSince(lines: seq<Record>, j: nat, maxBytes: nat): int
    requires j < |lines|
  {
    |Groups(lines, maxBytes)| - |Groups(lines[..j + 1], maxBytes)|
  }

  lemma {:induction false} RecordInGroup(lines: seq<Record>, j: nat, maxBytes: nat)
    requires j < |lines|
    ensures 0 <= RotationsSince(lines, j, maxBytes) < |Groups(lines, maxBytes)|
    ensures lines[j] in Groups(lines, maxBytes)[RotationsSince(lines, j, maxBytes)]
  {
    var n := |lines|;
    if j == n - 1 {
      assert lines[..n] == lines;
    } else {
      var earlier := lines[..n - 1];
      assert earlier[..j + 1] == lines[..j + 1];
      RecordInGroup(earlier, j, maxBytes);
    }
  }

  /**
   A record written r rotations ago lies in backup r, among exactly the records written between
   two rotations; it is gone when there are not r backups.
   */
  lemma RecordPlacement(lines: seq<Record>, j: nat, maxBytes: nat, backups: nat, r: nat)
    requires j < |lines| && r == RotationsSince(lines, j, maxBytes)
    ensures r < |Groups(lines, maxBytes)| && lines[j] in Groups(lines, maxBytes)[r]
    ensures r <= backups ==> FilesAfter(lines, maxBytes, backups)[r] == Some(Log(Flatten(Groups(lines, maxBytes)[r])))
    ensures forall k :: 0 <= k <= backups ==>
      FilesAfter(lines, maxBytes, backups)[k] == FileOf(Groups(lines, maxBytes), k)
  {
    RecordInGroup(lines, j, maxBytes);
    RunsAreAligned(lines, maxBytes, backups);
  }

  /** The records of all groups, oldest group first. */
  function AllRecords(groups: seq<seq<Record>>): seq<Record> {
    if groups == [] then [] else AllRecords(groups[1..]) + groups[0]
  }

  lemma GroupsAfterKeepsAll(groups: seq<seq<Record>>, line: Record, maxBytes: nat)
    ensures AllRecords(GroupsAfter(groups, line, maxBytes)) == AllRecords(groups) + [line]
  {
    var next := GroupsAfter(groups, line, maxBytes);
    if |next| == |groups| {
      assert next[1..] == groups[1..];
      assert AllRecords(groups[1..]) + (groups[0] + [line]) == AllRecords(groups) + [line];
    } else {
      assert next[1..] == groups;
    }
  }

  /** The grouping itself drops and reorders nothing. */
  lemma {:induction false} GroupsPartition(lines: seq<Record>, maxBytes: nat)
    ensures AllRecords(Groups(lines, maxBytes)) == lines
  {
    if lines != [] {
      var n := |lines|;
      GroupsPartition(lines[..n - 1], maxBytes);
      GroupsAfterKeepsAll(Groups(lines[..n - 1], maxBytes), lines[n - 1], maxBytes);
      assert lines == lines[..n - 1] + [lines[n - 1]];
      assert Groups(lines, maxBytes) == GroupsAfter(Groups(lines[..n - 1], maxBytes), lines[n - 1], maxBytes);
    }
  }
}
