/**
 The runner's bounded proof of what a fixed-string search should return: a stack-driven
 scan and a byte-counting match loop, proved equal to a recursive specification.
 */
module SearchSnapshot {
  import opened Common
  import opened WorkspaceTree
  import Text

  const MAX_PATH_BYTES := 1024
  const MAX_SEARCH_SCAN_ENTRIES := 128
  const MAX_SEARCH_DEPTH := 32
  const MAX_SEARCH_FILE_BYTES := 16 * 1024
  const MAX_SEARCH_TOTAL_BYTES := 128 * 1024
  const MAX_SEARCH_MATCHES := 64
  const MAX_SEARCH_OUTPUT_BYTES := 16 * 1024

  datatype Query = Query(pattern: string, glob: Option<string>)

  /** What the snapshot digest covers for one entry; the content only of a searched file. */
  datatype Record = Record(path: string, isDirectory: bool, content: Option<seq<Byte>>)

  /** Library calls that are not modelled: strict UTF-8 decoding, `fnmatch` and SHA-256. */
  datatype Library = Library(
    decode: seq<Byte> -> Option<string>,
    fnmatch: (string, string) -> bool,
    digest: (Query, seq<Record>) -> string)

  datatype Snapshot = Snapshot(
    sha256: Option<string>,
    expectedMatches: Option<seq<string>>,
    complete: bool,
    detail: Option<string>)

  /* The specification. */

  /** The universal-newline translation of a text stream. */
  function Translate(t: string): string {
    if t == "" then ""
    else if t[0] == '\r' then "\n" + Translate(t[if |t| > 1 && t[1] == '\n' then 2 else 1..])
    else [t[0]] + Translate(t[1..])
  }

  /** The physical lines of a text stream without their terminators. */
  function Lines(t: string): seq<string> {
    var parts := Text.Split('\n', Translate(t));
    if parts[|parts| - 1] == "" then parts[..|parts| - 1] else parts
  }

  function Decimal(n: nat): string {
    var digit := [(n % 10 + '0' as int) as char];
    if n < 10 then digit else Decimal(n / 10) + digit
  }

  function Render(path: string, number: nat, text: string): string {
    path + ":" + Decimal(number) + ":" + text
  }

  function LineMatches(path: string, pattern: string, lines: seq<string>): seq<string> {
    if lines == [] then []
    else
      var n := |lines|;
      LineMatches(path, pattern, lines[..n - 1]) +
      if Text.Contains(lines[n - 1], pattern) then [Render(path, n, lines[n - 1])] else []
  }

  function Content(e: Entry): seq<Byte> {
    if e.node.File? then e.node.content else []
  }

  function TextLines(lib: Library, e: Entry): seq<string> {
    var text := (lib.decode)(Content(e));
    if text.Some? then Lines(text.value) else []
  }

  function AllMatches(lib: Library, q: Query, files: seq<Entry>): seq<string> {
    if files == [] then []
    else
      var n := |files|;
      AllMatches(lib, q, files[..n - 1]) +
      LineMatches(files[n - 1].path, q.pattern, TextLines(lib, files[n - 1]))
  }

  function TotalBytes(files: seq<Entry>): nat {
    if files == [] then 0 else TotalBytes(files[..|files| - 1]) + |Content(files[|files| - 1])|
  }

  predicate IsSelected(lib: Library, q: Query, e: Entry) {
    e.node.File? && (q.glob.None? || (lib.fnmatch)(e.path, q.glob.value))
  }

  function Select(lib: Library, q: Query, entries: seq<Entry>): seq<Entry> {
    if entries == [] then []
    else
      var n := |entries|;
      Select(lib, q, entries[..n - 1]) + if IsSelected(lib, q, entries[n - 1]) then [entries[n - 1]] else []
  }

  predicate EntryWithin(e: Entry) {
    && e.utf8
    && Text.Utf8Size(e.path) <= MAX_PATH_BYTES
    && !Text.HasControl(e.path)
    && !e.node.Special?
    && (e.node.Directory? ==> e.depth < MAX_SEARCH_DEPTH)
  }

  ghost predicate ScanWithin(all: seq<Entry>) {
    |all| <= MAX_SEARCH_SCAN_ENTRIES && forall e :: e in all ==> EntryWithin(e)
  }

  predicate Readable(lib: Library, f: Entry) {
    |Content(f)| <= MAX_SEARCH_FILE_BYTES && (lib.decode)(Content(f)).Some?
  }

  ghost predicate FilesWithin(lib: Library, q: Query, files: seq<Entry>) {
    && (forall f :: f in files ==> Readable(lib, f))
    && TotalBytes(files) <= MAX_SEARCH_TOTAL_BYTES
    && |AllMatches(lib, q, files)| <= MAX_SEARCH_MATCHES
    && Text.Utf8Size(Text.Join('\n', AllMatches(lib, q, files))) <= MAX_SEARCH_OUTPUT_BYTES
  }

  /** Everything below the root, listed recursively. */
  ghost function All(root: Node): seq<Entry> {
    if root.Directory? then Listing(root.children, "", true, 0) else []
  }

  ghost function SearchedFiles(lib: Library, q: Query, root: Node): seq<Entry> {
    Sorted(Select(lib, q, All(root)))
  }

  ghost function SpecMatches(lib: Library, q: Query, root: Node): seq<string> {
    AllMatches(lib, q, SearchedFiles(lib, q, root))
  }

  function Records(lib: Library, q: Query, sorted: seq<Entry>): seq<Record> {
    if sorted == [] then []
    else
      var n := |sorted|;
      var e := sorted[n - 1];
      Records(lib, q, sorted[..n - 1]) +
      [Record(e.path, e.node.Directory?, if IsSelected(lib, q, e) then Some(Content(e)) else None)]
  }

  ghost function SpecRecords(lib: Library, q: Query, root: Node): seq<Record> {
    Records(lib, q, Sorted(All(root)))
  }

  ghost predicate Within(lib: Library, q: Query, root: Node) {
    root.Directory? && ScanWithin(All(root)) && FilesWithin(lib, q, SearchedFiles(lib, q, root))
  }

  /* The scan. */

  /** A directory waiting on the worklist. */
  datatype Frame = Frame(children: seq<Child>, relative: string, utf8: bool, depth: nat)

  ghost function FrameListing(f: Frame): seq<Entry> {
    Listing(f.children, f.relative, f.utf8, f.depth)
  }

  ghost function PendingListing(pending: seq<Frame>): seq<Entry> {
    if pending == [] then []
    else PendingListing(pending[..|pending| - 1]) + FrameListing(pending[|pending| - 1])
  }

  lemma PendingPush(pending: seq<Frame>, f: Frame)
    ensures PendingListing(pending + [f]) == PendingListing(pending) + FrameListing(f)
  {
    assert (pending + [f])[..|pending|] == pending;
  }

  /** What a scan that has reached child `k` of `frame` has still to meet. */
  ghost function Rest(frame: Frame, k: nat, pending: seq<Frame>): multiset<Entry>
    requires k <= |frame.children|
  {
    multiset(Listing(frame.children[k..], frame.relative, frame.utf8, frame.depth)) + multiset(PendingListing(pending))
  }

  function NextEntry(frame: Frame, k: nat): Entry
    requires k < |frame.children|
  {
    ChildEntry(frame.children[k], frame.relative, frame.utf8, frame.depth)
  }

  /** A met directory goes on the worklist. */
  function NextPending(e: Entry, pending: seq<Frame>): seq<Frame> {
    if e.node.Directory? then pending + [Frame(e.node.children, e.path, e.utf8, e.depth)] else pending
  }

  lemma ListingSplit(frame: Frame, k: nat)
    requires k < |frame.children|
    ensures Listing(frame.children[k..], frame.relative, frame.utf8, frame.depth)
         == [NextEntry(frame, k)] + Below(NextEntry(frame, k))
          + Listing(frame.children[k + 1..], frame.relative, frame.utf8, frame.depth)
  {
    assert frame.children[k..][1..] == frame.children[k + 1..];
  }

  lemma RestStep(frame: Frame, k: nat, pending: seq<Frame>)
    requires k < |frame.children|
    ensures Rest(frame, k, pending)
         == multiset{NextEntry(frame, k)} + Rest(frame, k + 1, NextPending(NextEntry(frame, k), pending))
  {
    var e := NextEntry(frame, k);
    ListingSplit(frame, k);
    assert multiset(PendingListing(NextPending(e, pending)))
        == multiset(PendingListing(pending)) + multiset(Below(e)) by {
      if e.node.Directory? {
        PendingPush(pending, Frame(e.node.children, e.path, e.utf8, e.depth));
      }
    }
  }

  /** What lies below an entry. */
  ghost function Below(e: Entry): seq<Entry> {
    if e.node.Directory? then Listing(e.node.children, e.path, e.utf8, e.depth) else []
  }

  /** What has been met and what is still to come make up the listing; all that was met is within bounds. */
  ghost predicate Progress(lib: Library, q: Query, all: seq<Entry>, entries: seq<Entry>, selected: seq<Entry>,
                           rest: multiset<Entry>) {
    && multiset(entries) + rest == multiset(all)
    && |entries| <= MAX_SEARCH_SCAN_ENTRIES
    && (forall e :: e in entries ==> EntryWithin(e))
    && selected == Select(lib, q, entries)
  }

  /** One more entry belongs to the listing; the scan can only continue if it is within bounds. */
  lemma MeetEntry(lib: Library, q: Query, all: seq<Entry>, entries: seq<Entry>, selected: seq<Entry>, e: Entry,
                  rest: multiset<Entry>)
    requires Progress(lib, q, all, entries, selected, multiset{e} + rest)
    ensures e in all && |entries| + 1 <= |all|
    ensures |entries| < MAX_SEARCH_SCAN_ENTRIES && EntryWithin(e) ==>
      Progress(lib, q, all, entries + [e], if IsSelected(lib, q, e) then selected + [e] else selected, rest)
  {
    assert e in multiset(all);
    assert (entries + [e])[..|entries|] == entries;
    assert multiset(entries + [e]) + rest == multiset(entries) + (multiset{e} + rest);
    assert |multiset(entries + [e])| <= |multiset(entries + [e]) + rest| == |all|;
  }

  /** Why an entry ends the scan, if it does. */
  function Rejection(e: Entry): (detail: Option<string>)
    ensures detail.None? <==> EntryWithin(e)
  {
    if !e.utf8 then Some("search path is not valid UTF-8")
    else if Text.Utf8Size(e.path) > MAX_PATH_BYTES || Text.HasControl(e.path) then
      Some("search path exceeds the safe path bound")
    else if e.node.Directory? && e.depth >= MAX_SEARCH_DEPTH then Some("search tree reaches the depth limit")
    else if e.node.Special? then Some("search tree contains a special entry")
    else None
  }

  method VisitEntry(lib: Library, q: Query, entry: Entry, entries0: seq<Entry>, selected0: seq<Entry>,
                    ghost all: seq<Entry>, ghost rest: multiset<Entry>)
    returns (rejected: Option<string>, entries: seq<Entry>, selected: seq<Entry>)
    requires Progress(lib, q, all, entries0, selected0, multiset{entry} + rest)
    ensures rejected.Some? ==> !ScanWithin(all)
    ensures rejected.None? ==> Progress(lib, q, all, entries, selected, rest) && |entries| == |entries0| + 1
  {
    MeetEntry(lib, q, all, entries0, selected0, entry, rest);
    entries, selected := entries0, selected0;
    if |entries| + 1 > MAX_SEARCH_SCAN_ENTRIES {
      return Some("search scan exceeds entry limit"), entries, selected;
    }
    rejected := Rejection(entry);
    if rejected.Some? {
      return;
    }
    entries := entries + [entry];
    if IsSelected(lib, q, entry) {
      selected := selected + [entry];
    }
  }

  method ScanChildren(lib: Library, q: Query, frame: Frame, pending0: seq<Frame>, entries0: seq<Entry>,
                      selected0: seq<Entry>, ghost all: seq<Entry>)
    returns (rejected: Option<string>, pending: seq<Frame>, entries: seq<Entry>, selected: seq<Entry>)
    requires Progress(lib, q, all, entries0, selected0, Rest(frame, 0, pending0))
    ensures rejected.Some? ==> !ScanWithin(all)
    ensures rejected.None? ==> Progress(lib, q, all, entries, selected, multiset(PendingListing(pending)))
    ensures rejected.None? ==> |entries| == |entries0| + |frame.children|
    ensures rejected.None? && frame.children == [] ==> pending == pending0
  {
    pending, entries, selected := pending0, entries0, selected0;
    for k := 0 to |frame.children|
      invariant Progress(lib, q, all, entries, selected, Rest(frame, k, pending))
      invariant |entries| == |entries0| + k && (k == 0 ==> pending == pending0)
    {
      var entry := NextEntry(frame, k);
      RestStep(frame, k, pending);
      pending := NextPending(entry, pending);
      rejected, entries, selected := VisitEntry(lib, q, entry, entries, selected, all, Rest(frame, k + 1, pending));
      if rejected.Some? {
        return;
      }
    }
    assert Rest(frame, |frame.children|, pending) == multiset(PendingListing(pending));
    rejected := None;
  }

  method Scan(lib: Library, q: Query, root: Node)
      returns (rejected: Option<string>, entries: seq<Entry>, selected: seq<Entry>)
    requires root.Directory?
    ensures rejected.None? <==> ScanWithin(All(root))
    ensures rejected.None? ==> multiset(entries) == multiset(All(root)) && selected == Select(lib, q, entries)
  {
    entries, selected := [], [];
    var pending := [Frame(root.children, "", true, 0)];
    ghost var all := All(root);
    PendingPush([], pending[0]);
    assert [] + pending == pending;
    while pending != []
      invariant Progress(lib, q, all, entries, selected, multiset(PendingListing(pending)))
      decreases MAX_SEARCH_SCAN_ENTRIES - |entries|, |pending|
    {
      var frame := pending[|pending| - 1];
      pending := pending[..|pending| - 1];
      rejected, pending, entries, selected := ScanChildren(lib, q, frame, pending, entries, selected, all);
      if rejected.Some? {
        return;
      }
    }
    ScanComplete(lib, q, all, entries, selected);
    rejected := None;
  }

  lemma ScanComplete(lib: Library, q: Query, all: seq<Entry>, entries: seq<Entry>, selected: seq<Entry>)
    requires Progress(lib, q, all, entries, selected, multiset{})
    ensures multiset(entries) == multiset(all) && ScanWithin(all)
  {
    assert multiset(entries) == multiset(all);
    forall e | e in all ensures EntryWithin(e) {
      assert e in multiset(entries);
    }
    assert |all| == |multiset(all)| == |multiset(entries)| == |entries|;
  }

  /* The match loop. */

  lemma {:induction false} LineMatchesPrefix(path: string, pattern: string, lines: seq<string>, k: nat)
    requires k <= |lines|
    ensures LineMatches(path, pattern, lines[..k]) <= LineMatches(path, pattern, lines)
  {
    if k < |lines| {
      assert lines[..|lines| - 1][..k] == lines[..k];
      LineMatchesPrefix(path, pattern, lines[..|lines| - 1], k);
    } else {
      assert lines[..k] == lines;
    }
  }

  lemma {:induction false} FilesPrefix(lib: Library, q: Query, files: seq<Entry>, k: nat)
    requires k <= |files|
    ensures AllMatches(lib, q, files[..k]) <= AllMatches(lib, q, files)
    ensures TotalBytes(files[..k]) <= TotalBytes(files)
  {
    if k < |files| {
      assert files[..|files| - 1][..k] == files[..k];
      FilesPrefix(lib, q, files[..|files| - 1], k);
    } else {
      assert files[..k] == files;
    }
  }

  lemma JoinedSizeGrows(a: seq<string>, b: seq<string>)
    requires a <= b
    ensures Text.Utf8Size(Text.Join('\n', a)) <= Text.Utf8Size(Text.Join('\n', b))
  {
    assert b == a + b[|a|..];
    Text.TotalSizeSplit(a, b[|a|..]);
    Text.JoinedSizeIsSize(a);
    Text.JoinedSizeIsSize(b);
  }

  /** Appending one record adds its size and, after the first, one separator byte. */
  lemma JoinedSizeAppend(matches: seq<string>, rendered: string)
    ensures Text.Utf8Size(Text.Join('\n', matches + [rendered]))
         == Text.Utf8Size(Text.Join('\n', matches)) + (if matches == [] then 0 else 1) + Text.Utf8Size(rendered)
  {
    Text.TotalSizeSplit(matches, [rendered]);
    Text.JoinedSizeIsSize(matches);
    Text.JoinedSizeIsSize(matches + [rendered]);
    assert Text.TotalSize([rendered]) == Text.Utf8Size(rendered) + Text.TotalSize([rendered][1..]);
  }

  /** The matches found up to line `j` of file `i` are a prefix of all of them. */
  lemma MatchesSoFar(lib: Library, q: Query, files: seq<Entry>, i: nat, j: nat)
    requires i < |files| && j <= |TextLines(lib, files[i])|
    ensures AllMatches(lib, q, files[..i]) + LineMatches(files[i].path, q.pattern, TextLines(lib, files[i])[..j])
         <= AllMatches(lib, q, files)
  {
    FilesPrefix(lib, q, files, i + 1);
    assert files[..i + 1][..i] == files[..i];
    LineMatchesPrefix(files[i].path, q.pattern, TextLines(lib, files[i]), j);
  }

  lemma MatchesStep(lib: Library, q: Query, files: seq<Entry>, i: nat, j: nat)
    requires i < |files| && j < |TextLines(lib, files[i])|
    ensures LineMatches(files[i].path, q.pattern, TextLines(lib, files[i])[..j + 1])
         == LineMatches(files[i].path, q.pattern, TextLines(lib, files[i])[..j])
          + if Text.Contains(TextLines(lib, files[i])[j], q.pattern)
            then [Render(files[i].path, j + 1, TextLines(lib, files[i])[j])] else []
  {
    var lines := TextLines(lib, files[i]);
    assert lines[..j + 1][..j] == lines[..j];
  }

  /** The match list, its byte count and the bounds that the loop maintains. */
  ghost predicate Counted(matches: seq<string>, outputBytes: nat) {
    && |matches| <= MAX_SEARCH_MATCHES
    && outputBytes == Text.Utf8Size(Text.Join('\n', matches)) <= MAX_SEARCH_OUTPUT_BYTES
  }

  /** What the loop's own count says about the next record also decides for the whole list it is part of. */
  lemma CountDecides(matches: seq<string>, rendered: string, outputBytes: nat, all: seq<string>)
    requires Counted(matches, outputBytes) && matches + [rendered] <= all
    ensures outputBytes + (if matches == [] then 0 else 1) + Text.Utf8Size(rendered)
         == Text.Utf8Size(Text.Join('\n', matches + [rendered]))
         <= Text.Utf8Size(Text.Join('\n', all))
    ensures |matches| < |all|
  {
    JoinedSizeAppend(matches, rendered);
    JoinedSizeGrows(matches + [rendered], all);
  }

  lemma NextMatch(lib: Library, q: Query, files: seq<Entry>, i: nat, j: nat)
    requires i < |files| && j < |TextLines(lib, files[i])| && Text.Contains(TextLines(lib, files[i])[j], q.pattern)
    ensures AllMatches(lib, q, files[..i])
          + LineMatches(files[i].path, q.pattern, TextLines(lib, files[i])[..j])
          + [Render(files[i].path, j + 1, TextLines(lib, files[i])[j])]
         <= AllMatches(lib, q, files)
  {
    MatchesStep(lib, q, files, i, j);
    MatchesSoFar(lib, q, files, i, j + 1);
  }

  /** Adding one record, unless a bound on the whole output forbids it. */
  method AddMatch(rendered: string, matches0: seq<string>, outputBytes0: nat, ghost all: seq<string>)
    returns (rejected: Option<string>, matches: seq<string>, outputBytes: nat)
    requires Counted(matches0, outputBytes0) && matches0 + [rendered] <= all
    ensures rejected.Some? ==> !Counted(all, Text.Utf8Size(Text.Join('\n', all)))
    ensures rejected.None? ==> matches == matches0 + [rendered] && Counted(matches, outputBytes)
  {
    CountDecides(matches0, rendered, outputBytes0, all);
    var separator := if matches0 == [] then 0 else 1;
    if |matches0| >= MAX_SEARCH_MATCHES {
      return Some("search result count exceeds the result limit"), matches0, outputBytes0;
    }
    if outputBytes0 + separator + Text.Utf8Size(rendered) > MAX_SEARCH_OUTPUT_BYTES {
      return Some("search output exceeds the rendered limit"), matches0, outputBytes0;
    }
    rejected, matches, outputBytes := None, matches0 + [rendered], outputBytes0 + separator + Text.Utf8Size(rendered);
  }

  lemma FileDone(lib: Library, q: Query, files: seq<Entry>, i: nat)
    requires i < |files|
    ensures AllMatches(lib, q, files[..i + 1])
         == AllMatches(lib, q, files[..i])
          + LineMatches(files[i].path, q.pattern, TextLines(lib, files[i])[..|TextLines(lib, files[i])|])
  {
    var lines := TextLines(lib, files[i]);
    assert lines[..|lines|] == lines && files[..i + 1][..i] == files[..i];
  }

  method CollectFile(lib: Library, q: Query, ghost files: seq<Entry>, ghost i: nat, file: Entry, lines: seq<string>,
                     matches0: seq<string>, outputBytes0: nat)
    returns (rejected: Option<string>, matches: seq<string>, outputBytes: nat)
    requires i < |files| && files[i] == file && lines == TextLines(lib, file)
    requires matches0 == AllMatches(lib, q, files[..i]) && Counted(matches0, outputBytes0)
    ensures rejected.Some? ==> !FilesWithin(lib, q, files)
    ensures rejected.None? ==> matches == AllMatches(lib, q, files[..i + 1]) && Counted(matches, outputBytes)
  {
    matches, outputBytes := matches0, outputBytes0;
    for j := 0 to |lines|
      invariant matches == matches0 + LineMatches(file.path, q.pattern, lines[..j])
      invariant Counted(matches, outputBytes)
    {
      MatchesStep(lib, q, files, i, j);
      if Text.Contains(lines[j], q.pattern) {
        NextMatch(lib, q, files, i, j);
        rejected, matches, outputBytes :=
          AddMatch(Render(file.path, j + 1, lines[j]), matches, outputBytes, AllMatches(lib, q, files));
        if rejected.Some? {
          return;
        }
      }
    }
    FileDone(lib, q, files, i);
    rejected := None;
  }

  lemma NextFile(lib: Library, q: Query, files: seq<Entry>, i: nat)
    requires i < |files|
    ensures TotalBytes(files[..i]) + |Content(files[i])| == TotalBytes(files[..i + 1]) <= TotalBytes(files)
    ensures forall f :: f in files[..i + 1] ==> f in files[..i] || f == files[i]
  {
    assert files[..i + 1] == files[..i] + [files[i]];
    FilesPrefix(lib, q, files, i + 1);
  }

  lemma UnreadableDecides(lib: Library, q: Query, files: seq<Entry>, i: nat)
    requires i < |files| && !Readable(lib, files[i])
    ensures !FilesWithin(lib, q, files)
  {
    assert files[i] in files;
  }

  method CollectMatches(lib: Library, q: Query, files: seq<Entry>)
    returns (rejected: Option<string>, matches: seq<string>, outputBytes: nat)
    ensures rejected.None? <==> FilesWithin(lib, q, files)
    ensures rejected.None? ==>
      matches == AllMatches(lib, q, files) && outputBytes == Text.Utf8Size(Text.Join('\n', matches))
  {
    matches, outputBytes := [], 0;
    var total := 0;
    for i := 0 to |files|
      invariant total == TotalBytes(files[..i]) <= MAX_SEARCH_TOTAL_BYTES
      invariant forall f :: f in files[..i] ==> Readable(lib, f)
      invariant matches == AllMatches(lib, q, files[..i]) && Counted(matches, outputBytes)
    {
      NextFile(lib, q, files, i);
      var content := Content(files[i]);
      if |content| > MAX_SEARCH_FILE_BYTES {
        UnreadableDecides(lib, q, files, i);
        return Some("selected search file exceeds the file limit"), matches, outputBytes;
      }
      total := total + |content|;
      if total > MAX_SEARCH_TOTAL_BYTES {
        return Some("selected search files exceed the aggregate limit"), matches, outputBytes;
      }
      var decoded := (lib.decode)(content);
      if decoded.None? {
        UnreadableDecides(lib, q, files, i);
        return Some("search snapshot could not read a stable workspace"), matches, outputBytes;
      }
      rejected, matches, outputBytes :=
        CollectFile(lib, q, files, i, files[i], Lines(decoded.value), matches, outputBytes);
      if rejected.Some? {
        return;
      }
    }
    assert files[..|files|] == files;
    rejected := None;
  }

  /* The whole snapshot. */

  lemma {:induction false} SelectMultiset(lib: Library, q: Query, entries: seq<Entry>, e: Entry)
    ensures multiset(Select(lib, q, entries))[e] == if IsSelected(lib, q, e) then multiset(entries)[e] else 0
  {
    if entries != [] {
      var n := |entries|;
      assert entries == entries[..n - 1] + [entries[n - 1]];
      SelectMultiset(lib, q, entries[..n - 1], e);
    }
  }

  lemma SelectPermuted(lib: Library, q: Query, a: seq<Entry>, b: seq<Entry>)
    requires multiset(a) == multiset(b)
    ensures multiset(Select(lib, q, a)) == multiset(Select(lib, q, b))
  {
    forall e ensures multiset(Select(lib, q, a))[e] == multiset(Select(lib, q, b))[e] {
      SelectMultiset(lib, q, a, e);
      SelectMultiset(lib, q, b, e);
    }
  }

  lemma SelectedFrom(lib: Library, q: Query, entries: seq<Entry>, e: Entry)
    requires e in Select(lib, q, entries)
    ensures e in entries && IsSelected(lib, q, e)
  {
    SelectMultiset(lib, q, entries, e);
    assert multiset(entries)[e] > 0;
  }

  ghost predicate WellFormedRoot(root: Node) {
    root.Directory? ==> WellFormed(root.children)
  }

  lemma ListingPathsUnique(root: Node)
    requires WellFormedRoot(root)
    ensures PathsUnique(All(root))
  {
    forall x, y | x in All(root) && y in All(root) && x.path == y.path ensures x == y {
      PathsIdentify(root.children, "", true, 0, x, y);
    }
  }

  /** Sorting what the scan met is sorting the recursive listing, for all entries and for the selection. */
  lemma ScanOrderIrrelevant(lib: Library, q: Query, root: Node, entries: seq<Entry>)
    requires WellFormedRoot(root) && multiset(entries) == multiset(All(root))
    ensures Sorted(entries) == Sorted(All(root))
    ensures Sorted(Select(lib, q, entries)) == SearchedFiles(lib, q, root)
  {
    ListingPathsUnique(root);
    SortedPermuted(entries, All(root));
    SelectPermuted(lib, q, entries, All(root));
    forall x, y | x in Select(lib, q, All(root)) && y in Select(lib, q, All(root)) && x.path == y.path ensures x == y {
      SelectedFrom(lib, q, All(root), x);
      SelectedFrom(lib, q, All(root), y);
    }
    SortedPermuted(Select(lib, q, entries), Select(lib, q, All(root)));
  }

  function Incomplete(detail: string): Snapshot {
    Snapshot(None, None, false, Some(detail))
  }

  method TakeSnapshot(lib: Library, q: Query, root: Node) returns (s: Snapshot)
    requires WellFormedRoot(root)
    ensures s.complete <==> Within(lib, q, root)
    ensures s.complete ==> s.expectedMatches == Some(SpecMatches(lib, q, root))
    ensures s.complete ==> s.sha256 == Some((lib.digest)(q, SpecRecords(lib, q, root))) && s.detail == None
    ensures !s.complete ==> s.sha256 == None && s.expectedMatches == None && s.detail.Some?
  {
    if !root.Directory? {
      return Incomplete("search root is not a regular directory");
    }
    var rejected, entries, selected := Scan(lib, q, root);
    if rejected.Some? {
      return Incomplete(rejected.value);
    }
    ScanOrderIrrelevant(lib, q, root, entries);
    var matches, outputBytes;
    rejected, matches, outputBytes := CollectMatches(lib, q, Sorted(selected));
    if rejected.Some? {
      return Incomplete(rejected.value);
    }
    s := Snapshot(Some((lib.digest)(q, Records(lib, q, Sorted(entries)))), Some(matches), true, None);
  }
}
