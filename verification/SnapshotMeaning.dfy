/** What a complete search snapshot says about the workspace: its records and its digest. */
module SnapshotMeaning {
  import opened Common
  import opened WorkspaceTree
  import opened SearchSnapshot
  import Text

  ghost predicate IsRecordOf(lib: Library, q: Query, e: Entry, k: nat, rendered: string) {
    && k < |TextLines(lib, e)|
    && Text.Contains(TextLines(lib, e)[k], q.pattern)
    && rendered == Render(e.path, k + 1, TextLines(lib, e)[k])
  }

  ghost predicate HasRecord(lib: Library, q: Query, e: Entry, rendered: string) {
    exists k: nat :: IsRecordOf(lib, q, e, k, rendered)
  }

  lemma {:induction false} LineMatchesExact(path: string, pattern: string, lines: seq<string>, rendered: string)
    ensures rendered in LineMatches(path, pattern, lines)
      <==> exists k: nat :: k < |lines| && Text.Contains(lines[k], pattern) && rendered == Render(path, k + 1, lines[k])
  {
    if lines != [] {
      var n := |lines|;
      LineMatchesExact(path, pattern, lines[..n - 1], rendered);
      assert forall k: nat :: k < n - 1 ==> lines[..n - 1][k] == lines[k];
    }
  }

  lemma FileMatchesExact(lib: Library, q: Query, e: Entry, rendered: string)
    ensures rendered in LineMatches(e.path, q.pattern, TextLines(lib, e)) <==> HasRecord(lib, q, e, rendered)
  {
    var lines := TextLines(lib, e);
    LineMatchesExact(e.path, q.pattern, lines, rendered);
    if rendered in LineMatches(e.path, q.pattern, lines) {
      var k: nat :| k < |lines| && Text.Contains(lines[k], q.pattern) && rendered == Render(e.path, k + 1, lines[k]);
      assert IsRecordOf(lib, q, e, k, rendered);
    }
  }

  lemma {:induction false} MatchHasOwner(lib: Library, q: Query, files: seq<Entry>, rendered: string) returns (e: Entry)
    requires rendered in AllMatches(lib, q, files)
    ensures e in files && HasRecord(lib, q, e, rendered)
  {
    var n := |files|;
    if rendered in AllMatches(lib, q, files[..n - 1]) {
      e := MatchHasOwner(lib, q, files[..n - 1], rendered);
    } else {
      e := files[n - 1];
      FileMatchesExact(lib, q, e, rendered);
    }
  }

  lemma {:induction false} OwnerHasMatch(lib: Library, q: Query, files: seq<Entry>, e: Entry, rendered: string)
    requires e in files && HasRecord(lib, q, e, rendered)
    ensures rendered in AllMatches(lib, q, files)
  {
    var n := |files|;
    assert AllMatches(lib, q, files)
        == AllMatches(lib, q, files[..n - 1]) + LineMatches(files[n - 1].path, q.pattern, TextLines(lib, files[n - 1]));
    if e == files[n - 1] {
      FileMatchesExact(lib, q, e, rendered);
    } else {
      OwnerHasMatch(lib, q, files[..n - 1], e, rendered);
    }
  }

  /** A snapshot's matches are the records of the searched files' matching lines: none missing, none invented. */
  lemma SpecMatchesExact(lib: Library, q: Query, root: Node, rendered: string)
    ensures rendered in SpecMatches(lib, q, root)
      <==> exists e :: e in All(root) && IsSelected(lib, q, e) && HasRecord(lib, q, e, rendered)
  {
    var files := SearchedFiles(lib, q, root);
    forall e ensures e in files <==> e in All(root) && IsSelected(lib, q, e) {
      SelectMultiset(lib, q, All(root), e);
      assert e in files <==> e in multiset(files);
      assert e in All(root) <==> e in multiset(All(root));
    }
    if rendered in SpecMatches(lib, q, root) {
      var e := MatchHasOwner(lib, q, files, rendered);
    }
    if e :| e in All(root) && IsSelected(lib, q, e) && HasRecord(lib, q, e, rendered) {
      OwnerHasMatch(lib, q, files, e, rendered);
    }
  }

  /* Records hold no newline, so joining them loses nothing. */

  lemma {:induction false} DecimalPlain(n: nat)
    ensures '\n' !in Decimal(n)
  {
    if n >= 10 {
      DecimalPlain(n / 10);
    }
  }

  lemma LinesPlain(t: string, line: string)
    requires line in Lines(t)
    ensures '\n' !in line
  {
    Text.SplitPartsArePlain('\n', Translate(t));
  }

  lemma RenderPlain(path: string, number: nat, text: string)
    requires '\n' !in path && '\n' !in text
    ensures '\n' !in Render(path, number, text) && Render(path, number, text) != ""
  {
    DecimalPlain(number);
  }

  lemma RecordPlain(lib: Library, q: Query, e: Entry, rendered: string)
    requires EntryWithin(e) && HasRecord(lib, q, e, rendered)
    ensures '\n' !in rendered && rendered != ""
  {
    var k: nat :| IsRecordOf(lib, q, e, k, rendered);
    LinesPlain((lib.decode)(Content(e)).value, TextLines(lib, e)[k]);
    assert '\n' !in e.path by {
      assert Text.IsControl('\n');
    }
    RenderPlain(e.path, k + 1, TextLines(lib, e)[k]);
  }

  lemma SpecMatchesPlain(lib: Library, q: Query, root: Node, rendered: string)
    requires ScanWithin(All(root)) && rendered in SpecMatches(lib, q, root)
    ensures '\n' !in rendered && rendered != ""
  {
    SpecMatchesExact(lib, q, root, rendered);
    var e :| e in All(root) && IsSelected(lib, q, e) && HasRecord(lib, q, e, rendered);
    RecordPlain(lib, q, e, rendered);
  }

  /* The digest determines the matches. */

  function RecordMatches(lib: Library, q: Query, records: seq<Record>): seq<string> {
    if records == [] then []
    else
      var r := records[|records| - 1];
      RecordMatches(lib, q, records[..|records| - 1]) +
      if r.content.Some? && (lib.decode)(r.content.value).Some?
      then LineMatches(r.path, q.pattern, Lines((lib.decode)(r.content.value).value)) else []
  }

  lemma {:induction false} RecordsKeepMatches(lib: Library, q: Query, sorted: seq<Entry>)
    ensures AllMatches(lib, q, Select(lib, q, sorted)) == RecordMatches(lib, q, Records(lib, q, sorted))
  {
    if sorted != [] {
      var n := |sorted|;
      var last := sorted[n - 1];
      RecordsKeepMatches(lib, q, sorted[..n - 1]);
      var earlier, records := Select(lib, q, sorted[..n - 1]), Records(lib, q, sorted[..n - 1]);
      var whole := Records(lib, q, sorted);
      assert whole[..|whole| - 1] == records;
      assert (earlier + [last])[..|earlier|] == earlier;
      assert AllMatches(lib, q, earlier + [last])
          == AllMatches(lib, q, earlier) + LineMatches(last.path, q.pattern, TextLines(lib, last));
      assert Select(lib, q, sorted) == if IsSelected(lib, q, last) then earlier + [last] else earlier;
    }
  }

  lemma {:induction false} SelectOrdered(lib: Library, q: Query, sorted: seq<Entry>)
    requires Ordered(sorted)
    ensures Ordered(Select(lib, q, sorted))
  {
    if sorted != [] {
      var n := |sorted|;
      SelectOrdered(lib, q, sorted[..n - 1]);
      forall e | e in Select(lib, q, sorted[..n - 1]) ensures Text.StringLe(e.path, sorted[n - 1].path) {
        SelectedFrom(lib, q, sorted[..n - 1], e);
      }
    }
  }

  lemma SelectionOfSorted(lib: Library, q: Query, root: Node)
    requires WellFormedRoot(root)
    ensures Select(lib, q, Sorted(All(root))) == SearchedFiles(lib, q, root)
  {
    var all := All(root);
    var a := Select(lib, q, Sorted(all));
    SelectPermuted(lib, q, Sorted(all), all);
    SortedOrdered(all);
    SelectOrdered(lib, q, Sorted(all));
    SortedOrdered(Select(lib, q, all));
    ListingPathsUnique(root);
    forall x, y | x in a && y in a && x.path == y.path ensures x == y {
      SelectedFrom(lib, q, Sorted(all), x);
      SelectedFrom(lib, q, Sorted(all), y);
      assert x in multiset(all) && y in multiset(all);
    }
    OrderedUnique(a, SearchedFiles(lib, q, root));
  }

  /**
   Two complete snapshots of one query with equal digests expect the same matches, provided
   the digest does not collide on the two record lists.
   */
  lemma EqualDigestsEqualMatches(lib: Library, q: Query, before: Node, after: Node)
    requires WellFormedRoot(before) && WellFormedRoot(after)
    requires (lib.digest)(q, SpecRecords(lib, q, before)) == (lib.digest)(q, SpecRecords(lib, q, after))
      ==> SpecRecords(lib, q, before) == SpecRecords(lib, q, after)
    requires (lib.digest)(q, SpecRecords(lib, q, before)) == (lib.digest)(q, SpecRecords(lib, q, after))
    ensures SpecMatches(lib, q, before) == SpecMatches(lib, q, after)
  {
    SelectionOfSorted(lib, q, before);
    SelectionOfSorted(lib, q, after);
    RecordsKeepMatches(lib, q, Sorted(All(before)));
    RecordsKeepMatches(lib, q, Sorted(All(after)));
  }
}
