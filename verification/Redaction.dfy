/** Hiding a run's paths from model context: replacement in every nested string, one path after another. */
module Redaction {
  import opened Common
  import opened Text

  const REPLACEMENT := "[run path redacted]"

  /** `text.replace(path, REPLACEMENT)` for a non-empty path: leftmost, non-overlapping. */
  function Replace(text: string, path: string): string
    requires path != ""
  {
    if text == "" then ""
    else if path <= text then REPLACEMENT + Replace(text[|path|..], path)
    else [text[0]] + Replace(text[1..], path)
  }

  function RedactText(text: string, paths: seq<string>): string {
    if paths == [] then text
    else
      var last := paths[|paths| - 1];
      var earlier := RedactText(text, paths[..|paths| - 1]);
      if last == "" then earlier else Replace(earlier, last)
  }

  function Redact(value: Json, paths: seq<string>): Json
    decreases value
  {
    match value
    case Str(s) => Str(RedactText(s, paths))
    case Arr(items) => Arr(seq(|items|, i requires 0 <= i < |items| => Redact(items[i], paths)))
    case Obj(fields) => Obj(map key | key in fields :: Redact(fields[key], paths))
    case _ => value
  }

  /** The loop over the run paths. */
  method RedactString(text: string, paths: seq<string>) returns (redacted: string)
    ensures redacted == RedactText(text, paths)
  {
    redacted := text;
    for i := 0 to |paths|
      invariant redacted == RedactText(text, paths[..i])
    {
      assert paths[..i + 1][..i] == paths[..i];
      if paths[i] != "" {
        redacted := Replace(redacted, paths[i]);
      }
    }
    assert paths[..|paths|] == paths;
  }

  /* When a path can survive its own replacement. */

  /** From here on the path reads like the replacement, as far as both go. */
  predicate Meets(tail: string) {
    tail != "" && (tail <= REPLACEMENT || REPLACEMENT <= tail)
  }

  /** A replacement may complete a beginning of the path that stands before it. */
  predicate Leaks(path: string) {
    exists k :: 0 < k < |path| && Meets(path[k..])
  }

  predicate IsAbsolute(path: string) {
    path != "" && path[0] == '/'
  }

  predicate IsSafe(path: string) {
    IsAbsolute(path) && !Leaks(path)
  }

  lemma ReplacementHasNoSlash()
    ensures '/' !in REPLACEMENT && |REPLACEMENT| == 19 && REPLACEMENT[0] == '['
  {
  }

  /** What a replaced text starts with, its own text started with, or a replacement completes it. */
  lemma {:induction false} PrefixOfReplaced(text: string, path: string, q: string)
    requires path != "" && q <= Replace(text, path)
    ensures q <= text || exists k :: 0 <= k < |q| && Meets(q[k..])
  {
    if q != "" && text != "" {
      if path <= text {
        assert q <= REPLACEMENT || REPLACEMENT <= q;
        assert q[0..] == q;
      } else {
        assert Replace(text, path)[1..] == Replace(text[1..], path);
        PrefixOfReplaced(text[1..], path, q[1..]);
        if k :| 0 <= k < |q[1..]| && Meets(q[1..][k..]) {
          assert q[k + 1..] == q[1..][k..];
        }
      }
    }
  }

  lemma ContainedLater(text: string, front: string, q: string)
    requires Contains(text, q)
    ensures Contains(front + text, q)
  {
    var i :| 0 <= i <= |text| && q <= text[i..];
    assert (front + text)[|front| + i..] == text[i..];
  }

  lemma OccursLater(front: string, rest: string, q: string, i: nat)
    requires |front| <= i <= |front + rest| && q <= (front + rest)[i..]
    ensures Contains(rest, q)
  {
    assert (front + rest)[i..] == rest[i - |front|..];
  }

  lemma SafeNeverMeets(q: string, k: nat)
    requires IsSafe(q) && k < |q|
    ensures !Meets(q[k..])
  {
    ReplacementHasNoSlash();
    assert q[0..] == q;
  }

  /** A safe path at the very start of a replaced text was at the start of the text. */
  lemma OccursFirst(text: string, path: string, q: string)
    requires path != "" && IsSafe(q) && text != "" && !(path <= text) && q <= Replace(text, path)
    ensures q <= text
  {
    PrefixOfReplaced(text, path, q);
    forall k: nat | k < |q| ensures !Meets(q[k..]) {
      SafeNeverMeets(q, k);
    }
  }

  /** No absolute path starts within a replacement. */
  lemma NotInReplacement(rest: string, q: string)
    requires IsAbsolute(q) && Contains(REPLACEMENT + rest, q)
    ensures Contains(rest, q)
  {
    ReplacementHasNoSlash();
    var i :| 0 <= i <= |REPLACEMENT + rest| && q <= (REPLACEMENT + rest)[i..];
    assert (REPLACEMENT + rest)[i] == '/';
    OccursLater(REPLACEMENT, rest, q, i);
  }

  lemma NotAtStart(c: char, rest: string, q: string)
    requires Contains([c] + rest, q) && !(q <= [c] + rest)
    ensures Contains(rest, q)
  {
    var i :| 0 <= i <= |[c] + rest| && q <= ([c] + rest)[i..];
    assert ([c] + rest)[0..] == [c] + rest;
    OccursLater([c], rest, q, i);
  }

  /** One step of a replacement: it takes a path off the front, or passes one character. */
  lemma ReplaceStep(text: string, path: string)
    requires path != "" && text != ""
    ensures path <= text ==> Replace(text, path) == REPLACEMENT + Replace(text[|path|..], path)
    ensures !(path <= text) ==> Replace(text, path) == [text[0]] + Replace(text[1..], path)
  {
  }

  lemma ContainedInTail(text: string, n: nat, q: string)
    requires n <= |text| && Contains(text[n..], q)
    ensures Contains(text, q)
  {
    assert text == text[..n] + text[n..];
    ContainedLater(text[n..], text[..n], q);
  }

  /** A safe path in a replaced text was in the text before. */
  lemma {:induction false} ReplaceCreatesNoSafe(text: string, path: string, q: string)
    requires path != "" && IsSafe(q) && Contains(Replace(text, path), q)
    ensures Contains(text, q)
  {
    if text != "" {
      ReplaceStep(text, path);
      if path <= text {
        NotInReplacement(Replace(text[|path|..], path), q);
        ReplaceCreatesNoSafe(text[|path|..], path, q);
        ContainedInTail(text, |path|, q);
      } else if q <= Replace(text, path) {
        OccursFirst(text, path, q);
        StartIsContained(text, q);
      } else {
        NotAtStart(text[0], Replace(text[1..], path), q);
        ReplaceCreatesNoSafe(text[1..], path, q);
        ContainedInTail(text, 1, q);
      }
    }
  }

  /** A safe path does not survive its own replacement. */
  lemma {:induction false} SafeIsRemoved(text: string, q: string)
    requires IsSafe(q)
    ensures !Contains(Replace(text, q), q)
  {
    if text != "" && Contains(Replace(text, q), q) {
      ReplaceStep(text, q);
      if q <= text {
        NotInReplacement(Replace(text[|q|..], q), q);
        SafeIsRemoved(text[|q|..], q);
      } else if q <= Replace(text, q) {
        OccursFirst(text, q, q);
      } else {
        NotAtStart(text[0], Replace(text[1..], q), q);
        SafeIsRemoved(text[1..], q);
      }
    }
  }

  lemma ReplacedAtStart(path: string, z: string)
    requires path != "" && |z| < |path|
    ensures Replace(path + z, path) == REPLACEMENT + z
  {
    assert (path + z)[|path|..] == z && path <= path + z;
    ShortUnchanged(z, path);
  }

  lemma LeakCompletes(path: string, k: nat, z: string)
    requires 0 < k < |path| && path[k..] <= REPLACEMENT + z
    ensures path <= path[..k] + (REPLACEMENT + z)
  {
    assert path == path[..k] + path[k..];
  }

  /** What must follow a leaking path so that the replacement and it together read as the path's tail. */
  function LeakRest(tail: string): string {
    if REPLACEMENT <= tail then tail[|REPLACEMENT|..] else ""
  }

  /** A text in which the path, leaking at `k`, survives its own replacement. */
  function LeakText(path: string, k: nat): string
    requires k <= |path|
  {
    path[..k] + path + LeakRest(path[k..])
  }

  function LeakResult(path: string, k: nat): string
    requires k <= |path|
  {
    path[..k] + (REPLACEMENT + LeakRest(path[k..]))
  }

  lemma LeakTail(w: string)
    requires Meets(w)
    ensures |LeakRest(w)| <= |w| && w[0] == '[' && w <= REPLACEMENT + LeakRest(w)
  {
    ReplacementHasNoSlash();
    if REPLACEMENT <= w {
      assert w == REPLACEMENT + LeakRest(w);
    } else {
      assert REPLACEMENT + LeakRest(w) == REPLACEMENT;
    }
  }

  /** A path that leaks survives when its text is preceded by its own beginning. */
  lemma LeakSurvives(path: string, k: nat)
    requires IsAbsolute(path) && 0 < k < |path| && Meets(path[k..])
    ensures Replace(LeakText(path, k), path) == LeakResult(path, k) && Contains(LeakResult(path, k), path)
  {
    LeakTail(path[k..]);
    SurvivingText(path, k, LeakRest(path[k..]));
  }

  lemma SurvivingText(path: string, k: nat, z: string)
    requires IsAbsolute(path) && 0 < k < |path| && path[k] == '[' && |z| < |path| && path[k..] <= REPLACEMENT + z
    ensures Replace(path[..k] + path + z, path) == path[..k] + (REPLACEMENT + z)
    ensures Contains(path[..k] + (REPLACEMENT + z), path)
  {
    var text := path[..k] + path + z;
    assert text[..k] == path[..k] && text[k..] == path + z;
    forall i | 0 <= i < k ensures !(path <= text[i..]) {
      NotInBeginning(path, k, text, i);
    }
    SkipPrefix(text, path, k);
    ReplacedAtStart(path, z);
    LeakCompletes(path, k, z);
    StartIsContained(path[..k] + (REPLACEMENT + z), path);
  }

  /** No occurrence of the path starts within its own repeated beginning. */
  lemma NotInBeginning(path: string, k: nat, text: string, i: nat)
    requires IsAbsolute(path) && 0 < k < |path| && path[k] == '[' && i < k
    requires path[..k] + path <= text
    ensures !(path <= text[i..])
  {
    assert text[i] == path[..k][i] == path[i];
    assert text[k + i] == path[i];
    assert text[i..][0] == text[i] && text[i..][k] == text[i + k];
  }

  lemma TailSlices(text: string, n: nat)
    requires 0 < n <= |text|
    ensures text[1..][n - 1..] == text[n..] && [text[0]] + text[1..][..n - 1] == text[..n]
    ensures forall i :: 0 <= i < n - 1 ==> text[1..][i..] == text[i + 1..]
  {
  }

  lemma {:induction false} SkipPrefix(text: string, path: string, n: nat)
    requires path != "" && n <= |text| && forall i :: 0 <= i < n ==> !(path <= text[i..])
    ensures Replace(text, path) == text[..n] + Replace(text[n..], path)
  {
    assert text[0..] == text;
    if n > 0 {
      TailSlices(text, n);
      assert Replace(text, path) == [text[0]] + Replace(text[1..], path);
      SkipPrefix(text[1..], path, n - 1);
      var rest := Replace(text[n..], path);
      assert [text[0]] + (text[1..][..n - 1] + rest) == [text[0]] + text[1..][..n - 1] + rest;
    }
  }

  lemma StartIsContained(text: string, q: string)
    requires q <= text
    ensures Contains(text, q)
  {
    assert text[0..] == text;
  }

  lemma {:induction false} ShortUnchanged(text: string, path: string)
    requires path != "" && |text| < |path|
    ensures Replace(text, path) == text
  {
    if text != "" {
      ShortUnchanged(text[1..], path);
      assert [text[0]] + text[1..] == text;
    }
  }

  predicate IsRemoved(text: string, path: string)
    requires path != ""
  {
    !Contains(Replace(text, path), path)
  }

  /** For an absolute path: replacing it removes it from every text exactly when it cannot leak. */
  lemma ReplaceRemovesExactly(path: string)
    requires IsAbsolute(path)
    ensures (forall text :: IsRemoved(text, path)) <==> !Leaks(path)
  {
    if Leaks(path) {
      var k :| 0 < k < |path| && Meets(path[k..]);
      LeakSurvives(path, k);
      assert !IsRemoved(LeakText(path, k), path);
    } else {
      forall text ensures IsRemoved(text, path) {
        SafeIsRemoved(text, path);
      }
    }
  }

  /** A path without an opening bracket cannot leak. */
  lemma PlainPathIsSafe(path: string)
    requires IsAbsolute(path) && '[' !in path
    ensures IsSafe(path)
  {
    forall k | 0 < k < |path| ensures !Meets(path[k..]) {
      assert path[k..][0] == path[k];
    }
  }

  /** Later replacements do not bring an earlier path back. */
  lemma {:induction false} TextIsClean(text: string, paths: seq<string>, q: string)
    requires q in paths && IsSafe(q)
    ensures !Contains(RedactText(text, paths), q)
  {
    var last, front := paths[|paths| - 1], paths[..|paths| - 1];
    if q in front {
      TextIsClean(text, front, q);
    }
    if last == q {
      SafeIsRemoved(RedactText(text, front), q);
    } else if last != "" && Contains(RedactText(text, paths), q) {
      ReplaceCreatesNoSafe(RedactText(text, front), last, q);
    }
  }

  predicate IsRedacted(text: string, paths: seq<string>, q: string) {
    !Contains(RedactText(text, paths), q)
  }

  /** No other path of the list reads into the texts by which this one could survive. */
  ghost predicate StandsAlone(paths: seq<string>, j: nat)
    requires j < |paths|
  {
    forall i, k :: 0 <= i < |paths| && i != j && paths[i] != "" && 0 < k < |paths[j]| && Meets(paths[j][k..]) ==>
      !Contains(LeakText(paths[j], k), paths[i]) && !Contains(LeakResult(paths[j], k), paths[i])
  }

  lemma {:induction false} RedactTextSplit(text: string, a: seq<string>, b: seq<string>)
    ensures RedactText(text, a + b) == RedactText(RedactText(text, a), b)
  {
    if b == [] {
      assert a + b == a;
    } else {
      assert (a + b)[..|a + b| - 1] == a + b[..|b| - 1];
      RedactTextSplit(text, a, b[..|b| - 1]);
    }
  }

  lemma RedactOne(text: string, path: string)
    requires path != ""
    ensures RedactText(text, [path]) == Replace(text, path)
  {
    assert [path][..0] == [] && RedactText(text, [path][..0]) == text;
  }

  /** The text by which a path survives its own replacement passes the rest of the list unchanged. */
  lemma LeakPasses(paths: seq<string>, j: nat, k: nat)
    requires j < |paths| && IsAbsolute(paths[j]) && StandsAlone(paths, j)
    requires 0 < k < |paths[j]| && Meets(paths[j][k..])
    ensures RedactText(LeakText(paths[j], k), paths) == LeakResult(paths[j], k)
  {
    var q, text, result := paths[j], LeakText(paths[j], k), LeakResult(paths[j], k);
    assert paths == paths[..j] + [q] + paths[j + 1..];
    RedactTextSplit(text, paths[..j] + [q], paths[j + 1..]);
    RedactTextSplit(text, paths[..j], [q]);
    forall p | p in paths[..j] && p != "" ensures !Contains(text, p) {
      var i :| 0 <= i < j && paths[i] == p;
    }
    CleanUnchanged(text, paths[..j]);
    RedactOne(text, q);
    LeakSurvives(q, k);
    forall p | p in paths[j + 1..] && p != "" ensures !Contains(result, p) {
      var i :| 0 <= i < |paths| - j - 1 && paths[j + 1..][i] == p;
      assert paths[j + 1 + i] == p;
    }
    CleanUnchanged(result, paths[j + 1..]);
  }

  /**
   For an absolute path of a list whose other paths do not read into it: redaction removes it from
   every text exactly when it cannot leak.
   */
  lemma ListRemovesExactly(paths: seq<string>, j: nat)
    requires j < |paths| && IsAbsolute(paths[j]) && StandsAlone(paths, j)
    ensures (forall text :: IsRedacted(text, paths, paths[j])) <==> !Leaks(paths[j])
  {
    if Leaks(paths[j]) {
      var k :| 0 < k < |paths[j]| && Meets(paths[j][k..]);
      LeakPasses(paths, j, k);
      LeakSurvives(paths[j], k);
      assert !IsRedacted(LeakText(paths[j], k), paths, paths[j]);
    } else {
      forall text ensures IsRedacted(text, paths, paths[j]) {
        TextIsClean(text, paths, paths[j]);
      }
    }
  }

  /* The run's two paths, when the other one is safe. */

  /** From `k` on a replacement may complete `q`, whose first `k` characters then stand before the replaced path. */
  predicate IsSource(text: string, path: string, q: string, k: nat) {
    k < |q| && Meets(q[k..]) && q[..k] + path <= text
  }

  lemma SourceShifts(text: string, path: string, q: string, k: nat)
    requires q != "" && text != "" && q[0] == text[0] && IsSource(text[1..], path, q[1..], k)
    ensures IsSource(text, path, q, k + 1)
  {
    assert q[k + 1..] == q[1..][k..];
    assert q[..k + 1] + path == [q[0]] + (q[1..][..k] + path);
    assert text == [text[0]] + text[1..];
  }

  /** What a replaced text starts with comes of the text, or of its own beginning and the replaced path after it. */
  lemma {:induction false} PrefixSource(text: string, path: string, q: string)
    requires path != "" && q <= Replace(text, path)
    ensures q <= text || exists k :: IsSource(text, path, q, k)
  {
    if q != "" && text != "" {
      ReplaceStep(text, path);
      if path <= text {
        assert q[0..] == q && q[..0] + path == path;
        assert IsSource(text, path, q, 0);
      } else {
        assert Replace(text, path)[1..] == Replace(text[1..], path);
        PrefixSource(text[1..], path, q[1..]);
        if k: nat :| IsSource(text[1..], path, q[1..], k) {
          SourceShifts(text, path, q, k);
        }
      }
    }
  }

  /** A path that survives its own replacement stood in the text after its own beginning. */
  lemma {:induction false} SurvivorSource(text: string, q: string)
    requires IsAbsolute(q) && Contains(Replace(text, q), q)
    ensures exists k :: 0 < k < |q| && Meets(q[k..]) && Contains(text, q[..k] + q)
  {
    if text != "" {
      ReplaceStep(text, q);
      if q <= text {
        NotInReplacement(Replace(text[|q|..], q), q);
        SurvivorSource(text[|q|..], q);
        var k :| 0 < k < |q| && Meets(q[k..]) && Contains(text[|q|..], q[..k] + q);
        ContainedInTail(text, |q|, q[..k] + q);
      } else if q <= Replace(text, q) {
        PrefixSource(text, q, q);
        var k: nat :| IsSource(text, q, q, k);
        assert q[..0] + q == q;
        StartIsContained(text, q[..k] + q);
      } else {
        NotAtStart(text[0], Replace(text[1..], q), q);
        SurvivorSource(text[1..], q);
        var k :| 0 < k < |q| && Meets(q[k..]) && Contains(text[1..], q[..k] + q);
        ContainedInTail(text, 1, q[..k] + q);
      }
    }
  }

  lemma ContainsTransitive(text: string, q: string, p: string)
    requires Contains(text, q) && Contains(q, p)
    ensures Contains(text, p)
  {
    var i :| 0 <= i <= |text| && q <= text[i..];
    var j :| 0 <= j <= |q| && p <= q[j..];
    assert text[i + j..] == text[i..][j..];
    assert p <= text[i + j..];
  }

  /** A path that starts within a text and goes on into a replacement after it leaks, or stands in the text. */
  lemma IntoReplacement(front: string, p: string, i: nat)
    requires i < |front| && p <= (front + REPLACEMENT)[i..]
    ensures Contains(front, p) || Leaks(p)
  {
    var k := |front| - i;
    assert (front + REPLACEMENT)[i..] == front[i..] + REPLACEMENT;
    if |p| <= k {
      assert p <= front[i..];
    } else {
      assert (front[i..] + REPLACEMENT)[k..] == REPLACEMENT;
      assert p[k..] <= REPLACEMENT && Meets(p[k..]);
    }
  }

  lemma InLeakResult(q: string, k: nat, p: string)
    requires 0 < k < |q| && Meets(q[k..]) && IsAbsolute(p) && Contains(LeakResult(q, k), p)
    ensures Contains(q, p) || Leaks(p)
  {
    ReplacementHasNoSlash();
    if REPLACEMENT <= q[k..] {
      assert LeakResult(q, k) == q;
    } else {
      assert LeakResult(q, k) == q[..k] + REPLACEMENT;
      var i :| 0 <= i <= |LeakResult(q, k)| && p <= LeakResult(q, k)[i..];
      assert LeakResult(q, k)[i] == '/';
      IntoReplacement(q[..k], p, i);
      if Contains(q[..k], p) {
        StartIsContained(q, q[..k]);
        ContainsTransitive(q, q[..k], p);
      }
    }
  }

  lemma RedactTwo(text: string, first: string, second: string)
    requires first != "" && second != ""
    ensures RedactText(text, [first, second]) == Replace(Replace(text, first), second)
  {
    assert [first, second][..1] == [first];
    RedactOne(text, first);
  }

  /**
   The first of two paths, when the second is safe, is removed from every text exactly when it cannot leak or
   holds the second.
   */
  lemma FirstRemovedExactly(q: string, p: string)
    requires IsAbsolute(q) && IsSafe(p)
    ensures (forall text :: IsRedacted(text, [q, p], q)) <==> !Leaks(q) || Contains(q, p)
  {
    if !Leaks(q) || Contains(q, p) {
      forall text ensures IsRedacted(text, [q, p], q) {
        if !Leaks(q) {
          TextIsClean(text, [q, p], q);
        } else if Contains(RedactText(text, [q, p]), q) {
          TextIsClean(text, [q, p], p);
          ContainsTransitive(RedactText(text, [q, p]), q, p);
        }
      }
    } else {
      var k :| 0 < k < |q| && Meets(q[k..]);
      LeakSurvives(q, k);
      if Contains(LeakResult(q, k), p) {
        InLeakResult(q, k, p);
        assert false;
      }
      AbsentUnchanged(LeakResult(q, k), p);
      RedactTwo(LeakText(q, k), q, p);
      assert !IsRedacted(LeakText(q, k), [q, p], q);
    }
  }

  /** The path leaks only by how it ends. */
  predicate LeaksAtEnd(q: string) {
    forall k :: 0 < k < |q| && Meets(q[k..]) ==> q[k..] <= REPLACEMENT
  }

  /** Wherever the path leaks, its beginning and itself after it hold the other one. */
  predicate IsCovered(q: string, p: string) {
    forall k :: 0 < k < |q| && Meets(q[k..]) ==> Contains(q[..k] + q, p)
  }

  /**
   The second of two paths, when the first is safe and the second leaks at most by how it ends, is removed from
   every text exactly when the first stands in each text that it would need to survive.
   */
  lemma LastRemovedExactly(p: string, q: string)
    requires IsAbsolute(q) && IsSafe(p) && LeaksAtEnd(q)
    ensures (forall text :: IsRedacted(text, [p, q], q)) <==> IsCovered(q, p)
  {
    if IsCovered(q, p) {
      forall text ensures IsRedacted(text, [p, q], q) {
        CoveredIsRemoved(text, p, q);
      }
    } else {
      var k :| 0 < k < |q| && Meets(q[k..]) && !Contains(q[..k] + q, p);
      LeakSurvives(q, k);
      assert LeakText(q, k) == q[..k] + q by {
        assert q[k..] <= REPLACEMENT;
        assert LeakRest(q[k..]) == "";
      }
      AbsentUnchanged(LeakText(q, k), p);
      RedactTwo(LeakText(q, k), p, q);
      assert !IsRedacted(LeakText(q, k), [p, q], q);
    }
  }

  lemma CoveredIsRemoved(text: string, p: string, q: string)
    requires IsAbsolute(q) && IsSafe(p) && IsCovered(q, p)
    ensures IsRedacted(text, [p, q], q)
  {
    RedactTwo(text, p, q);
    if Contains(Replace(Replace(text, p), q), q) {
      SurvivorSource(Replace(text, p), q);
      var k :| 0 < k < |q| && Meets(q[k..]) && Contains(Replace(text, p), q[..k] + q);
      SafeIsRemoved(text, p);
      ContainsTransitive(Replace(text, p), q[..k] + q, p);
    }
  }

  /** Somewhere in the value, under any lists and object values, is this string. */
  predicate HasString(value: Json, s: string) {
    match value
    case Str(t) => t == s
    case Arr(items) => exists i :: 0 <= i < |items| && HasString(items[i], s)
    case Obj(fields) => exists key :: key in fields && HasString(fields[key], s)
    case _ => false
  }

  /** Redaction leaves no safe run path in any string value at any depth. */
  lemma {:induction false} RedactedIsClean(value: Json, paths: seq<string>, q: string, s: string)
    requires q in paths && IsSafe(q) && HasString(Redact(value, paths), s)
    ensures !Contains(s, q)
    decreases value
  {
    match value
    case Str(t) => TextIsClean(t, paths, q);
    case Arr(items) =>
      var i :| 0 <= i < |items| && HasString(Redact(items[i], paths), s);
      RedactedIsClean(items[i], paths, q, s);
    case Obj(fields) =>
      var key :| key in fields && HasString(Redact(fields[key], paths), s);
      RedactedIsClean(fields[key], paths, q, s);
    case _ =>
  }

  /** A text that holds none of the paths is left alone. */
  lemma {:induction false} CleanUnchanged(text: string, paths: seq<string>)
    requires forall q :: q in paths && q != "" ==> !Contains(text, q)
    ensures RedactText(text, paths) == text
  {
    if paths != [] {
      CleanUnchanged(text, paths[..|paths| - 1]);
      if paths[|paths| - 1] != "" {
        AbsentUnchanged(text, paths[|paths| - 1]);
      }
    }
  }

  lemma {:induction false} AbsentUnchanged(text: string, path: string)
    requires path != "" && !Contains(text, path)
    ensures Replace(text, path) == text
  {
    if text != "" {
      assert text[0..] == text && !(path <= text);
      forall i | 0 <= i <= |text[1..]| ensures !(path <= text[1..][i..]) {
        assert text[1..][i..] == text[i + 1..];
      }
      AbsentUnchanged(text[1..], path);
      assert [text[0]] + text[1..] == text;
    }
  }

  /** Redacting again changes nothing: the redacted value holds no safe path. */
  lemma {:induction false} RedactIdempotent(value: Json, paths: seq<string>)
    requires forall q :: q in paths && q != "" ==> IsSafe(q)
    ensures Redact(Redact(value, paths), paths) == Redact(value, paths)
    decreases value
  {
    match value
    case Str(t) =>
      forall q | q in paths && q != "" ensures !Contains(RedactText(t, paths), q) {
        TextIsClean(t, paths, q);
      }
      CleanUnchanged(RedactText(t, paths), paths);
    case Arr(items) =>
      forall i | 0 <= i < |items| ensures Redact(Redact(items[i], paths), paths) == Redact(items[i], paths) {
        RedactIdempotent(items[i], paths);
      }
    case Obj(fields) =>
      forall key | key in fields ensures Redact(Redact(fields[key], paths), paths) == Redact(fields[key], paths) {
        RedactIdempotent(fields[key], paths);
      }
    case _ =>
  }

  /** A leaking path, and a relative one: both are still there after their own replacement. */
  lemma UnsafeSurvive()
    ensures IsAbsolute("/a[r") && Contains(Replace("/a/a[r", "/a[r"), "/a[r")
    ensures Contains(Replace("run path", "run path"), "run path")
  {
    var path, text := "/a[r", "/a/a[r";
    assert text[1..] == "a/a[r" && text[1..][1..] == "/a[r" && "/a[r"[4..] == "";
    assert Replace(text[1..], path) == ['a'] + Replace("/a[r", path);
    assert Replace(text, path) == "/a" + REPLACEMENT;
    assert path <= ("/a" + REPLACEMENT)[0..];
    assert Replace("run path", "run path") == REPLACEMENT by {
      assert "run path"[8..] == "";
    }
    assert "run path" <= REPLACEMENT[1..];
  }
}
