/** The controller's required probes: which are still unmet by the history of executed actions. */
module RequiredProbes {
  import opened Common
  import opened WriteReadVerdict
  import Text

  datatype Probe = Probe(
    tool: string, filePath: string, classification: string,
    errorContains: Option<string>, pattern: Option<string>, directoryPath: Option<string>, glob: Option<string>)

  /** An optional probe field compares equal to a missing or null argument when it is `None`. */
  function FieldJson(field: Option<string>): Json {
    if field.Some? then Str(field.value) else Null
  }

  predicate SameIdentity(probe: Probe, arguments: Json)
    requires arguments.Obj?
  {
    if probe.tool == "search_text" then
      && arguments.Get("pattern") == FieldJson(probe.pattern)
      && arguments.Get("directory_path") == FieldJson(probe.directoryPath)
      && arguments.Get("glob") == FieldJson(probe.glob)
    else
      arguments.Get(
        if probe.tool == "list_dir" then "directory_path"
        else if probe.tool == "glob_files" then "pattern"
        else "file_path")
      == Str(probe.filePath)
  }

  predicate SearchProven(observation: Json, outcome: Json)
    requires observation.Obj? && outcome.Obj?
  {
    var verification := observation.Get("search_verification");
    && outcome.Get("truncated").IsFalse() && outcome.Get("fixture_truncated").IsFalse()
    && verification.Obj? && verification.Get("verified").IsTrue()
  }

  predicate OutcomeMeets(probe: Probe, observation: Json, outcome: Json)
    requires observation.Obj? && outcome.Obj?
  {
    && outcome.Get("ambiguous").IsFalse()
    && if probe.classification == "expected_success" then
         outcome.Get("success").IsTrue() && (probe.tool == "search_text" ==> SearchProven(observation, outcome))
       else
         outcome.Get("success").IsFalse() && outcome.Get("error").Str?
         && probe.errorContains.Some? && Text.Contains(outcome.Get("error").s, probe.errorContains.value)
  }

  /** An unambiguous execution of the probe's own call, with the outcome that the probe asks for. */
  predicate Satisfies(entry: Entry, probe: Probe) {
    var action, observation := Obj(entry).Get("action"), Obj(entry).Get("observation");
    && action.Obj? && observation.Obj?
    && var call := action.Get("tool_call");
       && call.Obj? && call.Get("name") == Str(probe.tool) && call.Get("arguments").Obj?
       && SameIdentity(probe, call.Get("arguments"))
       && observation.Get("classification") == Str(probe.classification)
       && observation.Get("tool_outcome").Obj?
       && OutcomeMeets(probe, observation, observation.Get("tool_outcome"))
  }

  predicate IsMet(probe: Probe, history: seq<Entry>) {
    exists entry :: entry in history && Satisfies(entry, probe)
  }

  /** The probes, in order, that no entry satisfies. */
  function Unmet(probes: seq<Probe>, history: seq<Entry>): seq<Probe> {
    if probes == [] then []
    else
      var last := probes[|probes| - 1];
      Unmet(probes[..|probes| - 1], history) + if IsMet(last, history) then [] else [last]
  }

  /** The inner loop body for one entry: the source's checks in its order. */
  method Matches(probe: Probe, entry: Entry) returns (matched: bool)
    ensures matched <==> Satisfies(entry, probe)
  {
    var action, observation := Obj(entry).Get("action"), Obj(entry).Get("observation");
    if !action.Obj? || !observation.Obj? {
      return false;
    }
    var call := action.Get("tool_call");
    if !call.Obj? {
      return false;
    }
    var arguments := call.Get("arguments");
    if call.Get("name") != Str(probe.tool) || !arguments.Obj? {
      return false;
    }
    if !SameIdentity(probe, arguments) || observation.Get("classification") != Str(probe.classification) {
      return false;
    }
    var outcome := observation.Get("tool_outcome");
    if !outcome.Obj? || !outcome.Get("ambiguous").IsFalse() {
      return false;
    }
    var succeeded := outcome.Get("success");
    if probe.classification == "expected_success" {
      if probe.tool == "search_text" {
        if !SearchProven(observation, outcome) {
          return false;
        }
      }
      matched := succeeded.IsTrue();
    } else {
      var error := outcome.Get("error");
      matched := succeeded.IsFalse() && error.Str? && probe.errorContains.Some?
        && Text.Contains(error.s, probe.errorContains.value);
    }
  }

  /** The inner loop: it stops at the first entry that satisfies the probe. */
  method AnyMatches(probe: Probe, history: seq<Entry>) returns (matched: bool)
    ensures matched <==> IsMet(probe, history)
  {
    matched := false;
    for k := 0 to |history|
      invariant !matched && !IsMet(probe, history[..k])
    {
      matched := Matches(probe, history[k]);
      if matched {
        return;
      }
      assert history[..k + 1] == history[..k] + [history[k]];
      MetByEither(probe, history[..k], [history[k]]);
    }
    assert history[..|history|] == history;
  }

  /** `_unmet_required_probes`. */
  method UnmetRequiredProbes(probes: seq<Probe>, history: seq<Entry>) returns (unmet: seq<Probe>)
    ensures unmet == Unmet(probes, history)
  {
    unmet := [];
    for i := 0 to |probes|
      invariant unmet == Unmet(probes[..i], history)
    {
      var matched := AnyMatches(probes[i], history);
      UnmetAppend(probes[..i], probes[i], history);
      assert probes[..i + 1] == probes[..i] + [probes[i]];
      if !matched {
        unmet := unmet + [probes[i]];
      }
    }
    assert probes[..|probes|] == probes;
  }

  /** Exactly the probes without a satisfying entry are listed. */
  lemma {:induction false} UnmetExactly(probes: seq<Probe>, history: seq<Entry>, probe: Probe)
    ensures probe in Unmet(probes, history) <==> probe in probes && !IsMet(probe, history)
  {
    if probes != [] {
      UnmetExactly(probes[..|probes| - 1], history, probe);
      assert probes == probes[..|probes| - 1] + [probes[|probes| - 1]];
    }
  }

  lemma MetByEither(probe: Probe, a: seq<Entry>, b: seq<Entry>)
    ensures IsMet(probe, a + b) <==> IsMet(probe, a) || IsMet(probe, b)
  {
    assert forall entry :: entry in a + b <==> entry in a || entry in b;
  }

  /**
   Reading more history only strikes out probes, and keeps the order of those that are left:
   the new list is the old list filtered by the new entries.
   */
  lemma {:induction false} UnmetShrinks(probes: seq<Probe>, history: seq<Entry>, more: seq<Entry>)
    ensures Unmet(probes, history + more) == Unmet(Unmet(probes, history), more)
    ensures |Unmet(probes, history + more)| <= |Unmet(probes, history)|
  {
    if probes != [] {
      var n := |probes|;
      var last, front := probes[n - 1], Unmet(probes[..n - 1], history);
      UnmetShrinks(probes[..n - 1], history, more);
      MetByEither(last, history, more);
      UnmetAppend(front, last, more);
      assert front + [] == front && Unmet(front, more) + [] == Unmet(front, more);
    }
    UnmetNoLonger(Unmet(probes, history), more);
  }

  lemma UnmetAppend(probes: seq<Probe>, probe: Probe, history: seq<Entry>)
    ensures Unmet(probes + [probe], history) == Unmet(probes, history) + if IsMet(probe, history) then [] else [probe]
  {
    assert (probes + [probe])[..|probes|] == probes;
  }

  lemma {:induction false} UnmetNoLonger(probes: seq<Probe>, history: seq<Entry>)
    ensures |Unmet(probes, history)| <= |probes|
  {
    if probes != [] {
      UnmetNoLonger(probes[..|probes| - 1], history);
    }
  }
}
