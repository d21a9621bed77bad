/** The controller's scan for a verified write and read of one file. */
module WriteReadVerdict {
  import opened Common

  /** One history entry: an executed action and what was observed of it. */
  type Entry = map<string, Json>

  /** What the scan reads from an entry that has the expected shape. */
  datatype Attempt = Attempt(tool: Json, path: Json, classification: Json, succeeded: bool, before: Json, after: Json)

  function AttemptOf(entry: Entry): Option<Attempt> {
    var e := Obj(entry);
    var action, observation := e.Get("action"), e.Get("observation");
    if !action.Obj? || !observation.Obj? then None
    else
      var call := action.Get("tool_call");
      if !call.Obj? || !call.Get("arguments").Obj? || !call.Get("arguments").Get("file_path").IsString() then None
      else
        var outcome := observation.Get("tool_outcome");
        Some(Attempt(call.Get("name"), call.Get("arguments").Get("file_path"), observation.Get("classification"),
                     outcome.Obj? && outcome.Get("success").IsTrue(),
                     observation.Get("target_before_sha256"), observation.Get("target_after_sha256")))
  }

  /** The history as the scan reads it: nothing where an entry does not have the shape. */
  type Trace = seq<Option<Attempt>>

  function TraceOf(history: seq<Entry>): (trace: Trace)
    ensures |trace| == |history|
  {
    seq(|history|, i requires 0 <= i < |history| => AttemptOf(history[i]))
  }

  predicate IsWrite(a: Option<Attempt>, path: Json) {
    a.Some? && a.value.tool == Str("write_file") && a.value.path == path
  }

  /** A successful write of `path` that left content with this full digest. */
  predicate GoodWrite(a: Option<Attempt>, path: Json, digest: string) {
    && IsWrite(a, path)
    && a.value.classification == Str("expected_success") && a.value.succeeded
    && a.value.after == Str(digest) && |digest| == 64
  }

  /** A refused write that found and left content with this digest. */
  predicate HarmlessRefusal(a: Option<Attempt>, path: Json, digest: string) {
    && IsWrite(a, path)
    && a.value.classification == Str("expected_refusal") && !a.value.succeeded
    && a.value.before == a.value.after == Str(digest)
  }

  predicate GoodRead(a: Option<Attempt>, path: Json, digest: string) {
    && a.Some? && a.value.tool == Str("read_file") && a.value.path == path
    && a.value.classification == Str("expected_success") && a.value.succeeded
    && a.value.before == a.value.after == Str(digest)
  }

  predicate Harmless(a: Option<Attempt>, path: Json, digest: string) {
    IsWrite(a, path) ==> HarmlessRefusal(a, path, digest)
  }

  /** Entry `i` wrote this digest to the path and nothing before entry `n` may have changed it. */
  ghost predicate WrittenAt(trace: Trace, i: nat, n: nat, path: Json, digest: string) {
    && i < n <= |trace|
    && GoodWrite(trace[i], path, digest)
    && forall k :: i < k < n ==> Harmless(trace[k], path, digest)
  }

  ghost predicate Live(trace: Trace, n: nat, path: Json, digest: string) {
    exists i: nat :: WrittenAt(trace, i, n, path, digest)
  }

  /** A good write, then a good read of the same path and digest, and only harmless refusals of that path
    * between them. */
  ghost predicate RoundTrip(trace: Trace, j: nat, path: Json, digest: string) {
    j < |trace| && Live(trace, j, path, digest) && GoodRead(trace[j], path, digest)
  }

  ghost predicate IsVerified(history: seq<Entry>) {
    exists j: nat, path, digest :: RoundTrip(TraceOf(history), j, path, digest)
  }

  lemma LiveStep(trace: Trace, n: nat, path: Json, digest: string)
    requires n < |trace|
    ensures Live(trace, n + 1, path, digest)
      <==> GoodWrite(trace[n], path, digest) || (Live(trace, n, path, digest) && Harmless(trace[n], path, digest))
  {
    var m := n + 1;
    if i: nat :| WrittenAt(trace, i, m, path, digest) {
      assert i < n ==> WrittenAt(trace, i, n, path, digest);
    }
    if GoodWrite(trace[n], path, digest) {
      assert WrittenAt(trace, n, m, path, digest);
    }
    if i: nat :| WrittenAt(trace, i, n, path, digest) {
      assert Harmless(trace[n], path, digest) ==> WrittenAt(trace, i, m, path, digest);
    }
  }

  predicate Holds(writes: map<Json, string>, path: Json, digest: string) {
    path in writes && writes[path] == digest
  }

  /** `writes` holds, for each path, the digest that its last write left, while that is known. */
  ghost predicate Tracks(writes: map<Json, string>, trace: Trace, n: nat) {
    forall path, digest :: Holds(writes, path, digest) <==> Live(trace, n, path, digest)
  }

  function AfterWrite(writes: map<Json, string>, a: Attempt): map<Json, string> {
    if a.classification == Str("expected_success") && a.succeeded && a.after.Str? && |a.after.s| == 64
    then (writes - {a.path})[a.path := a.after.s] else writes - {a.path}
  }

  lemma TracksOther(writes: map<Json, string>, trace: Trace, n: nat)
    requires n < |trace| && Tracks(writes, trace, n)
    requires trace[n].Some? ==> trace[n].value.tool != Str("write_file")
    ensures Tracks(writes, trace, n + 1)
  {
    forall path, digest ensures Holds(writes, path, digest) <==> Live(trace, n + 1, path, digest) {
      LiveStep(trace, n, path, digest);
    }
  }

  lemma TracksRefusal(writes: map<Json, string>, trace: Trace, n: nat, path: Json)
    requires n < |trace| && Tracks(writes, trace, n)
    requires path in writes && HarmlessRefusal(trace[n], path, writes[path])
    ensures Tracks(writes, trace, n + 1)
  {
    forall p, d ensures Holds(writes, p, d) <==> Live(trace, n + 1, p, d) {
      LiveStep(trace, n, p, d);
      assert Holds(writes, p, d) <==> Live(trace, n, p, d);
    }
  }

  lemma TracksWrite(writes: map<Json, string>, trace: Trace, n: nat, path: Json)
    requires n < |trace| && Tracks(writes, trace, n)
    requires IsWrite(trace[n], path) && !(path in writes && HarmlessRefusal(trace[n], path, writes[path]))
    ensures Tracks(AfterWrite(writes, trace[n].value), trace, n + 1)
  {
    var next := AfterWrite(writes, trace[n].value);
    forall p, d ensures Holds(next, p, d) <==> Live(trace, n + 1, p, d) {
      LiveStep(trace, n, p, d);
      assert Holds(writes, p, d) <==> Live(trace, n, p, d);
    }
  }

  /** What one write does to the digests: nothing if it was a refusal that left the known content. */
  method NoteWrite(writes: map<Json, string>, a: Attempt) returns (noted: map<Json, string>)
    ensures noted == if a.path in writes && IsKnownRefusal(a, writes[a.path]) then writes else AfterWrite(writes, a)
  {
    noted := writes;
    if a.classification == Str("expected_refusal") && !a.succeeded && a.path in writes
       && a.before == Str(writes[a.path]) && a.after == Str(writes[a.path])
    {
      return;
    }
    noted := noted - {a.path};
    if a.classification == Str("expected_success") && a.succeeded {
      if a.after.Str? && |a.after.s| == 64 {
        noted := noted[a.path := a.after.s];
      }
    }
  }

  predicate IsKnownRefusal(a: Attempt, digest: string) {
    a.classification == Str("expected_refusal") && !a.succeeded && a.before == a.after == Str(digest)
  }

  lemma TracksNoted(writes: map<Json, string>, trace: Trace, n: nat)
    requires n < |trace| && Tracks(writes, trace, n)
    requires trace[n].Some? && trace[n].value.tool == Str("write_file")
    ensures var a := trace[n].value;
      Tracks(if a.path in writes && IsKnownRefusal(a, writes[a.path]) then writes else AfterWrite(writes, a),
             trace, n + 1)
  {
    var path := trace[n].value.path;
    if path in writes && IsKnownRefusal(trace[n].value, writes[path]) {
      TracksRefusal(writes, trace, n, path);
    } else {
      TracksWrite(writes, trace, n, path);
    }
  }

  lemma ReadDecides(writes: map<Json, string>, trace: Trace, n: nat, path: Json, digest: string)
    requires n < |trace| && Tracks(writes, trace, n)
    ensures RoundTrip(trace, n, path, digest) <==> Holds(writes, path, digest) && GoodRead(trace[n], path, digest)
  {
    assert Holds(writes, path, digest) <==> Live(trace, n, path, digest);
  }

  /** `_has_verified_write_read`: true exactly when the history holds a verified round trip. */
  method HasVerifiedWriteRead(history: seq<Entry>) returns (verified: bool)
    ensures verified <==> IsVerified(history)
  {
    var trace := TraceOf(history);
    var writes: map<Json, string> := map[];
    for n := 0 to |trace|
      invariant Tracks(writes, trace, n)
      invariant forall j: nat, path, digest :: j < n ==> !RoundTrip(trace, j, path, digest)
    {
      forall path, digest
        ensures RoundTrip(trace, n, path, digest) <==> Holds(writes, path, digest) && GoodRead(trace[n], path, digest) {
        ReadDecides(writes, trace, n, path, digest);
      }
      if trace[n].Some? && trace[n].value.tool == Str("write_file") {
        TracksNoted(writes, trace, n);
        writes := NoteWrite(writes, trace[n].value);
      } else {
        TracksOther(writes, trace, n);
        if trace[n].Some? && trace[n].value.tool == Str("read_file") && trace[n].value.path in writes {
          var a := trace[n].value;
          if a.classification == Str("expected_success") && a.succeeded
             && a.before == Str(writes[a.path]) && a.after == Str(writes[a.path])
          {
            assert RoundTrip(trace, n, a.path, writes[a.path]);
            return true;
          }
        }
      }
    }
    verified := false;
  }

  /** Further history never takes a verdict back. */
  lemma VerifiedStays(history: seq<Entry>, more: seq<Entry>)
    requires IsVerified(history)
    ensures IsVerified(history + more)
  {
    var j: nat, path, digest :| RoundTrip(TraceOf(history), j, path, digest);
    TraceKeeps(TraceOf(history), TraceOf(history + more), j, path, digest);
  }

  lemma TraceKeeps(a: Trace, b: Trace, j: nat, path: Json, digest: string)
    requires a <= b && RoundTrip(a, j, path, digest)
    ensures RoundTrip(b, j, path, digest)
  {
    var i: nat :| WrittenAt(a, i, j, path, digest);
    assert WrittenAt(b, i, j, path, digest);
  }
}
