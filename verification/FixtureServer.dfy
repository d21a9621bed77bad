/** The fixture provider: from its counters, one armed step's completions are answered by position. */
module FixtureServer {
  import opened Common
  import opened ActionParsing
  import SearchSnapshot

  const MAX_PROVIDER_BODY_BYTES := 2 * 1024 * 1024

  /** A POST as the handler first sees it: an unreadable length or body is `None`. */
  datatype Http = Http(path: string, contentLength: Option<int>, body: Option<Json>)

  datatype Exchange = Listing(path: string) | Completion(payload: Json)

  datatype Reply = Status(code: nat) | Refused | ToolCall(callId: string, tool: string, arguments: Json) | Final

  /** Reading a tool result out of a follow-up request, and the search schema check. */
  datatype Reading = Reading(
    extract: (Json, string, string) -> Option<map<string, Json>>,
    schemaMatches: (Json, Json) -> bool)

  /* What one armed step's completions amount to. */

  predicate Offers(payload: Json, name: string) {
    && payload.Obj? && payload.Get("tools").Arr?
    && exists tool :: tool in payload.Get("tools").items && tool.Obj? && tool.Get("function").Obj?
                      && tool.Get("function").Get("name") == Str(name)
  }

  predicate OffersRequested(action: StepRequest, payload: Json) {
    Offers(payload, ToolName(action.tool))
  }

  predicate NeedsDiscovery(action: StepRequest, payload: Json) {
    && !OffersRequested(action, payload)
    && (action.tool.GlobFiles? || action.tool.SearchText?)
    && Offers(payload, "search_tools")
  }

  function DiscoveryId(callId: string): string {
    callId + "-discover"
  }

  predicate Activated(reading: Reading, action: StepRequest, callId: string, payload: Json) {
    var outcome := reading.extract(payload, DiscoveryId(callId), "search_tools");
    && OffersRequested(action, payload)
    && outcome.Some? && Obj(outcome.value).Get("success").IsTrue()
    && (action.tool.SearchText? ==>
         Obj(outcome.value).Get("truncated").IsFalse()
         && reading.schemaMatches(Obj(outcome.value).Get("output"), payload))
  }

  datatype ArmedStep = ArmedStep(reading: Reading, action: StepRequest, callId: string)
  {
    predicate Discovers(payloads: seq<Json>) {
      payloads != [] && NeedsDiscovery(action, payloads[0])
    }

    /** The position of the completion that should carry the tool's result. */
    function ResultAt(payloads: seq<Json>): nat {
      if Discovers(payloads) then 2 else 1
    }

    function Extracted(payload: Json): Option<map<string, Json>> {
      reading.extract(payload, callId, ToolName(action.tool))
    }

    function RecordedOutcome(payloads: seq<Json>): Option<map<string, Json>> {
      if |payloads| > ResultAt(payloads) then Extracted(payloads[ResultAt(payloads)]) else None
    }

    /** The completions so far are a beginning of call, result or of discover, call, result. */
    predicate Clean(payloads: seq<Json>) {
      payloads != [] ==>
        && (OffersRequested(action, payloads[0]) || NeedsDiscovery(action, payloads[0]))
        && |payloads| <= ResultAt(payloads) + 1
        && (Discovers(payloads) && |payloads| > 1 ==> Activated(reading, action, callId, payloads[1]))
        && (|payloads| > ResultAt(payloads) ==> RecordedOutcome(payloads).Some?)
    }

    function RealCall(): Reply
      requires action.tool.SearchText? ==> action.searchQuery.Some?
    {
      ToolCall(callId, ToolName(action.tool), ToolArguments(action))
    }

    function DiscoveryCall(): Reply {
      ToolCall(DiscoveryId(callId), "search_tools", DiscoveryArguments(action.tool))
    }

    /** The answer to the last of these completions. */
    function ReplyTo(payloads: seq<Json>): Reply
      requires payloads != [] && (action.tool.SearchText? ==> action.searchQuery.Some?)
    {
      var last := payloads[|payloads| - 1];
      if |payloads| == 1 then
        if OffersRequested(action, last) then RealCall()
        else if NeedsDiscovery(action, last) then DiscoveryCall()
        else Refused
      else if |payloads| - 1 == ResultAt(payloads) then Final
      else if |payloads| - 1 < ResultAt(payloads) && Activated(reading, action, callId, last) then RealCall()
      else Refused
    }
  }

  function DiscoveryArguments(tool: Tool): Json {
    Obj(map["query" := Str(if tool.GlobFiles? then "glob_files find workspace files by glob pattern"
                           else "search_text find literal text in workspace files"),
            "limit" := Int(8)])
  }

  function Replies(step: ArmedStep, payloads: seq<Json>): (replies: seq<Reply>)
    requires step.action.tool.SearchText? ==> step.action.searchQuery.Some?
    ensures |replies| == |payloads|
  {
    seq(|payloads|, k requires 0 <= k < |payloads| => step.ReplyTo(payloads[..k + 1]))
  }

  /** The real call is emitted at most once, and only first or straight after a discovery. */
  lemma RealCallOnce(step: ArmedStep, payloads: seq<Json>, j: nat, k: nat)
    requires step.action.tool.SearchText? ==> step.action.searchQuery.Some?
    requires j < |payloads| && k < |payloads|
    requires Replies(step, payloads)[j] == step.RealCall() && Replies(step, payloads)[k] == step.RealCall()
    ensures j == k && (k == 0 || (k == 1 && Replies(step, payloads)[0] == step.DiscoveryCall()))
  {
    RealCallPlace(step, payloads, j);
    RealCallPlace(step, payloads, k);
  }

  lemma IdsDiffer(step: ArmedStep)
    requires step.action.tool.SearchText? ==> step.action.searchQuery.Some?
    ensures step.DiscoveryCall() != step.RealCall()
  {
    assert |DiscoveryId(step.callId)| > |step.callId|;
  }

  lemma RealCallPlace(step: ArmedStep, payloads: seq<Json>, k: nat)
    requires step.action.tool.SearchText? ==> step.action.searchQuery.Some?
    requires k < |payloads| && Replies(step, payloads)[k] == step.RealCall()
    ensures k == if step.Discovers(payloads) then 1 else 0
    ensures k == 1 ==> Replies(step, payloads)[0] == step.DiscoveryCall()
  {
    IdsDiffer(step);
    var shown := payloads[..k + 1];
    assert shown[0] == payloads[0] && step.ReplyTo(shown) == step.RealCall();
    assert payloads[..1] == [payloads[0]] && Replies(step, payloads)[0] == step.ReplyTo([payloads[0]]);
  }

  predicate IsProtocol(step: ArmedStep, replies: seq<Reply>)
    requires step.action.tool.SearchText? ==> step.action.searchQuery.Some?
  {
    replies == [step.RealCall(), Final] || replies == [step.DiscoveryCall(), step.RealCall(), Final]
  }

  lemma TwoReplies(step: ArmedStep, first: Json, second: Json)
    requires step.action.tool.SearchText? ==> step.action.searchQuery.Some?
    ensures Replies(step, [first, second]) == [step.ReplyTo([first]), step.ReplyTo([first, second])]
  {
    assert [first, second][..1] == [first] && [first, second][..2] == [first, second];
  }

  lemma ThreeReplies(step: ArmedStep, first: Json, second: Json, third: Json)
    requires step.action.tool.SearchText? ==> step.action.searchQuery.Some?
    ensures Replies(step, [first, second, third])
         == [step.ReplyTo([first]), step.ReplyTo([first, second]), step.ReplyTo([first, second, third])]
  {
    var payloads := [first, second, third];
    assert payloads[..1] == [first] && payloads[..2] == [first, second] && payloads[..3] == payloads;
  }

  lemma TwoDecide(step: ArmedStep, first: Json, second: Json)
    requires step.action.tool.SearchText? ==> step.action.searchQuery.Some?
    ensures step.Clean([first, second]) && step.RecordedOutcome([first, second]).Some?
      <==> step.ReplyTo([first]) == step.RealCall() && step.ReplyTo([first, second]) == Final
           && step.Extracted(second).Some?
  {
    IdsDiffer(step);
  }

  lemma ThreeDecide(step: ArmedStep, first: Json, second: Json, third: Json)
    requires step.action.tool.SearchText? ==> step.action.searchQuery.Some?
    ensures step.Clean([first, second, third]) && step.RecordedOutcome([first, second, third]).Some?
      <==> && step.ReplyTo([first]) == step.DiscoveryCall() && step.ReplyTo([first, second]) == step.RealCall()
           && step.ReplyTo([first, second, third]) == Final && step.Extracted(third).Some?
  {
    IdsDiffer(step);
  }

  /**
   No error together with a recorded outcome means that the counted completions were exactly
   call, result or discover, call, result; and those mean no error when the result was found.
   */
  lemma CleanOutcomeExactly(step: ArmedStep, payloads: seq<Json>)
    requires step.action.tool.SearchText? ==> step.action.searchQuery.Some?
    ensures step.Clean(payloads) && step.RecordedOutcome(payloads).Some?
      <==> IsProtocol(step, Replies(step, payloads)) && step.Extracted(payloads[|payloads| - 1]).Some?
  {
    if |payloads| == 2 {
      assert payloads == [payloads[0], payloads[1]];
      TwoReplies(step, payloads[0], payloads[1]);
      TwoDecide(step, payloads[0], payloads[1]);
    } else if |payloads| == 3 {
      assert payloads == [payloads[0], payloads[1], payloads[2]];
      ThreeReplies(step, payloads[0], payloads[1], payloads[2]);
      ThreeDecide(step, payloads[0], payloads[1], payloads[2]);
    }
  }

  /** A further completion never makes a step clean again. */
  lemma ErrorIsSticky(step: ArmedStep, payloads: seq<Json>, payload: Json)
    ensures step.Clean(payloads + [payload]) ==> step.Clean(payloads)
  {
    if payloads != [] {
      assert (payloads + [payload])[0] == payloads[0];
      assert |payloads| > 1 ==> (payloads + [payload])[1] == payloads[1];
    }
  }

  /** How one more completion changes what the completions amount to, beyond the limit and before it. */
  lemma OneMore(step: ArmedStep, earlier: seq<Json>, payload: Json)
    requires step.action.tool.SearchText? ==> step.action.searchQuery.Some?
    ensures var payloads := earlier + [payload];
      && payloads[..|payloads| - 1] == earlier
      && (earlier == [] ==>
        payloads == [payload] && !step.Discovers(earlier) && step.RecordedOutcome(earlier).None? && step.Clean(earlier))
      && (earlier != [] ==> step.Discovers(payloads) == step.Discovers(earlier))
      && (|payloads| > (if step.Discovers(earlier) then 3 else 2) ==>
           !step.Clean(payloads) && step.RecordedOutcome(payloads) == step.RecordedOutcome(earlier)
           && step.ReplyTo(payloads) == Refused)
  {
    var payloads := earlier + [payload];
    if earlier != [] {
      assert payloads[0] == earlier[0];
      if |payloads| > (if step.Discovers(earlier) then 3 else 2) {
        assert payloads[step.ResultAt(payloads)] == earlier[step.ResultAt(earlier)];
      }
    }
  }

  /** The completion after a discovery decides by whether it shows the schema activated. */
  lemma ActivationStep(step: ArmedStep, earlier: seq<Json>, payload: Json)
    requires step.action.tool.SearchText? ==> step.action.searchQuery.Some?
    requires |earlier| == 1 && step.Discovers(earlier)
    ensures var payloads := earlier + [payload];
      && step.Discovers(payloads) && step.RecordedOutcome(payloads) == step.RecordedOutcome(earlier)
      && var activated := Activated(step.reading, step.action, step.callId, payload);
         && step.Clean(payloads) == (step.Clean(earlier) && activated)
         && step.ReplyTo(payloads) == if activated then step.RealCall() else Refused
  {
    var payloads := earlier + [payload];
    assert payloads[0] == earlier[0] && payloads[1] == payload;
  }

  /** The completion at the result's place decides by whether the result is in it. */
  lemma ResultStep(step: ArmedStep, earlier: seq<Json>, payload: Json)
    requires step.action.tool.SearchText? ==> step.action.searchQuery.Some?
    requires earlier != [] && |earlier| == step.ResultAt(earlier)
    ensures var payloads := earlier + [payload];
      && step.Discovers(payloads) == step.Discovers(earlier)
      && step.RecordedOutcome(payloads) == step.Extracted(payload)
      && step.Clean(payloads) == (step.Clean(earlier) && step.Extracted(payload).Some?)
      && step.ReplyTo(payloads) == Final
  {
    var payloads := earlier + [payload];
    assert payloads[0] == earlier[0] && payloads[|earlier|] == payload;
    assert |earlier| == 2 ==> payloads[1] == earlier[1];
  }

  class Fixture {
    const seedText: string
    const reading: Reading
    var index: nat
    var requestCount: nat
    var callId: string
    var request: Option<StepRequest>
    var exchanges: seq<Exchange>
    var toolOutcome: Option<map<string, Json>>
    var error: Option<string>
    var discoveryUsed: bool
    /** The completions counted since the fixture was last armed. */
    ghost var payloads: seq<Json>

    ghost function Armed(): ArmedStep
      reads this
      requires request.Some?
    {
      ArmedStep(reading, request.value, callId)
    }

    ghost predicate Valid()
      reads this
    {
      && requestCount == |payloads|
      && if request.None? then !discoveryUsed && toolOutcome.None? && (error.None? <==> payloads == [])
         else
           && (request.value.tool.SearchText? ==> request.value.searchQuery.Some?)
           && discoveryUsed == Armed().Discovers(payloads)
           && toolOutcome == Armed().RecordedOutcome(payloads)
           && (error.None? <==> Armed().Clean(payloads))
    }

    constructor (seedText: string, reading: Reading)
      ensures Valid() && payloads == [] && request.None? && error.None?
    {
      this.seedText, this.reading := seedText, reading;
      index, requestCount, callId, request, exchanges := 0, 0, "", None, [];
      toolOutcome, error, discoveryUsed, payloads := None, None, false, [];
    }

    /** `arm`: whatever came before, the step starts afresh. */
    method Arm(index: nat, request: StepRequest)
      requires request.tool.SearchText? ==> request.searchQuery.Some?
      modifies this
      ensures Valid() && payloads == [] && exchanges == [] && this.request == Some(request) && this.index == index
      ensures callId == "ash-explorer-" + seedText + "-" + SearchSnapshot.Decimal(index)
    {
      this.index, requestCount, this.request := index, 0, Some(request);
      callId := "ash-explorer-" + seedText + "-" + SearchSnapshot.Decimal(index);
      exchanges, toolOutcome, error, discoveryUsed, payloads := [], None, None, false, [];
    }

    /** `do_GET`. */
    method Get(path: string) returns (code: nat)
      requires Valid()
      modifies this`exchanges
      ensures Valid() && (code == 200 <==> path in {"/api/v1/models", "/v1/models"})
      ensures exchanges == if code == 200 then old(exchanges) + [Listing(path)] else old(exchanges)
    {
      if path !in {"/api/v1/models", "/v1/models"} {
        return 404;
      }
      exchanges := exchanges + [Listing(path)];
      code := 200;
    }

    method CheckActivation(action: StepRequest, payload: Json) returns (activated: bool)
      ensures activated == Activated(reading, action, callId, payload)
    {
      var outcome := reading.extract(payload, callId + "-discover", "search_tools");
      activated := OffersRequested(action, payload);
      if action.tool.SearchText? {
        activated := activated && outcome.Some? && Obj(outcome.value).Get("success").IsTrue()
          && Obj(outcome.value).Get("truncated").IsFalse()
          && reading.schemaMatches(Obj(outcome.value).Get("output"), payload);
      } else {
        activated := activated && outcome.Some? && Obj(outcome.value).Get("success").IsTrue();
      }
    }

    /** The fields before a completion within the limit is answered: the completion itself is counted already. */
    ghost predicate Answering(action: StepRequest, payload: Json, earlier: seq<Json>)
      reads this
    {
      && request == Some(action) && (action.tool.SearchText? ==> action.searchQuery.Some?)
      && requestCount == |payloads| && payloads == earlier + [payload] && earlier != []
      && |earlier| <= (if discoveryUsed then 2 else 1)
      && discoveryUsed == Armed().Discovers(earlier)
      && toolOutcome == Armed().RecordedOutcome(earlier)
      && (error.None? <==> Armed().Clean(earlier))
    }

    /** The completion after a discovery. */
    method AnswerDiscovered(action: StepRequest, payload: Json, ghost earlier: seq<Json>) returns (reply: Reply)
      requires Answering(action, payload, earlier) && requestCount == 2 && discoveryUsed
      modifies this`error
      ensures Valid() && reply == Armed().ReplyTo(payloads) && (old(error).Some? ==> error.Some?)
    {
      ActivationStep(Armed(), earlier, payload);
      var activated := CheckActivation(action, payload);
      if !activated {
        error := Some(ToolName(action.tool) + " discovery did not activate its schema");
        return Refused;
      }
      reply := ToolCall(callId, ToolName(action.tool), ToolArguments(action));
    }

    /** The completion that should carry the tool's result. */
    method AnswerResult(action: StepRequest, payload: Json, ghost earlier: seq<Json>) returns (reply: Reply)
      requires Answering(action, payload, earlier) && !(requestCount == 2 && discoveryUsed)
      modifies this`toolOutcome, this`error
      ensures Valid() && reply == Armed().ReplyTo(payloads) && (old(error).Some? ==> error.Some?)
    {
      ghost var step := Armed();
      assert |earlier| == step.ResultAt(earlier);
      ResultStep(step, earlier, payload);
      var outcome := reading.extract(payload, callId, ToolName(action.tool));
      toolOutcome := outcome;
      if outcome.None? {
        error := Some("Ash follow-up request omitted the fixture tool result");
      }
      assert Armed() == step && toolOutcome == step.Extracted(payload);
      reply := Final;
    }

    /** The first completion of an armed step. */
    method FirstRequest(action: StepRequest, payload: Json) returns (reply: Reply)
      requires request == Some(action) && (action.tool.SearchText? ==> action.searchQuery.Some?)
      requires requestCount == 1 && payloads == [payload] && !discoveryUsed && toolOutcome.None? && error.None?
      modifies this`discoveryUsed, this`error
      ensures Valid() && reply == Armed().ReplyTo(payloads)
    {
      if !OffersRequested(action, payload) {
        if (action.tool.GlobFiles? || action.tool.SearchText?) && Offers(payload, "search_tools") {
          discoveryUsed := true;
          return ToolCall(callId + "-discover", "search_tools", DiscoveryArguments(action.tool));
        }
        error := Some("Ash request did not offer the " + ToolName(action.tool) + " tool");
        return Refused;
      }
      reply := ToolCall(callId, ToolName(action.tool), ToolArguments(action));
    }

    method Overrun() returns (reply: Reply)
      requires requestCount == |payloads| && payloads != []
      requires if request.None? then !discoveryUsed && toolOutcome.None?
               else && (request.value.tool.SearchText? ==> request.value.searchQuery.Some?)
                    && discoveryUsed == Armed().Discovers(payloads) && toolOutcome == Armed().RecordedOutcome(payloads)
                    && !Armed().Clean(payloads)
      modifies this`error
      ensures Valid() && error.Some? && reply == Refused
    {
      error := Some("fixture received more than three completion requests");
      reply := Refused;
    }

    /** A well-formed completion: counted, recorded and answered. */
    method Complete(payload: Json) returns (reply: Reply)
      requires Valid()
      modifies this`requestCount, this`exchanges, this`error, this`discoveryUsed, this`toolOutcome, this`payloads
      ensures Valid() && (old(error).Some? ==> error.Some?)
      ensures payloads == old(payloads) + [payload] && exchanges == old(exchanges) + [Completion(payload)]
      ensures reply == if request.Some? then Armed().ReplyTo(payloads) else Refused
    {
      requestCount := requestCount + 1;
      exchanges := exchanges + [Completion(payload)];
      ghost var earlier := payloads;
      payloads := payloads + [payload];
      if request.Some? {
        OneMore(Armed(), earlier, payload);
      }
      if requestCount > (if discoveryUsed then 3 else 2) {
        reply := Overrun();
        return;
      }
      if request.None? {
        error := Some("fixture received a request before a step was armed");
        return Refused;
      }
      if requestCount == 1 {
        reply := FirstRequest(request.value, payload);
      } else if requestCount == 2 && discoveryUsed {
        reply := AnswerDiscovered(request.value, payload, earlier);
      } else {
        // Position 2 without a discovery or 3 with one: no other completion sequence is left.
        reply := AnswerResult(request.value, payload, earlier);
      }
    }

    /** `do_POST`. */
    method Post(http: Http) returns (reply: Reply)
      requires Valid()
      modifies this`requestCount, this`exchanges, this`error, this`discoveryUsed, this`toolOutcome, this`payloads
      ensures Valid() && (old(error).Some? ==> error.Some?)
      ensures Counted(http) ==>
        payloads == old(payloads) + [http.body.value] && exchanges == old(exchanges) + [Completion(http.body.value)]
      ensures Counted(http) ==> reply == if request.Some? then Armed().ReplyTo(payloads) else Refused
      ensures !Counted(http) ==>
        reply.Status? && payloads == old(payloads) && exchanges == old(exchanges) && error == old(error)
        && toolOutcome == old(toolOutcome)
    {
      if http.path != "/v1/chat/completions" {
        return Status(404);
      }
      if http.contentLength.None? {
        return Status(400);
      }
      if http.contentLength.value < 0 || http.contentLength.value > MAX_PROVIDER_BODY_BYTES {
        return Status(413);
      }
      if http.body.None? || !http.body.value.Obj? {
        return Status(400);
      }
      reply := Complete(http.body.value);
    }
  }

  /** A POST that reaches the completion counter. */
  predicate Counted(http: Http) {
    && http.path == "/v1/chat/completions"
    && http.contentLength.Some? && 0 <= http.contentLength.value <= MAX_PROVIDER_BODY_BYTES
    && http.body.Some? && http.body.value.Obj?
  }
}
