/** The runner's strict reading of one decoded JSONL action, and the tool arguments it gives back. */
module ActionParsing {
  import opened Common
  import opened SearchSnapshot
  import Text

  const MAX_LABEL_BYTES := 256
  const MAX_PROMPT_BYTES := 8 * 1024
  const MAX_CONTENT_BYTES := 16 * 1024
  const MAX_REFUSAL_TEXT_BYTES := 512
  const MAX_DIRECTORY_ENTRIES := 64
  const MAX_GLOB_PATTERN_BYTES := 128
  const MAX_SEARCH_PATTERN_BYTES := 256

  datatype Tool = WriteFile | ReadFile | ListDir | GlobFiles | SearchText

  datatype Expectation = ExpectedSuccess | ExpectedRefusal(errorContains: string) | Observed

  datatype StepRequest = StepRequest(
    stepLabel: string,
    prompt: string,
    filePath: string,
    content: string,
    overwrite: bool,
    expectation: Expectation,
    tool: Tool,
    searchQuery: Option<Query>)

  datatype Action = Finish | Step(request: StepRequest)

  /** An unhashable tool name or a lone surrogate escapes the runner's own error class. */
  datatype ParseError = ExplorerError(message: string) | UnicodeEncodeError | TypeError

  /** pathlib's rules for other platforms: a drive prefix, and a ".." part in either path flavour. */
  datatype PathRules = PathRules(hasDrive: string -> bool, hasParent: string -> bool)

  function ToolName(tool: Tool): string {
    match tool
    case WriteFile => "write_file"
    case ReadFile => "read_file"
    case ListDir => "list_dir"
    case GlobFiles => "glob_files"
    case SearchText => "search_text"
  }

  function ToolNamed(name: string): Option<Tool> {
    if name == "write_file" then Some(WriteFile)
    else if name == "read_file" then Some(ReadFile)
    else if name == "list_dir" then Some(ListDir)
    else if name == "glob_files" then Some(GlobFiles)
    else if name == "search_text" then Some(SearchText)
    else None
  }

  /** `SearchQuery.as_arguments`. */
  function QueryArguments(q: Query): Json {
    Obj(map["pattern" := Str(q.pattern), "directory_path" := Str("."),
            "glob" := if q.glob.Some? then Str(q.glob.value) else Null,
            "fixed_strings" := Bool(true), "case_sensitive" := Bool(true), "max_results" := Int(MAX_SEARCH_MATCHES)])
  }

  /** The `tool_arguments` property of a request. */
  function ToolArguments(r: StepRequest): Json
    requires r.tool.SearchText? ==> r.searchQuery.Some?
  {
    match r.tool
    case ReadFile => Obj(map["file_path" := Str(r.filePath)])
    case ListDir =>
      Obj(map["directory_path" := Str(r.filePath), "recursive" := Bool(false),
              "max_results" := Int(MAX_DIRECTORY_ENTRIES)])
    case GlobFiles =>
      Obj(map["pattern" := Str(r.filePath), "directory_path" := Str("."), "max_results" := Int(MAX_DIRECTORY_ENTRIES)])
    case SearchText => QueryArguments(r.searchQuery.value)
    case WriteFile =>
      Obj(map["file_path" := Str(r.filePath), "content" := Str(r.content), "overwrite" := Bool(r.overwrite)])
  }

  function BoundedString(value: Json, name: string, limit: nat): Result<string, ParseError> {
    if value.LoneSurrogate? then Err(UnicodeEncodeError)
    else if !value.Str? then Err(ExplorerError(name + " must be a string"))
    else if Text.Utf8Size(value.s) > limit then Err(ExplorerError(name + " is too long"))
    else if '\0' in value.s then Err(ExplorerError(name + " must not contain NUL"))
    else Ok(value.s)
  }

  predicate RelativeSyntax(rules: PathRules, value: string) {
    value != "" && '\0' !in value && value[0] != '/' && value[0] != '\\' && !rules.hasDrive(value)
  }

  predicate BoundedRelative(rules: PathRules, value: string) {
    Text.Utf8Size(value) <= MAX_GLOB_PATTERN_BYTES && !Text.HasControl(value) && !rules.hasParent(value)
  }

  /** Characters that `str.strip` removes. */
  predicate IsSpace(c: char) {
    var n := c as int;
    || 9 <= n <= 13 || 28 <= n <= 32 || n == 0x85 || n == 0xA0 || n == 0x1680
    || 0x2000 <= n <= 0x200A || n == 0x2028 || n == 0x2029 || n == 0x202F || n == 0x205F || n == 0x3000
  }

  predicate IsBlank(s: string) {
    forall i :: 0 <= i < |s| ==> IsSpace(s[i])
  }

  function ParseQuery(rules: PathRules, arguments: Json): Result<Query, ParseError>
    requires arguments.Obj?
  {
    if arguments.fields.Keys !=
      {"pattern", "directory_path", "glob", "fixed_strings", "case_sensitive", "max_results"}
    then
      Err(ExplorerError("search_text arguments"))
    else
      var pattern := BoundedString(arguments.Get("pattern"), "pattern", MAX_SEARCH_PATTERN_BYTES);
      if pattern.Err? then Err(pattern.error)
      else if pattern.value == "" || Text.HasControl(pattern.value) then Err(ExplorerError("search_text pattern"))
      else if arguments.Get("directory_path") != Str(".") then
        Err(ExplorerError("search_text directory_path must be '.'"))
      else if !arguments.Get("fixed_strings").IsTrue() then
        Err(ExplorerError("search_text requires fixed_strings=true"))
      else if !arguments.Get("case_sensitive").IsTrue() then
        Err(ExplorerError("search_text requires case_sensitive=true"))
      else if arguments.Get("max_results") != Int(MAX_SEARCH_MATCHES) then
        Err(ExplorerError("search_text requires max_results"))
      else if arguments.Get("glob") == Null then Ok(Query(pattern.value, None))
      else
        var glob := BoundedString(arguments.Get("glob"), "glob", MAX_GLOB_PATTERN_BYTES);
        if glob.Err? then Err(glob.error)
        else if Text.HasControl(glob.value) || rules.hasParent(glob.value) then
          Err(ExplorerError("search_text glob must be bounded and relative"))
        else if !RelativeSyntax(rules, glob.value) then Err(ExplorerError("file_path"))
        else Ok(Query(pattern.value, Some(glob.value)))
  }

  /** The fixed parts of the arguments of every tool but `search_text`. */
  predicate ArgumentShape(tool: Tool, arguments: Json)
    requires arguments.Obj?
  {
    match tool
    case WriteFile => arguments.fields.Keys == {"file_path", "content", "overwrite"}
    case ReadFile => arguments.fields.Keys == {"file_path"}
    case ListDir =>
      && arguments.fields.Keys == {"directory_path", "recursive", "max_results"}
      && arguments.Get("recursive").IsFalse()
      && arguments.Get("max_results") == Int(MAX_DIRECTORY_ENTRIES)
    case GlobFiles =>
      && arguments.fields.Keys == {"pattern", "directory_path", "max_results"}
      && arguments.Get("directory_path") == Str(".")
      && arguments.Get("max_results") == Int(MAX_DIRECTORY_ENTRIES)
    case SearchText => true
  }

  function PathField(tool: Tool): string {
    match tool
    case ListDir => "directory_path"
    case GlobFiles => "pattern"
    case _ => "file_path"
  }

  function ParsePath(rules: PathRules, tool: Tool, arguments: Json): Result<string, ParseError>
    requires arguments.Obj?
  {
    if tool.SearchText? then Ok(".")
    else
      var path := BoundedString(arguments.Get(PathField(tool)), "file_path", MAX_PATH_BYTES);
      if path.Err? then path
      else if !RelativeSyntax(rules, path.value) then Err(ExplorerError("file_path"))
      else if tool.GlobFiles? && !BoundedRelative(rules, path.value) then
        Err(ExplorerError("glob_files pattern must be bounded and relative"))
      else path
  }

  function ParseExpectation(wanted: Json): Result<Expectation, ParseError> {
    if !wanted.Obj? || "kind" !in wanted.fields then Err(ExplorerError("expectation must contain a kind"))
    else if wanted.Get("kind") == Str("expected_success") then
      if wanted.fields.Keys != {"kind"} then Err(ExplorerError("expected_success accepts only kind"))
      else Ok(ExpectedSuccess)
    else if wanted.Get("kind") == Str("expected_refusal") then
      if wanted.fields.Keys != {"kind", "error_contains"} then
        Err(ExplorerError("expected_refusal requires error_contains"))
      else
        var refusal := BoundedString(wanted.Get("error_contains"), "error_contains", MAX_REFUSAL_TEXT_BYTES);
        if refusal.Err? then Err(refusal.error)
        else if IsBlank(refusal.value) then Err(ExplorerError("error_contains must not be empty"))
        else Ok(ExpectedRefusal(refusal.value))
    else if wanted.Get("kind") == Str("observed") then
      if wanted.fields.Keys != {"kind"} then Err(ExplorerError("observed accepts only kind")) else Ok(Observed)
    else Err(ExplorerError("unknown expectation kind"))
  }

  function ParseTool(toolCall: Json): Result<Tool, ParseError> {
    if !toolCall.Obj? || toolCall.fields.Keys != {"name", "arguments"} then
      Err(ExplorerError("tool_call must contain only name and arguments"))
    else if toolCall.Get("name").Arr? || toolCall.Get("name").Obj? then Err(TypeError)
    else if !toolCall.Get("name").Str? || ToolNamed(toolCall.Get("name").s).None? then
      Err(ExplorerError("unsupported tool"))
    else if !toolCall.Get("arguments").Obj? then Err(ExplorerError("tool arguments must be an object"))
    else Ok(ToolNamed(toolCall.Get("name").s).value)
  }

  /** The fields of a request that its tool's arguments give. */
  datatype ToolFields = ToolFields(filePath: string, content: string, overwrite: bool, searchQuery: Option<Query>)

  function ParseToolFields(rules: PathRules, tool: Tool, arguments: Json): Result<ToolFields, ParseError>
    requires arguments.Obj?
  {
    var query := if tool.SearchText? then ParseQuery(rules, arguments) else Ok(Query("", None));
    if query.Err? then Err(query.error) else
    if !ArgumentShape(tool, arguments) then Err(ExplorerError("tool arguments")) else
    var path := ParsePath(rules, tool, arguments);
    if path.Err? then Err(path.error) else
    var content :=
      if tool.WriteFile? then BoundedString(arguments.Get("content"), "content", MAX_CONTENT_BYTES) else Ok("");
    if content.Err? then Err(content.error) else
    var overwrite := if "overwrite" in arguments.fields then arguments.Get("overwrite") else Bool(false);
    if !overwrite.Bool? then Err(ExplorerError("overwrite must be a JSON boolean")) else
    Ok(ToolFields(path.value, content.value, overwrite.b, if tool.SearchText? then Some(query.value) else None))
  }

  function ParseStep(rules: PathRules, payload: Json): Result<StepRequest, ParseError>
    requires payload.Obj?
  {
    if payload.fields.Keys != {"action", "label", "prompt", "tool_call", "expect"} then
      Err(ExplorerError("step fields"))
    else
      var stepLabel := BoundedString(payload.Get("label"), "label", MAX_LABEL_BYTES);
      if stepLabel.Err? then Err(stepLabel.error) else
      var prompt := BoundedString(payload.Get("prompt"), "prompt", MAX_PROMPT_BYTES);
      if prompt.Err? then Err(prompt.error) else
      var tool := ParseTool(payload.Get("tool_call"));
      if tool.Err? then Err(tool.error) else
      var fields := ParseToolFields(rules, tool.value, payload.Get("tool_call").Get("arguments"));
      if fields.Err? then Err(fields.error) else
      var expectation := ParseExpectation(payload.Get("expect"));
      if expectation.Err? then Err(expectation.error) else
      var f := fields.value;
      Ok(StepRequest(
        stepLabel.value, prompt.value, f.filePath, f.content, f.overwrite, expectation.value, tool.value,
        f.searchQuery))
  }

  function ParsePayload(rules: PathRules, payload: Json): Result<Action, ParseError> {
    if !payload.Obj? then Err(ExplorerError("each JSONL line must contain one JSON object"))
    else if payload.Get("action") == Str("finish") then
      if payload.fields.Keys != {"action"} then Err(ExplorerError("finish accepts only the action field"))
      else Ok(Finish)
    else if payload.Get("action") != Str("step") then Err(ExplorerError("action must be 'step' or 'finish'"))
    else
      var step := ParseStep(rules, payload);
      if step.Err? then Err(step.error) else Ok(Step(step.value))
  }

  /* Reading loses nothing. */

  function EncodeExpectation(e: Expectation): Json {
    match e
    case ExpectedSuccess => Obj(map["kind" := Str("expected_success")])
    case ExpectedRefusal(text) => Obj(map["kind" := Str("expected_refusal"), "error_contains" := Str(text)])
    case Observed => Obj(map["kind" := Str("observed")])
  }

  function EncodeStep(r: StepRequest): Json
    requires r.tool.SearchText? ==> r.searchQuery.Some?
  {
    Obj(map["action" := Str("step"), "label" := Str(r.stepLabel), "prompt" := Str(r.prompt),
            "tool_call" := Obj(map["name" := Str(ToolName(r.tool)), "arguments" := ToolArguments(r)]),
            "expect" := EncodeExpectation(r.expectation)])
  }

  lemma ExpectationKept(wanted: Json)
    requires ParseExpectation(wanted).Ok?
    ensures EncodeExpectation(ParseExpectation(wanted).value) == wanted
  {
    assert wanted.fields == map k | k in wanted.fields.Keys :: wanted.fields[k];
    assert EncodeExpectation(ParseExpectation(wanted).value).fields == wanted.fields;
  }

  lemma QueryKept(rules: PathRules, arguments: Json)
    requires arguments.Obj? && ParseQuery(rules, arguments).Ok?
    ensures QueryArguments(ParseQuery(rules, arguments).value) == arguments
  {
    assert QueryArguments(ParseQuery(rules, arguments).value).fields == arguments.fields;
  }

  /** What a successful reading has established about each part of the line. */
  ghost predicate ReadAs(rules: PathRules, payload: Json, r: StepRequest) {
    && payload.Obj?
    && payload.fields.Keys == {"action", "label", "prompt", "tool_call", "expect"}
    && payload.Get("label") == Str(r.stepLabel) && payload.Get("prompt") == Str(r.prompt)
    && payload.Get("tool_call").Obj? && payload.Get("tool_call").fields.Keys == {"name", "arguments"}
    && payload.Get("tool_call").Get("name") == Str(ToolName(r.tool))
    && ParseExpectation(payload.Get("expect")) == Ok(r.expectation)
    && var arguments := payload.Get("tool_call").Get("arguments");
    && arguments.Obj? && ArgumentShape(r.tool, arguments)
    && (r.tool.SearchText? ==> r.searchQuery.Some? && ParseQuery(rules, arguments) == Ok(r.searchQuery.value))
    && (!r.tool.SearchText? ==> arguments.Get(PathField(r.tool)) == Str(r.filePath))
    && (r.tool.WriteFile? ==>
      arguments.Get("content") == Str(r.content) && arguments.Get("overwrite") == Bool(r.overwrite))
  }

  lemma StepParts(rules: PathRules, payload: Json, r: StepRequest)
    requires payload.Obj? && ParseStep(rules, payload) == Ok(r)
    ensures ReadAs(rules, payload, r)
  {
  }

  /** A request's `tool_arguments` are the arguments object of the line it was read from. */
  lemma ArgumentsKept(rules: PathRules, payload: Json, r: StepRequest)
    requires ReadAs(rules, payload, r)
    ensures ToolArguments(r) == payload.Get("tool_call").Get("arguments")
  {
    var arguments := payload.Get("tool_call").Get("arguments");
    if r.tool.SearchText? {
      QueryKept(rules, arguments);
    } else {
      assert ToolArguments(r).fields == arguments.fields;
    }
  }

  lemma ToolCallKept(rules: PathRules, payload: Json, r: StepRequest)
    requires ReadAs(rules, payload, r)
    ensures Obj(map["name" := Str(ToolName(r.tool)), "arguments" := ToolArguments(r)]) == payload.Get("tool_call")
  {
    ArgumentsKept(rules, payload, r);
    assert payload.Get("tool_call").fields == map["name" := Str(ToolName(r.tool)), "arguments" := ToolArguments(r)];
  }

  lemma EncodingKept(rules: PathRules, payload: Json, r: StepRequest)
    requires ReadAs(rules, payload, r) && payload.Get("action") == Str("step")
    ensures EncodeStep(r) == payload
  {
    ToolCallKept(rules, payload, r);
    ExpectationKept(payload.Get("expect"));
    var encoded := EncodeStep(r).fields;
    assert encoded["tool_call"] == payload.fields["tool_call"];
    assert encoded["expect"] == payload.fields["expect"];
    assert encoded == payload.fields;
  }

  /** An accepted step line is exactly the encoding of the request it was read as. */
  lemma ReadingLosesNothing(rules: PathRules, payload: Json, r: StepRequest)
    requires ParsePayload(rules, payload) == Ok(Step(r))
    ensures r.tool.SearchText? ==> r.searchQuery.Some?
    ensures payload == EncodeStep(r)
  {
    StepParts(rules, payload, r);
    EncodingKept(rules, payload, r);
  }

  /* And every bounded request can be written down. */

  predicate FitsText(s: string, limit: nat) {
    Text.Utf8Size(s) <= limit && '\0' !in s
  }

  predicate BoundedQuery(rules: PathRules, q: Query) {
    && FitsText(q.pattern, MAX_SEARCH_PATTERN_BYTES) && q.pattern != "" && !Text.HasControl(q.pattern)
    && (q.glob.Some? ==>
         && FitsText(q.glob.value, MAX_GLOB_PATTERN_BYTES) && !Text.HasControl(q.glob.value)
         && !rules.hasParent(q.glob.value) && RelativeSyntax(rules, q.glob.value))
  }

  predicate BoundedExpectation(e: Expectation) {
    e.ExpectedRefusal? ==> FitsText(e.errorContains, MAX_REFUSAL_TEXT_BYTES) && !IsBlank(e.errorContains)
  }

  /** What the tool of a request allows in its other fields. */
  predicate BoundedTool(rules: PathRules, r: StepRequest) {
    if r.tool.SearchText? then
      r.filePath == "." && r.content == "" && !r.overwrite && r.searchQuery.Some?
      && BoundedQuery(rules, r.searchQuery.value)
    else
      && r.searchQuery.None? && FitsText(r.filePath, MAX_PATH_BYTES) && RelativeSyntax(rules, r.filePath)
      && (r.tool.GlobFiles? ==> BoundedRelative(rules, r.filePath))
      && if r.tool.WriteFile? then FitsText(r.content, MAX_CONTENT_BYTES) else r.content == "" && !r.overwrite
  }

  predicate IsBounded(rules: PathRules, r: StepRequest) {
    && FitsText(r.stepLabel, MAX_LABEL_BYTES) && FitsText(r.prompt, MAX_PROMPT_BYTES)
    && BoundedExpectation(r.expectation) && BoundedTool(rules, r)
  }

  lemma QueryParses(rules: PathRules, q: Query)
    ensures BoundedQuery(rules, q) <==> ParseQuery(rules, QueryArguments(q)) == Ok(q)
  {
  }

  lemma ExpectationParses(e: Expectation)
    ensures BoundedExpectation(e) <==> ParseExpectation(EncodeExpectation(e)) == Ok(e)
  {
  }

  lemma ToolParses(tool: Tool, arguments: Json)
    requires arguments.Obj?
    ensures ParseTool(Obj(map["name" := Str(ToolName(tool)), "arguments" := arguments])) == Ok(tool)
  {
  }

  /** The parts of an encoded request, each read on its own. */
  ghost predicate PartsOf(payload: Json, r: StepRequest)
    requires r.tool.SearchText? ==> r.searchQuery.Some?
  {
    && payload.Obj? && payload.fields.Keys == {"action", "label", "prompt", "tool_call", "expect"}
    && payload.Get("label") == Str(r.stepLabel) && payload.Get("prompt") == Str(r.prompt)
    && payload.Get("tool_call").Obj? && ParseTool(payload.Get("tool_call")) == Ok(r.tool)
    && payload.Get("tool_call").Get("arguments") == ToolArguments(r)
    && (BoundedExpectation(r.expectation) <==> ParseExpectation(payload.Get("expect")) == Ok(r.expectation))
  }

  lemma EncodedParts(r: StepRequest)
    requires r.tool.SearchText? ==> r.searchQuery.Some?
    ensures PartsOf(EncodeStep(r), r) && EncodeStep(r).Get("action") == Str("step")
  {
    ExpectationParses(r.expectation);
    ToolParses(r.tool, ToolArguments(r));
  }

  function FieldsOf(r: StepRequest): ToolFields {
    ToolFields(r.filePath, r.content, r.overwrite, r.searchQuery)
  }

  lemma SearchFieldsParse(rules: PathRules, r: StepRequest)
    requires r.tool.SearchText? && r.searchQuery.Some?
    ensures BoundedTool(rules, r)
        <==> ParseToolFields(rules, r.tool, QueryArguments(r.searchQuery.value)) == Ok(FieldsOf(r))
  {
    QueryParses(rules, r.searchQuery.value);
  }

  lemma WriteFieldsParse(rules: PathRules, r: StepRequest)
    requires r.tool.WriteFile?
    ensures BoundedTool(rules, r) <==> ParseToolFields(rules, r.tool, ToolArguments(r)) == Ok(FieldsOf(r))
  {
  }

  lemma ReadFieldsParse(rules: PathRules, r: StepRequest)
    requires !r.tool.SearchText? && !r.tool.WriteFile?
    ensures BoundedTool(rules, r) <==> ParseToolFields(rules, r.tool, ToolArguments(r)) == Ok(FieldsOf(r))
  {
  }

  lemma ToolFieldsParse(rules: PathRules, r: StepRequest)
    requires r.tool.SearchText? ==> r.searchQuery.Some?
    ensures BoundedTool(rules, r) <==> ParseToolFields(rules, r.tool, ToolArguments(r)) == Ok(FieldsOf(r))
  {
    match r.tool
    case SearchText => SearchFieldsParse(rules, r);
    case WriteFile => WriteFieldsParse(rules, r);
    case _ => ReadFieldsParse(rules, r);
  }

  lemma StepParses(rules: PathRules, payload: Json, r: StepRequest)
    requires (r.tool.SearchText? ==> r.searchQuery.Some?) && PartsOf(payload, r)
    requires BoundedTool(rules, r)
        <==> ParseToolFields(rules, r.tool, payload.Get("tool_call").Get("arguments")) == Ok(FieldsOf(r))
    ensures IsBounded(rules, r) <==> ParseStep(rules, payload) == Ok(r)
  {
  }

  /** An encoded request parses back to itself exactly when it is within the bounds. */
  lemma EncodedParses(rules: PathRules, r: StepRequest)
    requires r.tool.SearchText? ==> r.searchQuery.Some?
    ensures IsBounded(rules, r) <==> ParsePayload(rules, EncodeStep(r)) == Ok(Step(r))
  {
    var payload := EncodeStep(r);
    EncodedParts(r);
    ToolFieldsParse(rules, r);
    StepParses(rules, payload, r);
    PayloadIsStep(rules, payload);
  }

  lemma PayloadIsStep(rules: PathRules, payload: Json)
    requires payload.Obj? && payload.Get("action") == Str("step")
    ensures var step := ParseStep(rules, payload);
      ParsePayload(rules, payload) == if step.Err? then Err(step.error) else Ok(Step(step.value))
  {
  }
}
