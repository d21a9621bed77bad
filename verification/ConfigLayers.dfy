/** Layered configuration: which layer each merged field comes from, and what a project may set. */
module ConfigLayers {
  import opened Common
  import Text

  type Values = map<string, Json>

  /** A resolved path as its components. */
  type Path = seq<string>

  datatype SourceKind = BuiltIn | ProfileDefault | Dotenv | User | Project | Env | Override(name: string)

  datatype Source = Source(kind: SourceKind, detail: string)

  datatype Layer = Layer(values: Values, kind: SourceKind, detail: string, detailByField: map<string, string>)

  datatype Diagnostic = UnknownKey(field: string, path: Path) | UserOwnedKey(field: string, path: Path)
      | ForeignModel(path: Path)

  const DEFAULT_SOURCE := Source(BuiltIn, "Ash built-in default")

  const PROJECT_CONFIG_FIELDS: set<string> := {
    "config_schema_version", "model", "temperature", "max_context_tokens", "max_completion_tokens",
    "max_tool_result_tokens", "max_attachment_tokens", "steering_queue_limit", "tool_search_threshold",
    "prompt_cache_enabled", "prompt_cache_retention", "provider_max_attempts", "provider_request_timeout_seconds",
    "provider_retry_base_delay", "provider_retry_max_delay", "provider_circuit_failure_threshold",
    "provider_circuit_cooldown_seconds", "model_pricing_usd_per_million", "context_compaction_threshold",
    "context_recent_messages", "context_budget_weights", "approval_diff_mode", "no_color", "reduced_motion",
    "screen_reader_mode", "theme", "show_token_meter", "input_mode", "notification_method", "notification_events",
    "notification_include_preview", "keybindings", "enable_sprint_planning", "repo_map_exclude_patterns",
    "repo_map_enabled", "repo_map_max_files", "memory_backend", "memory_auto_index", "memory_auto_index_max_files",
    "memory_auto_index_max_bytes_per_file"
  }

  /** What the load depends on outside the layers: the known fields, the built-in providers, `str`, and the file
    * system. */
  datatype Context = Context(
    modelFields: set<string>,
    builtinProviders: set<string>,
    render: Json -> string,
    resolve: Json -> Path,
    discovered: Path,
    cwd: Path,
    projectFile: Path -> Option<Values>,
    trusted: Path -> bool)

  /* Layers. */

  function DetailFor(layer: Layer, field: string): string {
    if field in layer.detailByField then layer.detailByField[field] else layer.detail
  }

  function LayerSources(layer: Layer): map<string, Source> {
    map field | field in layer.values :: Source(layer.kind, DetailFor(layer, field))
  }

  /** The highest-precedence layer that defines a field; later layers take precedence. */
  function Winner(layers: seq<Layer>, field: string): Option<Layer> {
    if layers == [] then None
    else
      var last := layers[|layers| - 1];
      if field in last.values then Some(last) else Winner(layers[..|layers| - 1], field)
  }

  function SourceOf(winner: Option<Layer>, field: string): Source {
    if winner.Some? then Source(winner.value.kind, DetailFor(winner.value, field)) else DEFAULT_SOURCE
  }

  /** Every merged field has the winning layer's value and names that layer; the other known fields are defaults. */
  ghost predicate Resolved(fields: set<string>, layers: seq<Layer>, merged: Values, sources: map<string, Source>) {
    && (forall field :: field in merged <==> Winner(layers, field).Some?)
    && (forall field :: field in merged ==>
      field in Winner(layers, field).value.values && merged[field] == Winner(layers, field).value.values[field])
    && (forall field :: field in sources <==> field in fields || field in merged)
    && (forall field :: field in sources ==> sources[field] == SourceOf(Winner(layers, field), field))
  }

  lemma {:induction false} WinnerDefines(layers: seq<Layer>, field: string)
    ensures Winner(layers, field).Some? ==>
      Winner(layers, field).value in layers && field in Winner(layers, field).value.values
    ensures Winner(layers, field).None? ==> forall layer :: layer in layers ==> field !in layer.values
  {
    if layers != [] {
      WinnerDefines(layers[..|layers| - 1], field);
      assert layers == layers[..|layers| - 1] + [layers[|layers| - 1]];
    }
  }

  lemma WinnerAppend(layers: seq<Layer>, layer: Layer, field: string)
    ensures Winner(layers + [layer], field) == if field in layer.values then Some(layer) else Winner(layers, field)
  {
    assert (layers + [layer])[..|layers|] == layers;
  }

  lemma ResolvedAppend(fields: set<string>, layers: seq<Layer>, layer: Layer, merged: Values,
                       sources: map<string, Source>)
    requires Resolved(fields, layers, merged, sources)
    ensures Resolved(fields, layers + [layer], merged + layer.values, sources + LayerSources(layer))
  {
    forall field
      ensures Winner(layers + [layer], field) == if field in layer.values then Some(layer) else Winner(layers, field) {
      WinnerAppend(layers, layer, field);
    }
  }

  class Builder {
    var merged: Values
    var sources: map<string, Source>
    ghost var layers: seq<Layer>
    const fields: set<string>

    ghost predicate Valid()
      reads this
    {
      Resolved(fields, layers, merged, sources)
    }

    constructor (fields: set<string>)
      ensures Valid() && layers == [] && this.fields == fields
    {
      this.fields := fields;
      merged, layers := map[], [];
      sources := map field | field in fields :: DEFAULT_SOURCE;
    }

    /** `_merge_config_layer`. */
    method MergeLayer(layer: Layer)
      requires Valid()
      modifies this`merged, this`sources, this`layers
      ensures Valid() && layers == old(layers) + [layer]
      ensures merged == old(merged) + layer.values && sources == old(sources) + LayerSources(layer)
    {
      var left := layer.values.Keys;
      ghost var merged0, sources0 := merged, sources;
      while left != {}
        invariant left <= layer.values.Keys && layers == old(layers)
        invariant merged == merged0 + (layer.values - left) && sources == sources0 + (LayerSources(layer) - left)
      {
        var field :| field in left;
        MergeStep(merged0, layer.values, left, field);
        MergeStep(sources0, LayerSources(layer), left, field);
        left := left - {field};
        merged := merged[field := layer.values[field]];
        sources := sources[field := Source(layer.kind, DetailFor(layer, field))];
      }
      assert layer.values - {} == layer.values && LayerSources(layer) - {} == LayerSources(layer);
      ResolvedAppend(fields, layers, layer, merged0, sources0);
      layers := layers + [layer];
    }
  }

  lemma MergeStep<T>(start: map<string, T>, values: map<string, T>, left: set<string>, field: string)
    requires field in left && field in values
    ensures start + (values - (left - {field})) == (start + (values - left))[field := values[field]]
  {
  }

  method MergeAll(fields: set<string>, layers: seq<Layer>) returns (merged: Values, sources: map<string, Source>)
    ensures Resolved(fields, layers, merged, sources)
  {
    var builder := new Builder(fields);
    for i := 0 to |layers|
      invariant builder.Valid() && builder.layers == layers[..i] && builder.fields == fields
    {
      builder.MergeLayer(layers[i]);
    }
    assert layers[..|layers|] == layers;
    merged, sources := builder.merged, builder.sources;
  }

  /* What a project may set. */

  /** The provider part of a model name, if it has one. */
  function ProviderOf(text: string): Option<string> {
    if text == "" then None
    else if text[0] == '/' then Some("")
    else
      var rest := ProviderOf(text[1..]);
      if rest.Some? then Some([text[0]] + rest.value) else None
  }

  function Objection(ctx: Context, allowed: set<string>, path: Path, field: string, value: Json): Option<Diagnostic> {
    if field !in ctx.modelFields then Some(UnknownKey(field, path))
    else if field !in allowed then Some(UserOwnedKey(field, path))
    else if field == "model"
        && (ProviderOf(ctx.render(value)).None? || ProviderOf(ctx.render(value)).value !in ctx.builtinProviders)
    then Some(ForeignModel(path))
    else None
  }

  /** Why a project may not set one of these fields; `None` where it may. */
  type Objections = string -> Option<Diagnostic>

  function ObjectionsTo(ctx: Context, allowed: set<string>, path: Path, values: Values): Objections {
    field => if field in values then Objection(ctx, allowed, path, field, values[field]) else None
  }

  /** The values without an objection. */
  function Kept(objections: Objections, values: Values): Values {
    map field | field in values && objections(field).None? :: values[field]
  }

  /** The diagnostics are exactly the objections to these fields. */
  ghost predicate AreObjections(objections: Objections, fields: set<string>, diagnostics: seq<Diagnostic>) {
    forall d :: d in diagnostics <==> exists field :: field in fields && objections(field) == Some(d)
  }

  lemma OneMoreObjection(objections: Objections, fields: set<string>, diagnostics: seq<Diagnostic>, field: string)
    requires AreObjections(objections, fields, diagnostics)
    ensures AreObjections(objections, fields + {field},
        if objections(field).Some? then diagnostics + [objections(field).value] else diagnostics)
  {
    var after := if objections(field).Some? then diagnostics + [objections(field).value] else diagnostics;
    forall d ensures d in after <==> exists g :: g in fields + {field} && objections(g) == Some(d) {
      if d in after && d !in diagnostics {
        assert field in fields + {field} && objections(field) == Some(d);
      }
    }
  }

  /** The loop of the filter: each value is kept, or dropped with one diagnostic. */
  method KeepUnobjected(objections: Objections, values: Values) returns (kept: Values, diagnostics: seq<Diagnostic>)
    ensures kept == Kept(objections, values) && AreObjections(objections, values.Keys, diagnostics)
    ensures |kept| + |diagnostics| == |values|
  {
    kept, diagnostics := map[], [];
    var left := values.Keys;
    while left != {}
      invariant left <= values.Keys
      invariant forall field :: field in kept <==> field in values && field !in left && objections(field).None?
      invariant forall field :: field in kept ==> kept[field] == values[field]
      invariant |kept| + |diagnostics| + |left| == |values|
      invariant AreObjections(objections, values.Keys - left, diagnostics)
    {
      var field :| field in left;
      OneMoreObjection(objections, values.Keys - left, diagnostics, field);
      assert values.Keys - left + {field} == values.Keys - (left - {field});
      left := left - {field};
      if objections(field).Some? {
        diagnostics := diagnostics + [objections(field).value];
      } else {
        kept := kept[field := values[field]];
      }
    }
    assert values.Keys - left == values.Keys;
  }

  /** What a project may set of these values. */
  function Filtered(ctx: Context, allowed: set<string>, path: Path, values: Values): Values {
    Kept(ObjectionsTo(ctx, allowed, path, values), values)
  }

  /** `_filter_project_config`: keeps what a project may set, with one diagnostic for each field it drops. */
  method FilterProject(ctx: Context, allowed: set<string>, path: Path, values: Values)
      returns (filtered: Values, diagnostics: seq<Diagnostic>)
    ensures filtered == Filtered(ctx, allowed, path, values) && |filtered| + |diagnostics| == |values|
    ensures AreObjections(ObjectionsTo(ctx, allowed, path, values), values.Keys, diagnostics)
  {
    filtered, diagnostics := KeepUnobjected(ObjectionsTo(ctx, allowed, path, values), values);
  }

  /** `project_config_paths`: the directories from the workspace root down to the current one. */
  method ProjectDirectories(root: Path, current: Path) returns (directories: seq<Path>)
    ensures directories == DirectoriesBetween(root, current)
  {
    directories := [root];
    if root <= current {
      var cursor := root;
      for i := |root| to |current|
        invariant cursor == current[..i]
        invariant |directories| == i - |root| + 1
        invariant forall k :: 0 <= k < |directories| ==> directories[k] == current[..|root| + k]
      {
        cursor := cursor + [current[i]];
        directories := directories + [cursor];
      }
    }
  }

  function DirectoriesBetween(root: Path, current: Path): seq<Path> {
    if root <= current then
      seq(|current| - |root| + 1, k requires 0 <= k <= |current| - |root| => current[..|root| + k])
    else [root]
  }

  /** Each project directory contains the next, so the layer nearest the current directory comes last and wins. */
  lemma DirectoriesNest(root: Path, current: Path, i: nat, j: nat)
    requires root <= current && i < j < |DirectoriesBetween(root, current)|
    ensures root <= DirectoriesBetween(root, current)[i] < DirectoriesBetween(root, current)[j] <= current
    ensures DirectoriesBetween(root, current)[|DirectoriesBetween(root, current)| - 1] == current
  {
  }

  /* Loading. */

  datatype Inputs = Inputs(
    profileDirectory: Option<Json>,
    dotenv: Values,
    dotenvDetails: map<string, string>,
    user: Values,
    env: Values,
    envDetails: map<string, string>,
    overrides: Values,
    overrideSource: string,
    overrideDetail: string)

  function BaseValues(inputs: Inputs): Values {
    inputs.dotenv + inputs.user + inputs.env + inputs.overrides
  }

  function WorkspaceRoot(ctx: Context, values: Values): Path {
    if "workspace_root" in values && values["workspace_root"] != Null then ctx.resolve(values["workspace_root"])
    else ctx.discovered
  }

  /** A layer that came through the project filter. */
  ghost predicate IsProjectLayer(ctx: Context, layer: Layer) {
    && layer.kind == Project && layer.detailByField == map[]
    && forall field :: field in layer.values ==> field in PROJECT_CONFIG_FIELDS
  }

  ghost predicate LayersInOrder(ctx: Context, inputs: Inputs, layers: seq<Layer>, projects: seq<Layer>) {
    && (forall p :: p in projects ==> IsProjectLayer(ctx, p))
    && layers == LowLayers(inputs) + projects + HighLayers(inputs)
  }

  function LowLayers(inputs: Inputs): seq<Layer> {
    (if inputs.profileDirectory.Some? then
       [Layer(map["db_directory" := inputs.profileDirectory.value], ProfileDefault, "isolated profile state", map[])]
     else [])
    + [Layer(inputs.dotenv, Dotenv, "dotenv file", inputs.dotenvDetails), Layer(inputs.user, User, "user file", map[])]
  }

  function HighLayers(inputs: Inputs): seq<Layer> {
    [Layer(inputs.env, Env, "process environment", inputs.envDetails),
     Layer(inputs.overrides, Override(inputs.overrideSource), inputs.overrideDetail, map[])]
  }

  function ConfigFile(directory: Path): string {
    Text.Join('/', directory + [".ash", "config.toml"])
  }

  /** One filtered layer for each directory that has a project file, in order. */
  function ProjectLayers(ctx: Context, directories: seq<Path>): seq<Layer> {
    if directories == [] then []
    else
      var last := directories[|directories| - 1];
      var file := ctx.projectFile(last);
      ProjectLayers(ctx, directories[..|directories| - 1]) +
      if file.Some? then
        [Layer(Filtered(ctx, PROJECT_CONFIG_FIELDS, last, file.value), Project, ConfigFile(last), map[])]
      else []
  }

  lemma {:induction false} ProjectLayersFiltered(ctx: Context, directories: seq<Path>)
    ensures forall p :: p in ProjectLayers(ctx, directories) ==> IsProjectLayer(ctx, p)
  {
    if directories != [] {
      ProjectLayersFiltered(ctx, directories[..|directories| - 1]);
    }
  }

  /** The project layers of a workspace; none unless it is trusted. */
  function Projects(ctx: Context, root: Path): seq<Layer> {
    if ctx.trusted(root) then ProjectLayers(ctx, DirectoriesBetween(root, ctx.cwd)) else []
  }

  method ReadProjects(ctx: Context, root: Path) returns (projects: seq<Layer>, diagnostics: seq<Diagnostic>)
    ensures projects == Projects(ctx, root)
  {
    projects, diagnostics := [], [];
    if ctx.trusted(root) {
      var directories := ProjectDirectories(root, ctx.cwd);
      for i := 0 to |directories|
        invariant projects == ProjectLayers(ctx, directories[..i])
      {
        assert directories[..i + 1][..i] == directories[..i];
        var raw := ctx.projectFile(directories[i]);
        if raw.Some? {
          var filtered, found := FilterProject(ctx, PROJECT_CONFIG_FIELDS, directories[i], raw.value);
          projects := projects + [Layer(filtered, Project, ConfigFile(directories[i]), map[])];
          diagnostics := diagnostics + found;
        }
      }
      assert directories[..|directories|] == directories;
    }
  }

  /** The layering part of `AshConfig.load`. */
  method Load(ctx: Context, inputs: Inputs)
      returns (merged: Values, sources: map<string, Source>, layers: seq<Layer>, root: Path)
    ensures Resolved(ctx.modelFields, layers, merged, sources)
    ensures root == WorkspaceRoot(ctx, BaseValues(inputs)) == WorkspaceRoot(ctx, merged)
    ensures layers == LowLayers(inputs) + Projects(ctx, root) + HighLayers(inputs)
    ensures forall field :: field in sources && sources[field].kind == Project ==> field in PROJECT_CONFIG_FIELDS
  {
    root := WorkspaceRoot(ctx, BaseValues(inputs));
    var projects, diagnostics := ReadProjects(ctx, root);
    layers := LowLayers(inputs) + projects + HighLayers(inputs);
    merged, sources := MergeAll(ctx.modelFields, layers);
    ProjectLayersFiltered(ctx, DirectoriesBetween(root, ctx.cwd));
    WorkspaceUnaffected(ctx, inputs, layers, projects, merged, sources);
    ProjectFieldsOnly(ctx, inputs, layers, projects, merged, sources);
  }

  lemma HighWinner(inputs: Inputs, field: string)
    ensures Winner(HighLayers(inputs), field).Some? <==> field in inputs.env + inputs.overrides
    ensures Winner(HighLayers(inputs), field).Some? ==>
      field in Winner(HighLayers(inputs), field).value.values
      && Winner(HighLayers(inputs), field).value.values[field] == (inputs.env + inputs.overrides)[field]
  {
    WinnerOfTwo(HighLayers(inputs), field);
  }

  lemma LowWinner(inputs: Inputs, field: string)
    requires field != "db_directory"
    ensures Winner(LowLayers(inputs), field).Some? <==> field in inputs.dotenv + inputs.user
    ensures Winner(LowLayers(inputs), field).Some? ==>
      field in Winner(LowLayers(inputs), field).value.values
      && Winner(LowLayers(inputs), field).value.values[field] == (inputs.dotenv + inputs.user)[field]
  {
    var low := LowLayers(inputs);
    if inputs.profileDirectory.Some? {
      var two := [
        Layer(inputs.dotenv, Dotenv, "dotenv file", inputs.dotenvDetails),
        Layer(inputs.user, User, "user file", map[])];
      assert low == [low[0]] + two;
      WinnerConcat([low[0]], two, field);
      WinnerOfTwo(two, field);
      assert [low[0]][..0] == [];
    } else {
      WinnerOfTwo(low, field);
    }
  }

  lemma NoProjectWinner(ctx: Context, projects: seq<Layer>, field: string)
    requires (forall p :: p in projects ==> IsProjectLayer(ctx, p)) && field !in PROJECT_CONFIG_FIELDS
    ensures Winner(projects, field).None?
  {
    WinnerDefines(projects, field);
  }

  /** Project and profile layers cannot define the workspace root, so the one used to find them is the one merged. */
  lemma WorkspaceUnaffected(ctx: Context, inputs: Inputs, layers: seq<Layer>, projects: seq<Layer>, merged: Values,
                            sources: map<string, Source>)
    requires LayersInOrder(ctx, inputs, layers, projects) && Resolved(ctx.modelFields, layers, merged, sources)
    ensures "workspace_root" in merged <==> "workspace_root" in BaseValues(inputs)
    ensures "workspace_root" in merged ==> merged["workspace_root"] == BaseValues(inputs)["workspace_root"]
  {
    var field := "workspace_root";
    var low, high := LowLayers(inputs), HighLayers(inputs);
    NoProjectWinner(ctx, projects, field);
    LowWinner(inputs, field);
    HighWinner(inputs, field);
    WinnerConcat(low + projects, high, field);
    WinnerConcat(low, projects, field);
  }

  lemma WinnerOfTwo(layers: seq<Layer>, field: string)
    requires |layers| == 2
    ensures Winner(layers, field) ==
      if field in layers[1].values then Some(layers[1]) else if field in layers[0].values then Some(layers[0]) else None
  {
    var one := layers[..1];
    assert one[..0] == [];
    assert Winner(one, field) == if field in one[0].values then Some(one[0]) else Winner(one[..0], field);
  }

  lemma {:induction false} WinnerConcat(a: seq<Layer>, b: seq<Layer>, field: string)
    ensures Winner(a + b, field) == if Winner(b, field).Some? then Winner(b, field) else Winner(a, field)
  {
    if b == [] {
      assert a + b == a;
    } else {
      assert (a + b)[..|a + b| - 1] == a + b[..|b| - 1];
      WinnerConcat(a, b[..|b| - 1], field);
    }
  }

  lemma ProjectFieldsOnly(ctx: Context, inputs: Inputs, layers: seq<Layer>, projects: seq<Layer>, merged: Values,
                          sources: map<string, Source>)
    requires LayersInOrder(ctx, inputs, layers, projects) && Resolved(ctx.modelFields, layers, merged, sources)
    ensures forall field :: field in sources && sources[field].kind == Project ==> field in PROJECT_CONFIG_FIELDS
  {
    forall field | field in sources && sources[field].kind == Project ensures field in PROJECT_CONFIG_FIELDS {
      WinnerDefines(layers, field);
      var winner := Winner(layers, field).value;
      assert winner in projects;
      assert IsProjectLayer(ctx, winner);
    }
  }
}
