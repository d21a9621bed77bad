/** Which environment entries Ash injected from dotenv files, and what publishing them again may touch. */
module EnvironmentOwnership {
  import opened Common

  type Values = map<string, string>

  const ANTHROPIC_KEY := "ANTHROPIC_API_KEY"
  const LEGACY_KEY := "ASH_API_KEY"

  /** An entry belongs to the user unless it holds exactly the value that Ash recorded injecting. */
  predicate UserOwned(environ: Values, injected: Values, key: string) {
    key in environ && !(key in injected && injected[key] == environ[key])
  }

  function UserEntries(environ: Values, injected: Values): Values {
    map key | key in environ && UserOwned(environ, injected, key) :: environ[key]
  }

  /** The published values that are not settings. */
  function Runtime(values: Values, settingKeys: set<string>): Values {
    values - settingKeys
  }

  /** What publishing makes Ash's own. */
  function Owned(environ: Values, injected: Values, runtime: Values): Values {
    runtime - UserEntries(environ, injected).Keys
  }

  function PublishedEnviron(environ: Values, injected: Values, runtime: Values): Values {
    UserEntries(environ, injected) + Owned(environ, injected, runtime)
  }

  predicate Truthy(values: Values, key: string) {
    key in values && values[key] != ""
  }

  /** Promotion applies when only the legacy key is set. */
  predicate Promotes(environ: Values) {
    !Truthy(environ, ANTHROPIC_KEY) && Truthy(environ, LEGACY_KEY)
  }

  function PromotedEnviron(environ: Values): Values {
    if Promotes(environ) then environ[ANTHROPIC_KEY := environ[LEGACY_KEY]] else environ
  }

  function PromotedInjected(environ: Values, injected: Values): Values {
    if Promotes(environ) && LEGACY_KEY in injected && injected[LEGACY_KEY] == environ[LEGACY_KEY]
    then injected[ANTHROPIC_KEY := environ[LEGACY_KEY]] else injected
  }

  class Process {
    var environ: Values
    var injected: Values

    constructor (initial: Values)
      ensures environ == initial && injected == map[]
    {
      environ, injected := initial, map[];
    }

    /** The first loop: values injected earlier are replaced, withdrawn, or left to whoever changed them. */
    method RefreshInjected(runtime: Values)
      modifies this
      ensures forall key :: key in environ <==>
        UserOwned(old(environ), old(injected), key) || (key in old(environ) && key in old(injected) && key in runtime)
      ensures forall key :: key in environ ==>
        environ[key] == if UserOwned(old(environ), old(injected), key) then old(environ)[key] else runtime[key]
      ensures forall key :: key in injected <==>
        key in old(injected) && key in old(environ) && old(injected)[key] == old(environ)[key] && key in runtime
      ensures forall key :: key in injected ==> injected[key] == runtime[key]
    {
      var left := injected.Keys;
      while left != {}
        invariant left <= old(injected).Keys
        invariant forall key :: key in left ==> key in injected && injected[key] == old(injected)[key]
        invariant forall key :: key in left || key !in old(injected) ==>
          (key in environ <==> key in old(environ)) && (key in environ ==> environ[key] == old(environ)[key])
        invariant forall key :: key in old(injected) && key !in left ==>
          var mine := key in old(environ) && old(environ)[key] == old(injected)[key];
          && (key in injected <==> mine && key in runtime) && (key in injected ==> injected[key] == runtime[key])
          && (mine ==> (key in environ <==> key in runtime) && (key in environ ==> environ[key] == runtime[key]))
          && (!mine ==>
            (key in environ <==> key in old(environ)) && (key in environ ==> environ[key] == old(environ)[key]))
        invariant injected.Keys <= old(injected).Keys
      {
        var key :| key in left;
        left := left - {key};
        var previous := injected[key];
        if key !in environ || environ[key] != previous {
          injected := injected - {key};
        } else if key !in runtime {
          environ := environ - {key};
          injected := injected - {key};
        } else {
          environ := environ[key := runtime[key]];
          injected := injected[key := runtime[key]];
        }
      }
    }

    /** The second loop: values for keys that nobody has set are injected. */
    method InjectMissing(runtime: Values)
      requires forall key :: key in injected ==>
        key in environ && key in runtime && environ[key] == injected[key] == runtime[key]
      modifies this
      ensures forall key :: key in environ <==> key in runtime || key in old(environ)
      ensures forall key :: key in environ ==>
        environ[key] == if key in old(environ) then old(environ)[key] else runtime[key]
      ensures forall key :: key in injected <==> key in runtime && (key in old(injected) || key !in old(environ))
      ensures forall key :: key in injected ==> injected[key] == runtime[key]
    {
      var left := runtime.Keys;
      while left != {}
        invariant left <= runtime.Keys
        invariant forall key :: key in environ <==> (key in runtime && key !in left) || key in old(environ)
        invariant forall key :: key in environ ==>
          environ[key] == if key in old(environ) then old(environ)[key] else runtime[key]
        invariant forall key ::
          key in injected <==> key in old(injected) || (key in runtime && key !in left && key !in old(environ))
        invariant forall key :: key in injected ==> injected[key] == runtime[key]
      {
        var key :| key in left;
        left := left - {key};
        if key !in injected && key !in environ {
          environ := environ[key := runtime[key]];
          injected := injected[key := runtime[key]];
        }
      }
    }

    /** `_publish_dotenv_runtime_values`. */
    method Publish(values: Values, settingKeys: set<string>)
      modifies this
      ensures environ == PublishedEnviron(old(environ), old(injected), Runtime(values, settingKeys))
      ensures injected == Owned(old(environ), old(injected), Runtime(values, settingKeys))
    {
      var runtime := values - settingKeys;
      RefreshInjected(runtime);
      InjectMissing(runtime);
      PublishedByKey(old(environ), old(injected), runtime, environ, injected);
    }

    /** The key promotion that follows each publish. */
    method Promote()
      modifies this
      ensures environ == PromotedEnviron(old(environ))
      ensures injected == PromotedInjected(old(environ), old(injected))
    {
      if !Truthy(environ, ANTHROPIC_KEY) && Truthy(environ, LEGACY_KEY) {
        var legacy := environ[LEGACY_KEY];
        environ := environ[ANTHROPIC_KEY := legacy];
        if LEGACY_KEY in injected && injected[LEGACY_KEY] == legacy {
          injected := injected[ANTHROPIC_KEY := legacy];
        }
      }
    }

    /** Constructing a configuration: publish the dotenv file, then promote. */
    method Load(values: Values, settingKeys: set<string>)
      modifies this
      ensures State(environ, injected) == Loaded(State(old(environ), old(injected)), Runtime(values, settingKeys))
    {
      Publish(values, settingKeys);
      Promote();
    }
  }

  /** The two loops together, key by key. */
  lemma PublishedByKey(environ0: Values, injected0: Values, runtime: Values, environ: Values, injected: Values)
    requires forall key :: key in environ <==> UserOwned(environ0, injected0, key) || key in runtime
    requires forall key :: key in environ ==>
      environ[key] == if UserOwned(environ0, injected0, key) then environ0[key] else runtime[key]
    requires forall key :: key in injected <==> key in runtime && !UserOwned(environ0, injected0, key)
    requires forall key :: key in injected ==> injected[key] == runtime[key]
    ensures environ == PublishedEnviron(environ0, injected0, runtime) && injected == Owned(environ0, injected0, runtime)
  {
  }

  /* What publishing means. */

  /** Publishing leaves ownership as it was, and publishing the same values again changes nothing. */
  lemma PublishIsStable(environ: Values, injected: Values, runtime: Values)
    ensures var e, i := PublishedEnviron(environ, injected, runtime), Owned(environ, injected, runtime);
      && UserEntries(e, i) == UserEntries(environ, injected)
      && PublishedEnviron(e, i, runtime) == e && Owned(e, i, runtime) == i
  {
    var e, i := PublishedEnviron(environ, injected, runtime), Owned(environ, injected, runtime);
    assert UserEntries(e, i) == UserEntries(environ, injected);
  }

  /** Each entry afterwards is either the user's, unchanged, or Ash's current value; nothing Ash injected lingers. */
  lemma PublishPartitions(environ: Values, injected: Values, runtime: Values, key: string)
    ensures var e, i := PublishedEnviron(environ, injected, runtime), Owned(environ, injected, runtime);
      && (UserOwned(environ, injected, key) ==> key in e && e[key] == environ[key] && key !in i)
      && (!UserOwned(environ, injected, key) ==> (key in e <==> key in runtime) && (key in i <==> key in runtime))
      && (!UserOwned(environ, injected, key) && key in runtime ==> e[key] == i[key] == runtime[key])
  {
  }

  /* Promotion. */

  /** Promotion changes a user's entry exactly when the user has set an empty key beside a usable legacy one. */
  lemma PromotionTouchesUserExactly(environ: Values, injected: Values)
    ensures (forall key :: UserOwned(environ, injected, key) ==> PromotedEnviron(environ)[key] == environ[key])
      <==> !(Promotes(environ) && UserOwned(environ, injected, ANTHROPIC_KEY))
  {
    if Promotes(environ) && UserOwned(environ, injected, ANTHROPIC_KEY) {
      assert PromotedEnviron(environ)[ANTHROPIC_KEY] != environ[ANTHROPIC_KEY];
    }
  }

  /** An explicitly empty key in the user's environment is overwritten by a legacy key from a dotenv file. */
  lemma EmptyKeyIsOverwritten()
    ensures var environ := map[ANTHROPIC_KEY := ""];
      var runtime := map[LEGACY_KEY := "secret"];
      UserOwned(environ, map[], ANTHROPIC_KEY)
      && Loaded(State(environ, map[]), runtime).environ[ANTHROPIC_KEY] == "secret"
  {
    var environ := map[ANTHROPIC_KEY := ""];
    var runtime := map[LEGACY_KEY := "secret"];
    var published := PublishedEnviron(environ, map[], runtime);
    assert published[LEGACY_KEY] == "secret" && published[ANTHROPIC_KEY] == "";
  }

  datatype State = State(environ: Values, injected: Values)

  function Loaded(s: State, runtime: Values): State {
    var e, i := PublishedEnviron(s.environ, s.injected, runtime), Owned(s.environ, s.injected, runtime);
    State(PromotedEnviron(e), PromotedInjected(e, i))
  }

  /** Something that happens to the process: a load, or an outside change to another entry. */
  datatype Event = LoadEvent(runtime: Values) | SetOutside(key: string, value: string) | UnsetOutside(key: string)

  predicate SparesKeys(event: Event) {
    event.LoadEvent? || (event.key != ANTHROPIC_KEY && event.key != LEGACY_KEY)
  }

  function Apply(s: State, event: Event): State {
    match event
    case LoadEvent(runtime) => Loaded(s, runtime)
    case SetOutside(key, value) => State(s.environ[key := value], s.injected)
    case UnsetOutside(key) => State(s.environ - {key}, s.injected)
  }

  function ApplyAll(s: State, events: seq<Event>): State {
    if events == [] then s else Apply(ApplyAll(s, events[..|events| - 1]), events[|events| - 1])
  }

  /** Neither key is the user's: whatever they hold came from a dotenv file. */
  predicate KeysDerived(s: State) {
    !UserOwned(s.environ, s.injected, ANTHROPIC_KEY) && !UserOwned(s.environ, s.injected, LEGACY_KEY)
  }

  /** The API key that one dotenv file alone gives. */
  function KeyFrom(runtime: Values): Option<string> {
    if Truthy(runtime, ANTHROPIC_KEY) then Some(runtime[ANTHROPIC_KEY])
    else if Truthy(runtime, LEGACY_KEY) then Some(runtime[LEGACY_KEY])
    else if ANTHROPIC_KEY in runtime then Some("")
    else None
  }

  function KeyIn(environ: Values): Option<string> {
    if ANTHROPIC_KEY in environ then Some(environ[ANTHROPIC_KEY]) else None
  }

  lemma LoadDerivesKeys(s: State, runtime: Values)
    requires KeysDerived(s)
    ensures KeysDerived(Loaded(s, runtime)) && KeyIn(Loaded(s, runtime).environ) == KeyFrom(runtime)
  {
    PublishPartitions(s.environ, s.injected, runtime, ANTHROPIC_KEY);
    PublishPartitions(s.environ, s.injected, runtime, LEGACY_KEY);
  }

  lemma {:induction false} KeysStayDerived(s: State, events: seq<Event>)
    requires KeysDerived(s) && forall e :: e in events ==> SparesKeys(e)
    ensures KeysDerived(ApplyAll(s, events))
  {
    if events != [] {
      var earlier, last := events[..|events| - 1], events[|events| - 1];
      KeysStayDerived(s, earlier);
      assert SparesKeys(last);
      if last.LoadEvent? {
        LoadDerivesKeys(ApplyAll(s, earlier), last.runtime);
      }
    }
  }

  /**
   After any history of loads and of outside changes to other entries, the key is what the last
   dotenv file alone gives: when its source disappears, so does the derived key.
   */
  lemma DerivedKeyFollowsItsSource(environ: Values, events: seq<Event>, runtime: Values)
    requires ANTHROPIC_KEY !in environ && LEGACY_KEY !in environ
    requires forall e :: e in events ==> SparesKeys(e)
    ensures KeyIn(ApplyAll(State(environ, map[]), events + [LoadEvent(runtime)]).environ) == KeyFrom(runtime)
  {
    KeysStayDerived(State(environ, map[]), events);
    LoadDerivesKeys(ApplyAll(State(environ, map[]), events), runtime);
    assert (events + [LoadEvent(runtime)])[..|events|] == events;
  }
}
