/** The one-time configuration loader: `BaseConfig` and its subclass
    `DefaultConfig`. Construction derives the options from caller overrides
    and the environment snapshot; `initialize` validates the environment
    and loads the secrets once, rolling back on failure; `get` exposes the
    configuration bag only after that. The subclass override of
    `_loadSecrets` is modelled by the `variant` a loader is built with. */
module ConfigLoader {
  import opened Common
  import opened JsParseInt
  import Env
  import opened SecretCache

  /** A TTL override as a caller passes it: a number or a string. */
  datatype TtlSetting = TtlNumber(n: int) | TtlText(text: string)

  /** Caller-supplied constructor options; `None` is an omitted property. */
  datatype Overrides = Overrides(projectId: Option<string>, environment: Option<string>,
                                 secretCacheTTL: Option<TtlSetting>)

  const NoOverrides := Overrides(None, None, None)

  /** `this.options`; a `secretCacheTTL` of `None` is `NaN`. */
  datatype Options = Options(projectId: Option<string>, environment: string, secretCacheTTL: Option<int>)

  predicate TtlTruthy(t: Option<TtlSetting>) {
    match t
    case None => false
    case Some(TtlNumber(n)) => n != 0
    case Some(TtlText(s)) => s != ""
  }

  /** The string `parseInt` reads from a TTL override. */
  function TtlString(t: TtlSetting): string {
    match t
    case TtlNumber(n) => NumberToString(n)
    case TtlText(s) => s
  }

  /** The constructor's option derivation: each option is the caller's value
      when truthy, otherwise the environment snapshot's; the TTL goes
      through `parseInt`. */
  function DeriveOptions(overrides: Overrides, processEnv: map<string, string>): (o: Options)
    ensures o.projectId == Or(overrides.projectId, Lookup(processEnv, Env.ProjectIdVar))
    ensures o.environment == if Truthy(overrides.environment) then overrides.environment.value
                             else if Env.EnvironmentVar in processEnv then processEnv[Env.EnvironmentVar]
                             else "development"
    ensures forall n :: overrides.secretCacheTTL == Some(TtlNumber(n)) && n != 0 ==> o.secretCacheTTL == Some(n)
    ensures forall s :: overrides.secretCacheTTL == Some(TtlText(s)) && s != "" ==> o.secretCacheTTL == ParseInt(s)
    ensures !TtlTruthy(overrides.secretCacheTTL) ==>
              o.secretCacheTTL == ParseInt(if Env.CacheTtlVar in processEnv then processEnv[Env.CacheTtlVar] else "3600000")
  {
    Env.DefaultSnapshot(processEnv);
    var envVars := Env.GetEnvWithDefaults(Env.DefaultValidator, processEnv);
    var environment := if Truthy(overrides.environment) then overrides.environment.value
                       else envVars[Env.EnvironmentVar];
    var ttl := if TtlTruthy(overrides.secretCacheTTL) then TtlString(overrides.secretCacheTTL.value)
               else envVars[Env.CacheTtlVar];
    assert forall n :: overrides.secretCacheTTL == Some(TtlNumber(n)) && n != 0 ==> ParseInt(ttl) == Some(n) by {
      if overrides.secretCacheTTL.Some? && overrides.secretCacheTTL.value.TtlNumber? {
        ParseIntOfNumberToString(overrides.secretCacheTTL.value.n);
      }
    }
    Options(Or(overrides.projectId, Lookup(envVars, Env.ProjectIdVar)), environment, ParseInt(ttl))
  }

  /** With no overrides and no TTL in the environment, the TTL is one hour. */
  lemma DefaultTtl(processEnv: map<string, string>)
    requires Env.CacheTtlVar !in processEnv
    ensures DeriveOptions(NoOverrides, processEnv).secretCacheTTL == Some(3600000)
  {
    DefaultTtlText();
  }

  /** The default TTL text reads as one hour. */
  lemma DefaultTtlText()
    ensures ParseInt("3600000") == Some(3600000)
  {
    DefaultTtlDigits();
    ParseUnsignedOfDigits("3600000");
    ParseIntUnsignedStart("3600000");
  }

  lemma DefaultTtlDigits()
    ensures forall i :: 0 <= i < |"3600000"| ==> IsDigit("3600000"[i], 10)
    ensures DigitsValue("3600000", 10) == 3600000
  {
    DigitsValueAppend("", '3');
    assert "" + ['3'] == "3";
    DigitsValueAppend("3", '6');
    assert "3" + ['6'] == "36";
    DigitsValueAppend("36", '0');
    assert "36" + ['0'] == "360";
    DigitsValueAppend("360", '0');
    assert "360" + ['0'] == "3600";
    DigitsValueAppend("3600", '0');
    assert "3600" + ['0'] == "36000";
    DigitsValueAppend("36000", '0');
    assert "36000" + ['0'] == "360000";
    DigitsValueAppend("360000", '0');
    assert "360000" + ['0'] == "3600000";
  }

  /** The configuration bag: `{}` before loading, and the shape
      `{database: {uri}, jwt: {secret}}` that `DefaultConfig` assigns. */
  datatype ConfigBag = EmptyBag | DefaultBag(databaseUri: string, jwtSecret: string)

  /** Which `_loadSecrets` a loader runs: `BaseConfig`'s or `DefaultConfig`'s. */
  datatype Variant = Base | Default

  const InitFailedPrefix := "Failed to initialize config: "
  const NotInitializedMessage := "Config not initialized. Call initialize() first."
  const NotImplementedMessage := "_loadSecrets must be implemented by subclass"
  const MongoSuffix := "MONGODB_URI"
  const JwtSuffix := "JWT_SECRET"

  /** The secret name `ATTENDME_<environment>_<suffix>`. */
  function SecretId(environment: string, suffix: string): string {
    "ATTENDME_" + environment + "_" + suffix
  }

  /** The loader's mutable state: the flag, the bag and the secret cache. */
  datatype State = State(initialized: bool, config: ConfigBag, cache: map<string, Entry>)

  /** What `_loadSecrets` does: its outcome, the bag and cache afterwards,
      and the resource names it sent to the remote store. */
  datatype Loaded = Loaded(outcome: Outcome, config: ConfigBag, cache: map<string, Entry>, calls: seq<string>)

  /** `_loadSecrets()`: the base version always throws; the default one
      fetches the database URI and then the JWT secret, and assigns the bag
      only once both have arrived. */
  function LoadSecretsSpec(variant: Variant, environment: string, projectId: Option<string>,
                           config: ConfigBag, cache: map<string, Entry>, now: int, backend: Backend): (l: Loaded)
    ensures l.outcome.Fail? ==> l.config == config
    ensures l.outcome.Pass? <==>
              variant == Default &&
              forall name :: name == SecretId(environment, MongoSuffix) || name == SecretId(environment, JwtSuffix) ==>
                IsFresh(cache, name, DefaultMaxAge, now) || backend(ResourceName(projectId, name)).Ok?
    ensures l.outcome.Pass? ==>
              var u := SecretId(environment, MongoSuffix);
              var j := SecretId(environment, JwtSuffix);
              l.config == DefaultBag(
                if IsFresh(cache, u, DefaultMaxAge, now) then cache[u].value
                else backend(ResourceName(projectId, u)).value,
                if IsFresh(cache, j, DefaultMaxAge, now) then cache[j].value
                else backend(ResourceName(projectId, j)).value)
  {
    SecretIdsDistinct(environment);
    match variant
    case Base => Loaded(Fail(NotImplementedMessage), config, cache, [])
    case Default =>
      var uri := GetSecretSpec(cache, projectId, SecretId(environment, MongoSuffix), DefaultMaxAge, now, backend);
      match uri.result
      case Err(m) => Loaded(Fail(m), config, uri.cache, uri.calls)
      case Ok(u) =>
        var jwt := GetSecretSpec(uri.cache, projectId, SecretId(environment, JwtSuffix), DefaultMaxAge, now, backend);
        match jwt.result
        case Err(m) => Loaded(Fail(m), config, jwt.cache, uri.calls + jwt.calls)
        case Ok(j) => Loaded(Pass, DefaultBag(u, j), jwt.cache, uri.calls + jwt.calls)
  }

  /** What `initialize` does: its result, the state afterwards and the
      resource names it sent to the remote store. */
  datatype Step = Step(result: Result<ConfigBag>, state: State, calls: seq<string>)

  /** `initialize()`: return the bag at once when initialized; otherwise
      validate, load, and set the flag only if both succeed; any failure is
      rethrown with the `Failed to initialize config: ` prefix. */
  function InitializeSpec(variant: Variant, options: Options, projectId: Option<string>, s: State,
                          processEnv: map<string, string>, now: int, backend: Backend): Step
  {
    if s.initialized then Step(Ok(s.config), s, [])
    else
      match Env.Validate(Env.DefaultValidator, processEnv)
      case Fail(m) => Step(Err(InitFailedPrefix + m), s, [])
      case Pass =>
        var l := LoadSecretsSpec(variant, options.environment, projectId, s.config, s.cache, now, backend);
        match l.outcome
        case Fail(m) => Step(Err(InitFailedPrefix + m), State(false, l.config, l.cache), l.calls)
        case Pass => Step(Ok(l.config), State(true, l.config, l.cache), l.calls)
  }

  class Config {
    const variant: Variant
    const options: Options
    const secretManager: SecretManager
    var config: ConfigBag
    var initialized: bool

    ghost function Snapshot(): State
      reads this, secretManager
    {
      State(initialized, config, secretManager.cache)
    }

    /** `new BaseConfig(overrides)` / `new DefaultConfig(overrides)` with
        the process environment `processEnv`. */
    constructor (variant: Variant, overrides: Overrides, processEnv: map<string, string>)
      ensures this.variant == variant && options == DeriveOptions(overrides, processEnv)
      ensures fresh(secretManager) && secretManager.calls == []
      ensures secretManager.projectId == options.projectId
      ensures Snapshot() == State(false, EmptyBag, map[])
    {
      var derived := DeriveOptions(overrides, processEnv);
      this.variant := variant;
      config := EmptyBag;
      options := derived;
      secretManager := new SecretManager(derived.projectId, processEnv);
      initialized := false;
    }

    method Initialize(processEnv: map<string, string>, now: int, backend: Backend) returns (r: Result<ConfigBag>)
      modifies this, secretManager
      ensures var st := InitializeSpec(variant, options, secretManager.projectId, old(Snapshot()), processEnv, now, backend);
              r == st.result && Snapshot() == st.state && secretManager.calls == old(secretManager.calls) + st.calls
    {
      if initialized {
        return Ok(config);
      }
      var validation := Env.Validate(Env.DefaultValidator, processEnv);
      if validation.Fail? {
        return Err(InitFailedPrefix + validation.message);
      }
      var loaded := LoadSecrets(now, backend);
      if loaded.Fail? {
        return Err(InitFailedPrefix + loaded.message);
      }
      initialized := true;
      return Ok(config);
    }

    method LoadSecrets(now: int, backend: Backend) returns (o: Outcome)
      modifies this`config, secretManager
      ensures var l := LoadSecretsSpec(variant, options.environment, secretManager.projectId,
                                       old(config), old(secretManager.cache), now, backend);
              o == l.outcome && config == l.config && secretManager.cache == l.cache
              && secretManager.calls == old(secretManager.calls) + l.calls
    {
      match variant {
        case Base =>
          return Fail(NotImplementedMessage);
        case Default =>
          var uri := secretManager.GetSecret(SecretId(options.environment, MongoSuffix), None, now, backend);
          if uri.Err? {
            return Fail(uri.message);
          }
          var jwt := secretManager.GetSecret(SecretId(options.environment, JwtSuffix), None, now, backend);
          if jwt.Err? {
            return Fail(jwt.message);
          }
          config := DefaultBag(uri.value, jwt.value);
          return Pass;
      }
    }

    /** `get()`: the bag once initialized, otherwise the not-initialized
        error. */
    method Get() returns (r: Result<ConfigBag>)
      ensures r.Ok? <==> initialized
      ensures r.Ok? ==> r.value == config
      ensures r.Err? ==> r.message == NotInitializedMessage
    {
      if !initialized {
        return Err(NotInitializedMessage);
      }
      return Ok(config);
    }
  }

  /** The secret manager the constructor builds falls back to the same
      environment variable as the options did, so it uses the options'
      project id. */
  lemma ManagerProjectId(overrides: Overrides, processEnv: map<string, string>)
    ensures Or(DeriveOptions(overrides, processEnv).projectId, Lookup(processEnv, Env.ProjectIdVar))
            == DeriveOptions(overrides, processEnv).projectId
  {
  }

  /** On an initialized loader `initialize` returns the existing bag and
      changes nothing: no validation (it succeeds whatever the environment)
      and no remote call. */
  lemma InitializeIdempotent(variant: Variant, options: Options, projectId: Option<string>, s: State,
                             processEnv: map<string, string>, now: int, backend: Backend)
    requires s.initialized
    ensures InitializeSpec(variant, options, projectId, s, processEnv, now, backend) == Step(Ok(s.config), s, [])
  {
  }

  /** The flag is set exactly when validation and `_loadSecrets` both
      succeed, and then the bag returned is the bag stored. */
  lemma InitializeSucceedsOnlyWhenBothPass(variant: Variant, options: Options, projectId: Option<string>, s: State,
                                           processEnv: map<string, string>, now: int, backend: Backend)
    requires !s.initialized
    ensures var st := InitializeSpec(variant, options, projectId, s, processEnv, now, backend);
            var l := LoadSecretsSpec(variant, options.environment, projectId, s.config, s.cache, now, backend);
            && (st.state.initialized <==> st.result.Ok?)
            && (st.result.Ok? <==> Env.Validate(Env.DefaultValidator, processEnv).Pass? && l.outcome.Pass?)
            && (st.result.Ok? ==> st.result.value == st.state.config)
            && (st.result.Ok? ==> st.result.value == l.config && st.state == State(true, l.config, l.cache)
                                  && st.calls == l.calls)
  {
  }

  /** A failed `initialize` rethrows the cause's message behind the
      `Failed to initialize config: ` prefix, leaves the flag unset and the
      bag as it was, so `get` still fails and a later call can retry. */
  lemma InitializeFailureRollsBack(variant: Variant, options: Options, projectId: Option<string>, s: State,
                                   processEnv: map<string, string>, now: int, backend: Backend)
    requires !s.initialized
    requires InitializeSpec(variant, options, projectId, s, processEnv, now, backend).result.Err?
    ensures var st := InitializeSpec(variant, options, projectId, s, processEnv, now, backend);
            var v := Env.Validate(Env.DefaultValidator, processEnv);
            var l := LoadSecretsSpec(variant, options.environment, projectId, s.config, s.cache, now, backend);
            && !st.state.initialized
            && st.state.config == s.config
            && st.result.message == InitFailedPrefix + (if v.Fail? then v.message else l.outcome.message)
            && st.state.cache == (if v.Fail? then s.cache else l.cache)
            && st.calls == (if v.Fail? then [] else l.calls)
  {
  }

  /** `BaseConfig` never initializes: it fails with the validation message
      or, once validation passes, with the not-implemented message, and it
      touches neither the bag nor the cache. */
  lemma BaseNeverInitializes(options: Options, projectId: Option<string>, s: State,
                             processEnv: map<string, string>, now: int, backend: Backend)
    requires !s.initialized
    ensures var st := InitializeSpec(Base, options, projectId, s, processEnv, now, backend);
            var v := Env.Validate(Env.DefaultValidator, processEnv);
            && st.result == Err(InitFailedPrefix + (if v.Fail? then v.message else NotImplementedMessage))
            && st.state == s && st.calls == []
  {
  }

  /** The two secret names of `DefaultConfig` never coincide. */
  lemma SecretIdsDistinct(environment: string)
    ensures SecretId(environment, MongoSuffix) != SecretId(environment, JwtSuffix)
  {
    assert |SecretId(environment, MongoSuffix)| != |SecretId(environment, JwtSuffix)|;
  }

  /** On an empty cache `DefaultConfig._loadSecrets` asks the store for the
      database URI first and the JWT secret second (the second only if the
      first arrived), and succeeds exactly when both arrive, with the bag
      made of the two values. */
  lemma DefaultLoadFromEmptyCache(environment: string, projectId: Option<string>, config: ConfigBag,
                                  now: int, backend: Backend)
    ensures var l := LoadSecretsSpec(Default, environment, projectId, config, map[], now, backend);
            var uriName := ResourceName(projectId, SecretId(environment, MongoSuffix));
            var jwtName := ResourceName(projectId, SecretId(environment, JwtSuffix));
            && l.calls == (if backend(uriName).Ok? then [uriName, jwtName] else [uriName])
            && (l.outcome.Pass? <==> backend(uriName).Ok? && backend(jwtName).Ok?)
            && (l.outcome.Pass? ==> l.config == DefaultBag(backend(uriName).value, backend(jwtName).value))
  {
    SecretIdsDistinct(environment);
  }

  /** A consistent loader state: `BaseConfig` stays uninitialized with the
      empty bag; an initialized `DefaultConfig` holds a loaded bag; the cache
      only ever holds the loader's two secret names. */
  predicate Consistent(variant: Variant, environment: string, s: State) {
    && (variant == Base ==> !s.initialized && s.config == EmptyBag)
    && (variant == Default && s.initialized ==> s.config.DefaultBag?)
    && forall k :: k in s.cache ==> k == SecretId(environment, MongoSuffix) || k == SecretId(environment, JwtSuffix)
  }

  /** A new loader is consistent. */
  lemma InitialStateConsistent(variant: Variant, environment: string)
    ensures Consistent(variant, environment, State(false, EmptyBag, map[]))
  {
  }

  /** `initialize` keeps a loader consistent on every path, success or
      failure. */
  lemma InitializePreservesConsistent(variant: Variant, options: Options, projectId: Option<string>, s: State,
                                      processEnv: map<string, string>, now: int, backend: Backend)
    requires Consistent(variant, options.environment, s)
    ensures Consistent(variant, options.environment,
                       InitializeSpec(variant, options, projectId, s, processEnv, now, backend).state)
  {
  }

  /** Retry after a failure: once the environment validates and the store
      answers, a second `initialize` of a `DefaultConfig` that failed before
      succeeds. */
  lemma RetryAfterFailure(options: Options, projectId: Option<string>, s: State,
                          env1: map<string, string>, now1: int, backend1: Backend,
                          env2: map<string, string>, now2: int, backend2: Backend)
    requires InitializeSpec(Default, options, projectId, s, env1, now1, backend1).result.Err?
    requires Env.Validate(Env.DefaultValidator, env2).Pass?
    requires forall name :: backend2(name).Ok?
    ensures var first := InitializeSpec(Default, options, projectId, s, env1, now1, backend1);
            var second := InitializeSpec(Default, options, projectId, first.state, env2, now2, backend2);
            second.result.Ok? && second.state.initialized
  {
  }

  /** Two `initialize` calls, the first successful: the second returns the
      same bag and reaches the store no more. */
  lemma SecondInitializeFetchesNothing(variant: Variant, options: Options, projectId: Option<string>, s: State,
                                       env1: map<string, string>, now1: int, backend1: Backend,
                                       env2: map<string, string>, now2: int, backend2: Backend)
    requires InitializeSpec(variant, options, projectId, s, env1, now1, backend1).result.Ok?
    ensures var first := InitializeSpec(variant, options, projectId, s, env1, now1, backend1);
            var second := InitializeSpec(variant, options, projectId, first.state, env2, now2, backend2);
            second.result == first.result && second.state == first.state && second.calls == []
  {
  }

  /** Without `GOOGLE_CLOUD_PROJECT_ID` (absent or empty), `initialize`
      fails before any remote call, naming that variable. */
  lemma MissingProjectIdFails(variant: Variant, options: Options, projectId: Option<string>, s: State,
                              processEnv: map<string, string>, now: int, backend: Backend)
    requires !s.initialized
    requires !Env.IsSet(processEnv, Env.ProjectIdVar)
    ensures var st := InitializeSpec(variant, options, projectId, s, processEnv, now, backend);
            && st.result == Err(InitFailedPrefix + Env.MissingPrefix + Env.ProjectIdVar)
            && st.state == s && st.calls == []
  {
    assert Env.Missing(Env.DefaultValidator.requiredVars, processEnv) == [Env.ProjectIdVar];
  }
}
