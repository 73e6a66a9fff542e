/** Worked scenarios of the loader, with the values its test suite uses:
    option derivation from the environment and from overrides, and a first
    `initialize` against a store that holds both secrets. */
module Scenarios {
  import opened Common
  import opened JsParseInt
  import Env
  import opened SecretCache
  import opened ConfigLoader

  /** The TTL text of the constructor example reads as 3600. */
  lemma ExampleTtlText()
    ensures ParseInt("3600") == Some(3600)
  {
    ExampleTtlDigits();
    ParseUnsignedOfDigits("3600");
    ParseIntUnsignedStart("3600");
  }

  lemma ExampleTtlDigits()
    ensures forall i :: 0 <= i < |"3600"| ==> IsDigit("3600"[i], 10)
    ensures DigitsValue("3600", 10) == 3600
  {
    DigitsValueAppend("", '3');
    assert "" + ['3'] == "3";
    DigitsValueAppend("3", '6');
    assert "3" + ['6'] == "36";
    DigitsValueAppend("36", '0');
    assert "36" + ['0'] == "360";
    DigitsValueAppend("360", '0');
    assert "360" + ['0'] == "3600";
  }

  /** Option derivation from the environment alone. */
  lemma DeriveOptionsFromEnvironment()
    ensures DeriveOptions(NoOverrides, ExampleEnv) == Options(Some("test-project"), "test", Some(3600))
  {
    ExampleTtlText();
    NoOverridesReadEnvironment(ExampleEnv);
    assert Lookup(ExampleEnv, Env.ProjectIdVar) == Some("test-project");
    assert Env.CacheTtlVar in ExampleEnv && ExampleEnv[Env.CacheTtlVar] == "3600";
  }

  /** Without overrides every option comes from the environment snapshot. */
  lemma NoOverridesReadEnvironment(env: map<string, string>)
    requires Env.EnvironmentVar in env
    requires Env.CacheTtlVar in env
    ensures DeriveOptions(NoOverrides, env)
            == Options(Lookup(env, Env.ProjectIdVar), env[Env.EnvironmentVar], ParseInt(env[Env.CacheTtlVar]))
  {
  }

  /** Option derivation with every option overridden: the caller's values
      win, the numeric TTL included. */
  lemma DeriveOptionsFromOverrides()
    ensures DeriveOptions(Overrides(Some("custom-project"), Some("production"), Some(TtlNumber(7200))), ExampleEnv)
            == Options(Some("custom-project"), "production", Some(7200))
  {
  }

  const ExampleEnv := map[Env.ProjectIdVar := "test-project", Env.EnvironmentVar := "test", Env.CacheTtlVar := "3600"]
  const ExampleUriName := "projects/test-project/secrets/ATTENDME_test_MONGODB_URI/versions/latest"
  const ExampleJwtName := "projects/test-project/secrets/ATTENDME_test_JWT_SECRET/versions/latest"

  /** A store that holds the example's two secrets and nothing else. */
  function ExampleBackend(name: string): Result<string> {
    if name == ExampleUriName then Ok("mongodb://test-uri")
    else if name == ExampleJwtName then Ok("test-jwt-secret")
    else Err("NOT_FOUND")
  }

  lemma ExampleNames()
    ensures ResourceName(Some("test-project"), SecretId("test", MongoSuffix)) == ExampleUriName
    ensures ResourceName(Some("test-project"), SecretId("test", JwtSuffix)) == ExampleJwtName
  {
    ExampleIds();
    ExampleUriResource();
    ExampleJwtResource();
  }

  lemma ExampleIds()
    ensures SecretId("test", MongoSuffix) == "ATTENDME_test_MONGODB_URI"
    ensures SecretId("test", JwtSuffix) == "ATTENDME_test_JWT_SECRET"
  {
  }

  lemma ExampleUriResource()
    ensures ResourceName(Some("test-project"), "ATTENDME_test_MONGODB_URI") == ExampleUriName
  {
    ExampleHead();
    ExampleUriText();
  }

  lemma ExampleUriText()
    ensures "projects/test-project/secrets/" + "ATTENDME_test_MONGODB_URI" + VersionSuffix == ExampleUriName
  {
    assert "projects/test-project/secrets/" + "ATTENDME_test_MONGODB_URI" == "projects/test-project/secrets/ATTENDME_test_MONGODB_URI";
    assert VersionSuffix == "/versions/latest";
    assert "projects/test-project/secrets/ATTENDME_test_MONGODB_URI" + "/versions/latest" == ExampleUriName;
  }

  lemma ExampleJwtResource()
    ensures ResourceName(Some("test-project"), "ATTENDME_test_JWT_SECRET") == ExampleJwtName
  {
    ExampleHead();
    ExampleJwtText();
  }

  lemma ExampleJwtText()
    ensures "projects/test-project/secrets/" + "ATTENDME_test_JWT_SECRET" + VersionSuffix == ExampleJwtName
  {
    assert "projects/test-project/secrets/" + "ATTENDME_test_JWT_SECRET" == "projects/test-project/secrets/ATTENDME_test_JWT_SECRET";
    assert VersionSuffix == "/versions/latest";
    assert "projects/test-project/secrets/ATTENDME_test_JWT_SECRET" + "/versions/latest" == ExampleJwtName;
  }

  lemma ExampleHead()
    ensures ResourcePrefix + Render(Some("test-project")) + SecretsSegment == "projects/test-project/secrets/"
  {
  }

  lemma ExampleValidates()
    ensures Env.Validate(Env.DefaultValidator, ExampleEnv) == Pass
  {
    assert Env.IsSet(ExampleEnv, Env.ProjectIdVar);
  }

  lemma ExampleBackendAnswers()
    ensures ExampleBackend(ExampleUriName) == Ok("mongodb://test-uri")
    ensures ExampleBackend(ExampleJwtName) == Ok("test-jwt-secret")
  {
    assert |ExampleJwtName| != |ExampleUriName|;
  }

  lemma ExampleLoad(now: int)
    ensures var l := LoadSecretsSpec(Default, "test", Some("test-project"), EmptyBag, map[], now, ExampleBackend);
            && l.outcome == Pass
            && l.config == DefaultBag("mongodb://test-uri", "test-jwt-secret")
            && l.calls == [ExampleUriName, ExampleJwtName]
  {
    ExampleNames();
    ExampleBackendAnswers();
    DefaultLoadFromEmptyCache("test", Some("test-project"), EmptyBag, now, ExampleBackend);
  }

  /** End to end: a fresh `DefaultConfig` in environment `test` whose store
      holds the two secrets initializes to the bag of those two values,
      asking the store once for each, database URI first. */
  lemma EndToEnd(now: int)
    ensures var options := DeriveOptions(NoOverrides, ExampleEnv);
            var st := InitializeSpec(Default, options, options.projectId, State(false, EmptyBag, map[]),
                                     ExampleEnv, now, ExampleBackend);
            && st.result == Ok(DefaultBag("mongodb://test-uri", "test-jwt-secret"))
            && st.state.initialized
            && st.calls == [ExampleUriName, ExampleJwtName]
  {
    DeriveOptionsFromEnvironment();
    ExampleValidates();
    ExampleLoad(now);
  }
}
