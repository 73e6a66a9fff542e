/** The environment validator: the declared required and optional
    variables, the presence check run before any secret is fetched, and the
    snapshot of declared variables merged over the optional defaults. The
    process environment is an explicit map argument; nothing here changes
    it or the validator. */
module Env {
  import opened Common

  /** `requiredVars` is an array (its order is the order of the failure
      message); `optionalVars` maps each optional name to its default. */
  datatype Validator = Validator(requiredVars: seq<string>, optionalVars: map<string, string>)

  const ProjectIdVar := "GOOGLE_CLOUD_PROJECT_ID"
  const EnvironmentVar := "NODE_ENV"
  const CacheTtlVar := "SECRET_CACHE_TTL"

  /** The validator the loader uses (the module's single instance). */
  const DefaultValidator := Validator(
    [ProjectIdVar],
    map[EnvironmentVar := "development", CacheTtlVar := "3600000"])

  const MissingPrefix := "Missing required environment variables: "

  /** `process.env[name]` is truthy: present and not empty. */
  predicate IsSet(env: map<string, string>, name: string) {
    Truthy(Lookup(env, name))
  }

  /** `a` occurs in `b` in order, possibly with gaps. */
  predicate IsSubsequence(a: seq<string>, b: seq<string>) {
    if a == [] then true
    else if b == [] then false
    else if a[0] == b[0] then IsSubsequence(a[1..], b[1..])
    else IsSubsequence(a, b[1..])
  }

  /** The required names that are not set, in declared order and with the
      declared multiplicity (the `filter` of `validate`). */
  function Missing(required: seq<string>, env: map<string, string>): (r: seq<string>)
    ensures forall x :: x in r <==> x in required && !IsSet(env, x)
    ensures forall x :: multiset(r)[x] == if IsSet(env, x) then 0 else multiset(required)[x]
    ensures IsSubsequence(r, required)
  {
    if required == [] then []
    else
      var rest := Missing(required[1..], env);
      assert required == [required[0]] + required[1..];
      assert multiset(required) == multiset{required[0]} + multiset(required[1..]);
      if IsSet(env, required[0]) then
        assert rest != [] ==> rest[0] in rest && rest[0] != required[0];
        rest
      else
        assert ([required[0]] + rest)[1..] == rest;
        [required[0]] + rest
  }

  /** `xs.join(sep)`. */
  function Join(xs: seq<string>, sep: string): string {
    if xs == [] then ""
    else if |xs| == 1 then xs[0]
    else xs[0] + sep + Join(xs[1..], sep)
  }

  /** `part` occurs as a contiguous piece of `s`. */
  predicate IsInfix(part: string, s: string) {
    part <= s || (s != [] && IsInfix(part, s[1..]))
  }

  /** `validate()`: fails, naming the missing variables, unless every
      required variable is set. */
  function Validate(v: Validator, env: map<string, string>): (r: Outcome)
    ensures r.Pass? <==> forall i :: 0 <= i < |v.requiredVars| ==> IsSet(env, v.requiredVars[i])
    ensures r.Fail? ==> MissingPrefix <= r.message
    ensures r.Fail? ==> r.message[|MissingPrefix|..] == Join(Missing(v.requiredVars, env), ", ")
  {
    var missing := Missing(v.requiredVars, env);
    if |missing| > 0 then
      Fail(MissingPrefix + Join(missing, ", "))
    else
      assert forall i :: 0 <= i < |v.requiredVars| ==> v.requiredVars[i] !in missing;
      Pass
  }

  lemma {:induction false} InfixOfSuffix(part: string, a: string, b: string)
    requires IsInfix(part, b)
    ensures IsInfix(part, a + b)
  {
    if a == [] {
      assert a + b == b;
    } else {
      InfixOfSuffix(part, a[1..], b);
      assert (a + b)[1..] == a[1..] + b;
    }
  }

  /** Every element of a joined list occurs in the joined text. */
  lemma {:induction false} JoinMentions(xs: seq<string>, sep: string, i: nat)
    requires i < |xs|
    ensures IsInfix(xs[i], Join(xs, sep))
  {
    if |xs| > 1 {
      if i == 0 {
        assert xs[0] <= Join(xs, sep);
      } else {
        JoinMentions(xs[1..], sep, i - 1);
        InfixOfSuffix(xs[i], xs[0] + sep, Join(xs[1..], sep));
      }
    }
  }

  /** A required variable that is absent or empty makes `validate` fail
      with a message that names it. */
  lemma ValidateNamesMissing(v: Validator, env: map<string, string>, name: string)
    requires name in v.requiredVars && !IsSet(env, name)
    ensures Validate(v, env).Fail?
    ensures IsInfix(name, Validate(v, env).message)
  {
    var missing := Missing(v.requiredVars, env);
    var i :| 0 <= i < |missing| && missing[i] == name;
    JoinMentions(missing, ", ", i);
    InfixOfSuffix(name, MissingPrefix, Join(missing, ", "));
  }

  /** `getEnvWithDefaults()`: the optional defaults overridden by those
      environment entries whose names are declared required or optional. */
  function GetEnvWithDefaults(v: Validator, env: map<string, string>): (r: map<string, string>)
    ensures forall k :: k in r ==> k in v.requiredVars || k in v.optionalVars
    ensures forall k :: k in v.optionalVars ==> k in r
    ensures forall k :: k in r && k in env ==> r[k] == env[k]
    ensures forall k :: k in r && k !in env ==> k in v.optionalVars && r[k] == v.optionalVars[k]
    ensures forall k :: k in v.requiredVars ==> (k in env ==> k in r)
    ensures forall k :: k in v.requiredVars && k !in v.optionalVars ==> (k in r <==> k in env)
  {
    v.optionalVars + map k | k in env && (k in v.requiredVars || k in v.optionalVars) :: env[k]
  }

  /** The default validator's snapshot always holds a deployment name and a
      TTL text, taken from the environment when present. */
  lemma DefaultSnapshot(env: map<string, string>)
    ensures EnvironmentVar in GetEnvWithDefaults(DefaultValidator, env)
    ensures CacheTtlVar in GetEnvWithDefaults(DefaultValidator, env)
    ensures GetEnvWithDefaults(DefaultValidator, env)[EnvironmentVar]
            == if EnvironmentVar in env then env[EnvironmentVar] else "development"
    ensures GetEnvWithDefaults(DefaultValidator, env)[CacheTtlVar]
            == if CacheTtlVar in env then env[CacheTtlVar] else "3600000"
    ensures Lookup(GetEnvWithDefaults(DefaultValidator, env), ProjectIdVar) == Lookup(env, ProjectIdVar)
  {
  }
}
