/** The secret manager: a per-name, time-bounded cache in front of the
    remote secret store. The wall clock is the `now` argument and the store
    is a `Backend` argument; each call is sequential and atomic, so the
    clock reads once per call. */
module SecretCache {
  import opened Common
  import Env

  /** A cached secret and the time (milliseconds) it was fetched. */
  datatype Entry = Entry(value: string, timestamp: int)

  /** `maxAge` when the caller omits it: one hour. */
  const DefaultMaxAge := 3600000

  /** The remote store as seen by one call: `accessSecretVersion` on a
      resource name resolves with the payload text or rejects with an error
      message. */
  type Backend = string -> Result<string>

  const ResourcePrefix := "projects/"
  const SecretsSegment := "/secrets/"
  const VersionSuffix := "/versions/latest"

  /** The fully qualified name of the latest version of a secret. An
      undefined project id renders as `undefined`, as in a template literal. */
  function ResourceName(projectId: Option<string>, secretName: string): (r: string)
    ensures ResourcePrefix + Render(projectId) + SecretsSegment <= r
    ensures |r| == |ResourcePrefix + Render(projectId) + SecretsSegment| + |secretName| + |VersionSuffix|
    ensures r[|ResourcePrefix + Render(projectId) + SecretsSegment| ..][..|secretName|] == secretName
    ensures r[|r| - |VersionSuffix|..] == VersionSuffix
  {
    var head := ResourcePrefix + Render(projectId) + SecretsSegment;
    var r := head + secretName + VersionSuffix;
    assert r[|head|..] == secretName + VersionSuffix;
    r
  }

  /** Within one project, distinct secret names give distinct resource
      names, so one secret's version is never requested for another. */
  lemma ResourceNameInjective(projectId: Option<string>, a: string, b: string)
    requires ResourceName(projectId, a) == ResourceName(projectId, b)
    ensures a == b
  {
    var head := ResourcePrefix + Render(projectId) + SecretsSegment;
    var r := ResourceName(projectId, a);
    assert |a| == |b|;
    assert a == r[|head|..][..|a|];
  }

  /** The cached entry for `secretName` may be served: it exists and is
      younger than `maxAge`. */
  predicate IsFresh(cache: map<string, Entry>, secretName: string, maxAge: int, now: int) {
    secretName in cache && now - cache[secretName].timestamp < maxAge
  }

  /** What one `getSecret` call does: its result, the cache afterwards, and
      the resource names it sent to the remote store. */
  datatype Fetched = Fetched(result: Result<string>, cache: map<string, Entry>, calls: seq<string>)

  /** `getSecret(secretName, maxAge)` at time `now`: serve a fresh entry,
      otherwise fetch once and overwrite the entry; a failed fetch leaves the
      cache as it was and serves nothing. */
  function GetSecretSpec(cache: map<string, Entry>, projectId: Option<string>, secretName: string,
                         maxAge: int, now: int, backend: Backend): (f: Fetched)
    ensures |f.calls| <= 1
    ensures forall k :: k != secretName ==> (k in f.cache <==> k in cache)
    ensures forall k :: k != secretName && k in cache ==> f.cache[k] == cache[k]
  {
    if IsFresh(cache, secretName, maxAge, now) then
      Fetched(Ok(cache[secretName].value), cache, [])
    else
      var name := ResourceName(projectId, secretName);
      match backend(name)
      case Err(m) => Fetched(Err(m), cache, [name])
      case Ok(v) => Fetched(Ok(v), cache[secretName := Entry(v, now)], [name])
  }

  function MaxAgeOrDefault(maxAge: Option<int>): int {
    match maxAge
    case Some(m) => m
    case None => DefaultMaxAge
  }

  class SecretManager {
    const projectId: Option<string>
    var cache: map<string, Entry>
    /** The resource names sent to the remote store so far, in order. */
    ghost var calls: seq<string>

    /** The project id is the caller's if truthy, else the environment's
        `GOOGLE_CLOUD_PROJECT_ID`; the cache starts empty. */
    constructor (projectIdOption: Option<string>, processEnv: map<string, string>)
      ensures projectId == Or(projectIdOption, Lookup(processEnv, Env.ProjectIdVar))
      ensures cache == map[] && calls == []
    {
      projectId := Or(projectIdOption, Lookup(processEnv, Env.ProjectIdVar));
      cache := map[];
      calls := [];
    }

    method GetSecret(secretName: string, maxAge: Option<int>, now: int, backend: Backend)
      returns (r: Result<string>)
      modifies this
      ensures var f := GetSecretSpec(old(cache), projectId, secretName, MaxAgeOrDefault(maxAge), now, backend);
              r == f.result && cache == f.cache && calls == old(calls) + f.calls
    {
      var limit := if maxAge.Some? then maxAge.value else DefaultMaxAge;
      if secretName in cache && now - cache[secretName].timestamp < limit {
        return Ok(cache[secretName].value);
      }
      var name := ResourceName(projectId, secretName);
      var response := backend(name);
      calls := calls + [name];
      match response {
        case Err(m) =>
          r := Err(m);
        case Ok(v) =>
          cache := cache[secretName := Entry(v, now)];
          r := Ok(v);
      }
    }
  }

  /** A fresh entry is served as is: no remote call, cache unchanged. */
  lemma CacheHit(cache: map<string, Entry>, projectId: Option<string>, secretName: string,
                 maxAge: int, now: int, backend: Backend)
    requires IsFresh(cache, secretName, maxAge, now)
    ensures GetSecretSpec(cache, projectId, secretName, maxAge, now, backend)
            == Fetched(Ok(cache[secretName].value), cache, [])
  {
  }

  /** A missing or stale entry causes exactly one remote call for the
      secret's resource name; on success the entry becomes the fetched
      value stamped with `now`, and that value is returned. */
  lemma CacheMiss(cache: map<string, Entry>, projectId: Option<string>, secretName: string,
                  maxAge: int, now: int, backend: Backend)
    requires !IsFresh(cache, secretName, maxAge, now)
    requires backend(ResourceName(projectId, secretName)).Ok?
    ensures var v := backend(ResourceName(projectId, secretName)).value;
            GetSecretSpec(cache, projectId, secretName, maxAge, now, backend)
            == Fetched(Ok(v), cache[secretName := Entry(v, now)], [ResourceName(projectId, secretName)])
  {
  }

  /** A failed fetch propagates its message and leaves the cache exactly as
      it was: a stale entry is neither served nor removed. */
  lemma FetchFailure(cache: map<string, Entry>, projectId: Option<string>, secretName: string,
                     maxAge: int, now: int, backend: Backend)
    requires !IsFresh(cache, secretName, maxAge, now)
    requires backend(ResourceName(projectId, secretName)).Err?
    ensures GetSecretSpec(cache, projectId, secretName, maxAge, now, backend)
            == Fetched(backend(ResourceName(projectId, secretName)), cache, [ResourceName(projectId, secretName)])
  {
  }

  /** After a call that fetched successfully at `t`, a call for the same
      name at `t2` with `t2 - t < maxAge2` returns the same value without a
      remote call, whatever the store would answer then. */
  lemma ServedWithinWindow(cache: map<string, Entry>, projectId: Option<string>, secretName: string,
                           maxAge: int, t: int, backend: Backend, maxAge2: int, t2: int, backend2: Backend)
    requires GetSecretSpec(cache, projectId, secretName, maxAge, t, backend).result.Ok?
    requires GetSecretSpec(cache, projectId, secretName, maxAge, t, backend).calls != []
    requires t2 - t < maxAge2
    ensures var first := GetSecretSpec(cache, projectId, secretName, maxAge, t, backend);
            var second := GetSecretSpec(first.cache, projectId, secretName, maxAge2, t2, backend2);
            second == Fetched(first.result, first.cache, [])
  {
  }

  /** Two successive calls for one name within the TTL, the first of them
      successful, reach the remote store at most once between them. */
  lemma AtMostOneFetchWithinTtl(cache: map<string, Entry>, projectId: Option<string>, secretName: string,
                                maxAge: int, t1: int, t2: int, backend1: Backend, backend2: Backend)
    requires t2 - t1 < maxAge
    requires GetSecretSpec(cache, projectId, secretName, maxAge, t1, backend1).result.Ok?
    ensures var first := GetSecretSpec(cache, projectId, secretName, maxAge, t1, backend1);
            var second := GetSecretSpec(first.cache, projectId, secretName, maxAge, t2, backend2);
            |first.calls + second.calls| <= 1
  {
  }
}
