# Secret-backed configuration loader, modelled in Dafny

This project models the core of `secret-config`, a small Node.js library. The library loads an application's configuration once. The sensitive values in that configuration are fetched from Google Cloud Secret Manager. It has three parts:

- **`SecretManager`** (`secret_cache.dfy`, module `SecretCache`) keeps a per-name cache of `{value, timestamp}` entries. `getSecret(secretName, maxAge = 3600000)` serves an entry younger than `maxAge`. Otherwise it makes one remote call for `projects/<projectId>/secrets/<secretName>/versions/latest`, overwrites the entry and returns the fresh value. A failed call propagates its error and leaves the cache untouched. The class keeps its `cache` map field, and `GetSecret` is a method that updates it. The method is proved equal to the specification function `GetSecretSpec`, and lemmas about that function state the hit, miss, failure, frame and TTL-window properties.
- **`BaseConfig` / `DefaultConfig`** (`config_loader.dfy`, module `ConfigLoader`):
  - The constructor derives `options` from caller overrides, falling back to the environment snapshot through JavaScript `||` truthiness. `secretCacheTTL` goes through `parseInt`.
  - `initialize` returns at once when the loader is already initialized. Otherwise it validates the environment, runs `_loadSecrets` and sets the flag only if both succeed. Any error is rethrown as `Failed to initialize config: <message>`.
  - `get` refuses to return the bag before initialization.
  - `DefaultConfig._loadSecrets` fetches `ATTENDME_<environment>_MONGODB_URI` and then `ATTENDME_<environment>_JWT_SECRET`. It assigns the bag only after both arrive.

  The model uses one class `Config` whose `variant` (`Base` or `Default`) selects which `_loadSecrets` runs, in place of the subclass. The methods update the `initialized` and `config` fields and the owned secret manager's cache. Each is proved equal to a specification function (`InitializeSpec`, `LoadSecretsSpec`) whose properties are proved as lemmas.
- **`EnvironmentValidator`** (`env.dfy`, module `Env`) is a pure function of the environment map:
  - `validate` fails with `Missing required environment variables: ` followed by the missing names joined with `", "`, in declared order.
  - `getEnvWithDefaults` merges the optional defaults with only the declared environment entries.

Supporting modules:

- `Common` (`common.dfy`): option and result types, and JavaScript truthiness.
- `JsParseInt` (`parse_int.dfy`): JavaScript's `parseInt` with no radix, and the decimal `String(n)`. It proves `parseInt(String(n)) === n`.
- `Scenarios` (`scenarios.dfy`): the test suite's worked examples, restated as lemmas.

External inputs are explicit parameters:

- the wall clock is an argument `now`;
- `process.env` is a `map<string, string>`;
- the remote store is a `Backend`, a function from a resource name to a value or an error message.

The resource names sent to the store are recorded in the ghost field `SecretManager.calls`, in order. This plays the role of the test suite's mock call log.

Points where the code's behaviour is easy to misread, and which the model follows as written:

- `DefaultConfig` never passes `options.secretCacheTTL` to `getSecret`, so the default `maxAge` of one hour always applies (`LoadSecretsSpec` uses `DefaultMaxAge`).
- There is no registry-driven loader and no `addSecret`. The only loaders are `BaseConfig` and `DefaultConfig`, and the bag has the fixed shape `{database: {uri}, jwt: {secret}}`.
- The private field `#initialized` is never used. The flag read and written is the public `initialized`, which starts out undefined, that is false.
- `getEnvWithDefaults` filters on the variable's name only. An empty but present variable therefore overrides a default. `validate`, by contrast, treats an empty variable as missing.

## Model

| member | source | states |
|---|---|---|
| `SecretCache.GetSecretSpec` | src/secretManager.js:10-26 | A call changes at most the entry of the requested name. Every other key and value stays as it was. It makes at most one remote call. |
| `SecretCache.SecretManager.GetSecret` | src/secretManager.js:10-26 | The method returns the result, leaves the cache and extends the remote-call log exactly as `GetSecretSpec` says, with `maxAge` defaulting to 3600000 when omitted. |
| `SecretCache.SecretManager.constructor` | src/secretManager.js:4-8 | The project id is the caller's when truthy, else the environment's `GOOGLE_CLOUD_PROJECT_ID`. The cache starts empty and no call has been made. |
| `SecretCache.ResourceName` | src/secretManager.js:16 | The name is `projects/<projectId>/secrets/` followed by the secret name and `/versions/latest`. An undefined project id renders as `undefined`. |
| `SecretCache.ResourceNameInjective` | src/secretManager.js:16 | Within one project, distinct secret names give distinct resource names. |
| `SecretCache.CacheHit` | src/secretManager.js:11-14 | An existing entry with `now - timestamp < maxAge` is returned with no remote call, and the cache is unchanged. |
| `SecretCache.CacheMiss` | src/secretManager.js:16-25 | A missing or stale entry causes exactly one remote call for the secret's resource name. The entry becomes `{fetched value, now}` and the fetched value is returned. |
| `SecretCache.FetchFailure` | src/secretManager.js:17-23 | If the remote call fails, its message propagates and the cache is exactly as before. A stale entry is neither served nor removed. |
| `SecretCache.ServedWithinWindow` | src/secretManager.js:11-23 | After a successful fetch at `t`, a call for the same name at `t2` with `t2 - t < maxAge` returns the same value with no remote call, whatever the store would answer. |
| `SecretCache.AtMostOneFetchWithinTtl` | src/secretManager.js:11-23 | Two calls for one name within the TTL, the first successful, reach the store at most once in total. |
| `Env.Missing` | src/env.js:11-13 | The missing list holds exactly the required names that are absent or empty, each with its declared multiplicity, as a subsequence of the declared order. |
| `Env.Validate` | src/env.js:10-19 | Validation passes iff every required variable is present and non-empty. Otherwise the message is `Missing required environment variables: ` followed by the missing names joined with `", "`. |
| `Env.Join` | src/env.js:16 | `missing.join(", ")`. It has no contract of its own. `JoinMentions` states that every joined name appears in the text, and `Validate` states where the text goes in the message. |
| `Env.JoinMentions` | src/env.js:16 | Every element of a joined list occurs in the joined text. |
| `Env.ValidateNamesMissing` | src/env.js:10-19 | A required variable that is absent or empty makes validation fail with a message that contains its name. |
| `Env.GetEnvWithDefaults` | src/env.js:21-32 | Every key is a declared required or optional name. Every optional name is present, with its default when absent from the environment. A present environment value overrides the default. A required name is present iff it is in the environment. |
| `Env.DefaultSnapshot` | src/env.js:3-7 | The snapshot of the module's validator always holds `NODE_ENV` (default `development`) and `SECRET_CACHE_TTL` (default `3600000`). It holds `GOOGLE_CLOUD_PROJECT_ID` exactly as the environment does. |
| `JsParseInt.ParseInt` | src/config.js:14-16 | `parseInt` with no radix: leading ECMAScript white space, an optional sign, an optional `0x` prefix, then the longest digit run. A string with no digits gives `NaN` (`None`). It has no contract of its own. `ParseIntOfNumberToString` and the worked TTL examples state its properties. |
| `JsParseInt.ParseIntOfNumberToString` | src/config.js:14-16 | `parseInt(String(n))` is `n` for every integer, so a numeric TTL override survives the parse unchanged. |
| `ConfigLoader.DeriveOptions` | src/config.js:10-17 | Each option is the caller's value when truthy. Otherwise it is the environment's value, or the validator's default. A numeric TTL override is kept as is; a string override or the environment text is read by `parseInt`. |
| `ConfigLoader.DefaultTtl` | src/config.js:14-16 | With no TTL override and no `SECRET_CACHE_TTL` in the environment, the TTL is 3600000. |
| `ConfigLoader.ManagerProjectId` | src/config.js:19-21 | The secret manager built by the constructor ends up with the same project id as `options.projectId`. |
| `ConfigLoader.LoadSecretsSpec` | src/config.js:44-65 | A failed `_loadSecrets` leaves the bag as it was, so no partial bag is produced. It succeeds iff the loader is a `DefaultConfig` and each of its two secrets is either fresh in the cache or answered by the store. The bag then holds, for each secret, the cached value if fresh and otherwise the store's answer. This holds for any starting cache, including one left by an earlier failed attempt. |
| `ConfigLoader.Config.constructor` | src/config.js:6-22 | `options` is `DeriveOptions` of the overrides and environment. The loader is uninitialized, with the empty bag, and owns a fresh secret manager with an empty cache and the options' project id. |
| `ConfigLoader.InitializeSpec` | src/config.js:24-35 | The `initialize` step as a function of the loader state: early return, validation, `_loadSecrets`, then set the flag or rethrow with the prefix. It has no contract of its own. Its properties are stated by the `Initialize*`, `BaseNeverInitializes`, `RetryAfterFailure`, `SecondInitializeFetchesNothing` and `MissingProjectIdFails` lemmas. |
| `ConfigLoader.SecretId` | src/config.js:56-61 | The secret name `ATTENDME_<environment>_<suffix>`. It has no contract of its own. `SecretIdsDistinct` states that the two names differ, and `LoadSecretsSpec` states how they are used. |
| `ConfigLoader.Config.Initialize` | src/config.js:24-35 | The method's result, the new flag, bag and cache, and the remote calls made are exactly those of `InitializeSpec`. |
| `ConfigLoader.Config.LoadSecrets` | src/config.js:44-65 | The method's outcome, the new bag and cache, and the remote calls made are exactly those of `LoadSecretsSpec`. |
| `ConfigLoader.Config.Get` | src/config.js:37-42 | `get` succeeds iff the loader is initialized and then returns the stored bag. Otherwise it fails with `Config not initialized. Call initialize() first.` |
| `ConfigLoader.InitializeIdempotent` | src/config.js:25 | On an initialized loader, `initialize` returns the existing bag, changes nothing, makes no remote call and succeeds whatever the environment, so validation is not run. |
| `ConfigLoader.InitializeSucceedsOnlyWhenBothPass` | src/config.js:27-31 | The flag becomes true iff validation and `_loadSecrets` both succeed. On success the bag returned and stored is the one `_loadSecrets` produced. The new cache and the remote calls are those of `_loadSecrets`. |
| `ConfigLoader.InitializeFailureRollsBack` | src/config.js:27-34 | A failure leaves the flag false and the bag unchanged. The error message is `Failed to initialize config: ` followed by the validation or loading message. A validation failure leaves the cache untouched and makes no remote call. A loading failure keeps whatever `_loadSecrets` cached and reports the calls it made. |
| `ConfigLoader.BaseNeverInitializes` | src/config.js:44-46 | `BaseConfig.initialize` always fails. It fails with the validation message, or with `_loadSecrets must be implemented by subclass` once validation passes. It touches neither the bag nor the cache. |
| `ConfigLoader.SecretIdsDistinct` | src/config.js:55-62 | The two secret names of `DefaultConfig` differ in every environment. |
| `ConfigLoader.DefaultLoadFromEmptyCache` | src/config.js:50-65 | On an empty cache, `_loadSecrets` requests the MongoDB URI first and the JWT secret second, the second only if the first arrived. It succeeds iff both arrive, with the bag of the two values. |
| `ConfigLoader.InitialStateConsistent` | src/config.js:6-22 | The state of a newly constructed loader (uninitialized, with the empty bag and an empty cache) is consistent for both variants. |
| `ConfigLoader.InitializePreservesConsistent` | src/config.js:24-65 | `initialize` keeps a loader consistent on every path. A base loader stays uninitialized with the empty bag. An initialized default loader holds a loaded bag. The cache holds only the loader's two secret names. |
| `ConfigLoader.RetryAfterFailure` | src/config.js:24-35 | After a failed `initialize` of a `DefaultConfig`, a retry succeeds once the environment validates and the store answers. |
| `ConfigLoader.SecondInitializeFetchesNothing` | src/config.js:24-35 | After a successful `initialize`, a second one returns the same bag, keeps the state and reaches the store no more. |
| `ConfigLoader.MissingProjectIdFails` | src/config.js:27-34 | Without a non-empty `GOOGLE_CLOUD_PROJECT_ID`, `initialize` fails with `Failed to initialize config: Missing required environment variables: GOOGLE_CLOUD_PROJECT_ID`, before any remote call and with the state unchanged. |
| `Scenarios.NoOverridesReadEnvironment` | src/config.js:10-17 | Without overrides, and with `NODE_ENV` and `SECRET_CACHE_TTL` set, the options are the environment's project id, its `NODE_ENV`, and `parseInt` of its `SECRET_CACHE_TTL`. |
| `Scenarios.DeriveOptionsFromEnvironment` | tests/config.test.js:25-35 | From the environment `{test-project, test, "3600"}` the options are `{test-project, test, 3600}`. |
| `Scenarios.DeriveOptionsFromOverrides` | tests/config.test.js:37-47 | With overrides `{custom-project, production, 7200}` the options are those overrides. |
| `Scenarios.EndToEnd` | src/config.js:24-65 | A fresh `DefaultConfig` in environment `test`, with a store holding both secrets, initializes to the bag of the two values. It requests `projects/test-project/secrets/ATTENDME_test_MONGODB_URI/versions/latest` and then the JWT secret's name, once each. |

## Left out

- The Google Cloud `SecretManagerServiceClient`, its `accessSecretVersion` call and the UTF-8 decoding of the payload are foreign library code. The model has a `Backend` function that returns the decoded text or the error message.
- `Date.now()` is the parameter `now`. `getSecret` reads the clock at most twice: once to test the age of an existing entry, and once to stamp a value it has just fetched. Each call is modelled as atomic, so one `now` serves both reads and a whole `initialize`.
- `process.env` is a map argument, read by the constructor and by `validate` at initialization time.
- Concurrency is out of scope. The model does not capture async interleaving, the double remote fetch when two calls miss the same name concurrently, or two concurrent `initialize` calls. Every call is modelled as sequential.
- The remote-call log `SecretManager.calls` is a ghost observation. The library itself records nothing.
- `parseInt` is modelled in full for strings: ECMAScript white space, sign, `0x` prefix, the longest digit run, and `NaN` as `None`. The model does not capture floating-point precision loss above 2^53, and `-0` is the integer 0. A numeric TTL override is an integer rendered in decimal. Non-integral numbers, `NaN` overrides and numbers of magnitude 10^21 or more, which `String` renders in exponent notation, are not modelled.
- Overrides of other JavaScript types (objects, booleans, numbers for `projectId` or `environment`) are not modelled. `projectId` and `environment` overrides are strings or omitted.
- The configuration bag is a value. Object identity, and callers mutating the returned bag in place, are not modelled.
- The module-level singleton `new EnvironmentValidator()` is the constant `Env.DefaultValidator`. The Jest mocks of the test suite are not modelled.
- `addSecret` and a registry-driven loader are called by the configuration tests but do not exist in the library, so there is nothing to model.
- `eslint.config.js` is lint configuration, with no behaviour.
