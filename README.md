# n8n license service: feature and quota resolution

This project models the query side of n8n's `License` service
(`packages/cli/src/License.ts`) in Dafny. In this version of the repository
the service answers every question from one fixed entitlement table, the
module-level `features` object. That object maps:

- `feat:*` keys to booleans (every flag is on except `feat:showNonProdBanner`);
- `quota:*` keys to numbers;
- `planName` to `'enterprise'`.

The queries over that table are:

- `isFeatureEnabled` and its fifteen named checks;
- `getFeatureValue`;
- the four quota helpers, which fall back to the unlimited sentinel;
- `getPlanName`, which falls back to `'Community'`;
- `isWithinUsersLimit`;
- the two builders of entitlement records, `getCurrentEntitlements` and `getMainPlan`.

None of them changes state, so each is a Dafny function.

Modules:

- `JsValues`: the JavaScript values the table holds, property lookup with
  `undefined` for a missing key (`Option.None`), and the `??` operator.
- `LicenseConstants`: the key names `LICENSE_FEATURES.*` and `LICENSE_QUOTAS.*`
  and the sentinel `UNLIMITED_LICENSE_QUOTA`. Their definitions are not part
  of this model, so they are parameters. Facts that depend on their values are
  proved under the explicit hypotheses `FeatureNamesMatchTable` and
  `QuotaNamesMatchTable`, or under a condition on a single name.
- `LicenseTable`: the `features` object as a `map<string, Value>`, and lemmas
  about every entry by key kind.
- `Entitlements`: the entitlement record shape, nested metadata, and
  `Date` values as milliseconds since the epoch.
- `License`: the service's queries.

The broader design of the license manager describes several behaviours:
certificate activation and renewal with backoff, validity windows,
override precedence across entitlements, cluster synchronisation, and
release of floatable seats at shutdown. The code implements none of them.
The lifecycle methods are empty and every query reads the fixed table.
This model follows the code.

## Model

| member | source | states |
|---|---|---|
| `LicenseTable.TableKeys` | packages/cli/src/License.ts:27-49 | the table's keys are exactly `planName`, the sixteen `feat:` flags and the four `quota:` keys |
| `LicenseTable.EnabledFlagEntries` | packages/cli/src/License.ts:29-44 | each of the fifteen enabled flags is present with the value `true` |
| `LicenseTable.QuotaKeyEntries` | packages/cli/src/License.ts:45-48 | each of the four quota keys is present with a number |
| `LicenseTable.FlagEntries` | packages/cli/src/License.ts:27-49 | every `feat:`-prefixed key of the table is `true`, except `feat:showNonProdBanner`, which is `false` |
| `LicenseTable.QuotaEntries` | packages/cli/src/License.ts:27-49 | every `quota:`-prefixed key of the table holds a number |
| `LicenseTable.BooleanEntries` | packages/cli/src/License.ts:27-49 | the `true` entries are exactly the enabled flags, and the only `false` entry is the non-production banner |
| `License.IsFeatureEnabled` | packages/cli/src/License.ts:100-102 | returns the table's own value for the key, and `undefined` exactly when the key is missing; on a `feat:` key it returns `true` unless the key is the banner; it returns `true` iff the key is an enabled flag and `false` iff it is the banner |
| `License.IsSharingEnabled` | packages/cli/src/License.ts:104-106 | if `LICENSE_FEATURES.SHARING` is `feat:sharing`, returns `true` |
| `License.IsLogStreamingEnabled` | packages/cli/src/License.ts:108-110 | if `LICENSE_FEATURES.LOG_STREAMING` is `feat:logStreaming`, returns `true` |
| `License.IsLdapEnabled` | packages/cli/src/License.ts:112-114 | if `LICENSE_FEATURES.LDAP` is `feat:ldap`, returns `true` |
| `License.IsSamlEnabled` | packages/cli/src/License.ts:116-118 | if `LICENSE_FEATURES.SAML` is `feat:saml`, returns `true` |
| `License.IsAdvancedExecutionFiltersEnabled` | packages/cli/src/License.ts:120-122 | if `LICENSE_FEATURES.ADVANCED_EXECUTION_FILTERS` is `feat:advancedExecutionFilters`, returns `true` |
| `License.IsAdvancedPermissionsLicensed` | packages/cli/src/License.ts:124-126 | if `LICENSE_FEATURES.ADVANCED_PERMISSIONS` is `feat:advancedPermissions`, returns `true` |
| `License.IsDebugInEditorLicensed` | packages/cli/src/License.ts:128-130 | if `LICENSE_FEATURES.DEBUG_IN_EDITOR` is `feat:debugInEditor`, returns `true` |
| `License.IsBinaryDataS3Licensed` | packages/cli/src/License.ts:132-134 | if `LICENSE_FEATURES.BINARY_DATA_S3` is `feat:binaryDataS3`, returns `true` |
| `License.IsMultipleMainInstancesLicensed` | packages/cli/src/License.ts:136-138 | if `LICENSE_FEATURES.MULTIPLE_MAIN_INSTANCES` is `feat:multipleMainInstances`, returns `true` |
| `License.IsVariablesEnabled` | packages/cli/src/License.ts:140-142 | if `LICENSE_FEATURES.VARIABLES` is `feat:variables`, returns `true` |
| `License.IsSourceControlLicensed` | packages/cli/src/License.ts:144-146 | if `LICENSE_FEATURES.SOURCE_CONTROL` is `feat:sourceControl`, returns `true` |
| `License.IsExternalSecretsEnabled` | packages/cli/src/License.ts:148-150 | if `LICENSE_FEATURES.EXTERNAL_SECRETS` is `feat:externalSecrets`, returns `true` |
| `License.IsWorkflowHistoryLicensed` | packages/cli/src/License.ts:152-154 | if `LICENSE_FEATURES.WORKFLOW_HISTORY` is `feat:workflowHistory`, returns `true` |
| `License.IsApiDisabled` | packages/cli/src/License.ts:156-158 | if `LICENSE_FEATURES.API_DISABLED` is `feat:apiDisabled`, returns `true`, so the public API reads as disabled |
| `License.IsWorkerViewLicensed` | packages/cli/src/License.ts:160-162 | if `LICENSE_FEATURES.WORKER_VIEW` is `feat:workerView`, returns `true` |
| `License.NamedChecksDelegate` | packages/cli/src/License.ts:104-162 | for any constants, each of the fifteen named checks equals `isFeatureEnabled` of its one constant and adds no logic |
| `License.NamedChecksCoverEnabledFlags` | packages/cli/src/License.ts:104-162 | with the conventional names, the keys read by the fifteen checks are exactly the table's enabled flags, and every check returns `true` |
| `License.GetFeatureValue` | packages/cli/src/License.ts:183-185 | a pure lookup: `undefined` exactly when the key is missing, never an error; otherwise the table's value. A `feat:` key yields a boolean, a `quota:` key a number, and `planName` yields `'enterprise'` |
| `JsValues.CoalesceKeepsFalsyValues` | packages/cli/src/License.ts:214-230 | `??` returns a present `0`, `false` or `''` unchanged; only `undefined` takes the fallback |
| `License.GetUsersLimit` | packages/cli/src/License.ts:214-216 | the table's value when the key is present, the unlimited sentinel only when it is missing; a number for a `quota:` key; `1000` if the key is `quota:users` |
| `License.GetTriggerLimit` | packages/cli/src/License.ts:218-220 | the same rule for the trigger limit; `10000` if the key is `quota:activeWorkflows` |
| `License.GetVariablesLimit` | packages/cli/src/License.ts:222-224 | the same rule for the variables limit; `1000` if the key is `quota:maxVariables` |
| `License.GetWorkflowHistoryPruneLimit` | packages/cli/src/License.ts:226-230 | the same rule for the history prune limit; `1000` if the key is `quota:workflowHistoryPrune` |
| `License.GetPlanName` | packages/cli/src/License.ts:232-234 | returns `'enterprise'`: the table names the plan, so the `'Community'` fallback is never taken |
| `License.IsWithinUsersLimit` | packages/cli/src/License.ts:240-242 | true iff the users limit strictly equals the unlimited sentinel; true when the users key is missing; with key `quota:users`, true iff the sentinel is `1000` |
| `License.UsersLimitIsFinite` | packages/cli/src/License.ts:240-242 | with the conventional quota names and a sentinel other than `1000`, the users limit is `1000` and `isWithinUsersLimit` is false |
| `License.GetCurrentEntitlements` | packages/cli/src/License.ts:164-181 | exactly one entitlement; its features are the table and agree with `getFeatureValue` on every key; it has no overrides, `terms.isMainPlan` is `true`, `isFloatable` is absent, and its dates are the clock readings |
| `License.GetMainPlan` | packages/cli/src/License.ts:195-211 | always defined (never `undefined`); its features are the table; it is floatable; it is valid from the clock reading until 2026-01-01 UTC |
| `License.MainPlanIsNotMarkedMain` | packages/cli/src/License.ts:195-211 | the main plan's metadata lacks `terms.isMainPlan`, while the record from `getCurrentEntitlements` has it set to `true` |
| `License.MainPlanOverridesNoTableKey` | packages/cli/src/License.ts:204-206 | the main plan's only override key is `hello`, which is no key of the table, so it names no feature or quota |
| `Entitlements.DateOnly` | packages/cli/src/License.ts:208 | a date-only string denotes midnight UTC: the instant is a whole number of days after the epoch |
| `Entitlements.DaysFromCivilExamples` | packages/cli/src/License.ts:208 | the day count used for `new Date('2026-01-01')` agrees with known day counts (1970-01-01, 1970-03-01, 2000-03-01), and 2026-01-01 is day 20454 |

## Left out

- The lifecycle methods `init`, `loadCertStr`, `onFeatureChange`, `saveCertStr`,
  `activate`, `reload`, `renew` and `shutdown` (License.ts:65-98). Their bodies
  are empty, or return the constant `'loadCertStr'`, so they have no behaviour
  to model.
- Renewal scheduling, backoff, validity windows, override precedence, cluster
  synchronisation and seat release. The code does not implement them, and
  nothing reads `featureOverrides`.
- `getManagementJwt` and `getInfo`: each returns a constant string.
- The `console.log` call in `getMainPlan`: I/O.
- Dependency injection, the `@Service` and `@OnShutdown` decorators, the
  constructor's collaborators and the Redis publisher field: wiring only.
- The `isShuttingDown` field is never written, so the model has no class and no state.
- `new Date()`: each clock reading is a parameter of the function that takes it.
- Property lookup through the prototype chain (`toString`, `__proto__`): a key
  that is not an own property of the table reads as `undefined`.
- JavaScript numbers are modelled as integers. Every number in the table is a
  whole number, and the sentinel is an integer parameter.
- `null` values: the table holds none, so `??` is modelled on `undefined` only.
- The values of `LICENSE_FEATURES.*`, `LICENSE_QUOTAS.*` and
  `UNLIMITED_LICENSE_QUOTA`: the constants module is not part of this model.
  Facts that need them are stated conditionally.
