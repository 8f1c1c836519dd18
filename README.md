# Fleet telemetry fanout, modelled in Dafny

This project models the core of a fleet telemetry service. Devices post telemetry events. The service checks the API key and validates the event. It keeps the latest record per drone and republishes each accepted event to a configured list of partner HTTP endpoints ("fanout").

The fanout delivery engine sits at the centre:
- one delivery run per partner target;
- up to `max_retries + 1` attempts per run;
- a sleep of `backoff * 2**attempt` between attempts;
- a last-error map, keyed by target name, that a health view reads.

Around the engine sit four smaller parts: the partner-target validator and its redacted view, the settings loader, the in-memory latest-value store, and the ingestion and listing routes.

One Dafny module per source file:

| module | file | models |
|---|---|---|
| `Partner` | partner.dfy | `PartnerTarget` field rules, `validate_auth`, `redacted` |
| `Config` | config.dfy | `Settings._load_targets` (a loop with early error exits), the `FANOUT_ENABLED` flag, `Settings()` |
| `Store` | store.dfy | `InMemoryTelemetryStore` as a class: insertion-ordered keys plus a map |
| `Schemas` | schemas.dfy | `TelemetryIn`, `Position` and `Battery` constraints, defaults |
| `Fanout` | fanout.dfy | `FanoutService` as a class: `fanout`, `_send_with_retries`, header building, `get_targets_redacted`, `health` |
| `TelemetryRoutes` | telemetry_routes.dfy | `require_api_key`, `ingest_telemetry`, `get_latest` |
| `Wrappers`, `JsonValue` | wrappers.dfy, json_value.dfy | Option/Result, and the shape of decoded JSON |

How the environment is modelled:
- **Sender**: the answers it gives. A run gets a script of outcomes, one per possible attempt (`Delivered` or `Failed(at)`). `at` is the timestamp read from the clock right after that failure.
- **Sender calls and sleeps**: recorded in the service's `sendLog` and `sleepLog`.
- **Concurrent runs**: modelled one after another, in target order. Each run writes only its own key.
- **Libraries**: the JSON decoder and the URL validator are function parameters (`decode`, `urlOk`).
- **Clock**: timestamps are string parameters.
- **`max_retries`**: a `nat`.
- **Durations and coordinates**: reals.

Where the design description and the code differ, the model follows the code:
- Ingestion answers 200 `{"status": "accepted"}` (app/api/routes/telemetry.py:17,31). It does not answer 202.
- "Exactly `max_retries + 1` attempts iff every attempt fails" does not hold when the final attempt succeeds. The model proves the exact statements instead (`Fanout.AttemptBudget`):
  - all `max_retries + 1` calls are made iff the first `max_retries` attempts fail;
  - the run ends without a delivery iff all `max_retries + 1` attempts fail.
- A credential header named `Content-Type` would overwrite the content type (app/services/fanout.py:62-66). `Fanout.AuthHeaders` states that case.
- Target names are described as unique, but neither the settings loader (app/config.py:33-39) nor `Config.LoadTargets` checks it. `Fanout.FanoutIsolation` therefore assumes unique names. With duplicate names, the runs share one last-error entry. In the model the later target in configured order decides it. In the source, whichever concurrent run writes last decides it.

## Model

| member | source | states |
|---|---|---|
| `Partner.ValidateAuth` | app/models/partner.py:13-19 | passes exactly for `bearer`, or for `header` with a non-empty header name; any other auth_type is `AuthTypeInvalid`; `header` without a name is `HeaderNameRequired`; a pass returns the target unchanged |
| `Partner.ValidateTarget` | app/models/partner.py:6-19 | returns target `t` exactly when the item is an object whose fields spell `t` and `t` is valid: name and api_key non-empty, url accepted, auth rule met; extra keys are ignored |
| `Partner.RejectedHeaderTarget` | app/models/partner.py:17-18 | a header target whose header_name is missing, null or "" is rejected |
| `Partner.Redacted` | app/models/partner.py:21-28 | the view's api_key is `***REDACTED***`; name, url, auth_type and header_name are copied unchanged |
| `Partner.RedactedHidesKey` | app/models/partner.py:27 | targets that differ only in api_key have equal views; the view shows the real key only if that key is the redaction text |
| `Config.LoadTargets` | app/config.py:23-39 | the loop returns what `TargetsFrom` specifies: not JSON, not a list, or the first bad item is an error; otherwise the validated list |
| `Config.ValidateItemsOk` | app/config.py:33-39 | a load succeeds iff every element validates; the result then has the input's length and order, element i being item i validated |
| `Config.ValidateItemsFirstBad` | app/config.py:34-38 | if item k is the first that fails, the whole load is `InvalidTarget(item k)` and no partial list comes back |
| `Config.TargetsFromErrors` | app/config.py:25-31 | undecodable text gives `TargetsNotJson`; decoded non-list JSON gives `TargetsNotList` |
| `Config.LoadedTargetsValid` | app/config.py:33-39 | every target a successful load returns satisfies the target rules |
| `Config.FanoutEnabledFrom` | app/config.py:17 | true iff the variable is set and reads "true" in some mix of cases; an unset variable gives false |
| `Config.LoadSettings` | app/config.py:13-21 | succeeds iff the target list loads, with that error otherwise; string settings take their environment values or defaults ("dev_secret", ""); the flag, the given numbers, and the loaded target list itself become the settings |
| `Config.DefaultSettings` | app/config.py:14-21 | with an empty environment: fanout off, key "dev_secret", and no targets (the default text "[]") |
| `Store.InMemoryTelemetryStore.constructor` | app/store.py:19-20 | a fresh store is empty and lists nothing |
| `Store.InMemoryTelemetryStore.PutLatest` | app/store.py:22-23 | the id now maps to the payload and no other entry changes; a new id is appended to the key order, a known id keeps its place |
| `Store.InMemoryTelemetryStore.GetAllLatest` | app/store.py:25-26 | returns the payloads in key order and changes nothing |
| `Store.PutKeepsWellFormed` | app/store.py:22-23 | after a put, keys stay distinct and match the entries, so there is one entry per id |
| `Store.ListingAfterPut` | app/store.py:22-26 | after a put the listing contains the payload; a known id is replaced in place, a new id is appended, and every other entry is unchanged |
| `Store.ListingSize` | app/store.py:25-26 | the listing has one element per distinct id put |
| `Schemas.Validate` | app/schemas.py:9-48 | accepts exactly the bodies that denote a message meeting every constraint: drone_id of 3-64 characters from `[A-Z0-9-_]`, lat in [-90,90], lon in [-180,180], alt_m if present in [-500,20000], remaining_pct if present in [0,100]; a refusal lists at least one error |
| `Schemas.ExtraKeysIgnored` | app/schemas.py:38 | unknown keys never change the outcome |
| `Schemas.SchemaVersionDefault` | app/schemas.py:40 | an absent schema_version becomes 1; a null one is an error |
| `Schemas.DroneIdExamples` | app/schemas.py:41 | "WX-DRN-001" is a valid id; "bad name" and any id with a lower-case letter or a space are not |
| `Schemas.ConstraintViolationsReported` | app/schemas.py:10-41 | each violated range or id rule appears among the reported errors |
| `Fanout.BackoffsAt` | app/services/fanout.py:56-59 | the k-th sleep of a run (0-based) is `backoff * 2**k`, the delay after failed attempt k |
| `Fanout.BackoffDoubles` | app/services/fanout.py:58 | the first delay is the base and each later delay doubles the one before |
| `Fanout.ZeroBackoff` | tests/test_fanout.py:83-90 | a zero base gives zero delays |
| `Fanout.AttemptsSpec` | app/services/fanout.py:41-57 | a run makes between 1 and `max_retries + 1` calls; all but the last failed; the last delivered or was the final allowed attempt |
| `Fanout.AttemptBudget` | app/services/fanout.py:41-57 | all `max_retries + 1` calls are made iff the first `max_retries` attempts fail; the run ends undelivered iff all attempts fail |
| `Fanout.RunOutcome` | app/services/fanout.py:43-49 | after a run the target's entry is absent iff some attempt in the budget delivered, even after earlier failures; otherwise it holds the final failure's time; no other key changes |
| `Fanout.FanoutVolume` | app/services/fanout.py:35-41 | totals over a fanout of T targets: between T and `T * (max_retries + 1)` calls, at most `T * max_retries` sleeps, and sleeps plus T equals calls |
| `Fanout.RunSegments` | app/services/fanout.py:38-59 | for each target, its own run's calls (1 to `max_retries + 1` of them, whatever the others answered) form one segment of the fanout's calls in target order, its delays one segment of the sleeps; so every target is called even after others failed |
| `Fanout.FanoutIsolation` | app/services/fanout.py:38-49 | with unique names, each target's final entry is decided by its own run alone; keys naming no target are untouched |
| `Fanout.AuthHeaders` | app/services/fanout.py:62-66 | headers are exactly Content-Type and one credential header: `Authorization: Bearer <key>` for bearer targets; `<header_name or X-API-Key>: <key>` for the rest, which carry an Authorization header only when header_name is "Authorization"; a header_name of "Content-Type" replaces the content type |
| `Fanout.HeaderFallbackUnreachable` | app/services/fanout.py:66 | for a validated header target the X-API-Key fallback never applies |
| `Fanout.FanoutService.constructor` | app/services/fanout.py:20-29 | a new service has an empty last-error map and no recorded calls or sleeps |
| `Fanout.FanoutService.SendWithRetries` | app/services/fanout.py:40-59 | the new last-error map, call log and sleep log are those of the attempt count the script determines; exhaustion returns normally |
| `Fanout.FanoutService.Fanout` | app/services/fanout.py:35-38 | disabled or no targets: nothing changes and no sender call is made; otherwise the state is that of one run per target, in target order |
| `Fanout.FanoutService.TargetsRedacted` | app/services/fanout.py:72-73 | one redacted view per target, in configured order |
| `Fanout.FanoutService.Health` | app/services/fanout.py:75-81 | status "ok", the enabled flag, target names in configured order, the current last-error map |
| `Fanout.RedactedListHidesKeys` | app/services/fanout.py:72-73 | every entry of the redacted list has the redaction text as its api_key |
| `TelemetryRoutes.RequireApiKey` | app/api/routes/telemetry.py:12-14 | passes iff the X-API-Key header (empty when absent) equals the configured key; otherwise 401 |
| `TelemetryRoutes.StoredRecord` | app/api/routes/telemetry.py:19-27 | the record has the drone id, the receive time, the client address ("unknown" without a client) and the message |
| `TelemetryRoutes.SortByDroneId` | app/api/routes/telemetry.py:37 | `sorted` by drone id, as a stable insertion sort, keeps the number of records |
| `TelemetryRoutes.SortByDroneIdCorrect` | app/api/routes/telemetry.py:37 | the sorted listing is ascending by drone id and is a permutation of the input |
| `TelemetryRoutes.LatestResponse` | app/api/routes/telemetry.py:36-42 | count equals the number of drones listed; the drones are the stored records, sorted ascending by id |
| `TelemetryRoutes.TelemetryApi.IngestTelemetry` | app/api/routes/telemetry.py:12-31 | a wrong key gives 401 and an invalid body 422, and neither changes anything; otherwise the record is stored under its drone id, then the fanout is scheduled, and the answer is Accepted |
| `TelemetryRoutes.TelemetryApi.GetLatest` | app/api/routes/telemetry.py:34-42 | lists every stored record sorted by drone id, with count equal to the list length |
| `TelemetryRoutes.ListedIdsDistinct` | app/api/routes/telemetry.py:22-29 | since records are stored under their own drone id, listed records have pairwise distinct ids |

## Left out

- Concurrency is not modelled: `asyncio.gather` across targets, BackgroundTasks, and races on `last_errors` between concurrent fanout calls. Runs are sequential, and ingestion only queues the payload (`backgroundTasks`).
- HTTP I/O is not modelled: `httpx.AsyncClient`, `post` and `raise_for_status`. Only header building is kept, and the sender is a script of outcomes.
- Logging and `asyncio.sleep` are not modelled. Sleeps are recorded, not performed.
- `RedisTelemetryStore`, app/main.py (wiring, store fallback, dashboard) and app/api/routes/fanout.py (delegation to `health` and `get_targets_redacted`) are not part of this model.
- `enforce_timezone` and datetime parsing are not modelled. Timestamps are strings.
- Partner.ValidateTarget: URL validation (pydantic `HttpUrl`) is the `urlOk` parameter. URL normalisation by `str(url)` in `redacted` is not modelled. When several fields are bad, only the first is named, while pydantic reports all.
- Schemas.Validate: pydantic's coercion of JSON values to the declared types is not modelled. For example, `"67"` or `67.0` for an int field, or bools for numbers. The body arrives already typed, with null and absent merged everywhere except schema_version. A malformed JSON body, which fails before the key check, is not modelled.
- Config.LoadSettings: `float()` and `int()` parsing of the numeric variables is not modelled. The parsed values are parameters, so a non-number or a negative `FANOUT_MAX_RETRIES` is outside the model.
- Config.FanoutEnabledFrom: `str.lower()` is modelled on ASCII letters only. No other character lowercases to a letter of "true", so the flag's value is the same.
- Fanout.FanoutService.Health: the model returns a copy of the last-error map, while the source returns the live dict, which changes with later runs.
- Fanout.FanoutService.SendWithRetries: `backoff * 2**attempt` is exact real arithmetic, with no float rounding or overflow.
- Fanout.FanoutService.SendWithRetries: sender calls and sleeps are kept in two separate logs. Their interleaving (each delay between two calls, none after the last) is not stated.
- TelemetryRoutes.SortByDroneIdCorrect: stability of `sorted` is not stated. It does not matter here, because listed ids are distinct (`TelemetryRoutes.ListedIdsDistinct`).
- TelemetryRoutes.LatestResponse: records are typed, so the `d.get("drone_id", "")` fallback for a record without an id cannot arise. Validating the response against `LatestTelemetryResponse` is not modelled.
- The HTTP header names are compared case-sensitively, while HTTP itself treats them case-insensitively.
