# Diabetes risk screening: server handlers and client fetch helpers

This project models the decision logic of a small diabetes-screening web application.

- **Scoring** (`backend/server.js`): a `/diagnosa` request carries a list of selected symptom
  codes (`gejala`). The handler turns the number of elements into a percentage score,
  `(gejala.length / 5) * 100`. Two thresholds on that score pick the risk tier `Rendah`
  (low), `Sedang` (medium) or `Tinggi` (high).
- **Tables** (`backend/server.js`): the handler finds the user by `nama_lengkap`, or inserts
  one. It then appends a row to `diagnoses` and answers with the score divided by 100
  (`skor_akhir`), the tier, a sentence naming the tier and two fixed recommendations.
  `/api/stats` reports the sizes of the `users`, `diagnoses` and `symptoms` tables.
- **Backend client helper** (`backend/config.js`): chooses the base URL from the page's host
  name and builds the request. When the request fails, it returns fixed values for the
  dashboard endpoints and rethrows for all others.
- **Frontend client helper** (`frontend/config.js`): builds URLs on the page origin and merges
  headers. It rethrows every failure.

Modules:

- `Wrappers` (`wrappers.dfy`): `Option`.
- `Js` (`js.dfy`): JavaScript values as a datatype and plain objects as maps. Object spread
  `{ ...a, ...b }` is a map union in which the right side wins. A `fetch` outcome is an input:
  `Ok(body)`, `NotOk(status, bodyText, statusText)` or `Fail(message)`. The module also holds
  the `HTTP <status>: <detail>` error text and the decimal rendering of the status.
- `Scoring` (`scoring.dfy`): the score and the tier, computed exactly on real numbers.
- `Server` (`server.dfy`): the tables and the two handlers.
  - `HandleDiagnose` specifies the `/diagnosa` handler as a pure function on a snapshot of
    the tables.
  - `ResolveUser` is step A (find or insert the user); `RecordDiagnosis` is steps B to D
    (score, store, answer).
  - Class `Database` holds the tables as `seq` fields. Its methods `FindOrInsertUser` and
    `Record` update them in place, step by step like the handler, and `Diagnose` runs both; each
    is proved equal to its pure counterpart.
  - Every SQL statement may reject; a `Faults` input says which ones do. This makes each path
    through the handler's `try`/`catch` reachable.
- `BackendConfig` (`backend_config.dfy`) and `FrontendConfig` (`frontend_config.dfy`): each
  models its `fetchApi` as a pure function from the location, endpoint, options and fetch
  outcome to the URL, the options passed to `fetch`, and how the call settles.

The tables keep one invariant, `ValidTables`, on every path, failed ones included:

- user ids are positive, below the auto-increment counter and increasing;
- every diagnosis row refers to an existing user.

The comment at `backend/server.js:63` mentions certainty-factor scoring as possible future
work; the handler does not implement it, and the model follows the proportional rule above.

## Model

| member | source | states |
|---|---|---|
| `Scoring.Score` | backend/server.js:64 | the score is exactly 20 per element of `gejala`, is never negative and is not capped at 100 |
| `Scoring.SkorAkhir` | backend/server.js:78 | `skor_akhir` is the score over 100, that is one fifth per element |
| `Scoring.TierOf` | backend/server.js:65-67 | Tinggi iff score > 70; Sedang iff 40 < score <= 70; Rendah iff score <= 40 |
| `Scoring.Classify` | backend/server.js:64-67 | by count: Tinggi iff n >= 4, Sedang iff n = 3, Rendah iff n <= 2 (the empty list included) |
| `Scoring.OnlyLengthMatters` | backend/server.js:64-67 | two lists of the same length get the same score, `skor_akhir` and tier (duplicates, unknown codes and order do not matter) |
| `Scoring.Monotone` | backend/server.js:64-67 | a longer list never gets a lower score or a lower tier |
| `Scoring.SixSymptomsExceedHundred` | backend/server.js:64 | six elements score 120, `skor_akhir` 1.2, tier Tinggi |
| `Server.FindUser` | backend/server.js:50-54 | the user lookup finds the first row with the name, and finds nothing exactly when no row has it |
| `Server.ResolveUser` | backend/server.js:50-61 | step A: it fails iff the lookup rejects, or the name is unknown and the insert rejects; a known name keeps the tables and gives the first match's id; an unknown name appends one user with the counter as its id and advances the counter; diagnoses and symptoms never change |
| `Server.ResolveUserPreservesValid` | backend/server.js:50-61 | step A keeps the table invariant, and the id it settles on belongs to an existing user |
| `Server.RecordDiagnosis` | backend/server.js:64-90 | steps B to D: it fails iff the list is missing or the insert rejects, and then changes nothing; otherwise it appends exactly one diagnosis carrying the answer's score and tier; users, counter and symptoms never change |
| `Server.HandleDiagnose` | backend/server.js:45-91 | the whole handler: symptoms never change; a failure is the fixed 500 answer and adds no diagnosis; a diagnosis needs a list and adds exactly one row |
| `Server.Database.Record` | backend/server.js:64-84 | steps B to D in place: the new tables and the answer equal `RecordDiagnosis` of the old tables, and the table invariant is kept |
| `Server.Database.FindOrInsertUser` | backend/server.js:50-61 | step A in place: the tables and the user id agree with `ResolveUser` on every path, and the table invariant is kept |
| `Server.Database.Diagnose` | backend/server.js:45-91 | the handler in place: the new tables and the answer equal `HandleDiagnose` of the old tables, and the table invariant is kept |
| `Server.Database.Stats` | backend/server.js:94-108 | the counts are the sizes of the three tables, given exactly when no count fails; otherwise status 500; nothing is modified |
| `Server.DiagnoseSucceedsIff` | backend/server.js:48-90 | the answer is a diagnosis iff no statement that is reached rejects and the body has a list; otherwise it is status 500 with the fixed message |
| `Server.DiagnoseExistingUser` | backend/server.js:53-54 | a known name reuses the first match's id and adds no user |
| `Server.DiagnoseNewUser` | backend/server.js:55-61 | an unknown name appends exactly one user row with a fresh id, and the diagnosis uses that id |
| `Server.DiagnoseAppendsOneRow` | backend/server.js:69-84 | a diagnosis appends exactly one row (user id of an existing user, score/100, tier, the list); earlier rows and the symptoms stay; the answer reports the stored score and tier, the sentence for that tier and the two fixed recommendations |
| `Server.DiagnoseFailureKeepsDiagnoses` | backend/server.js:87-90 | a failed request adds no diagnosis; only the user row of step A can remain |
| `Server.NoRollback` | backend/server.js:55-64 | a new name with no list fails with 500, yet the inserted user stays (no transaction) |
| `Server.DiagnosePreservesValid` | backend/server.js:50-73 | every path keeps ids fresh and increasing and every diagnosis pointing to an existing user |
| `Server.DiagnosisTextEmbedsTier` | backend/server.js:80 | the diagnosis sentence is the fixed prefix, then the tier's name, then the fixed suffix |
| `Server.DiagnosisTextNamesTier` | backend/server.js:80 | different tiers give different sentences |
| `Server.AsWrittenDiagnoseAlwaysFails` | backend/server.js:12-19 | with every statement rejecting, as the undefined `pool` makes them, every request answers 500 and changes nothing |
| `Server.WorkingPoolDiagnoses` | backend/server.js:45-85 | with statements that succeed, every request that carries a list is diagnosed |
| `Js.Spread` | backend/config.js:34 | the spread object has the keys of both sides; the right side wins |
| `Js.SpreadFields` | frontend/config.js:36 | spreading an object contributes its fields; spreading `undefined` or `null` contributes nothing |
| `Js.NatToString` | backend/config.js:43 | the status renders as a non-empty string of decimal digits without a leading zero |
| `Js.NatToStringRoundTrip` | backend/config.js:43 | reading the rendered digits gives back the status |
| `Js.NatToStringInjective` | backend/config.js:43 | different statuses render differently |
| `Js.HttpError` | backend/config.js:43 | the error text is `HTTP `, then the decimal status, then `: `, then the given detail |
| `Js.HttpErrorInjective` | backend/config.js:43 | for a fixed detail, different statuses give different error texts |
| `BackendConfig.BaseUrl` | backend/config.js:4-9 | `http://localhost:3000` on host `localhost` or `127.0.0.1`, the page origin otherwise |
| `BackendConfig.RequestUrl` | backend/config.js:26 | the URL is the base followed directly by the endpoint, with no separator or normalisation |
| `BackendConfig.MergeOptions` | backend/config.js:27-34 | a shallow merge in which the caller wins; without caller headers both defaults are sent |
| `BackendConfig.CallerHeadersReplaceDefaults` | backend/config.js:27-34 | caller headers replace the defaults wholesale, so `Accept` is dropped |
| `BackendConfig.Settle` | backend/config.js:36-65 | success returns the parsed body; a response that is not ok or a rejected request goes to the catch block with its error message |
| `BackendConfig.FetchApi` | backend/config.js:25-66 | the URL is the base then the endpoint; the options sent are the caller's keys plus `headers`; the call throws only for a failed request to an endpoint that is neither `STATS` nor a list endpoint |
| `BackendConfig.Fallback` | backend/config.js:52-64 | zero counters for `STATS`, an empty list for exactly the four list endpoints, and a rethrow with the same error iff the endpoint is neither |
| `BackendConfig.SuccessReturnsBody` | backend/config.js:46-47 | on success the parsed body is returned unchanged, for every endpoint |
| `BackendConfig.NotOkJoinsFailurePath` | backend/config.js:40-43 | a response that is not ok settles exactly like a rejected request whose message is `HTTP <status>: <body text>` |
| `BackendConfig.FailureByEndpoint` | backend/config.js:49-64 | a failed call returns zero counters for `STATS`, an empty list for the list endpoints, and otherwise throws its error message |
| `BackendConfig.ZeroStatsCounters` | backend/config.js:53-59 | the statistics fallback has exactly four counters, all zero, `total_recommendations` among them |
| `BackendConfig.OtherEndpointsRethrow` | backend/config.js:60-64 | `LOGIN`, `PROCESS_DIAGNOSIS`, `HEALTH`, `TEST_DB` and the suffixed `/api/users/5` rethrow on failure |
| `FrontendConfig.GetUrl` | frontend/config.js:26-28 | the URL is the page origin followed directly by the endpoint |
| `FrontendConfig.DefaultOptions` | frontend/config.js:33-38 | `defaultOptions` has only `headers`: the caller's header fields plus `Content-Type`, whose value is `application/json` unless the caller sets it; caller fields win |
| `FrontendConfig.EffectiveInit` | frontend/config.js:33-41 | caller headers are sent exactly as given; without them exactly `Content-Type: application/json`; every other option key passes through |
| `FrontendConfig.CallerHeadersDropContentType` | frontend/config.js:33-41 | caller headers without a content type are sent without one |
| `FrontendConfig.Settle` | frontend/config.js:40-51 | the call returns the parsed body exactly when the request succeeded; a response that is not ok throws `HTTP <status>: <status text>`; a rejected request rethrows its own message |
| `FrontendConfig.FetchApi` | frontend/config.js:30-52 | the URL is the origin then the endpoint; the options sent are the caller's keys plus `headers`; the call returns a value exactly when the request succeeded |
| `FrontendConfig.ReturnsOnlyParsedBody` | frontend/config.js:40-51 | `fetchApi` returns v iff the outcome was a success with body v: no default value ever |
| `FrontendConfig.NotOkThrows` | frontend/config.js:43-45 | a response that is not ok throws `HTTP <status>: <status text>` |
| `FrontendConfig.HelpersCompared` | frontend/config.js:40-51 | the two helpers agree on success and on a rejected non-dashboard request; on a failed dashboard request the backend helper returns while this one throws; on a not-ok response outside the dashboard the backend error carries the body text and this one the status text, equal exactly when those texts are |

## Findings

| source | as written | input that shows it | evidently intended | confidence | as-written member | corrected member |
|---|---|---|---|---|---|---|
| backend/server.js:12-19 | `executeQuery` calls `pool.query`, but no `pool` is created (`mysql2` is imported at line 5 and never used), so every statement rejects | any `POST /diagnosa` or `GET /api/stats` | a pool created from `mysql2`, so statements run against the tables | high; not executed | `Server.AsWrittenDiagnoseAlwaysFails` | `Server.WorkingPoolDiagnoses` |

The rest of the model is stated for statements that run. Their failure is kept as the `Faults`
input, and the as-written behaviour is the case where every fault is set (`AsWrittenFaults`).
The same holds for `/api/stats`: `Server.Database.Stats` answers 500 whenever a count fails.

## Left out

- Express setup and HTTP I/O are not modelled: middleware, static files, the `sendFile`
  routes and `app.listen` (`backend/server.js:2-29`, `111-121`).
- The `GET /gejala` handler (`backend/server.js:34-42`) is not part of this model.
- The MySQL layer is replaced by sequences.
  - The lookup returns rows in table order.
  - The auto-increment id is a counter that a failed insert does not advance.
  - The `diagnoses` row id is not modelled; nothing reads it.
- The score is exact (a real number). JavaScript double arithmetic is not modelled.
- `JSON.stringify(gejala)` is taken as the list itself, an injective encoding.
- A `gejala` that is absent throws a `TypeError` at line 64 and is modelled. Other non-array
  values are not modelled: a string, for example, would be scored by its character count.
- Server.FindUser: the name lookup is exact string equality. SQL `=` follows the column
  collation, which is often case-insensitive, so names differing only in case may match in the
  database and not in the model. A request without `nama_lengkap` binds `undefined`, which the
  driver sends as NULL; `nama_lengkap = NULL` matches no row, so such requests insert a new user
  every time. The model takes the name as always present.
- Server.Database.Diagnose: each request runs alone, from start to end. The handler's
  find-or-insert is a check then an act, with no transaction and no unique key on the name, so
  two concurrent requests for the same new name can both miss and both insert a user.
- Server.Database.Stats: the 500 body's `error` text is not modelled, because which of the
  three concurrent counts (`Promise.all`) rejects first is not determined.
- Browser globals are inputs: `window.location` and the outcome of `fetch`.
  - A body that fails to parse as JSON is folded into `Fail`.
  - `console` logging and the `window.API_CONFIG` export are dropped.
  - So is the frontend `ENDPOINTS` table, which only holds data.
- In the spread model, spreading a string or an array contributes nothing; in JavaScript it
  contributes index keys.
- `options` is always an object. A `null` `options` in the frontend helper throws before the
  `try` (line 36); that case is not modelled.
