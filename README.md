# energy-data-connector core, modelled in Dafny

This project models the in-memory core of the energy-data connector, a small
HTTP service. The service hands out PIN-gated sessions, runs energy-data exports
from InfluxDB as background jobs, lets clients poll and download the export as
JSON Lines, and rewrites the `.env.local` settings file. The model covers:

- **SessionManager** (`session_manager.dfy`).
  - The token → session map as a class `SessionStore` with the four operations
    open, validate (with lazy expiry), revoke and purge. Each operation is
    proved against a pure function on the map.
  - The purge is a loop with invariants.
  - Lemmas for the PIN gate, the TTL arithmetic, strict expiry (a session is
    still valid at exactly `expiresAt`), revoke-then-validate and the
    agreement of purge with validate.
- **Auth** (`auth.dfy`). The `Authorization: Bearer <token>` gate of the
  middleware:
  - the case-sensitive scheme of section 2.1 of RFC 6750;
  - trimming of the token;
  - the three outcomes, missing token, expired or invalid session, and proceed.
- **JobManager** (`job_manager.dfy`).
  - The id → export job map as a class `JobStore` with create, update (a
    shallow merge of a patch with `updatedAt` refreshed), get and list.
  - Lemmas about the merge: field by field, composition, idempotence, and the
    absence of any state-machine guard.
- **Bulk** (`bulk.dfy`).
  - The `/export` handler: a validated body creates a job and marks it running.
  - The background run as the fixed sequence of job patches it applies, with
    its four outcomes: source failure, no rows, completed with digest, and
    digest failure.
  - The JSON Lines canonical body.
  - The `/status` and `/download` decisions.
  - An end-to-end lemma: the downloaded bytes are exactly the bytes whose
    digest the job records.
- **EnvConfig** (`env_config.dfy`).
  - `updateEnvLine`: replace the first non-comment `KEY=` line, or else
    append one. It comes with its line-level characterisation and idempotence.
  - The POST handler's three blocks of guarded rewrites, proved equal to one
    fold of edits in the fixed key order, covering exactly the truthy fields.
- **Influx** (`influx.dfy`).
  - `executeFluxQuery`'s blank-query check and `${key}` substitution loop.
  - `queryEnergyData`'s construction of the Flux text:
    - bucket fallback;
    - start and end normalisation and quoting;
    - measurement default;
    - the filter loop, which yields exactly one line per filter.
- **JsStrings** (`js_strings.dfy`). The JavaScript string built-ins the source
  relies on: `startsWith`, `endsWith`, `trim`, `split`, `join`, literal
  replace-all and integer `toString`. It also holds the split/join round trips
  the line-level proofs use.
- **Wrappers** (`wrappers.dfy`). `Option` and `Result`.

The clock, `randomUUID()`, the InfluxDB query, `JSON.stringify`, the SHA-256 hex
digest and the machine IP lookup are parameters: timestamps as `int`, fresh
tokens and ids as strings required to be absent from their map, and the
foreign functions as arrow-typed arguments.

In three places the code behaves differently from what a reader of the
service's API might expect, and the model follows the code:

- Expiry is strict (`expiresAt < now`), so a session is valid at its expiry
  instant.
- A failed export records its message in `status`, not in `error`, and resets
  `progress` to 0.
- `updateJob` has no terminal-state or progress guard.

## Model

| member | source | states |
|---|---|---|
| SessionManager.SessionStore.constructor | src/services/sessionManager.ts:10 | the store starts with no sessions, under the given PIN and TTL configuration |
| SessionManager.Open | src/services/sessionManager.ts:13-27 | a session is returned iff the PIN is accepted; a rejected PIN leaves the map as it was; an accepted one returns `Session(token, now, now + ttl * 1000)` and stores it under its token |
| SessionManager.Validate | src/services/sessionManager.ts:29-38 | a session is returned iff the token is present, non-empty, stored and not strictly expired, and it is the stored one with the map unchanged; the only change ever made is deleting that token's expired entry |
| SessionManager.Revoke | src/services/sessionManager.ts:40-42 | the token is gone afterwards, every other token is present iff it was, and survivors are unchanged |
| SessionManager.SessionStore.OpenSession | src/services/sessionManager.ts:13-27 | the returned session and the new map are those of `Open`: a rejected PIN leaves the map alone; otherwise the fresh token is stored with its session |
| SessionManager.SessionStore.ValidateToken | src/services/sessionManager.ts:29-38 | the result and the new map are those of `Validate`: null for a missing, empty or unknown token; an expired entry is deleted and null returned; otherwise the stored session is returned |
| SessionManager.SessionStore.RevokeToken | src/services/sessionManager.ts:40-42 | the new map is the old one without the token |
| SessionManager.SessionStore.PurgeExpiredSessions | src/services/sessionManager.ts:44-51 | the loop leaves exactly the map of `Purged` |
| SessionManager.Purged | src/services/sessionManager.ts:44-51 | a token survives the sweep iff it was stored and `expiresAt >= now`; survivors keep their session unchanged |
| SessionManager.OperationsKeepKeys | src/services/sessionManager.ts:18-25 | open, validate, revoke and purge all keep every session stored under its own token |
| SessionManager.WrongPinRejected | src/services/sessionManager.ts:14-16 | a configured non-empty PIN that differs from the supplied one gives null and an unchanged map |
| SessionManager.OpenModeAcceptsAnyPin | src/services/sessionManager.ts:14 | with no PIN configured, or an empty one, any pin opens a session |
| SessionManager.OpenStoresSession | src/services/sessionManager.ts:18-25 | an accepted open returns a session with `createdAt = now` and `expiresAt - createdAt = ttl * 1000`, stores it under its token, adds no other token and keeps every other entry unchanged |
| SessionManager.OpenThenValidate | src/services/sessionManager.ts:18-37 | a freshly opened token validates to that same session, with the map untouched, at any time up to and including its expiry |
| SessionManager.ValidateUnknown | src/services/sessionManager.ts:30-32 | a missing, empty or unknown token gives null and an unchanged map |
| SessionManager.ValidateExpiredOnce | src/services/sessionManager.ts:33-36 | an expired token is deleted, and only that entry; a second validation also gives null and changes nothing more |
| SessionManager.ValidAtExpiryInstant | src/services/sessionManager.ts:33-37 | at `now == expiresAt` the session is still returned and kept |
| SessionManager.RevokeThenValidate | src/services/sessionManager.ts:40-42 | after revoke, validation of that token gives null; revoking an absent token is a no-op |
| SessionManager.PurgeAgreesWithValidate | src/services/sessionManager.ts:44-51 | purging first never changes what validation at the same instant returns |
| SessionManager.PinScenario | src/services/sessionManager.ts:13-37 | PIN "4242" and TTL 900 s, opened at 0: expires at 900000; valid at 899999 and 900000; deleted and null at 900001 |
| Auth.BearerToken | src/middleware/auth.ts:5-10 | a token is extracted iff the header starts with exactly `"Bearer "`; the token neither starts nor ends with whitespace |
| Auth.Gate | src/middleware/auth.ts:5-17 | "missing token" iff no token could be extracted, and then the map is untouched; proceed iff the token is non-empty, stored and not expired, with the stored session and the map untouched; otherwise "expired or invalid"; the map is either untouched or loses exactly the presented token's entry, and only when that entry has expired |
| Auth.Authenticate | src/middleware/auth.ts:4-18 | the outcome and the session map after the call are those of the gate decision: prefix check, trimmed token, validation through the store; a session the request proceeds with carries the header's token |
| Auth.NoBearerPrefixRejected | src/middleware/auth.ts:5-8 | a missing header, or one not starting with `"Bearer "`, is rejected as missing token without touching the store |
| Auth.LowerCaseSchemeRejected | src/middleware/auth.ts:6-7 | the scheme is matched case-sensitively: `"bearer ..."` is rejected as missing token |
| Auth.TokenIsTrimmed | src/middleware/auth.ts:10-17 | whitespace around a stored, unexpired token is ignored, and the request proceeds with that session |
| Auth.BlankTokenInvalid | src/middleware/auth.ts:10-14 | `"Bearer "` followed only by whitespace gives an empty token and is rejected as expired or invalid |
| Auth.UnknownOrExpiredRejected | src/middleware/auth.ts:11-14 | a well-formed header whose token is unknown or expired is rejected as expired or invalid |
| JobManager.JobStore.constructor | src/services/jobManager.ts:18 | the store starts with no jobs |
| JobManager.JobStore.CreateJob | src/services/jobManager.ts:20-33 | returns a pending job with zero progress and rows and both timestamps `now`; inserts it under the fresh id, grows the map by one, and changes no other entry |
| JobManager.JobStore.UpdateJob | src/services/jobManager.ts:35-45 | an unknown id returns none and changes nothing; a known id stores and returns the merged record, and changes no other entry |
| JobManager.JobStore.GetJob | src/services/jobManager.ts:47-49 | returns the stored record exactly when the id is stored |
| JobManager.JobStore.ListJobs | src/services/jobManager.ts:51-53 | returns one record per stored id, each id exactly once, with length equal to the number of jobs |
| JobManager.NewJob | src/services/jobManager.ts:21-30 | a new job has the given id, is pending with progress 0 and no rows, was created and updated now, and carries no status, digest, metadata, data, error, output file or manifest file |
| JobManager.Update | src/services/jobManager.ts:35-45 | the key set is unchanged, other ids keep their record, and the id's record becomes the merge |
| JobManager.Merge | src/services/jobManager.ts:38-42 | every field present in the patch takes the patch's value, every absent one keeps the job's value, and `updatedAt` is `now` whatever the patch says |
| JobManager.EmptyPatchTouches | src/services/jobManager.ts:38-42 | an empty patch only refreshes `updatedAt`; an `updatedAt` carried by a patch is always overridden |
| JobManager.MergeThen | src/services/jobManager.ts:35-45 | two successive updates equal one update with the combined patch, where later fields win |
| JobManager.MergeIdempotent | src/services/jobManager.ts:38-43 | applying the same patch twice at the same instant equals applying it once |
| JobManager.NoTerminalGuard | src/services/jobManager.ts:35-45 | a `done` job can be moved to any state and any progress: the store enforces no state machine |
| Bulk.StartExport | src/routes/bulk.ts:18-28 | an invalid body is answered before any job exists; a valid one creates the job, marks it running with progress 0, and answers with its id |
| Bulk.RunExport | src/routes/bulk.ts:31-110 | the store after the run is the store with the run's patch sequence applied to the job, one clock reading per update |
| Bulk.RunPatches | src/routes/bulk.ts:36-108 | every run makes two or three updates, and the first is the "query dispatched" one |
| Bulk.Lines | src/routes/bulk.ts:63 | one serialized line per row, in row order |
| Bulk.Canonical | src/routes/bulk.ts:63 | the body always ends with a newline; no rows give just a newline, one row gives its serialization and a newline |
| Bulk.Fetch | src/routes/bulk.ts:38-43 | when no request field and not the bucket holds a newline, the text handed to the data source has exactly these lines: a read from the configured or default bucket (no explicit bucket is passed), the request's range, its measurement, then one line per filter (none when filters are absent) |
| Bulk.Replay | src/routes/bulk.ts:31-110 | applying the run's updates one by one never adds or removes a job |
| Bulk.ReplayKeepsOthers | src/routes/bulk.ts:31-110 | the run changes no job other than its own |
| Bulk.DispatchedSnapshot | src/routes/bulk.ts:36 | after the first update, the job shows progress 0.2 and its state is unchanged |
| Bulk.SourceFailureOutcome | src/routes/bulk.ts:102-108 | a failed data-source call ends in `error` with progress 0 and the message in `status`; no data or digest is attached |
| Bulk.NoRowsOutcome | src/routes/bulk.ts:45-52 | zero rows end in `done` with progress 1, zero rows counted, and no data attached |
| Bulk.CompletedOutcome | src/routes/bulk.ts:55-87 | N > 0 rows with a digest end in `done` with progress 1, N rows, file `<id>.jsonl`, sha256 `"0x"` + the digest of the canonical body, the metadata, and the rows as data |
| Bulk.DigestFailureOutcome | src/routes/bulk.ts:88-98 | a digest that throws still ends in `done` with the rows, with sha256 `'error'` |
| Bulk.Status | src/routes/bulk.ts:115-121 | not found iff the id is unknown; otherwise the stored record unchanged |
| Bulk.Download | src/routes/bulk.ts:123-141 | "not ready or not found" iff the job is unknown or not `done`; "no data" iff `done` with absent or empty data; otherwise an attachment |
| Bulk.DownloadFilename | src/routes/bulk.ts:138 | the attachment is named by `outputFile`, or by `<id>.jsonl` when it is absent or empty |
| Bulk.DownloadIsHashedBody | src/routes/bulk.ts:63-138 | after a completed run, the download body is the canonical text whose digest the job records |
| Bulk.NoRowsDownload | src/routes/bulk.ts:129-131 | the download of a zero-row run is "no data" |
| Bulk.FailedRunNotReady | src/routes/bulk.ts:125-127 | neither a failed run nor an unknown job can be downloaded |
| Bulk.CanonicalLines | src/routes/bulk.ts:134-135 | the canonical body splits on newlines into the serialized rows, then the empty text after the final newline |
| Bulk.ExportThenDownload | src/routes/bulk.ts:18-141 | start then run for a fresh id with rows and a digest: the store gains exactly that job, other jobs are untouched, and the job downloads as `<id>.jsonl` with the canonical body |
| EnvConfig.UpdateEnvLine | src/routes/config.ts:93-109 | when no line sets the key, the result starts with the old content and ends with the line `KEY=value` |
| EnvConfig.Appended | src/routes/config.ts:100-105 | the old content is kept as a prefix and the new line, newline-terminated, ends the text; exactly one separating newline is added when the content is non-empty and unterminated |
| EnvConfig.FindKeyLineFirst | src/routes/config.ts:95 | `findIndex` returns the first line that sets the key and is not a comment, and -1 exactly when there is none |
| EnvConfig.ReplacesFirstKeyLine | src/routes/config.ts:94-108 | with the key present, the lines of the result are the old lines with exactly the first key line set to `KEY=value`, so the line count is preserved |
| EnvConfig.AppendsWhenAbsent | src/routes/config.ts:100-105 | with the key absent, the result starts with the old content and ends with a newline; its lines are the old content lines, then `KEY=value`, then the empty tail |
| EnvConfig.CommentNeverReplaced | src/routes/config.ts:95 | a line whose trimmed form starts with `#` is never the one replaced |
| EnvConfig.HashKeyAlwaysAppends | src/routes/config.ts:95 | a key that itself starts with `#` never matches a line, so it is always appended |
| EnvConfig.UpdateIdempotent | src/routes/config.ts:93-109 | writing the same key and newline-free value twice gives the same content as writing it once, for the empty key too |
| EnvConfig.SettingFoundAt | src/routes/config.ts:94-108 | content whose first key line already reads `KEY=value` is left unchanged |
| EnvConfig.ApplyInfluxUpdates | src/routes/config.ts:52-57 | the influx block rewrites URL, ORG, BUCKET and TOKEN, in that order, each only when its field is truthy |
| EnvConfig.ApplyBlockchainUpdates | src/routes/config.ts:59-63 | the blockchain block rewrites the RPC URL, contract address and private key, in that order, each only when truthy |
| EnvConfig.ApplyConnectorUpdates | src/routes/config.ts:65-75 | the connector block rewrites the port and the TTL as decimal text, then the log level, then the origins (an array joined with `','`), each only when truthy |
| EnvConfig.ApplyConfigUpdates | src/routes/config.ts:49-75 | the handler's content is the original with the truthy fields' edits applied one after another in the fixed key order |
| EnvConfig.HandlerAppliesEdits | src/routes/config.ts:52-75 | the three guarded blocks in sequence equal one fold of the edit list |
| EnvConfig.StepsAreEdits | src/routes/config.ts:52-75 | the key-by-key guarded rewrites over the first n keys equal applying the edits of those keys |
| EnvConfig.EditsExactlyTruthy | src/routes/config.ts:52-75 | a (key, value) edit is made iff the key is among those considered and its request field is truthy with that text |
| EnvConfig.EditsInKeyOrder | src/routes/config.ts:52-75 | edits come only from the keys considered, and in strictly increasing key order |
| EnvConfig.WriteOrder | src/routes/config.ts:52-75 | over all eleven keys: a key is written with a value iff its field is truthy with that text, and writes follow INFLUX_URL … CONNECTOR_ALLOWED_ORIGINS |
| EnvConfig.OriginsWritten | src/routes/config.ts:69-74 | an origin array is written comma-joined, even when empty; an empty origin string is skipped |
| EnvConfig.ZeroNumbersSkipped | src/routes/config.ts:66-67 | a port or TTL of 0 is falsy and is not written |
| Influx.Placeholder | src/services/influx.ts:66 | the placeholder for a key opens with `${`, closes with `}` and holds exactly the key in between |
| Influx.SubstituteParams | src/services/influx.ts:63-68 | the loop's result is the query with every parameter substituted in turn |
| Influx.PrepareFluxQuery | src/services/influx.ts:55-68 | fails with the "query required" message iff the query trims to empty; otherwise the query with parameters substituted, or unchanged without parameters |
| Influx.Substituted | src/services/influx.ts:64-68 | a query without `$` is unchanged by any parameters |
| Influx.PlaceholderReplaced | src/services/influx.ts:66 | the placeholder between `$`-free text is replaced by the parameter's value |
| Influx.TargetBucket | src/services/influx.ts:121-125 | explicit bucket, else configured bucket, else `energy-data`; never empty, so the missing-bucket error cannot be raised |
| Influx.StartParam | src/services/influx.ts:131 | only `now` is rewritten (to `now()`); relative, ISO and any other start are kept as they are |
| Influx.EndParam | src/services/influx.ts:132 | only `now` and the empty string are rewritten (to `now()`); any other end is kept |
| Influx.FluxTime | src/services/influx.ts:136-137 | a bound is written bare iff it is `now()` or starts with `-`; otherwise it is wrapped in double quotes |
| Influx.QueryText | src/services/influx.ts:139-148 | the query's first line reads from the target bucket |
| Influx.StartRendering | src/services/influx.ts:131-136 | a start of `now` or `now()` becomes `now()`; a relative `-...` start is emitted as is; anything else is double-quoted |
| Influx.EndRendering | src/services/influx.ts:132-137 | an end of `now`, empty or `now()` becomes `now()`; a relative `-...` end is emitted as is; anything else is double-quoted |
| Influx.BuildEnergyQuery | src/services/influx.ts:113-148 | the loop's text is the bucket, range and measurement prefix followed by one filter line per entry |
| Influx.QueryTextIsJoin | src/services/influx.ts:139-148 | appending each filter as `"\n" + line` is the newline join of the prefix lines and the filter lines |
| Influx.QueryLines | src/services/influx.ts:139-148 | for newline-free inputs, the query's lines are exactly the bucket line, the range line, the measurement line (default `energy`), then one filter line per entry in entry order |
| Influx.BuiltQueryNotBlank | src/services/influx.ts:58-60 | a built query never trips the blank-query check |
| JsStrings.Trim | src/middleware/auth.ts:10 | the trimmed text is no longer than the input and neither starts nor ends with whitespace |
| JsStrings.Split | src/routes/config.ts:94 | a split always yields at least one piece |
| JsStrings.Join | src/routes/config.ts:108 | the joined text begins with the first piece |
| JsStrings.ReplaceAll | src/services/influx.ts:66 | replacing by text as long as the pattern keeps the length |
| JsStrings.ReplaceAllUnchanged | src/services/influx.ts:66 | text without the pattern's first character is left unchanged |
| JsStrings.IntToString | src/routes/config.ts:66-67 | the decimal text is non-empty and starts with `-` exactly for a negative value |
| JsStrings.TrimAround | src/middleware/auth.ts:10 | `trim` removes exactly the surrounding whitespace |
| JsStrings.JoinSplit | src/routes/config.ts:94-108 | joining the split lines gives back the content |
| JsStrings.SplitJoin | src/routes/config.ts:94-108 | splitting the join of separator-free pieces gives back the pieces |
| JsStrings.SplitPiecesFree | src/routes/config.ts:94 | no piece of a split contains the separator |
| JsStrings.ReplaceAllAt | src/services/influx.ts:66 | a replace-all passes over text that cannot start the pattern, and replaces the first occurrence of the pattern |
| JsStrings.IntToStringText | src/routes/config.ts:66-67 | the decimal text of an integer is one line: a leading `-` exactly when negative, then digits |

## Left out

- HTTP and Express plumbing: status codes, headers and response bodies are route-outcome datatypes. The zod body check of `/export` is an `Option` body, with `None` for a body that fails validation.
- The PIN length check of the session route (src/routes/session.ts) is outside the modelled core, which accepts any pin text.
- The InfluxDB client is left out: the connection, the `queryRows` stream and `testConnection` are foreign asynchronous I/O. The data source is a function parameter returning rows or a failure message.
- Row value coercion in the query stream (src/services/influx.ts:81-87) is JavaScript floating-point number parsing, and rows are opaque values.
- SHA-256, hex encoding, `JSON.stringify`, `randomUUID()`, `Date.now()` and the machine IP lookup are parameters. Anything that throws inside the inner `try` of the run (src/routes/bulk.ts:62-87) is a `None` digest: the hash, `JSON.stringify` of a row, `getMachineIP()` or the date conversion. The job then ends with the `'error'` digest.
- The background export run and the polling requests run concurrently in the service. The model runs the export as one sequential list of updates, with no interleavings.
- `executeFluxQuery`'s hand-off of the substituted text to the InfluxDB client, and all console logging, are left out. So is `queryEnergyData`'s hand-off of the built text.
- The file read and write of `.env.local` (src/routes/config.ts:38-47, 77) are left out. The handler takes the file content as a parameter and returns the new content.
- The GET side of the config route, S3 upload and URL signing, the anchoring stub, the health route and the environment loading are outside the modelled core.
- Strings are sequences of Unicode characters, not UTF-16 code units. Lengths and indices of text outside the Basic Multilingual Plane therefore differ from JavaScript's.
- Parameter and filter keys are taken literally. `executeFluxQuery` builds a regular expression from `${key}`, so a key containing regex metacharacters behaves differently in the source. Replacement values are inserted verbatim, without JavaScript's `$&`-style replacement patterns.
- Filters are a sequence of key/value pairs in entry order. A JavaScript object cannot hold a key twice, so the source has no duplicate keys.
- The config request body is modelled in its typed shape: strings, integers, and an origin array or string. Untyped JSON values (booleans, nested objects, non-integer numbers, `NaN`) are left out.
- JsStrings.IntToString: writes plain decimal digits for every integer. JavaScript's `toString`, used for the port and TTL at src/routes/config.ts:66-67, switches to exponent notation from a magnitude of 1e21.
- SessionManager.Open: the TTL is taken to be an integer number of seconds. In the source it is `Number(SESSION_TTL_SECONDS)` (src/config/index.ts), which can be fractional or `NaN`. With `NaN`, `expiresAt` is `NaN`, so `expiresAt < now` is always false and such a session never expires and is never purged; the model does not capture this.
- JobManager.JobStore.ListJobs: the order of the returned records is the map's insertion order in the source. The model returns each job once, in an unspecified order given by a ghost id list.
- JobManager.Merge: a patch field explicitly set to `undefined` would overwrite the stored field through the object spread. Patches are modelled with absent fields only.
- Bulk.RunExport: the source guards `!data` after the query, but the query always yields an array, so that branch is not modelled.
- EnvConfig.UpdateIdempotent: stated for keys without a newline that are empty or start with neither whitespace nor `#`, and for values without a newline. For a key that starts with `#` (EnvConfig.HashKeyAlwaysAppends) or with whitespace, no trimmed line can match, so the source appends every time and is not idempotent. Keys and values holding a newline are outside the statement. The handler's eleven keys all qualify.
- EnvConfig.ApplyInfluxUpdates, EnvConfig.ApplyBlockchainUpdates and EnvConfig.ApplyConnectorUpdates take the line rewriter as a parameter, and the handler passes `updateEnvLine`. This keeps the block proofs independent of the rewriter's body.
