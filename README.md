# Sidearm Node SDK core: transport and job tracker, in Dafny

This project models the core of the Sidearm Node SDK, a client library for a
media protection and detection service. It covers three parts.

- **Transport core** (`HttpClient`, module `Client`). This is where the
  API-key check and the base URL are set up. It builds each verb's request:
  Bearer authorisation, `Accept`, `Content-Type` for bodies, and a filtered
  query. It turns the answer into a parsed value, the raw text or a
  `SidearmError`. It also unwraps the `{ data, meta }` envelope the service
  uses.
- **Job tracker** (`Job`, module `Jobs`). A handle keeps the latest state it
  has seen of a server-side job. `poll` replaces that state with one fetch.
  `wait` sleeps and polls until the job is `completed` or `failed`, or until
  a deadline passes.
- **Search request builder** (`SearchResource`, module `Search`). `run` moves
  `tags` into a `scope` object in the body and `limit` into the query string.
  `list` sends the pagination options as query parameters.

The network is an input. Each call takes a `Response`: the status, the body
text, and `JSON.parse` of the text when parsing succeeds. The call returns an
`Exchange`: the request that goes out, and either the value returned or the
error thrown. JavaScript `undefined` is `Option.None`, and JSON `null` is
`Json.Null`. A typed field that may also be `null` is a `Maybe`.

For the job tracker, time and the network are a `World` object. It has a
clock that only `Sleep` moves forward. Sleep uses the delay Node's
`setTimeout` really applies. The world also gives the endpoint's reply to
each successive fetch, and records a trace of every sleep and fetch, in
order. `Job.Wait` is proved against `WaitFrom`, a function describing the
loop from any starting state. The lemmas beside it prove what the loop
guarantees:

- a normal return is a terminal state, `failed` included;
- the timeout is thrown only past the deadline;
- each round is one sleep followed by one fetch;
- a job that is already done returns at once.

Points where the code behaves differently from what its comments or its
documented intent suggest (the model follows the code):

- **Unwrapping a `null` body.** `getOne`, `postOne`, `patchOne`,
  `deleteOne` and `getList` read `res.data` without `?.`. So a 2xx answer
  whose body is the JSON text `null` makes them throw a `TypeError`: the one
  failure the unwrapping adds to the raw call. In the model this is
  `Error.NullEnvelope` (see `Client.UnwrapOne`).
- **Wait checks the deadline before each sleep, not after.** So with a
  1500 ms timeout and a 1000 ms interval, a job that never finishes is polled
  twice, at 1000 ms and at 2000 ms, before the timeout is thrown
  (`Jobs.TwoPollsThenTimeout`).
- **`post` and `patch` send the same body.** `post` sends a body when its
  argument is not `undefined`. `patch` always calls `JSON.stringify`, but
  `JSON.stringify(undefined)` is `undefined`, so no body is sent either.
- **Inconsistent unwrapping in callers.** `src/resources/protect.ts:13`
  unwraps the job-creation answer with `postOne`. `src/resources/run.ts:13`
  and `src/resources/detect.ts:18` pass the raw `post` answer to `new Job`.
  If those endpoints wrap their answer in `{ data }` the way the comment at
  `src/client.ts:68` says all responses are, the raw answer has no `job_id`.
  These callers are not part of this model.

## Model

| member | source | states |
|---|---|---|
| `Client.BaseUrlOf` | src/client.ts:27 | the kept base URL is the configured one, or `https://api.sdrm.io` when that is absent, with exactly one trailing `/` removed when there is one (appending it back gives the original) |
| `Client.BaseUrlExamples` | src/client.ts:27 | `"x//"` becomes `"x/"` (only one slash goes); the default base URL is kept as it is |
| `Client.HttpClient.Create` | src/client.ts:20-28 | construction fails with the plain configuration error, and allocates nothing, exactly when the API key is missing or empty; otherwise the new client holds the key and `BaseUrlOf(config)` |
| `Client.HttpClient.constructor` | src/client.ts:26-27 | with a present key, the fields are the key and the normalised base URL, and the stored key is not empty |
| `Client.HttpClient.Headers` | src/client.ts:104-108 | every request carries `Authorization: Bearer <key>` and `Accept: application/json`; `Content-Type: application/json` is present exactly for POST and PATCH; no other header |
| `Client.HttpClient.Get` | src/client.ts:30-43 | the loop over the entries builds exactly the filtered query `FilterQuery(params)` (empty when there are no params), no body, GET headers, and the outcome is the decoding of the answer |
| `Client.NextKeyIsNew` | src/client.ts:36-38 | because an object's keys are distinct, `searchParams.set` never finds a key that an earlier entry put in, so each kept entry is appended (for a path without a query string of its own) |
| `Client.SetParam` | src/client.ts:38 | `URLSearchParams.set` appends the pair when the name is not yet present |
| `Client.FilterQuery` | src/client.ts:35-40 | the query has at most one pair per entry |
| `Client.FilterQuerySize` | src/client.ts:35-40 | the query has exactly one pair per entry when no value is `undefined` or `null`, and none when every value is |
| `Client.IsOk` | src/client.ts:115 | `res.ok`: the status is in the 2xx class (status / 100 is 2) |
| `Client.FilterQuerySource` | src/client.ts:36-38 | every pair in the query comes from an entry of the bag with that key and a value that is neither `undefined` nor `null`, and holds `String(value)` |
| `Client.FilterQueryKeeps` | src/client.ts:36-38 | every entry whose value is neither `undefined` nor `null` puts the pair `(key, String(value))` in the query |
| `Client.FilterQueryMembership` | src/client.ts:35-40 | a pair is in the query if and only if the bag has that key with a value that is neither `undefined` nor `null`, and the pair's value is `String(value)` |
| `Client.FilterQueryAppend` | src/client.ts:36-40 | the query keeps entry order: filtering distributes over concatenation of the entry list |
| `Client.FilterQueryKeys` | src/client.ts:36-40 | every name in the query is a key of the parameter bag |
| `Client.HttpClient.Post` | src/client.ts:45-51 | POST to base URL plus path with no query (each field of the request stated), POST headers (with `Content-Type` even without a body), a body exactly when the argument is not `undefined`, and the decoded answer |
| `Client.HttpClient.Patch` | src/client.ts:53-59 | PATCH with `Content-Type`, the argument as the serialised body, and the decoded answer |
| `Client.HttpClient.Delete` | src/client.ts:61-65 | DELETE with no body and no `Content-Type`, and the decoded answer |
| `Client.Decode` | src/client.ts:111-130 | success if and only if the status is 2xx, returning the parsed value or else the raw text; every failure is a `SidearmError` with the response status and the parsed body (none when parsing failed); without a parse its message is `HTTP <status>: <text>`, with one it is `ErrorMessage` |
| `Client.ErrorMessage` | src/client.ts:122-127 | the message is `String(message)` when `message` is neither `null` nor `undefined`, else `String(error)` under the same condition, else the raw text |
| `Client.ErrorMessagePriority` | src/client.ts:122-127 | an empty-string `message` is kept (`??` rather than a truthiness test); a JSON body that is not an object yields the text; a lone string `error` field is the message |
| `Client.UnwrapOne` | src/client.ts:74-75 | the single-resource unwrap passes the raw call's error through unchanged, throws a `TypeError` only on a `null` body, and otherwise returns the `data` property (`undefined` when missing) |
| `Client.Cursor` | src/client.ts:83 | the cursor is `undefined` when `meta` is missing or `null`, and otherwise `meta.next_cursor` exactly, `null` included |
| `Client.UnwrapList` | src/client.ts:82-83 | the list unwrap passes errors through, throws only on a `null` body, and returns `data` with `meta?.next_cursor` |
| `Client.UnwrapOneEnvelope` | src/client.ts:74-75 | a 2xx `{ data: t }` answer unwraps to exactly `t`; a non-2xx one fails with the raw call's error |
| `Client.UnwrapListEnvelope` | src/client.ts:82-83 | a 2xx page with `meta.next_cursor = c` unwraps to `{ data, cursor: c }`, `c = null` preserved; without `meta` the cursor is `undefined` |
| `Client.HttpClient.GetOne` | src/client.ts:70-76 | sends the `get` request and returns the single-resource unwrap of its outcome |
| `Client.HttpClient.GetList` | src/client.ts:78-84 | sends the `get` request and returns the list unwrap of its outcome |
| `Client.HttpClient.PostOne` | src/client.ts:86-89 | sends the `post` request and returns the single-resource unwrap of its outcome |
| `Client.HttpClient.PatchOne` | src/client.ts:91-94 | sends the `patch` request and returns the single-resource unwrap of its outcome |
| `Client.HttpClient.DeleteOne` | src/client.ts:96-99 | sends the `delete` request and returns the single-resource unwrap of its outcome |
| `Js.Truthy` | src/resources/search.ts:16 | JavaScript truthiness on JSON values: falsy exactly for `null`, `false`, `0` and `""` |
| `Js.Decimal` | src/client.ts:117 | `String(n)` for an integer: never empty, `-` followed by the digits of `-n` for a negative `n`, the digits of `n` otherwise; it begins with a digit exactly when `n >= 0` |
| `Js.JsString` | src/client.ts:38 | `String(v)`: a string is itself, an integer its decimal form, `null` is `"null"`, an object `"[object Object]"` |
| `Js.DecimalInjective` | src/client.ts:117 | the decimal form of the status code (and of any integer) determines it: distinct integers print differently |
| `Uri.EncodeUriComponent` | src/job.ts:40 | `encodeURIComponent` never shortens a string, and every character of its output is unreserved or `%` (so no `/`, `?`, `&` or `#` of an id reaches the path; `.` and `..` do pass, see "## Left out") |
| `Uri.FormEncode` | src/resources/search.ts:22-23 | the query-string encoding never shortens a string, and every character of its output is form-unreserved, `+` or `%` (so no `&` or `=` of a value splits the query) |
| `Uri.EncodeUriComponentIdentity` | src/job.ts:40 | `encodeURIComponent` leaves a string unchanged if and only if all its characters are unreserved |
| `Uri.FormEncodeDecimal` | src/resources/search.ts:22 | the query-string encoding leaves the decimal form of an integer unchanged |
| `Jobs.InitialData` | src/job.ts:19-22 | a new job's assumed state has the given id and status `queued`, which is not terminal |
| `Jobs.Job.constructor` | src/job.ts:16-23 | a new job has `id = job_id`, ignores `status_url`, starts from `InitialData`, and is not done |
| `Jobs.Job.Done` | src/job.ts:31-33 | `done` holds exactly when the latest status is `"completed"` or `"failed"` |
| `Jobs.JobPath` | src/job.ts:40 | the job-status path is `/api/v1/jobs/` followed by the encoded id, which is at least as long as the id |
| `Jobs.TimeoutMessageShape` | src/job.ts:59-60 | the timeout message begins `Job <id>`, ends with the last status name and `)`, and is longer than the id, the decimal timeout and the status name together |
| `Jobs.JobPathPlainId` | src/job.ts:39-41 | for an id of unreserved characters, the job-status path text is `/api/v1/jobs/<id>` with the id as it is (the ids `.` and `..` are then resolved by `new URL`, see "## Left out") |
| `Jobs.Job.Poll` | src/job.ts:38-43 | one GET of the job path and no sleep; on success the reply replaces the latest state wholesale and is returned; on failure the latest state is unchanged and the error is thrown |
| `Jobs.TimeoutOf` | src/job.ts:53 | the timeout is the given one whenever it is present, `0` included, and 120000 when it is `undefined` or `null` |
| `Jobs.IntervalOf` | src/job.ts:54 | the interval is the given one whenever it is present, and 2000 when it is `undefined` or `null` |
| `Jobs.TimerDelay` | src/job.ts:71-73 | a sleep lasts the requested time when it is in Node's timer range, and at least 1 ms always |
| `Jobs.World.Sleep` | src/job.ts:71-73 | sleeping advances the clock by the timer delay, fetches nothing, and records one sleep |
| `Jobs.World.Fetch` | src/job.ts:39-41 | a job-status fetch returns the next reply in line, does not move the clock, and records one fetch of the request |
| `Jobs.Rounds` | src/job.ts:57-65 | n rounds of the loop leave exactly 2n events in the trace |
| `Jobs.RoundsAlternate` | src/job.ts:57-65 | the trace of n loop rounds alternates a sleep of the interval and a fetch of the job path, starting with a sleep, so no fetch comes before its sleep |
| `Jobs.WaitFrom` | src/job.ts:52-68 | the wait loop from a given state never loses fetches or turns the clock back |
| `Jobs.Job.Round` | src/job.ts:63-64 | one round from a state that is neither done nor past the deadline sleeps and then polls once: the clock moves forward, one fetch is made, one sleep-then-fetch round is added to the trace, and the job and world are left where `WaitFrom` goes next (or where it stops, if the poll threw) |
| `Jobs.Job.Wait` | src/job.ts:52-68 | the result, latest state, clock and fetch count are those `WaitFrom` gives from the call's start with deadline start + timeout; the trace grows by exactly one sleep-then-fetch round per fetch; a normal return is done and equals `latest`; a job already done returns at once with no sleep and no poll |
| `Jobs.WaitReturnsTerminal` | src/job.ts:57-67 | whenever wait returns normally, the value is the latest state and its status is `completed` or `failed` (a failed job is returned, not thrown) |
| `Jobs.WaitTimesOutOnlyPastDeadline` | src/job.ts:55-61 | the timeout error is thrown only when the job is not done and the clock is at or past the deadline; its message names the id, the timeout and the last observed status; `latest` is left as the last poll set it (the start state when there was no poll) |
| `Jobs.WaitPacing` | src/job.ts:57-65 | the clock ends at the start plus one timer delay per fetch (`Delays`), and every fetch's sleep began before the deadline, so there is at most one poll per interval |
| `Jobs.WaitPropagatesPollErrors` | src/job.ts:63-64 | a failing poll ends the wait with that poll's error, and leaves the latest state as the last successful poll (or the start) set it |
| `Jobs.ThreePollsToCompletion` | src/job.ts:52-68 | timeout 5000, interval 1000, replies queued, queued, completed: exactly three polls and 3000 ms, returning the completed state |
| `Jobs.TwoPollsThenTimeout` | src/job.ts:57-64 | timeout 1500, interval 1000, never terminal: two polls, at 1000 and 2000 ms, then the timeout error |
| `Jobs.ZeroTimeoutThrowsAtOnce` | src/job.ts:53-61 | an explicit `timeoutMs: 0` is honoured: a job that is not done times out with no sleep and no poll |
| `Search.RunPayload` | src/resources/search.ts:14-16 | the body is the options without `tags` and `limit`, every other property copied unchanged, plus `scope: { tags }` exactly when `tags` is truthy (an empty array counts) |
| `Search.Given` | src/resources/search.ts:16-22 | `if (tags)` and `if (limit)`: the property is present and is not `null`, `false`, `0` or `""` |
| `Search.RunQuery` | src/resources/search.ts:21-22 | the query of `run` is non-empty exactly when `limit` is truthy, and then it is the one pair `limit = String(limit)` |
| `Search.SerializeQuery` | src/resources/search.ts:23 | `qs.toString()` is empty exactly when there are no pairs; one pair serialises as `name=value`, both form-encoded |
| `Search.RunPath` | src/resources/search.ts:21-23 | the path is `/api/v1/search?limit=<String(limit), form-encoded>` when `limit` is truthy, and exactly `/api/v1/search` otherwise |
| `Search.RunQuerySerialized` | src/resources/search.ts:21-23 | the serialised query string of `run` is `limit=<String(limit), form-encoded>` when `limit` is truthy and empty otherwise |
| `Search.RunPathNumericLimit` | src/resources/search.ts:21-23 | `limit: 0` leaves the path bare; any other integer limit appears in decimal after `?limit=` |
| `Search.ListParams` | src/resources/search.ts:32-35 | the parameters `list` hands to `get` are `cursor` then `limit`, with distinct keys |
| `Search.SearchResource.Run` | src/resources/search.ts:13-26 | `run` is one raw POST to base URL plus `RunPath` with POST headers and body `RunPayload`, not unwrapped; nothing else of the options reaches the request |
| `Search.SearchResource.List` | src/resources/search.ts:29-36 | `list` is a GET of `/api/v1/search` whose query holds `cursor` and then `limit` (in decimal), each left out when `undefined`, GET headers and no body |

## Left out

- The network (`fetch`), `JSON.parse`, `JSON.stringify` and `res.text()`. What `fetch` answers is an input `Response`. A `fetch` or `res.text()` that rejects (a network failure, an aborted body) is not modelled: its error would pass unchanged through every verb, every unwrap, `poll` and `wait`. A request body is the JSON value that `JSON.stringify` would serialise.
- Client.HttpClient.Get: paths are assumed to carry no query string of their own. `new URL` would parse a `?a=1` in the path into `searchParams`, so `set("a", …)` would replace it and the path's own query would be re-serialised; the model keeps the path text in the address and appends the pair to `query` instead. No caller passes such a path.
- The `URL` class. The address is the base URL and path joined as text. A base URL that `new URL` rejects, such as an empty `baseUrl`, would throw a `TypeError`; this is not modelled. Nor is the dot-segment removal of `new URL`: `encodeURIComponent` leaves `.` as it is, so a job id of `.` would poll `/api/v1/jobs/` and an id of `..` would poll `/api/v1/`, another endpoint; the model's address keeps the text `/api/v1/jobs/..`.
- Numbers are integers. Not modelled: `String(n)` for fractions, `NaN` and `Infinity`; the exponent notation from 1e21 upwards; loss of precision past 2^53.
- Strings are sequences of Unicode scalar values. JavaScript strings with lone surrogates, and the `URIError` that `encodeURIComponent` throws on them, are not modelled.
- Time is abstract. The clock moves only when `sleep` runs. `Date.now()` readings and network latency inside a poll, which can overrun the deadline, are not modelled.
- Concurrency: a `poll` racing an in-flight `wait` on the same job. The model is sequential.
- Jobs.World.Fetch: the endpoint's replies are already typed as job states or errors. The source casts whatever `getOne` returns to `JobData` without checking. So a malformed reply, for example one without `data` that then makes `done` throw a `TypeError`, is not modelled.
- Repeated polls of a terminal job: what they return depends only on the server's replies. No client-side property of this is stated.
- The local `params` map in `SearchResource.run` is computed and never used. It has no effect, so it is not modelled.
- Search options whose properties are explicitly `undefined` are treated as absent. `JSON.stringify` leaves such properties out of the body, and both `tags` and `limit` are then falsy.
- The `Error` objects' `name` and stack. A plain `Error` is split into two variants, `ConfigError` and `TimeoutError`, only so that they can be told apart.
- The per-resource methods that only choose a verb and path: `src/resources/media.ts`, `detect.ts`, `billing.ts`, `jobs.ts`, `protect.ts`, `run.ts`, `algorithms.ts` and `rights.ts`. Also left out: `src/index.ts`, which only wires resources together, and the declarations in `src/types.ts`. Its `JobStatus`, `JobData`, `WaitOptions` and `PaginationOptions` shapes are borrowed as datatypes.
