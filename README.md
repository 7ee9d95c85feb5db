# Agent-on-agent phone calls: a Dafny model

This project models the core of a small system that places phone calls between two AI voice
agents on the Vapi voice platform and records what happened in a relational store:

- **Webhook ingestion** (`WebhooksSrc`, `WebhooksDist`). Vapi posts an end-of-call report.
  The normaliser turns it into a call-record patch. This covers:
  - the duration from the two timestamps;
  - the Agent A / Agent B decision;
  - the `??` fallbacks between the top-level artifact and the call's own artifact;
  - the default status.

  The dispatcher decides whether the patch is saved and which reply goes back. There are two
  named variants:
  - the TypeScript handler, which only knows end-of-call reports;
  - the compiled handler, which also answers status updates and assistant requests.
- **Call-record store** (`CallQueries`). `createCall` is an upsert keyed by the Vapi call id:
  - on insert, absent fields are NULL;
  - on conflict, 19 columns are `COALESCE(new, old)`;
  - six columns are insert-only.

  `createExperiment`, `listCalls` and `getCallStats` complete the store.
- **Human-call store** (`HumanCallQueries`). The same upsert pattern on the five-column
  `human_calls` table, with its own listing and statistics.
- **Orchestrator** (`Orchestrator`). Covers configuration, topic selection (`--topic`,
  `--limit`), the request sent for each call, the pre-created call row, and the sequential
  batch loop. The loop keeps success and failure counters and sleeps between calls.
- **Schema statement splitter** (`Migrate`). The line-based loop that cuts `schema.sql` into
  statements, toggling on `$$`.
- **End to end** (`Pipeline`). What a call row holds when the orchestrator's pre-create and
  the webhook's report for the same call meet in the store, in either order.

Support modules:

| Module | Holds |
|---|---|
| `Wrappers` | `Option`, `Result`, and `Coalesce` (JavaScript `??`). |
| `JsonValue` | Opaque JSON values with JavaScript truthiness. |
| `Text` | `trim`, `split`, `startsWith`, `endsWith`, `includes`. |
| `Vapi` | The platform's call, artifact and message shapes. |
| `WebhookReplies` | The HTTP replies. |
| `Recency` | `ORDER BY created_at DESC LIMIT n`. |

How the model represents the source:

- **Absent values.** `None` stands for both `null` and `undefined`.
- **Timestamps** are integer milliseconds, the value `Date.getTime` gives. The ISO text is kept
  only for the truthiness test. Under that reading, `Math.round(d / 1000)` is exactly
  `(d + 500) / 1000` with floor division.
- **Database clock and ids.** `NOW()` is a counter in the store that advances on every write.
  The store's generated row id is a second counter.
- **Experiment id.** The database generates it in the source. Here it is a parameter.
- **Vapi initiation results** are an input sequence, one per topic.
- **Sleeps** are recorded in a trace of `Send`/`Sleep` steps.

The report's own `durationSeconds` is never read: the duration always comes from the two
timestamps (src/server/webhooks.ts:62, 91; dist/server/webhooks.js:49, 74).

## Model

| member | source | states |
|---|---|---|
| JsonValue.StoredJson | src/db/queries.ts:133-137 | A JSON column (`messages`, `cost_breakdown`, `raw_payload`) is stored exactly when the value is present and truthy, and is then the value itself; otherwise it is NULL. |
| WebhooksSrc.ExtractVoiceInfo | src/server/webhooks.ts:12-18 | Voice provider and voice id are present iff the call has an assistant with a voice, and are then that voice's fields. |
| WebhooksSrc.ExtractModelInfo | src/server/webhooks.ts:23-29 | Model provider and model are present iff the call has an assistant with a model, and are then that model's fields. |
| WebhooksSrc.RoundToSeconds | src/server/webhooks.ts:38 | The result is the integer nearest to ms/1000, ties going up: `1000*s - 500 <= ms < 1000*s + 500`. |
| WebhooksSrc.CalculateDuration | src/server/webhooks.ts:34-39 | No duration iff either timestamp is missing or empty. Otherwise it is the rounded difference in seconds, with no clamp when the end precedes the start. |
| WebhooksSrc.RoundingExamples | src/server/webhooks.ts:38 | 1500 ms → 2, −1500 ms → −1, 90000 ms → 90, 1499 ms → 1, −1501 ms → −2, −500 ms → 0. |
| WebhooksSrc.ReportFillsOneAgent | src/server/webhooks.ts:59-85 | Agent A iff metadata `agentRole` is "A" or the call is an outbound phone call. The patch then carries exactly that agent's group (assistant id, voice and model) and leaves the other group empty. No prompt is set. |
| WebhooksSrc.ReportedAssistantId | src/server/webhooks.ts:74-80 | The agent's assistant id is `call.assistantId`, else the embedded assistant's id, else absent. |
| WebhooksSrc.MissingConfigGivesAbsentFields | src/server/webhooks.ts:12-29 | A missing assistant, voice or model gives absent provider, id and model fields, never an error. |
| WebhooksSrc.ReportStatusAndReason | src/server/webhooks.ts:87-88 | Status is always present: the call's status, else "ended". The ended reason prefers the call's over the message's. |
| WebhooksSrc.ReportArtifactFallback | src/server/webhooks.ts:94-96 | Transcript, messages and recording URL each take the top-level artifact's value when present (even an empty string), else the call artifact's value, independently of each other. |
| WebhooksSrc.ReportCarriedFields | src/server/webhooks.ts:56-104 | Covers the remaining patch fields. The Vapi call id is carried. Topic and experiment id are the metadata's values, absent without metadata or without the key. The duration is `calculateDuration` of the two timestamps, absent iff one is falsy. Start and end times are present iff their text is truthy, and are then their millisecond values. Cost and breakdown are carried. The raw payload is the whole message. |
| WebhooksSrc.NormaliseReport | src/server/webhooks.ts:45-104 | The patch built from a report. Its properties are stated by ReportFillsOneAgent, ReportedAssistantId, MissingConfigGivesAbsentFields, ReportStatusAndReason, ReportArtifactFallback and ReportCarriedFields. |
| WebhooksSrc.Route | src/server/webhooks.ts:125-143 | A save happens iff the body is an end-of-call report with a call. The saved patch is the normaliser's patch for that report, keyed by the call's id. Any other message type gets 200 "Event ignored". A malformed body or a report without a call gets 500 "Internal server error". |
| WebhooksSrc.HandleVapiWebhook | src/server/webhooks.ts:106-143 | Replies without a save leave the store unchanged. A failed save gives the 500 reply and changes nothing. A successful save upserts the patch and replies with the stored row's id, not the Vapi id. |
| WebhooksDist.NormaliserMatchesSrc | dist/server/webhooks.js:36-84 | The compiled normaliser builds the same patch as the TypeScript one for every report. |
| WebhooksDist.HandleStatusUpdate | dist/server/webhooks.js:103-110 | Replies 200 with the status echoed iff the message has a call. Without a call, reading `call.id` throws and the reply is the 500. |
| WebhooksDist.HandleAssistantRequest | dist/server/webhooks.js:115-145 | Returns `{assistantId}` when `ASSISTANT_B_ID` is set and non-empty. Otherwise it returns the fixed inline assistant: the fixed first message, openai/gpt-4o with the fixed system prompt, and 11labs voice 21m00Tcm4TlvDq8ikWAM. It is 500 when the message has no call. |
| WebhooksDist.NormaliseReport | dist/server/webhooks.js:36-84 | The compiled variant's patch. NormaliserMatchesSrc states it equals the TypeScript patch, so every normaliser lemma above applies to it. |
| WebhooksDist.Route | dist/server/webhooks.js:149-174 | A save happens iff the body is an end-of-call report with a call, and the saved patch is the normaliser's patch for it (equal to the TypeScript one). A status update is answered by handleStatusUpdate and an assistant request by handleAssistantRequest. Unknown types get 200 "Event received". A malformed body or a report without a call gets 500. |
| WebhooksDist.VariantsAgreeOnReports | dist/server/webhooks.js:149-174 | Both variants route malformed bodies and end-of-call reports identically and save in exactly the same cases. A status update or assistant request is answered by the compiled handler (status echo or assistant, or 500 without a call) but acknowledged as "Event ignored" by the TypeScript one. Other types get "Event received" vs "Event ignored". |
| WebhooksDist.HandleVapiWebhook | dist/server/webhooks.js:85-174 | Same store behaviour as the TypeScript handler. Status updates and assistant requests never write. A save failure is rethrown into the 500 reply. |
| CallQueries.UpsertKeys | src/db/queries.ts:82-163 | After `createCall` there is exactly one row per Vapi call id: the key set gains the patch's id. Rows under other keys are untouched. A conflict keeps the row id and `created_at`. An insert takes the new id. |
| CallQueries.UpsertWellFormed | src/db/queries.ts:82-163 | The upsert keeps the table keyed by call id, row ids unique and below the next id, and `created_at <= updated_at` below the clock. |
| CallQueries.InsertStoresParams | src/db/queries.ts:111-138 | An insert stores every parameter as given, absent as NULL; cost 0 and duration 0 are kept. The three JSON columns are stored only when truthy. Both timestamps are NOW(). |
| CallQueries.ConflictCoalesces | src/db/queries.ts:139-159 | On conflict each of the 19 SET columns takes the incoming value when it is non-NULL (truthy, for the three JSON columns) and keeps the stored value otherwise. Nothing stored is ever erased. |
| CallQueries.Upsert | src/db/queries.ts:82-163 | The table after `createCall`. Its properties are stated by UpsertKeys, UpsertWellFormed, InsertStoresParams, ConflictCoalesces, ConflictKeepsInsertOnly and UpsertIdempotent. |
| CallQueries.MergeColumns | src/db/queries.ts:139-159 | The `DO UPDATE SET` row. ConflictCoalesces, ConflictKeepsInsertOnly and MergeIdempotent state its properties. |
| CallQueries.Proposed | src/db/queries.ts:111-138 | The VALUES row. InsertStoresParams and MergeIntoProposed state its properties. |
| CallQueries.ConflictKeepsInsertOnly | src/db/queries.ts:139-159 | On conflict, experiment id, topic, both assistant ids and both prompts stay as stored, even when the patch supplies them. |
| CallQueries.UpsertIdempotent | src/db/queries.ts:139-160 | Applying the same patch twice gives the table that applying it once gives, except for `updated_at`. |
| CallQueries.MergeIdempotent | src/db/queries.ts:140-158 | Merging the same patch into a row twice equals merging it once. |
| CallQueries.MergeIntoProposed | src/db/queries.ts:111-158 | Merging a patch into the row it would have inserted changes nothing. |
| CallQueries.CallStore.CreateExperiment | src/db/queries.ts:61-68 | Stores the experiment with its name and the description (absent as NULL) at the current clock, and returns it. A duplicate id is a unique-violation error that leaves the store unchanged. |
| CallQueries.CallStore.CreateCall | src/db/queries.ts:82-163 | The table becomes the upsert of the patch at the current clock and next row id. The stored row for the patch's key is returned. The store invariant is kept. |
| CallQueries.NewestKeys | src/db/queries.ts:172-186 | Picks min(limit, matching rows) distinct keys, all in the filtered set, in non-increasing `created_at`. No left-out matching row is newer than a listed one. |
| CallQueries.ListCalls | src/db/queries.ts:172-186 | At most `limit` rows (default 100); fewer only when fewer match. Only rows of the experiment when the id is truthy. Each row at most once, newest first, and no left-out matching row is newer than a listed one. |
| CallQueries.ListedRows | src/db/queries.ts:172-186 | Keys chosen newest-first from the filtered table give rows that are stored, filtered, distinct and in the same order. |
| CallQueries.TopicsNoMoreThanRows | src/db/queries.ts:193 | `COUNT(DISTINCT topic)` never exceeds the number of rows counted. |
| CallQueries.GetCallStats | src/db/queries.ts:188-209 | `total_calls` counts the experiment-filtered rows, `completed_calls` those with status "ended", and `unique_topics` the distinct non-NULL topics among them. `completed_calls <= total_calls` and `unique_topics <= total_calls`. |
| Recency.NewestExists | src/db/queries.ts:177 | Every non-empty set of rows has a newest row, so `ORDER BY created_at DESC` has a first element. |
| Recency.RowsAt | src/db/queries.ts:172-186 | The rows listed under the chosen keys, one per key, in the keys' order. |
| Recency.NewestFirst | src/db/queries.ts:177-178 | Lists min(limit, \|keys\|) distinct keys in non-increasing `created_at`, and no left-out key is newer than a listed one. |
| HumanCallQueries.UpsertKeys | dist/db/queries.js:3-30 | `createHumanCall` keeps one row per Vapi call id. Rows under other keys are untouched. A conflict keeps `created_at`. |
| HumanCallQueries.InsertStoresParams | dist/db/queries.js:13-18 | An insert stores every field as given, absent as NULL, and the raw payload only when truthy. |
| HumanCallQueries.ConflictCoalesces | dist/db/queries.js:20-25 | On conflict, each of the five columns takes the incoming value when non-NULL and otherwise keeps the stored one. |
| HumanCallQueries.UpsertIdempotent | dist/db/queries.js:20-28 | The same patch twice equals it once, except for `updated_at`. |
| HumanCallQueries.Upsert | dist/db/queries.js:3-30 | The table after `createHumanCall`. UpsertKeys, InsertStoresParams, ConflictCoalesces and UpsertIdempotent state its properties. |
| HumanCallQueries.MergeColumns | dist/db/queries.js:20-26 | The `DO UPDATE SET` row. ConflictCoalesces states its properties. |
| HumanCallQueries.HumanCallStore.CreateHumanCall | dist/db/queries.js:3-30 | The table becomes the upsert at the current clock. The stored row is returned. The store invariant is kept. |
| HumanCallQueries.NewestKeys | dist/db/queries.js:37-43 | Picks min(limit, rows) distinct keys in non-increasing `created_at`. No left-out row is newer than a listed one. |
| HumanCallQueries.ListHumanCalls | dist/db/queries.js:37-43 | At most `limit` rows (default 100); fewer only when the table is smaller. Stored rows only, each call at most once, newest first, and no left-out row is newer than a listed one. |
| HumanCallQueries.ListedRows | dist/db/queries.js:37-43 | Distinct newest-first keys give distinct stored rows in the same order, with no left-out row newer. |
| HumanCallQueries.GetHumanCallStats | dist/db/queries.js:44-52 | `total_calls` counts all rows. `total_duration` is NULL iff no row has a duration. |
| HumanCallQueries.SumDurations | dist/db/queries.js:49 | `SUM(duration_seconds)` over the given rows. SumDurationsTakeOut, SumDurationsSameDurations and ZeroWithoutDurations state its properties. |
| HumanCallQueries.SumDurationsTakeOut | dist/db/queries.js:49 | `SUM(duration_seconds)` splits off any one row: NULL durations count as nothing, and summation order does not matter. |
| HumanCallQueries.SumDurationsSameDurations | dist/db/queries.js:49 | Two tables whose rows have the same durations have the same sum. |
| HumanCallQueries.ZeroWithoutDurations | dist/db/queries.js:49 | Rows without durations add nothing to the sum. |
| HumanCallQueries.DurationlessPatchKeepsStats | dist/db/queries.js:20-26 | Re-delivering a report without a duration for a known call leaves both statistics unchanged. |
| HumanCallQueries.InsertAddsDuration | dist/db/queries.js:13-19 | Inserting a call with a duration adds one to `total_calls` and that duration to `total_duration` (from NULL, it becomes that duration). |
| HumanCallQueries.InsertedRow | dist/db/queries.js:13-19 | An insert adds exactly the new key with the supplied duration and keeps every other row. |
| HumanCallQueries.AfterTotal | dist/db/queries.js:49 | Once some row has a duration, `total_duration` is the sum over all rows. |
| HumanCallQueries.BeforeTotal | dist/db/queries.js:49 | `total_duration`, with NULL read as 0, is the sum over all rows. |
| Orchestrator.LoadConfig | dist/orchestrator/index.js:6-20 | A configuration exists iff all four settings are set and non-empty, and then holds exactly those values. |
| Orchestrator.FilterByName | dist/orchestrator/index.js:179 | Keeps exactly the topics whose name equals the given one, and never more topics than given. FilterByNameAppend states that order and multiplicity are kept. |
| Orchestrator.FilterByNameAppend | dist/orchestrator/index.js:179 | Filtering distributes over concatenation, so it keeps the topics' order and multiplicity. |
| Orchestrator.SliceTo | dist/orchestrator/index.js:187 | `slice(0, end)`. SelectTopics states what it keeps for positive, zero and negative limits. |
| Orchestrator.SelectTopics | dist/orchestrator/index.js:177-188 | An error iff a non-empty `--topic` matches no topic. Otherwise the result is a prefix of the (filtered) list, and every element is a known topic with that name. A positive limit keeps the first min(limit, n). A missing limit, 0 or NaN keeps all. A negative limit drops that many from the end, as `slice` does. |
| Orchestrator.RequestMetadata | dist/orchestrator/index.js:44-51 | The metadata always carries `agentRole` "A", the topic, the experiment id and both prompts. It carries the topic's description iff the topic has one, and no other key. |
| Orchestrator.BuildRequest | dist/orchestrator/index.js:25-53 | The request uses phone A's number id and assistant A, calls phone B, and overrides the model with openai/gpt-4o using prompt A and first message A. Its metadata is the above. |
| Orchestrator.PreCreate | dist/orchestrator/index.js:71-78 | The pre-created row is keyed by the returned call id. It carries the experiment id, topic, both prompts and status "initiated", and nothing else. Both agent groups are empty but for the prompt. Ended reason, times, duration, transcript, messages, recording URL, cost, breakdown and payload are absent. |
| Orchestrator.InitiateCall | dist/orchestrator/index.js:24-85 | Returns a call id iff the request was accepted and the row write succeeded, and then it is the platform's id. An accepted call upserts the pre-create row. A rejected or unreachable call leaves the store unchanged. |
| Orchestrator.SuccessfulIdsAppend | dist/orchestrator/index.js:136-140 | One more outcome appends its id to the successful ids iff it succeeded. |
| Orchestrator.TallyAddsUp | dist/orchestrator/index.js:126-143 | After the loop, `total` is the number of topics and `successful + failed` equals it. `callIds` lists the successful ids in topic order, and its length is `successful`. |
| Orchestrator.Tally | dist/orchestrator/index.js:126-143 | The counters after the given outcomes. TallyAddsUp and TallyStep state its properties. |
| Orchestrator.TallyStep | dist/orchestrator/index.js:136-143 | One iteration increments `successful` and pushes the id, or increments `failed`. |
| Orchestrator.Requests | dist/orchestrator/index.js:133-136 | One request per selected topic, in order. |
| Orchestrator.TraceAlternates | dist/orchestrator/index.js:133-149 | For n topics the loop sends n requests and sleeps exactly n−1 times, alternating, with no sleep after the last call. A failed call does not stop the loop. |
| Orchestrator.RunTrace | dist/orchestrator/index.js:133-149 | The calls and sleeps of the loop. TraceAlternates and TraceStep state its properties. |
| Orchestrator.TraceStep | dist/orchestrator/index.js:144-148 | Iteration i adds a sleep before its request iff it is not the first. |
| Orchestrator.PreCreatedStep | dist/orchestrator/index.js:71-78 | Each pre-create adds its call with status "initiated" and leaves rows from before the batch untouched. A newly inserted row carries the experiment id and one of the batch's topics; an existing row keeps its own experiment id and topic (insert-only columns). |
| Orchestrator.PlaceCall | dist/orchestrator/index.js:134-148 | One iteration advances the counters and the trace by exactly one topic and keeps the pre-create invariant (status "initiated"; experiment id and a batch topic on new rows). |
| Orchestrator.PlaceCalls | dist/orchestrator/index.js:133-149 | After the loop, the results are the tally of all outcomes and the trace alternates requests and sleeps. Every successful id has a row with status "initiated". Each row the batch inserted carries the experiment id and one of the batch's topics. Rows from before the batch are unchanged, except that a reused id gets status "initiated" and keeps its experiment id and topic. |
| Orchestrator.RunExperiment | dist/orchestrator/index.js:95-162 | A dry run creates nothing, sends nothing and returns nothing. Otherwise it creates the experiment "Batch of n agent-on-agent calls", runs the loop with the given delay (10000 ms when none is given), and returns the tally. The calls table ends as the loop leaves it: new rows tagged with the experiment id and a batch topic. A failed experiment insert stops before any call. |
| Migrate.SplitStatements | dist/db/migrate.js:41-56 | The loop over the schema's lines returns exactly the statements of the line-by-line scan. |
| Migrate.Step | dist/db/migrate.js:45-55 | One iteration of the splitter loop. NoBoundaryInsideFunction and CommentSwallowsStatement state its properties. |
| Migrate.Scan | dist/db/migrate.js:44-56 | The splitter loop over all lines. StatementsWellShaped, InFunctionParity, TrailingTextDropped and StatementsAreLineRuns state its properties. |
| Migrate.StatementsWellShaped | dist/db/migrate.js:49-53 | Every emitted statement is non-empty, ends with ";" and does not start with "--" (StatementsAreLineRuns states that it is trimmed). |
| Migrate.InFunctionParity | dist/db/migrate.js:46-48 | Inside a function body iff an odd number of lines so far contain `$$`: once per line, however many `$$` it holds. |
| Migrate.NoBoundaryInsideFunction | dist/db/migrate.js:46-49 | While inside a function body no line ends a statement, and the text only accumulates. |
| Migrate.TrailingTextDropped | dist/db/migrate.js:44-56 | Lines after the last boundary add no statement: there is no flush after the loop. |
| Migrate.CommentSwallowsStatement | dist/db/migrate.js:49-55 | At a statement start, a `--` comment line followed by a line ending with ";" produces nothing. The statement disappears with the comment, and the buffer is reset. |
| Migrate.StatementsAreLineRuns | dist/db/migrate.js:44-52 | Statements come out in source order. Each is the trim of a contiguous, non-empty run of input lines joined with newlines, and the runs do not overlap. The pending text is the lines since the last boundary. |
| Text.Split | dist/db/migrate.js:44 | Splitting gives at least one part, and no part contains the separator. |
| Text.JoinSplit | dist/db/migrate.js:44 | Joining the parts of a split with the separator gives back the original text. |
| Text.TrimStartShape | dist/db/migrate.js:49-50 | Trimming the start drops only whitespace, and the result is a suffix starting with a non-blank character (or empty). |
| Text.TrimEndShape | dist/db/migrate.js:49-50 | Trimming the end drops only whitespace, and the result is a prefix ending with a non-blank character (or empty). |
| Text.TrimEndsAt | dist/db/migrate.js:49-50 | If the last non-blank character is at p, the trimmed text ends with it. |
| Text.NatToString | dist/orchestrator/index.js:121 | The decimal rendering of the topic count is non-empty, made of digits, without a leading zero, and its digits denote the count. |
| Pipeline.PreCreateThenReport | dist/orchestrator/index.js:71-78 | After the pre-create, the report for the same call gives a row that keeps the pre-create's id, `created_at`, topic, experiment id and both prompts. Its status is the report's, and its transcript and duration come from the report. Agent A's assistant id stays NULL because it is insert-only. |
| Pipeline.EchoedMetadataIsAgentA | dist/orchestrator/index.js:44-51 | If the platform echoes the orchestrator's metadata back, the report is classified as Agent A and carries that topic and experiment id. |
| Pipeline.ReportBeforePreCreate | src/db/queries.ts:139-159 | If the report arrives before the pre-create, the prompts are never stored, the status ends as "initiated", and the topic stays the report's. |

## Left out

- HTTP plumbing is not modelled: the Hono context, routing, CORS, logging, `c.req.json()` and `c.json`. The body arrives already parsed, and an unparsable one is `Malformed`.
- The database driver and connection (`src/db/client.ts`, `testConnection`) are not modelled. Tables are maps keyed by the unique column.
- The SQL text itself is not modelled.
- The schema's own constraints are not modelled: foreign keys, defaults and column types.
- Network calls are not modelled: the `fetch` to the Vapi API, and the per-statement `fetch` in the migration. The result of each initiation is an input: rejected (non-OK), unreachable (thrown) or accepted, with the row write failing or not.
- Sleeping and timers are recorded as `Sleep` steps in a trace rather than waited.
- `process.env` values are passed in as options. `process.exit` is not modelled; the model returns an error instead.
- `readFileSync` is not modelled: the schema text is a parameter.
- The migration's first attempt, which runs the whole schema as one statement, is not modelled; only the fallback splitter is.
- ISO-8601 parsing by `new Date(...)` and the NaN from invalid dates are not modelled. Timestamps carry their millisecond value.
- Floating-point values are opaque and not computed: `cost` and `toFixed(4)`.
- The SQL aggregates `AVG(duration_seconds)` and `SUM(cost)` are not computed.
- `JSON.stringify` of the JSON columns is not modelled. Values are stored as opaque JSON.
- Concurrency and the atomicity of `ON CONFLICT` are not modelled. All writes are sequential.
- Console output is not modelled: log lines, banners, `padEnd`.
- `getExperiment`, `listExperiments`, `getCallByVapiId` and `getHumanCallByVapiId` are not modelled. They are single-row or unfiltered reads with no logic of their own.
- The database-generated ids (`gen_random_uuid`, the generated row id) are not generated. The experiment id is a parameter, and the row id is a counter in the store.
- Orchestrator.BuildRequest: the request's `name` field (topic plus `Date.now()`) is not modelled, because it depends on the clock.
- Orchestrator.RunExperiment: the experiment name built from the current date is a parameter.
- The topic list and `getRandomTopics` are not modelled. Their bodies are not part of this model, and the latter is random; topics are a parameter.
- `MAX_CONCURRENT_CALLS` is not modelled, because the source declares it and never reads it.
- CallQueries.ListCalls: the limit is a natural number. A negative limit, which the database rejects, is not modelled.
- HumanCallQueries.ListHumanCalls: the limit is a natural number, for the same reason.
- Vapi: non-string metadata values are not modelled. Metadata is a map from strings to strings.
- Vapi: message types beyond the three handled ones are a single `Other` case.
- The compiled webhook handler and orchestrator import `createCall` and `createExperiment` from the compiled queries module (dist/server/webhooks.js:1, dist/orchestrator/index.js:3). That module as shipped exports only the human-call functions, though its declaration file dist/db/queries.d.ts:55, 58 declares both. The model binds both imports to the TypeScript call store (src/db/queries.ts:61-163), which the declarations describe.
