# openai-batch core, modelled in Dafny

openai-batch reads a CSV file of chat-completion requests, one per row with
`system` and `user` columns. It sends each row to the OpenAI chat endpoint and
writes the row back out with an `assistant` column holding the reply, or the
error text when the row could not be answered. This project models the decision
logic of that tool as pure functions:

- `OpenAI` (`src/openai.js`, `chat`). The caller's request is merged over the
  generation defaults. The retry policy retries only HTTP 429 failures, at most
  five times. It waits `500 * 2^(n-1)` ms after failed attempt `n`. The network
  is an oracle `server: Attempt -> CallOutcome`. An `Attempt` records the
  request as sent, its 90000 ms timeout and its attempt number. `Chat` returns
  the attempts made, the waits taken and the final outcome.
- `RecordStep` (`src/index.js:91-121`, the per-record function). It validates
  `system` and then `user`, builds the two-message request and maps the outcome
  to the `assistant` text. The record comes back with `assistant` set (or
  replaced). The chat call is a parameter `call: Request -> CallOutcome`. The
  result carries `sent`, the request handed to the call, which is `None` when
  validation failed.
- `Batch` connects the two. It feeds every record through the step with the
  retrying `Chat` call. The outputs are described only up to reordering: an
  emission is any sequence with the same multiset as the outputs in input
  order. This matches the tool's warning that output order may differ from
  input order.
- `Wrappers` holds `Option` and `Result`.

Validation failures and call failures end up in the same `assistant` field, as
the code does. Messages come from the assertions (`"system" field is missing or
empty`, `"user" field is missing or empty`) or from the error's `message`.

## Model

| member | source | states |
|---|---|---|
| `OpenAI.WithDefaults` | src/openai.js:19-25 | the merged request has the default keys plus the caller's keys; every caller field wins, including one that overrides a default; a default fills in only when the caller left that key out |
| `OpenAI.WithDefaultsIdempotent` | src/openai.js:19-25 | merging the defaults into an already merged request changes nothing |
| `OpenAI.ShouldRetry` | src/openai.js:37-39 | defined as: a failure is retried iff it carries a response and that response's status is 429; a failure without a response is terminal |
| `OpenAI.BackoffMs` | src/openai.js:34 | defined as the wait after failed attempt `n`: 500 * 2^(n-1) ms, for 1-based `n` |
| `OpenAI.BackoffDoubles` | src/openai.js:33-36 | the wait after attempt 1 is 500 ms and every later wait is exactly twice, so strictly more than, the one before |
| `OpenAI.BackoffSchedule` | src/openai.js:30-34 | the five waits taken before a retry are 500, 1000, 2000, 4000 and 8000 ms |
| `OpenAI.RetryFrom` | src/openai.js:27-40 | from attempt `n`, the attempts are numbered consecutively and all carry the same request and the 90000 ms timeout; every attempt but the last failed with a 429; the loop stops early only on a success or a non-429 failure; the outcome is the last attempt's, unmodified; one wait of `500 * 2^(m-1)` precedes each retry after attempt `m` (after six rate-limit failures the model returns the sixth; p-retry's own choice among the failures is not modelled) |
| `OpenAI.Chat` | src/openai.js:18-43 | at least one and at most six attempts are made, each sending the merged request with a 90000 ms timeout; all but the last failed retryably; a retryable last outcome means all six were used; the waits are 500 * 2^i, one fewer than the attempts; the outcome returned is the last attempt's (on exhaustion, p-retry's own choice among the failures is not modelled) |
| `OpenAI.RetryFromStops` | src/openai.js:27-40 | if attempts `n`..`k-1` are rate limited and attempt `k` is not (or is the sixth), the loop from `n` makes exactly `k-n+1` attempts and returns attempt `k`'s outcome (when `k` is the sixth and rate limited, p-retry's own choice among the failures is not modelled) |
| `OpenAI.ChatStopsAt` | src/openai.js:27-42 | the attempt count is fixed by the outcomes: `chat` stops at the first success or terminal failure, or at the sixth attempt; it takes one wait fewer than attempts and returns that attempt's outcome, so the first success comes back unmodified (after six rate-limit failures the model returns the sixth; p-retry's own choice is not modelled) |
| `OpenAI.TerminalFailureNotRetried` | src/openai.js:37-39 | a first failure that is not a 429, including one without any response, gives exactly one attempt, no wait, and that failure as the result |
| `OpenAI.RetriesExhausted` | src/openai.js:30-36 | when every attempt is rate limited there are six attempts and, before the retries, waits of 500, 1000, 2000, 4000 and 8000 ms, and the model returns the sixth failure (p-retry's own choice among the failures is not modelled) |
| `OpenAI.WaitsDouble` | src/openai.js:34 | in every run the first wait is 500 ms and each wait doubles, so strictly exceeds, the previous one |
| `OpenAI.RateLimitedThenSucceeds` | src/openai.js:27-42 | three rate-limit failures then a success: four attempts, waits 500, 1000 and 2000 ms, and the success is returned |
| `RecordStep.Validate` | src/index.js:96-97 | validation succeeds iff both `system` and `user` are present and non-empty; a missing or empty `system` gives the system message whatever `user` holds; otherwise a missing or empty `user` gives the user message; success yields the record's request |
| `RecordStep.RequestFor` | src/index.js:98-110 | defined as the request of a valid record: the configured model and the messages `system` then `user`, carrying the record's two fields |
| `RecordStep.AssistantText` | src/index.js:111-113 | defined as the `assistant` text of an outcome: the first choice's message content on success, the runtime's TypeError text when there is no choice, the error's message on failure |
| `RecordStep.ProcessRecord` | src/index.js:91-121 | the output's columns are the input's plus `assistant`; every other column is copied unchanged; a request is sent iff the record is valid, and it is the model plus the system and user messages; on a valid record `assistant` is the text of the call's outcome; on an invalid one it is the message for `system` if that is missing, else the one for `user` |
| `RecordStep.ValidRecordRequest` | src/index.js:98-110 | the request of a valid record has exactly the fields `model` and `messages`: the configured model, then two messages, `system` with the record's system text and then `user` with its user text |
| `RecordStep.RecordRequestDefaults` | src/index.js:98-110 | once merged, a record's request has temperature 0.2, max_tokens 500, top_p 1 and both penalties 0, next to its own model and messages |
| `RecordStep.SuccessSetsFirstChoice` | src/index.js:111 | on a successful call `assistant` is the content of the first choice's message |
| `RecordStep.FailureSetsErrorMessage` | src/index.js:112-114 | on a failed call `assistant` is the error's message, and a record is still returned |
| `RecordStep.InvalidRecordMakesNoCall` | src/index.js:95-98 | for an invalid record no request is sent and the result is the same for any call function, so the call is never consulted |
| `RecordStep.OnlySentRequestMatters` | src/index.js:98-111 | for a valid record the result depends on the call only through its answer to the record's own request |
| `RecordStep.AssistantColumnCount` | src/index.js:120 | the output has one column more than the input, or the same number when the input already had `assistant`, which is then replaced rather than duplicated |
| `RecordStep.StripAssistantRoundTrip` | src/index.js:120 | removing `assistant` from the output gives the input without `assistant` |
| `Batch.ChatCall` | src/index.js:98-114 | defined as the retrying `chat` call as the step of the `i`-th dispatched record sees it: the final outcome of `OpenAI.Chat` on the step's request, where a resolve is `Succeeded` and a rejection is `Failed`; only that final outcome reaches the `catch` |
| `Batch.ProcessAll` | src/index.js:91-121 | defined as the per-record step applied to every input record, in input order, with that record's `ChatCall` |
| `Batch.IsEmission` | src/index.js:47-49 | defined as: the emitted records are the per-record outputs in input order, rearranged (equal as multisets), since output order follows completion order |
| `Batch.OneOutputPerInput` | src/index.js:91-121 | in any completion order there are exactly as many output records as input records |
| `Batch.EveryInputEmitted` | src/index.js:91-121 | the output of every input record appears among the emitted records, whether its call succeeded or failed |
| `Batch.EveryEmissionFromAnInput` | src/index.js:47-49 | every emitted record is the output of some input record, so it has that record's columns unchanged plus `assistant`, even though the order may differ |
| `Batch.RateLimitedRecordGetsAnswer` | src/index.js:98-111 | a valid record whose first three attempts are rate limited and whose fourth succeeds gets the reply's first choice as `assistant` |

## Left out

- Command-line parsing, the output file name, directory creation and console logging (`src/index.js:30-79`) are I/O and library calls.
- CSV decoding (`columns`, `trim`, `bom`) and encoding, and the stream pipeline, are library behaviour. Records enter the model already decoded as string maps.
- `T.withMaxConcurrency` is not part of this model, and neither is its bound on calls in flight. Its scheduling decides only the completion order, and the model leaves that order free: `Batch.IsEmission` admits every reordering.
- The `interval` sleep after each record is pure timing and does not change the output.
- The progress counter only feeds logging.
- p-retry's own timer (`minTimeout`, `randomize` jitter) and its handling of aborts and non-network `TypeError`s are library internals and are left out.
- `OpenAI.Chat`: the waits list holds only the waits taken before a retry. p-retry may also run the failure hook after a final failure, which would add a wait that no further attempt follows. That depends on the library's internal order of `shouldRetry` and `onFailedAttempt`.
- `OpenAI.Chat`: when all six attempts are rate limited, the model returns the sixth failure. p-retry instead rejects with the `retry` package's `mainError()`, the error whose message occurred most often, with ties going to the later one. The model does not choose among the failures that way.
- `OpenAI.RetriesExhausted`: states that the sixth failure is returned. p-retry's `mainError()` choice is not modelled, as for `OpenAI.Chat` above. If the failure hook also runs after the sixth failure, it waits a further 500 * 2^5 = 16000 ms before the rejection. That wait is not in the list.
- `OpenAI.ChatStopsAt`: when the sixth attempt is also rate limited, it states that the sixth failure is returned. p-retry's `mainError()` choice is not modelled, as for `OpenAI.Chat` above.
- `OpenAI.RetryFrom`: when the sixth attempt is rate limited the model returns that failure. p-retry's `mainError()` choice is not modelled, as for `OpenAI.Chat` above.
- `OpenAI.RetryFromStops`: the same limitation as `OpenAI.ChatStopsAt`, when `k` is the sixth attempt and it is rate limited.
- `OpenAI.ShouldRetry` reads the status from the error's `response` field, exactly as the code does. Which shape the client library's errors really have is outside this model.
- Client construction, dotenv and the API key (`src/openai.js:1-16`) are environment wrappers.
- `RecordStep.AssistantText`: a message whose `content` is `null` is not modelled, so content is always a string. For a response with no choices, the TypeError text is the JavaScript runtime's wording, recorded as the constant `MissingChoice`.
- An error thrown without a `message` is not modelled: every `CallError` carries a message string.
