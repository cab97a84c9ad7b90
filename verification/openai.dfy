/**
 The `chat` call: the caller's request is merged over fixed generation
 defaults, then sent to the chat-completion endpoint under a retry policy
 that retries only rate-limit failures, at most five times, with a doubling
 wait before each retry.

 The network is an oracle: `server(a)` is the outcome of attempt `a`. An
 attempt carries the request exactly as sent, its timeout and its 1-based
 attempt number, so the outcome may depend on all three.
 */
module OpenAI {
  import opened Wrappers

  /** One chat message: a role ("system", "user", ...) and its text. */
  datatype Message = Message(role: string, content: string)

  /** The value of one request field. */
  datatype Field =
    | Text(text: string)
    | Number(number: real)
    | Messages(messages: seq<Message>)

  /** A request object: field name to value. */
  type Request = map<string, Field>

  /** The generation parameters `chat` fills in when the caller leaves them out. */
  const Defaults: Request := map[
    "temperature" := Number(0.2),
    "max_tokens" := Number(500.0),
    "top_p" := Number(1.0),
    "frequency_penalty" := Number(0.0),
    "presence_penalty" := Number(0.0)
  ]

  /** `Object.assign(defaults, request)`: every field of the request wins over a default. */
  function WithDefaults(request: Request): (merged: Request)
    ensures merged.Keys == Defaults.Keys + request.Keys
    ensures forall k :: k in request ==> merged[k] == request[k]
    ensures forall k :: k in Defaults && k !in request ==> merged[k] == Defaults[k]
  {
    Defaults + request
  }

  /** Merging the defaults a second time changes nothing. */
  lemma WithDefaultsIdempotent(request: Request)
    ensures WithDefaults(WithDefaults(request)) == WithDefaults(request)
  {
  }

  datatype Choice = Choice(message: Message)

  /** A successful completion response. */
  datatype Completion = Completion(choices: seq<Choice>)

  /** The HTTP response attached to a failure, when there was one. */
  datatype HttpResponse = HttpResponse(status: int)

  /** A failed attempt: the error's message and its `response`, absent for network errors. */
  datatype CallError = CallError(message: string, response: Option<HttpResponse>)

  datatype CallOutcome = Succeeded(completion: Completion) | Failed(error: CallError)

  const RateLimitStatus := 429
  /** Retries after the first attempt. */
  const Retries := 5
  const MaxAttempts := Retries + 1
  const BaseDelayMs := 500
  const AttemptTimeoutMs := 90000

  /** The retry predicate: only a response with status 429 is worth retrying. */
  predicate ShouldRetry(err: CallError) {
    err.response.Some? && err.response.value.status == RateLimitStatus
  }

  /** A failure the retry predicate accepts. */
  predicate Retryable(outcome: CallOutcome) {
    outcome.Failed? && ShouldRetry(outcome.error)
  }

  function Pow2(k: nat): (p: nat)
    ensures p >= 1
  {
    if k == 0 then 1 else 2 * Pow2(k - 1)
  }

  /** The wait the failure hook takes after failed attempt `attemptNumber`. */
  function BackoffMs(attemptNumber: nat): nat
    requires attemptNumber >= 1
  {
    BaseDelayMs * Pow2(attemptNumber - 1)
  }

  /** The first wait is the base delay and each later one doubles the one before. */
  lemma BackoffDoubles(attemptNumber: nat)
    requires attemptNumber >= 1
    ensures BackoffMs(1) == BaseDelayMs
    ensures BackoffMs(attemptNumber + 1) == 2 * BackoffMs(attemptNumber)
    ensures BackoffMs(attemptNumber) < BackoffMs(attemptNumber + 1)
  {
  }

  /** The five waits the policy can take, in order. */
  lemma BackoffSchedule()
    ensures [BackoffMs(1), BackoffMs(2), BackoffMs(3), BackoffMs(4), BackoffMs(5)]
         == [500, 1000, 2000, 4000, 8000]
  {
  }

  /** What is handed to the endpoint on one attempt. */
  datatype Attempt = Attempt(request: Request, timeoutMs: nat, number: nat)

  /** The attempts made in order, the waits taken between them, and the final outcome. */
  datatype ChatRun = ChatRun(outcome: CallOutcome, attempts: seq<Attempt>, waits: seq<nat>)

  /**
   The retry loop from attempt `n` on. An attempt that fails retryably while
   retries remain is followed by a wait and the next attempt; any other
   outcome ends the loop and is returned as it came back.
   */
  function RetryFrom(request: Request, server: Attempt -> CallOutcome, n: nat): (run: ChatRun)
    requires 1 <= n <= MaxAttempts
    ensures 1 <= |run.attempts| <= MaxAttempts - n + 1
    ensures forall i :: 0 <= i < |run.attempts| ==>
              run.attempts[i] == Attempt(request, AttemptTimeoutMs, n + i)
    ensures run.outcome == server(run.attempts[|run.attempts| - 1])
    ensures forall i :: 0 <= i < |run.attempts| - 1 ==> Retryable(server(run.attempts[i]))
    ensures Retryable(run.outcome) ==> n + |run.attempts| - 1 == MaxAttempts
    ensures |run.waits| == |run.attempts| - 1
    ensures forall i :: 0 <= i < |run.waits| ==> run.waits[i] == BackoffMs(n + i)
    decreases MaxAttempts - n
  {
    var attempt := Attempt(request, AttemptTimeoutMs, n);
    var outcome := server(attempt);
    if Retryable(outcome) && n <= Retries then
      var rest := RetryFrom(request, server, n + 1);
      ChatRun(rest.outcome, [attempt] + rest.attempts, [BackoffMs(n)] + rest.waits)
    else
      ChatRun(outcome, [attempt], [])
  }

  /**
   `chat(client, request)`: every attempt sends the merged request with the
   90-second timeout; the run ends at the first outcome that is not a
   retryable failure, or after the sixth attempt; the result is the last
   attempt's outcome, unmodified.
   */
  function Chat(request: Request, server: Attempt -> CallOutcome): (run: ChatRun)
    ensures 1 <= |run.attempts| <= MaxAttempts
    ensures forall i :: 0 <= i < |run.attempts| ==>
              run.attempts[i] == Attempt(WithDefaults(request), AttemptTimeoutMs, i + 1)
    ensures run.outcome == server(run.attempts[|run.attempts| - 1])
    ensures forall i :: 0 <= i < |run.attempts| - 1 ==> Retryable(server(run.attempts[i]))
    ensures Retryable(run.outcome) ==> |run.attempts| == MaxAttempts
    ensures |run.waits| == |run.attempts| - 1
    ensures forall i :: 0 <= i < |run.waits| ==> run.waits[i] == BackoffMs(i + 1)
  {
    RetryFrom(WithDefaults(request), server, 1)
  }

  /** The attempt with number `n` for the merged request. */
  function AttemptOf(request: Request, n: nat): Attempt {
    Attempt(WithDefaults(request), AttemptTimeoutMs, n)
  }

  /**
   If attempts `n` to `k - 1` fail retryably and attempt `k` is the first that
   does not (or is the last one allowed), the loop from `n` makes exactly the
   attempts `n` to `k` and returns what attempt `k` returned.
   */
  lemma {:induction false} RetryFromStops(request: Request, server: Attempt -> CallOutcome, n: nat, k: nat)
    requires 1 <= n <= k <= MaxAttempts
    requires forall j :: n <= j < k ==> Retryable(server(AttemptOf(request, j)))
    requires k == MaxAttempts || !Retryable(server(AttemptOf(request, k)))
    ensures |RetryFrom(WithDefaults(request), server, n).attempts| == k - n + 1
    ensures RetryFrom(WithDefaults(request), server, n).outcome == server(AttemptOf(request, k))
    decreases k - n
  {
    if n < k {
      assert Retryable(server(AttemptOf(request, n)));
      RetryFromStops(request, server, n + 1, k);
    }
  }

  /**
   The number of attempts is fixed by the outcomes: `chat` stops at the first
   attempt `k` that succeeds or fails terminally (or at the sixth), takes
   `k - 1` waits, and returns attempt `k`'s outcome.
   */
  lemma ChatStopsAt(request: Request, server: Attempt -> CallOutcome, k: nat)
    requires 1 <= k <= MaxAttempts
    requires forall j :: 1 <= j < k ==> Retryable(server(AttemptOf(request, j)))
    requires k == MaxAttempts || !Retryable(server(AttemptOf(request, k)))
    ensures |Chat(request, server).attempts| == k
    ensures |Chat(request, server).waits| == k - 1
    ensures Chat(request, server).outcome == server(AttemptOf(request, k))
  {
    RetryFromStops(request, server, 1, k);
  }

  /** A failure that is not a 429, including one with no response at all, is never retried. */
  lemma TerminalFailureNotRetried(request: Request, server: Attempt -> CallOutcome)
    requires server(AttemptOf(request, 1)).Failed?
    requires !ShouldRetry(server(AttemptOf(request, 1)).error)
    ensures Chat(request, server).attempts == [AttemptOf(request, 1)]
    ensures Chat(request, server).waits == []
    ensures Chat(request, server).outcome == server(AttemptOf(request, 1))
  {
  }

  /** When every attempt is rate limited, six attempts are made with all five waits, and the sixth failure is returned. */
  lemma RetriesExhausted(request: Request, server: Attempt -> CallOutcome)
    requires forall j :: 1 <= j <= MaxAttempts ==> Retryable(server(AttemptOf(request, j)))
    ensures |Chat(request, server).attempts| == MaxAttempts
    ensures Chat(request, server).waits == [500, 1000, 2000, 4000, 8000]
    ensures Chat(request, server).outcome == server(AttemptOf(request, MaxAttempts))
  {
    ChatStopsAt(request, server, MaxAttempts);
    BackoffSchedule();
    var w := Chat(request, server).waits;
    assert w[0] == BackoffMs(1) && w[1] == BackoffMs(2) && w[2] == BackoffMs(3);
    assert w[3] == BackoffMs(4) && w[4] == BackoffMs(5);
  }

  /** The waits of any run start at the base delay, and each doubles, so strictly exceeds, the one before. */
  lemma WaitsDouble(request: Request, server: Attempt -> CallOutcome)
    ensures var w := Chat(request, server).waits;
      && (|w| > 0 ==> w[0] == BaseDelayMs)
      && forall i :: 0 <= i < |w| - 1 ==> w[i + 1] == 2 * w[i] && w[i] < w[i + 1]
  {
  }

  /** A rate-limit failure. */
  const RateLimitError := CallError("Rate limit reached", Some(HttpResponse(RateLimitStatus)))

  /** An endpoint that rate limits the first three attempts and answers `reply` from the fourth on. */
  function RateLimitedThrice(reply: Completion): Attempt -> CallOutcome {
    (a: Attempt) => if a.number <= 3 then Failed(RateLimitError) else Succeeded(reply)
  }

  /** Three rate-limit failures then a success: the success is returned after three waits. */
  lemma RateLimitedThenSucceeds(request: Request, reply: Completion)
    ensures Chat(request, RateLimitedThrice(reply)).outcome == Succeeded(reply)
    ensures |Chat(request, RateLimitedThrice(reply)).attempts| == 4
    ensures Chat(request, RateLimitedThrice(reply)).waits == [500, 1000, 2000]
  {
  }
}
