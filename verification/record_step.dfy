/**
 The per-record step of the batch: validate the record's `system` and
 `user` fields, build the chat request from them, turn the call's success
 or failure into the text of an `assistant` field, and return the record
 with that field set. The step never throws: every failure ends up as text.

 The chat call itself is a parameter, `call`, mapping the request handed to
 `chat` to its final outcome.
 */
module RecordStep {
  import opened Wrappers
  import opened OpenAI

  /** A record as the input decoder produces it: column name to value. */
  type Record = map<string, string>

  const SystemField := "system"
  const UserField := "user"
  const AssistantField := "assistant"

  const MissingSystem := "\"system\" field is missing or empty"
  const MissingUser := "\"user\" field is missing or empty"
  /** What the JavaScript runtime reports when `choices[0]` does not exist. */
  const MissingChoice := "Cannot read properties of undefined (reading 'message')"

  /** JavaScript truthiness of `rec[field]`: defined and not the empty string. */
  predicate Present(rec: Record, field: string) {
    field in rec && rec[field] != ""
  }

  predicate Valid(rec: Record) {
    Present(rec, SystemField) && Present(rec, UserField)
  }

  /** The request built for a valid record: the model and the system and user messages. */
  function RequestFor(rec: Record, model: string): Request
    requires Valid(rec)
  {
    map[
      "model" := Text(model),
      "messages" := Messages([Message("system", rec[SystemField]), Message("user", rec[UserField])])
    ]
  }

  /** The two assertions, `system` first, then the request. */
  function Validate(rec: Record, model: string): (v: Result<Request, string>)
    ensures v.Success? <==> Valid(rec)
    ensures !Present(rec, SystemField) ==> v == Failure(MissingSystem)
    ensures Present(rec, SystemField) && !Present(rec, UserField) ==> v == Failure(MissingUser)
    ensures v.Success? ==> v.value == RequestFor(rec, model)
  {
    if !Present(rec, SystemField) then Failure(MissingSystem)
    else if !Present(rec, UserField) then Failure(MissingUser)
    else Success(RequestFor(rec, model))
  }

  /** The `assistant` text for the final outcome of the call. */
  function AssistantText(outcome: CallOutcome): string {
    match outcome
    case Succeeded(completion) =>
      if |completion.choices| > 0 then completion.choices[0].message.content else MissingChoice
    case Failed(error) => error.message
  }

  /** The output record, and the request handed to `chat` if one was. */
  datatype Processed = Processed(record: Record, sent: Option<Request>)

  /**
   One record through the step. The output has the input's columns plus
   `assistant`; every other column is unchanged. A call is made exactly when
   both fields are present; otherwise `assistant` names the first missing one.
   */
  function ProcessRecord(rec: Record, model: string, call: Request -> CallOutcome): (p: Processed)
    ensures p.record.Keys == rec.Keys + {AssistantField}
    ensures forall k :: k in rec && k != AssistantField ==> p.record[k] == rec[k]
    ensures p.sent.Some? <==> Valid(rec)
    ensures p.sent.Some? ==> p.sent.value == RequestFor(rec, model)
    ensures p.sent.Some? ==> p.record[AssistantField] == AssistantText(call(p.sent.value))
    ensures !Present(rec, SystemField) ==> p.record[AssistantField] == MissingSystem
    ensures Present(rec, SystemField) && !Present(rec, UserField) ==> p.record[AssistantField] == MissingUser
  {
    var (assistant, sent) :=
      match Validate(rec, model)
      case Failure(message) => (message, None)
      case Success(request) => (AssistantText(call(request)), Some(request));
    Processed(rec[AssistantField := assistant], sent)
  }

  /** The request of a valid record has exactly the fields `model` and `messages`: system first, then user. */
  lemma ValidRecordRequest(rec: Record, model: string, call: Request -> CallOutcome)
    requires Valid(rec)
    ensures var req := ProcessRecord(rec, model, call).sent.value;
      && req.Keys == {"model", "messages"}
      && req["model"] == Text(model)
      && req["messages"].Messages?
      && |req["messages"].messages| == 2
      && req["messages"].messages[0] == Message("system", rec[SystemField])
      && req["messages"].messages[1] == Message("user", rec[UserField])
  {
  }

  /** After merging, the request of a valid record carries the five defaults next to its own two fields. */
  lemma RecordRequestDefaults(rec: Record, model: string)
    requires Valid(rec)
    ensures var merged := WithDefaults(RequestFor(rec, model));
      && merged.Keys == Defaults.Keys + {"model", "messages"}
      && merged["temperature"] == Number(0.2)
      && merged["max_tokens"] == Number(500.0)
      && merged["top_p"] == Number(1.0)
      && merged["frequency_penalty"] == Number(0.0)
      && merged["presence_penalty"] == Number(0.0)
      && merged["model"] == Text(model)
      && merged["messages"] == Messages([Message("system", rec[SystemField]), Message("user", rec[UserField])])
  {
  }

  /** A successful call sets `assistant` to the first choice's message content. */
  lemma SuccessSetsFirstChoice(rec: Record, model: string, call: Request -> CallOutcome)
    requires Valid(rec)
    requires call(RequestFor(rec, model)).Succeeded?
    requires |call(RequestFor(rec, model)).completion.choices| > 0
    ensures ProcessRecord(rec, model, call).record[AssistantField]
         == call(RequestFor(rec, model)).completion.choices[0].message.content
  {
  }

  /** A failed call sets `assistant` to the error's message; the step still returns the record. */
  lemma FailureSetsErrorMessage(rec: Record, model: string, call: Request -> CallOutcome)
    requires Valid(rec)
    requires call(RequestFor(rec, model)).Failed?
    ensures ProcessRecord(rec, model, call).record[AssistantField]
         == call(RequestFor(rec, model)).error.message
  {
  }

  /** An invalid record never reaches the call: its result is the same whatever the call would do. */
  lemma InvalidRecordMakesNoCall(rec: Record, model: string, call1: Request -> CallOutcome, call2: Request -> CallOutcome)
    requires !Valid(rec)
    ensures ProcessRecord(rec, model, call1) == ProcessRecord(rec, model, call2)
    ensures ProcessRecord(rec, model, call1).sent == None
  {
  }

  /** A valid record consults the call only at its own request. */
  lemma OnlySentRequestMatters(rec: Record, model: string, call1: Request -> CallOutcome, call2: Request -> CallOutcome)
    requires Valid(rec)
    requires call1(RequestFor(rec, model)) == call2(RequestFor(rec, model))
    ensures ProcessRecord(rec, model, call1) == ProcessRecord(rec, model, call2)
  {
  }

  /** An `assistant` column already in the input is replaced, not added a second time. */
  lemma AssistantColumnCount(rec: Record, model: string, call: Request -> CallOutcome)
    ensures |ProcessRecord(rec, model, call).record| == |rec| + (if AssistantField in rec then 0 else 1)
  {
  }

  /** Dropping `assistant` from the output gives back the input without `assistant`. */
  lemma StripAssistantRoundTrip(rec: Record, model: string, call: Request -> CallOutcome)
    ensures ProcessRecord(rec, model, call).record - {AssistantField} == rec - {AssistantField}
  {
  }
}
