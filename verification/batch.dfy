/**
 The batch: every input record goes through the per-record step with the
 retrying chat call, and the outputs come out in completion order. Which
 order that is depends on the scheduler and the network, so a batch's
 output is described only up to reordering: it is an emission when it is
 the same multiset as the outputs taken in input order.

 The network oracle takes the record's dispatch position as well as the
 attempt, so two records may be answered differently.
 */
module Batch {
  import opened OpenAI
  import opened RecordStep

  /** `server(i, a)`: the outcome of attempt `a` made for the `i`-th dispatched record. */
  type Server = (nat, Attempt) -> CallOutcome

  /** The retrying `chat` call, as the per-record step of record `i` sees it. */
  function ChatCall(server: Server, i: nat): Request -> CallOutcome {
    (request: Request) => Chat(request, (a: Attempt) => server(i, a)).outcome
  }

  /** The output of each record, in input order. */
  function ProcessAll(recs: seq<Record>, model: string, server: Server): seq<Record> {
    seq(|recs|, i requires 0 <= i < |recs| => ProcessRecord(recs[i], model, ChatCall(server, i)).record)
  }

  /** `emitted` is a completion order of the batch: the input-order outputs, rearranged. */
  predicate IsEmission(recs: seq<Record>, model: string, server: Server, emitted: seq<Record>) {
    multiset(emitted) == multiset(ProcessAll(recs, model, server))
  }

  /** Whatever the completion order, there are as many outputs as inputs. */
  lemma OneOutputPerInput(recs: seq<Record>, model: string, server: Server, emitted: seq<Record>)
    requires IsEmission(recs, model, server, emitted)
    ensures |emitted| == |recs|
  {
    assert |multiset(emitted)| == |multiset(ProcessAll(recs, model, server))|;
  }

  /** No input is dropped: the output of every input record is emitted. */
  lemma EveryInputEmitted(recs: seq<Record>, model: string, server: Server, emitted: seq<Record>)
    requires IsEmission(recs, model, server, emitted)
    ensures forall i :: 0 <= i < |recs| ==>
              ProcessRecord(recs[i], model, ChatCall(server, i)).record in emitted
  {
    var outs := ProcessAll(recs, model, server);
    forall i | 0 <= i < |recs|
      ensures ProcessRecord(recs[i], model, ChatCall(server, i)).record in emitted
    {
      assert outs[i] in multiset(outs);
    }
  }

  /**
   Nothing is invented: each emitted record is the output of some input,
   so it has that input's columns, unchanged, plus `assistant`.
   */
  lemma EveryEmissionFromAnInput(recs: seq<Record>, model: string, server: Server, emitted: seq<Record>)
    requires IsEmission(recs, model, server, emitted)
    ensures forall e :: e in emitted ==>
              exists i :: 0 <= i < |recs| && e == ProcessRecord(recs[i], model, ChatCall(server, i)).record
    ensures forall e :: e in emitted ==>
              exists i :: 0 <= i < |recs| && e.Keys == recs[i].Keys + {AssistantField}
                && forall k :: k in recs[i] && k != AssistantField ==> e[k] == recs[i][k]
  {
    var outs := ProcessAll(recs, model, server);
    forall e | e in emitted
      ensures exists i :: 0 <= i < |recs| && e == ProcessRecord(recs[i], model, ChatCall(server, i)).record
    {
      assert e in multiset(outs);
      var i :| 0 <= i < |outs| && outs[i] == e;
    }
  }

  /**
   End to end: a valid record whose first three attempts are rate limited
   and whose fourth answers gets the answer's first choice as `assistant`.
   */
  lemma RateLimitedRecordGetsAnswer(rec: Record, model: string, server: Server, i: nat, reply: Completion)
    requires Valid(rec)
    requires |reply.choices| > 0
    requires forall a :: server(i, a) == RateLimitedThrice(reply)(a)
    ensures ProcessRecord(rec, model, ChatCall(server, i)).record[AssistantField]
         == reply.choices[0].message.content
  {
    var request := RequestFor(rec, model);
    var oracle := (a: Attempt) => server(i, a);
    forall j | 1 <= j < 4
      ensures Retryable(oracle(AttemptOf(request, j)))
    {
      assert server(i, AttemptOf(request, j)) == RateLimitedThrice(reply)(AttemptOf(request, j));
    }
    assert oracle(AttemptOf(request, 4)) == RateLimitedThrice(reply)(AttemptOf(request, 4));
    ChatStopsAt(request, oracle, 4);
  }
}
