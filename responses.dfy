/**
 * How the adapter turns engine outputs into chat-completion responses:
 * `_create_response` for one output and `_stream_results` for a whole stream.
 */
module Responses {
  import opened Wrappers
  import opened Schemas
  import opened Vllm

  /** The ways a `generate` call fails in the adapter itself. */
  datatype AdapterError =
    | Unavailable      // ImportError: the vLLM library could not be imported
    | NotInitialized   // ValueError: no engine is attached to the adapter
    | DuplicateKeyword // TypeError: `model_params` repeats temperature, top_p or max_tokens
    | MissingOutput    // AttributeError: the engine yielded nothing, so the final output is None
    | NoCandidate      // IndexError: an engine output holds no candidate completion

  /** The responses a streamed call yields, and the error it then raises, if any. */
  datatype Stream = Stream(items: seq<ChatCompletionResponse>, raised: Option<AdapterError>)

  /** Usage counts are non-negative and the total is their sum. */
  predicate UsageConsistent(u: ChatCompletionUsage)
  {
    0 <= u.promptTokens && 0 <= u.completionTokens && u.totalTokens == u.promptTokens + u.completionTokens
  }

  /** The shape every adapter response has: one assistant choice at index 0 and consistent usage. */
  predicate WellFormed(r: ChatCompletionResponse)
  {
    && |r.choices| == 1
    && r.choices[0].index == 0
    && r.choices[0].message.role == "assistant"
    && UsageConsistent(r.usage)
  }

  /** The response for one engine output, stamped with the time `created`. */
  function CreateResponse(o: RequestOutput, request: ChatCompletionRequest, created: int): (r: ChatCompletionResponse)
    requires |o.outputs| > 0
    ensures WellFormed(r)
    ensures r.id == o.requestId && r.created == created && r.model == request.model
    ensures r.choices[0].message.content == o.outputs[0].text
    ensures r.choices[0].finishReason == o.outputs[0].finishReason
    ensures r.usage.promptTokens == |o.promptTokenIds|
    ensures r.usage.completionTokens == |o.outputs[0].tokenIds|
  {
    var first := o.outputs[0];
    var choice := ChatCompletionResponseChoice(0, ChatMessage("assistant", first.text), first.finishReason);
    var usage := ChatCompletionUsage(|o.promptTokenIds|, |first.tokenIds|, |o.promptTokenIds| + |first.tokenIds|);
    ChatCompletionResponse(o.requestId, created, request.model, [choice], usage)
  }

  /** Candidates after the first one have no influence on the response. */
  lemma CreateResponseIgnoresLaterCandidates(o: RequestOutput, o': RequestOutput, request: ChatCompletionRequest, created: int)
    requires |o.outputs| > 0 && |o'.outputs| > 0
    requires o.requestId == o'.requestId && o.promptTokenIds == o'.promptTokenIds
    requires o.outputs[0] == o'.outputs[0]
    ensures CreateResponse(o, request, created) == CreateResponse(o', request, created)
  {
  }

  /** Every output before index n has a candidate. */
  predicate AllHaveCandidates(outs: seq<RequestOutput>, n: int)
    requires n <= |outs|
  {
    forall k :: 0 <= k < n ==> |outs[k].outputs| > 0
  }

  /**
   * What iterating `_stream_results` over the engine's outputs gives: one response
   * per output, in order, until an output without a candidate raises IndexError.
   */
  function StreamResults(outs: seq<RequestOutput>, request: ChatCompletionRequest, created: int): (s: Stream)
    ensures |s.items| <= |outs|
    ensures AllHaveCandidates(outs, |s.items|)
    ensures forall k :: 0 <= k < |s.items| ==> s.items[k] == CreateResponse(outs[k], request, created)
    ensures s.raised == None ==> |s.items| == |outs|
    ensures s.raised != None ==> s.raised == Some(NoCandidate) && |s.items| < |outs| && |outs[|s.items|].outputs| == 0
    decreases |outs|
  {
    if outs == [] then Stream([], None)
    else if |outs[0].outputs| == 0 then Stream([], Some(NoCandidate))
    else
      var rest := StreamResults(outs[1..], request, created);
      Stream([CreateResponse(outs[0], request, created)] + rest.items, rest.raised)
  }

  /** When every output has a candidate the stream ends normally and yields exactly one response per output. */
  lemma StreamOfCandidates(outs: seq<RequestOutput>, request: ChatCompletionRequest, created: int)
    requires AllHaveCandidates(outs, |outs|)
    ensures StreamResults(outs, request, created).raised == None
    ensures |StreamResults(outs, request, created).items| == |outs|
  {
  }

  /** Every streamed response has the one-choice shape with consistent usage. */
  lemma StreamItemsWellFormed(outs: seq<RequestOutput>, request: ChatCompletionRequest, created: int, k: nat)
    requires k < |StreamResults(outs, request, created).items|
    ensures WellFormed(StreamResults(outs, request, created).items[k])
  {
  }

  /**
   * A complete stream's last response is the response the non-streamed call builds
   * from the final output.
   */
  lemma StreamEndsWithFinal(outs: seq<RequestOutput>, request: ChatCompletionRequest, created: int)
    requires |outs| > 0 && AllHaveCandidates(outs, |outs|)
    ensures var s := StreamResults(outs, request, created);
      |s.items| > 0 && s.items[|s.items| - 1] == CreateResponse(outs[|outs| - 1], request, created)
  {
  }
}
