/**
 * The vLLM backend adapter: its state (engine parameters and an optional attached
 * engine) and its `generate` entry point. Whether the vLLM library could be imported
 * is the flag `vllmAvailable`; the fresh request id and the clock reading are inputs.
 */
module Adapter {
  import opened Wrappers
  import opened Schemas
  import opened Vllm
  import opened Prompt
  import opened Responses

  /** The keyword arguments `generate` passes to SamplingParams itself. */
  const ExplicitSamplingKeywords: set<string> := {"temperature", "top_p", "max_tokens"}

  /** Python truthiness of an optional integer: neither None nor 0. */
  predicate Truthy(m: Option<int>)
  {
    m.Some? && m.value != 0
  }

  /** `request.max_tokens or 1024`. */
  function EffectiveMaxTokens(maxTokens: Option<int>): (r: int)
    ensures Truthy(maxTokens) ==> r == maxTokens.value
    ensures !Truthy(maxTokens) ==> r == 1024
    ensures r != 0
  {
    match maxTokens
    case Some(n) => if n != 0 then n else 1024
    case None => 1024
  }

  /**
   * The sampling parameters for a request. Python refuses the call with a TypeError
   * when `**model_params` repeats a keyword already given explicitly.
   */
  function SamplingParamsFor(request: ChatCompletionRequest): (r: Result<SamplingParams, AdapterError>)
    ensures r.Failure? <==>
      "temperature" in request.modelParams || "top_p" in request.modelParams || "max_tokens" in request.modelParams
    ensures r.Failure? ==> r.error == DuplicateKeyword
    ensures r.Success? ==> r.value.temperature == request.temperature && r.value.topP == request.topP
    ensures r.Success? ==> r.value.maxTokens == EffectiveMaxTokens(request.maxTokens)
    ensures r.Success? ==> r.value.extra == request.modelParams
  {
    var repeated := request.modelParams.Keys * ExplicitSamplingKeywords;
    assert repeated == {} <==>
      !("temperature" in repeated || "top_p" in repeated || "max_tokens" in repeated);
    if repeated != {} then
      Failure(DuplicateKeyword)
    else
      Success(SamplingParams(request.temperature, request.topP, EffectiveMaxTokens(request.maxTokens), request.modelParams))
  }

  /** What a successful `generate` returns: one response, or a stream of them. */
  datatype Generated = Single(response: ChatCompletionResponse) | Streamed(stream: Stream)

  class VllmAdapter {
    var engineParams: map<string, ParamValue>
    var engine: Option<AsyncLLMEngine>

    /** Stores the engine parameters and leaves the adapter without an engine, whether or not vLLM is available. */
    constructor (engineParams: map<string, ParamValue>, vllmAvailable: bool)
      ensures this.engineParams == engineParams
      ensures engine == None
    {
      this.engineParams := engineParams;
      engine := None;
      if vllmAvailable {
        // the engine would be built from engineParams here; the adapter leaves it unset
      }
    }

    /** The flat prompt for a chat history. */
    method FormatPrompt(messages: seq<ChatMessage>) returns (prompt: string)
      ensures prompt == PromptOf(messages)
    {
      prompt := "";
      for i := 0 to |messages|
        invariant prompt == Lines(messages[..i])
      {
        assert messages[..i + 1][..i] == messages[..i];
        var msg := messages[i];
        prompt := prompt + (msg.role + ": " + msg.content + "\n");
      }
      assert messages[..|messages|] == messages;
      prompt := prompt + "assistant: ";
    }

    /**
     * Serves one request. `requestId` is the id `random_uuid` would draw and `created`
     * the clock reading stamped on the responses. `call` is the call made to the engine,
     * None when `generate` failed before reaching it.
     */
    method Generate(request: ChatCompletionRequest, vllmAvailable: bool, requestId: string, created: int)
      returns (result: Result<Generated, AdapterError>, call: Option<EngineCall>)
      ensures !vllmAvailable ==> result == Failure(Unavailable) && call == None
      ensures vllmAvailable && engine == None ==> result == Failure(NotInitialized) && call == None
      ensures vllmAvailable && engine != None && SamplingParamsFor(request).Failure? ==>
        result == Failure(DuplicateKeyword) && call == None
      ensures vllmAvailable && engine != None && SamplingParamsFor(request).Success? ==>
        call == Some(EngineCall(PromptOf(request.messages), SamplingParamsFor(request).value, requestId))
      ensures call != None && request.stream ==>
        result == Success(Streamed(StreamResults(engine.value.generate(call.value), request, created)))
      ensures call != None && !request.stream ==>
        var outs := engine.value.generate(call.value);
        && (|outs| == 0 ==> result == Failure(MissingOutput))
        && (|outs| > 0 && |outs[|outs| - 1].outputs| == 0 ==> result == Failure(NoCandidate))
        && (|outs| > 0 && |outs[|outs| - 1].outputs| > 0 ==>
              result == Success(Single(CreateResponse(outs[|outs| - 1], request, created))))
    {
      call := None;
      if !vllmAvailable {
        result := Failure(Unavailable);
        return;
      }
      if engine.None? {
        result := Failure(NotInitialized);
        return;
      }
      var samplingParams := SamplingParamsFor(request);
      if samplingParams.Failure? {
        result := Failure(samplingParams.error);
        return;
      }
      var prompt := FormatPrompt(request.messages);
      call := Some(EngineCall(prompt, samplingParams.value, requestId));
      var resultsGenerator := engine.value.generate(call.value);
      if request.stream {
        result := Success(Streamed(StreamResults(resultsGenerator, request, created)));
      } else {
        var finalOutput: Option<RequestOutput> := None;
        for i := 0 to |resultsGenerator|
          invariant i == 0 ==> finalOutput == None
          invariant i > 0 ==> finalOutput == Some(resultsGenerator[i - 1])
        {
          finalOutput := Some(resultsGenerator[i]);
        }
        if finalOutput.None? {
          result := Failure(MissingOutput);
        } else if |finalOutput.value.outputs| == 0 {
          result := Failure(NoCandidate);
        } else {
          result := Success(Single(CreateResponse(finalOutput.value, request, created)));
        }
      }
    }
  }
}
