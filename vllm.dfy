/**
 * The parts of the vLLM engine the adapter talks to, as plain data: the sampling
 * parameters it builds, the output records the engine yields, and the engine itself
 * as a function from one generation call to the finite sequence of outputs it yields.
 */
module Vllm {
  import opened Wrappers
  import opened Schemas

  datatype SamplingParams = SamplingParams(
    temperature: Float,
    topP: Float,
    maxTokens: int,
    extra: map<string, ParamValue>)

  /** One candidate completion of a request. */
  datatype CompletionOutput = CompletionOutput(
    text: string,
    tokenIds: seq<int>,
    finishReason: Option<string>)

  /** One (possibly partial) output of the engine for a request. */
  datatype RequestOutput = RequestOutput(
    requestId: string,
    promptTokenIds: seq<int>,
    outputs: seq<CompletionOutput>)

  /** The arguments of one `engine.generate(prompt, sampling_params, request_id)` call. */
  datatype EngineCall = EngineCall(
    prompt: string,
    params: SamplingParams,
    requestId: string)

  /** An attached engine: what it yields, in order, for each call. */
  datatype AsyncLLMEngine = AsyncLLMEngine(generate: EngineCall -> seq<RequestOutput>)
}
