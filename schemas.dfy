/**
 * The chat-completion schema the adapter consumes and produces: only the fields
 * that src/vllm_adapter/adapter.py reads or sets.
 */
module Schemas {
  import opened Wrappers

  /** A Python float (temperature, top_p); the adapter passes it through untouched. */
  type Float

  /** A value of `model_params`, forwarded to the engine as a keyword argument. */
  type ParamValue

  datatype ChatMessage = ChatMessage(role: string, content: string)

  datatype ChatCompletionRequest = ChatCompletionRequest(
    model: string,
    messages: seq<ChatMessage>,
    temperature: Float,
    topP: Float,
    maxTokens: Option<int>,
    stream: bool,
    modelParams: map<string, ParamValue>)

  /** `finishReason` is None while the engine has not yet finished the candidate. */
  datatype ChatCompletionResponseChoice = ChatCompletionResponseChoice(
    index: int,
    message: ChatMessage,
    finishReason: Option<string>)

  datatype ChatCompletionUsage = ChatCompletionUsage(
    promptTokens: int,
    completionTokens: int,
    totalTokens: int)

  datatype ChatCompletionResponse = ChatCompletionResponse(
    id: string,
    created: int,
    model: string,
    choices: seq<ChatCompletionResponseChoice>,
    usage: ChatCompletionUsage)
}
