# vLLM adapter, modelled in Dafny

This project models `vLLMAdapter`, the backend adapter in `src/vllm_adapter/adapter.py`.
The adapter turns a chat-completion request into a call to a vLLM `AsyncLLMEngine`. It
flattens the chat history into one prompt string and builds sampling parameters from the
request. It then maps the engine's output records back into chat-completion responses:
one response in the non-streaming mode, or one response per engine output in the
streaming mode.

Modules:

- `Wrappers`: `Option` and `Result`.
- `Schemas`: the chat schema records the adapter reads and writes: `ChatMessage`,
  `ChatCompletionRequest`, `ChatCompletionResponseChoice`, `ChatCompletionUsage` and
  `ChatCompletionResponse`.
- `Vllm`: the engine side as plain data: `SamplingParams`, `CompletionOutput`,
  `RequestOutput`, the arguments of one engine call (`EngineCall`), and the engine
  itself (`AsyncLLMEngine`). The engine is a function from a call to the finite sequence
  of outputs it yields.
- `Prompt`: the prompt format (`PromptOf`) and what is proved about it.
- `Responses`: `_create_response` (`CreateResponse`), `_stream_results`
  (`StreamResults`), and the adapter's error kinds.
- `Adapter`: the class `VllmAdapter`, with fields `engineParams` and `engine`, its
  constructor, `FormatPrompt` (a loop, as in the source) and `Generate`.

Inputs that come from outside the adapter become parameters:

- Whether `import vllm` succeeded is the flag `vllmAvailable`.
- The id `random_uuid()` draws is `requestId`.
- The `int(time.time())` reading is `created`.

Failures that the adapter's own code raises are `AdapterError` values, not preconditions:

- `Unavailable`: the `ImportError` raised when vLLM is absent.
- `NotInitialized`: the `ValueError` raised when no engine is attached.
- `DuplicateKeyword`: the `TypeError` Python raises when `**model_params` repeats
  `temperature`, `top_p` or `max_tokens`, which the call already passes explicitly.
- `MissingOutput`: the `AttributeError` on `None.outputs` when a non-streamed engine
  run yields nothing.
- `NoCandidate`: the `IndexError` on `outputs[0]` when an engine output holds no
  candidate.

In the streaming mode, a response without a candidate ends the stream with that error
after the responses already yielded (`Stream.raised`).

Two details follow the code closely:

- `max_tokens` falls back to 1024 through `request.max_tokens or 1024`. So an explicit
  `0` also becomes 1024, not only an absent value.
- `finish_reason` is `Option<string>`, because vLLM leaves it unset while a candidate
  is unfinished.

## Model

| member | source | states |
|---|---|---|
| `Adapter.VllmAdapter.constructor` | src/vllm_adapter/adapter.py:22-28 | the adapter keeps `engine_params` unchanged and has no engine attached, whatever the availability flag |
| `Adapter.VllmAdapter.FormatPrompt` | src/vllm_adapter/adapter.py:59-64 | the accumulated string is exactly `PromptOf(messages)`: every message's line in input order, then `"assistant: "` |
| `Adapter.VllmAdapter.Generate` | src/vllm_adapter/adapter.py:30-57 | with vLLM absent it fails with Unavailable even when an engine is attached; otherwise with no engine it fails with NotInitialized; a repeated sampling keyword fails with DuplicateKeyword; these three make no engine call. Otherwise the engine is called once with the flattened prompt, the request's sampling parameters and the drawn id. Streamed: the result is the stream mapped over the engine's outputs. Non-streamed: the result is the response for the last output, MissingOutput when there is none, and NoCandidate when the last output has no candidate |
| `Adapter.EffectiveMaxTokens` | src/vllm_adapter/adapter.py:41 | the request's `max_tokens` when it is truthy (set and non-zero), otherwise 1024; the result is never 0 |
| `Adapter.SamplingParamsFor` | src/vllm_adapter/adapter.py:38-43 | fails exactly when `model_params` holds one of `temperature`, `top_p`, `max_tokens`; otherwise passes temperature, top_p and `model_params` through unchanged, with the effective `max_tokens` |
| `Prompt.LinesAppend` | src/vllm_adapter/adapter.py:61-62 | flattening the concatenation of two histories is the concatenation of their flattenings |
| `Prompt.EmptyHistoryPrompt` | src/vllm_adapter/adapter.py:59-64 | the prompt for an empty history is exactly `"assistant: "` |
| `Prompt.PromptEndsWithCue` | src/vllm_adapter/adapter.py:63 | every prompt ends with `"assistant: "` |
| `Prompt.PromptLength` | src/vllm_adapter/adapter.py:60-63 | the prompt length is 11 plus the sum of `len(role) + len(content) + 3` over the messages |
| `Prompt.PromptSplitsAt` | src/vllm_adapter/adapter.py:61-63 | for each message, the prompt is the lines before it, then its own `role: content\n` line, then the lines after it, then the cue |
| `Prompt.MessageLineOccurs` | src/vllm_adapter/adapter.py:62 | each message's line, and its `role: content` text followed by a newline, occurs in the prompt at that message's offset |
| `Prompt.LinesInOrder` | src/vllm_adapter/adapter.py:61-62 | the line of an earlier message ends, whole, no later than the start of a later message's line, so no line is reordered or dropped |
| `Prompt.ConversationScenario` | tests/test_vllm_adapter.py:12-23 | the three-message test history flattens to exactly `"user: Hello\nassistant: Hi\nuser: How are you?\nassistant: "` |
| `Prompt.FlatteningIsAmbiguous` | src/vllm_adapter/adapter.py:62 | nothing is escaped: one message whose content holds `"\nuser: "` gives the same prompt as two messages |
| `Responses.CreateResponse` | src/vllm_adapter/adapter.py:70-89 | one choice at index 0 with role `"assistant"`, the first candidate's text and finish reason, the output's request id, the request's model and the given timestamp; prompt tokens count the prompt token ids, completion tokens count the first candidate's token ids, and the total is their sum, all non-negative |
| `Responses.CreateResponseIgnoresLaterCandidates` | src/vllm_adapter/adapter.py:71-81 | two outputs that agree on request id, prompt token ids and first candidate give the same response, so later candidates are dropped |
| `Responses.StreamResults` | src/vllm_adapter/adapter.py:66-68 | the k-th yielded response is `CreateResponse` of the k-th engine output, in order; the stream yields one response per output, or stops with NoCandidate exactly at the first output without a candidate |
| `Responses.StreamOfCandidates` | src/vllm_adapter/adapter.py:66-68 | when every output has a candidate, the stream ends normally with as many responses as outputs |
| `Responses.StreamItemsWellFormed` | src/vllm_adapter/adapter.py:67-68 | every streamed response has one assistant choice at index 0 and consistent usage |
| `Responses.StreamEndsWithFinal` | src/vllm_adapter/adapter.py:50-57 | for a complete non-empty stream, the last streamed response equals the response the non-streamed mode builds from the final output |

## Left out

- The `async`/`await` machinery and the single-consumption, forward-only nature of the
  async generators: the engine's output stream is a finite sequence, and a streamed
  result is the sequence of responses it yields.
- The `try`/`except` import of `vllm`: it is the boolean `vllmAvailable`, which the
  caller supplies.
- `SamplingParams` construction inside vLLM: validation of values and of unknown keyword
  names is vLLM's. The model keeps temperature, top_p, the effective `max_tokens` and
  `model_params` as a record.
- Errors raised inside the engine: they propagate unchanged, and the engine is modelled
  as a total function.
- `random_uuid()` and `time.time()`: they are the inputs `requestId` and `created`.
- Responses.CreateResponse: the source reads the clock in every `_create_response`
  call. The model stamps all responses of one `generate` call with the same `created`.
- Floats: `temperature` and `top_p` are an opaque type, only passed through.
- The `AbstractBackend` base class and the `api_wrapper.schemas.chat` classes are not
  part of this model. The schema records carry only the fields the adapter uses.
- Building an `AsyncLLMEngine` from `engine_params` is commented out in the source. An
  engine is attached by assigning the public `engine` field, as Python allows.
