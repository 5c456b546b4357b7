# MassGen agent backends — a Dafny model

This project models the provider-adapter layer of MassGen (`massgen/v2/agent_backend.py`).
This layer sits between an agent and a language-model service. It covers:

- the `TokenUsage` accumulator that each backend owns;
- the `AgentBackend` members that reset the accumulator and report status;
- the OpenAI Response-API backend: how `stream_with_tools` turns a conversation, tools and
  configuration into request parameters, and how it translates the streamed events into
  `StreamChunk`s while charging tokens and cost to the accumulator;
- the two tool formatters, the token estimate of `ChatCompletionsBackend`, the suffix
  stripping and price lookup of `calculate_cost`, `get_provider_from_model`, and the
  provider check of `create_backend`.

Modules, one per file:

| file | module | what it holds |
|---|---|---|
| wrappers.dfy | `Wrappers` | `Option`; `Result` with a `Failure(message)` for a raised exception |
| strings.dfy | `Strings` | `startswith`, `endswith`, substring `in`, `replace(x, "")` as `RemoveAll`, ASCII `lower()` |
| usage.dfy | `Usage` | class `TokenUsage` |
| pricing.dfy | `Pricing` | price list, `BaseModel`, `CalculateCost` |
| providers.dfy | `Providers` | `ProviderFromModel`, `CreateBackend` |
| tools.dfy | `Tools` | tool values, the Response-API tool shaping and its loop |
| chat_completions.dfy | `ChatCompletions` | `FormatToolsForApi`, `EstimateTokens` |
| requests.dfy | `Requests` | messages, config, `Params`, `RequestParams` and the `BuildParams` loop |
| streaming.dfy | `Streaming` | events, chunks, `Translate` (the event loop as a fold), `Streamed` |
| backend.dfy | `Backend` | class `OpenAIResponseBackend` |

Mutable state is modelled as classes. `TokenUsage.AddUsage` updates the fields in place.
`ResetTokenUsage` replaces the backend's `tokenUsage` reference with a fresh object. The
old object stays as it was for anyone still holding it.

The loops of the source are methods with loop invariants:

- `BuildParams` loops over the messages.
- `ConsumeEvents` loops over the events.
- `FormatToolsForResponseApi` and `FormatToolsForApi` loop over the tools.

Each method is proved equal to a specification function. The properties are proved as
lemmas about those functions.

Environment inputs become parameters:

- The network call is a function `respond: Params -> Response`. A `Response` is a finite
  event sequence, optionally ended by an exception message.
- The clock reading `now` stamps a new accumulator.
- The `FALLBACK_*_RATE` environment rates are the backend's `fallback` field.

## Model

| member | source | states |
|---|---|---|
| `Usage.TokenUsage.constructor` | massgen/v2/agent_backend.py:16-29 | a new accumulator has zero tokens and zero cost, no model or provider, and the given timestamp |
| `Usage.TokenUsage.AddUsage` | massgen/v2/agent_backend.py:31-39 | input and output grow by exactly the arguments, cost by the cost; model, provider and timestamp are unchanged; the total grows by input + output; with non-negative arguments the total never decreases and non-negative counts stay non-negative |
| `Usage.TokenUsage.TotalTokens` | massgen/v2/agent_backend.py:37-39 | `get_total_tokens`: with non-negative counts the total is non-negative and at least each of the two counts |
| `Backend.OpenAIResponseBackend.constructor` | massgen/v2/agent_backend.py:180-188 | the model is the configured one or "gpt-4o"; the backend owns a fresh accumulator with zero tokens and cost, no model or provider, and the given timestamp |
| `Backend.OpenAIResponseBackend.Status` | massgen/v2/agent_backend.py:111-127 | reports provider "openai", the current accumulator's counts and cost, total = input + output, and the config |
| `Backend.OpenAIResponseBackend.ProviderName` | massgen/v2/agent_backend.py:340-342 | `get_provider_name`: a known provider name that `create_backend` accepts |
| `Backend.OpenAIResponseBackend.ResetTokenUsage` | massgen/v2/agent_backend.py:107-109 | afterwards the status reports 0 input, 0 output, 0 total, 0 cost; the accumulator is fresh, with no model or provider and the given timestamp; the replaced one is untouched |
| `Backend.OpenAIResponseBackend.StreamWithTools` | massgen/v2/agent_backend.py:204-318 | the yielded chunks are `Streamed(...)`; the accumulator grows by exactly the tokens and cost the stream adds; its model, provider and timestamp are unchanged |
| `Backend.OpenAIResponseBackend.ConsumeEvents` | massgen/v2/agent_backend.py:274-311 | the event loop yields `Translate(events)` and adds its token and cost totals to the accumulator |
| `Strings.RemoveAll` | massgen/v2/agent_backend.py:259-267 | `replace(x, "")` never lengthens a name, and leaves a name without an occurrence unchanged |
| `Strings.RemoveAllShrinks` | massgen/v2/agent_backend.py:259-267 | a name that contains the suffix text loses at least one copy of it |
| `Strings.RemoveAllTrailing` | massgen/v2/agent_backend.py:367-372 | removing every occurrence of a suffix from `x + suffix` gives back `x` when `x` has none and the suffix's first character is not repeated in it |
| `Strings.RemoveAllSplits` | massgen/v2/agent_backend.py:259-267 | every occurrence is removed wherever it sits: removing the pattern from `x + pattern + y` is removing it from `x` and from `y` and joining the results |
| `Strings.Lower` | massgen/v2/agent_backend.py:428 | same length; each character is lower-cased; no upper-case ASCII letter remains |
| `Pricing.BaseModel` | massgen/v2/agent_backend.py:367-372 | a name without an effort suffix is its own base; a name with one gets strictly shorter |
| `Pricing.BaseModelRemovesEvery` | massgen/v2/agent_backend.py:367-372 | the matched suffix is removed everywhere in the name, not only at its end: the base of `x + suffix + y`, with `y` ending in the suffix, is both parts with the suffix removed, joined |
| `Pricing.InnerSuffixRemoved` | massgen/v2/agent_backend.py:367-378 | "o1-low-mini-low" loses both of its "-low"s and is priced at the listed "o1-mini" rates |
| `Pricing.RatesFor` | massgen/v2/agent_backend.py:374-395 | a listed model gets its own listed rates; with non-negative fallback rates every model gets non-negative rates |
| `Pricing.CostAt` | massgen/v2/agent_backend.py:376-378 | zero tokens cost 0; non-negative tokens at non-negative rates cost at least 0 |
| `Pricing.ListedModelIsOwnBase` | massgen/v2/agent_backend.py:357-372 | a listed model has no suffix to strip: its base is itself |
| `Pricing.BaseModelStripsSuffix` | massgen/v2/agent_backend.py:367-372 | for every effort suffix and every name not containing it, the base of `name + suffix` is `name` |
| `Pricing.OnlyFirstSuffixStripped` | massgen/v2/agent_backend.py:369-372 | only one suffix is stripped: a name ending "-high-low" keeps "-high", and that base is not in the price list |
| `Pricing.ListedModelsHaveNoSuffix` | massgen/v2/agent_backend.py:357-365 | no listed model contains "-low", "-medium" or "-high" |
| `Pricing.SuffixedModelPricedAsBase` | massgen/v2/agent_backend.py:357-378 | a listed model with any effort suffix costs exactly what the listed model costs, at its listed per-1000 rates |
| `Pricing.CalculateCost` | massgen/v2/agent_backend.py:344-395 | zero tokens cost 0; non-negative tokens and non-negative fallback rates give a non-negative cost |
| `Pricing.CostAdditive` | massgen/v2/agent_backend.py:374-395 | pricing two usages together equals the sum of pricing them separately |
| `Providers.ProviderFromModel` | massgen/v2/agent_backend.py:418-440 | the result is one of anthropic, google, openai, xai; anthropic iff the lower-cased name contains "claude"; google iff "gemini" without "claude"; xai iff "grok" with none of claude, gemini, gpt, o1, o3; openai otherwise |
| `Providers.ProviderIgnoresCase` | massgen/v2/agent_backend.py:428 | lower-casing the name first does not change the provider |
| `Providers.ClaudeTakesPriority` | massgen/v2/agent_backend.py:430-435 | any name containing "claude" or "Claude" maps to anthropic, whatever else it contains |
| `Providers.CreateBackend` | massgen/v2/agent_backend.py:399-414 | accepted iff the lower-cased provider is "openai"; otherwise fails with "Unsupported provider: " and the name |
| `Providers.CreateBackendExamples` | massgen/v2/agent_backend.py:411-414 | "OpenAI" and "OPENAI" are accepted; "anthropic" is refused with its message |
| `Tools.ResponseTool` | massgen/v2/agent_backend.py:325-336 | the bare code interpreter gains container `{"type": "auto"}`; every other dict is sent unchanged |
| `Tools.DictTools` | massgen/v2/agent_backend.py:324-325 | the kept tools are all dicts and never more than the input |
| `Tools.ResponseTools` | massgen/v2/agent_backend.py:320-338 | one output per dict tool, in order: the i-th output is the i-th dict tool shaped by `ResponseTool` |
| `Tools.AllDictsKept` | massgen/v2/agent_backend.py:324-336 | a list made only of dicts loses nothing and keeps its order |
| `Tools.DictToolsSplit` | massgen/v2/agent_backend.py:324-325 | every tool is either kept as a dict or counted as a dropped non-dict |
| `Tools.DictToolsAppend` | massgen/v2/agent_backend.py:322-325 | the filter of a concatenation is the concatenation of the filters, so kept dicts stay in their order |
| `Tools.EveryDictKept` | massgen/v2/agent_backend.py:324-325 | every dict of the list is kept, whatever non-dicts surround it |
| `Tools.PlainToolsUnchanged` | massgen/v2/agent_backend.py:324-336 | dict tools other than the bare code interpreter reach the API exactly as given |
| `Tools.FormatToolsForResponseApi` | massgen/v2/agent_backend.py:320-338 | the loop builds exactly `ResponseTools(tools)` |
| `ChatCompletions.FormatToolsForApi` | massgen/v2/agent_backend.py:142-160 | returns the input list unchanged, in order |
| `ChatCompletions.EstimateTokens` | massgen/v2/agent_backend.py:162-174 | the estimate is the largest n with 4n at most the text length |
| `ChatCompletions.EstimateTokensMonotone` | massgen/v2/agent_backend.py:174 | a longer text never gets a smaller estimate; texts under 4 characters get 0 |
| `Requests.NonSystem` | massgen/v2/agent_backend.py:228-234 | the input is no longer than the conversation and holds no system message |
| `Requests.MessagesSplit` | massgen/v2/agent_backend.py:230-234 | input length + number of system messages = number of messages; with no system message the input is the whole conversation |
| `Requests.NonSystemFromMessages` | massgen/v2/agent_backend.py:230-234 | every input message is a message of the conversation |
| `Requests.NonSystemKeepsAll` | massgen/v2/agent_backend.py:230-234 | every non-system message of the conversation reaches the input |
| `Requests.NonSystemAppend` | massgen/v2/agent_backend.py:230-234 | the input of a concatenation is the concatenation of the inputs, so the conversation's order is kept |
| `Requests.LastSystemIsLast` | massgen/v2/agent_backend.py:230-232 | the instructions come from a system message that no later system message follows; there is none iff the conversation has no system message |
| `Requests.LastSystem` | massgen/v2/agent_backend.py:230-232 | the message found is a system message of the conversation |
| `Requests.Instructions` | massgen/v2/agent_backend.py:227-235 | non-empty instructions are the content of some system message of the conversation |
| `Requests.EffortFor` | massgen/v2/agent_backend.py:257-269 | the effort is medium iff the name ends "-medium", high iff it ends "-high", low otherwise |
| `Requests.SentModel` | massgen/v2/agent_backend.py:257-267 | an o-series name is sent as its base from `Pricing.BaseModel`; any other name, or one without an effort suffix, is sent as is |
| `Requests.RequestParams` | massgen/v2/agent_backend.py:219-269 | fails with KeyError "'content'" iff a system message lacks content; otherwise the parameters obey these rules: stream on; input = non-system messages; instructions present iff non-empty; tools present iff some tool is a dict; temperature only when configured and the model does not start with "o"; max_output_tokens = max_tokens; reasoning iff the model starts with "o", at `EffortFor` |
| `Requests.BuildParams` | massgen/v2/agent_backend.py:219-269 | the message loop and parameter filling produce exactly `RequestParams` |
| `Streaming.ContentIsDeltaText` | massgen/v2/agent_backend.py:275-288 | one content chunk per non-empty text delta; the content chunks concatenate to `text_content`, which is the deltas in order |
| `Streaming.Step` | massgen/v2/agent_backend.py:279-311 | one turn of the event loop yields at most one chunk, appended after the earlier ones; `text_content` only grows; only a completed event adds usage |
| `Streaming.Translate` | massgen/v2/agent_backend.py:279-311 | the event loop as a fold of `Step`: never more chunks than events |
| `Streaming.Streamed` | massgen/v2/agent_backend.py:219-318 | every chunk of the whole generator comes from "openai", and a stream that reaches the API yields at most one chunk per event plus one error chunk |
| `Streaming.ChunksPerEvent` | massgen/v2/agent_backend.py:279-311 | one tool-calls chunk per function-call delta; one done chunk per completed event; no error chunk; nothing for other events |
| `Streaming.ToolCallsCarryDeltas` | massgen/v2/agent_backend.py:289-295 | the k-th tool-calls chunk carries the k-th function-call event's delta, or None when it has none |
| `Streaming.ChunksFromOpenAI` | massgen/v2/agent_backend.py:284-311 | every chunk of the event loop has source "openai", and every done chunk has status "completed" |
| `Streaming.AddedIsReported` | massgen/v2/agent_backend.py:297-305 | when every completed event carries usage, the tokens added are the reported counts, a missing count reading 0 |
| `Streaming.CompletedWithoutUsageRepeats` | massgen/v2/agent_backend.py:276-305 | two-event instance of `CarriedCounts`: a completed event with usage followed by one without charges the reported counts twice |
| `Streaming.CarriedCounts` | massgen/v2/agent_backend.py:276-305 | the carried counts are those of the last completed event with usage (0 before any), and a completed event without usage charges exactly those counts again |
| `Streaming.UsageNoneAddsZero` | massgen/v2/agent_backend.py:297-311 | a completed event whose usage is None charges 0 tokens and no cost, resets the carried counts, and yields one done chunk |
| `Streaming.CostOfAddedTokens` | massgen/v2/agent_backend.py:303-305 | the cost added over a stream equals the cost of the total tokens added |
| `Streaming.AddedNonNegative` | massgen/v2/agent_backend.py:297-305 | non-negative reports and fallback rates never make the added tokens or cost negative |
| `Streaming.StreamErrorIsLast` | massgen/v2/agent_backend.py:313-318 | a failure while building the request or streaming ends the stream with exactly one error chunk from "openai", and no error chunk appears otherwise; a failed request yields only that chunk and adds no usage |

## Left out

- The async generator is modelled as the whole list of chunks it yields. A consumer that stops early is not modelled, nor is the interleaving with other coroutines.
- The construction of the `AsyncOpenAI` client is not modelled: the import, the API-key lookup in the config or `OPENAI_API_KEY`, and the ValueError or ImportError it raises. The modelled constructor stands for a construction that succeeded. The `client.responses.create` call and its async iteration are the `respond` parameter.
- Fallback pricing reads `FALLBACK_INPUT_RATE` and `FALLBACK_OUTPUT_RATE` from the environment on every `calculate_cost` call for an unknown model. Here they are the `fallback` rates fixed when the backend is built, so a change to the environment between calls is not modelled. The `warnings.warn` call and a `float()` parse error are not modelled.
- Costs are exact reals. Floating-point rounding is not modelled.
- `time.time()` is the `now` parameter.
- `Strings.Lower` lower-cases ASCII letters only. Python's `str.lower()` also folds other Unicode letters, which this model does not.
- Python's dynamic typing is narrowed to the types the code expects:
  - a message is a dict whose `content`, when present, is a string; only its `role` and `content` keys are kept, so messages that differ only in other keys (`name`, `tool_call_id`, …) are equal here, although the source forwards those keys in `input`;
  - a `content` key holding an explicit None is not distinguished from a missing key;
  - a usage attribute holding None is a usage report with both counts missing, so it charges 0, as `getattr(None, name, 0)` does;
  - temperature is a real and max_tokens an integer;
  - `tools=None` is the empty list.
- `Streaming.Step`: a usage report whose `input_tokens` or `output_tokens` holds None makes `calculate_cost` raise TypeError, which ends the stream with an error chunk; the model reads such a count as 0 and goes on.
- `Backend.OpenAIResponseBackend.constructor`: an explicit `model=None`, which `create_backend(provider, None)` passes on, is not modelled. `config.get("model", "gpt-4o")` then returns None and every stream ends in an error chunk once `self.model.startswith` raises AttributeError; the model reads a missing model as "gpt-4o".
- `Backend.OpenAIResponseBackend.Status`: the config holds only the keys the backend reads (`model`, `temperature`, `max_tokens`); the source reports every keyword argument the backend was built with, `api_key` and `base_url` included.
- `get_token_usage` only returns the backend's accumulator. Callers read the `tokenUsage` field.
- The abstract methods of `AgentBackend` have no body to model. Without traits, the concrete `AgentBackend` members (`reset_token_usage`, `get_status`) are modelled on `OpenAIResponseBackend`, its one concrete subclass.
- `ChatCompletionsBackend` cannot be instantiated because it does not implement the abstract methods of `AgentBackend` (`stream_with_tools`, `get_provider_name`, `calculate_cost`). Its two members read no state and are module-level here.
- `create_backend` is modelled as its accept/reject decision. The backend it builds is the `OpenAIResponseBackend` constructor.
- `StreamChunk` comes from `massgen/v2/chat_agent.py`, which is not part of this model. Its fields are the ones this file uses.
- `massgen/tests/test_timeout.py` drives `Orchestrator`, `SingleAgent`, `TimeoutConfig` and `ClaudeCodeBackend`. Those come from files that are not part of this model, so timeout and budget enforcement are not modelled.

## Notes on the source

- `stream_with_tools` sets `input_tokens` and `output_tokens` to 0 once, before the event loop (massgen/v2/agent_backend.py:276-277). A `response.completed` event without a `usage` attribute leaves them as they were (lines 299-301), so its charge re-adds the counts of the last completed event that did carry `usage`. The model follows the code: `Streaming.CarriedCounts` states the general rule and `Streaming.CompletedWithoutUsageRepeats` an instance of it.
- `add_usage` (lines 31-35) does not check the sign of its arguments. A negative argument lowers the totals, so `Usage.TokenUsage.AddUsage` promises that the total never decreases only for non-negative arguments.
