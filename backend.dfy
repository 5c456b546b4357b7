/**
 * `OpenAIResponseBackend` together with the state-handling members it inherits
 * from `AgentBackend`: the token-usage accumulator it owns, `reset_token_usage`,
 * `get_status`, and `stream_with_tools` with the network call as a parameter.
 */
module Backend {
  import opened Wrappers
  import opened Usage
  import opened Tools
  import opened Requests
  import opened Streaming
  import Pricing
  import Providers

  /** The "token_usage" part of `get_status`, with the provider and the config. */
  datatype BackendStatus = BackendStatus(
    provider: string,
    inputTokens: int,
    outputTokens: int,
    totalTokens: int,
    estimatedCost: real,
    config: Config)

  /** The model used when the configuration names none. */
  const DefaultModel: string := "gpt-4o"

  class OpenAIResponseBackend {
    const config: Config
    const model: string
    /** The FALLBACK_INPUT_RATE / FALLBACK_OUTPUT_RATE environment rates. */
    const fallback: Pricing.Rates
    var tokenUsage: TokenUsage

    /** Construction once the API key has been found; `now` stamps the accumulator. */
    constructor (config: Config, fallback: Pricing.Rates, now: real)
      ensures this.config == config && this.fallback == fallback
      ensures model == config.model.GetOr(DefaultModel)
      ensures fresh(tokenUsage)
      ensures tokenUsage.inputTokens == 0 && tokenUsage.outputTokens == 0 && tokenUsage.estimatedCost == 0.0
      ensures tokenUsage.model == None && tokenUsage.provider == None && tokenUsage.timestamp == Some(now)
    {
      this.config := config;
      this.fallback := fallback;
      model := config.model.GetOr(DefaultModel);
      tokenUsage := new TokenUsage(now);
    }

    /** `get_provider_name` */
    function ProviderName(): (name: string)
      ensures name in Providers.KnownProviders && Providers.CreateBackend(name).Success?
    {
      "openai"
    }

    /** `get_status`: the provider, the current accumulator's counts and the config. */
    function Status(): (status: BackendStatus)
      reads this, tokenUsage
      ensures status.provider == "openai" && status.config == config
      ensures status.inputTokens == tokenUsage.inputTokens && status.outputTokens == tokenUsage.outputTokens
      ensures status.totalTokens == status.inputTokens + status.outputTokens
      ensures status.estimatedCost == tokenUsage.estimatedCost
    {
      BackendStatus(ProviderName(), tokenUsage.inputTokens, tokenUsage.outputTokens,
                    tokenUsage.TotalTokens(), tokenUsage.estimatedCost, config)
    }

    /**
     * `reset_token_usage`: the backend gets a fresh zeroed accumulator; the old
     * one, which callers of `get_token_usage` may still hold, is left as it was.
     */
    method ResetTokenUsage(now: real)
      modifies this
      ensures fresh(tokenUsage)
      ensures Status() == BackendStatus("openai", 0, 0, 0, 0.0, config)
      ensures tokenUsage.Counted()
      ensures tokenUsage.model == None && tokenUsage.provider == None && tokenUsage.timestamp == Some(now)
      ensures unchanged(old(tokenUsage))
    {
      tokenUsage := new TokenUsage(now);
    }

    /**
     * `stream_with_tools(messages, tools)`. `respond` stands for the API call:
     * the events the service streams back for the parameters sent, and the
     * message of the exception that ends the stream early, if any. The chunks
     * are those the generator yields; the accumulator grows by what every
     * completed event reports.
     */
    method StreamWithTools(messages: seq<Message>, tools: seq<Value>, respond: Params -> Response)
      returns (chunks: seq<StreamChunk>)
      modifies tokenUsage
      ensures var s := Streamed(model, config, fallback, messages, tools, respond);
        && chunks == s.chunks
        && tokenUsage.inputTokens == old(tokenUsage.inputTokens) + s.addedInput
        && tokenUsage.outputTokens == old(tokenUsage.outputTokens) + s.addedOutput
        && tokenUsage.estimatedCost == old(tokenUsage.estimatedCost) + s.addedCost
      ensures tokenUsage.model == old(tokenUsage.model) && tokenUsage.provider == old(tokenUsage.provider)
      ensures tokenUsage.timestamp == old(tokenUsage.timestamp)
    {
      var request := BuildParams(model, config, messages, tools);
      if request.Failure? {
        chunks := [ErrorChunk(request.error)];
        return;
      }
      var response := respond(request.value);
      chunks := ConsumeEvents(response.events);
      if response.failure.Some? {
        chunks := chunks + [ErrorChunk(response.failure.value)];
      }
    }

    /** The `async for` loop of `stream_with_tools` over the streamed events. */
    method ConsumeEvents(events: seq<Event>) returns (chunks: seq<StreamChunk>)
      modifies tokenUsage
      ensures var t := Translate(events, model, fallback);
        && chunks == t.chunks
        && tokenUsage.inputTokens == old(tokenUsage.inputTokens) + t.addedInput
        && tokenUsage.outputTokens == old(tokenUsage.outputTokens) + t.addedOutput
        && tokenUsage.estimatedCost == old(tokenUsage.estimatedCost) + t.addedCost
      ensures tokenUsage.model == old(tokenUsage.model) && tokenUsage.provider == old(tokenUsage.provider)
      ensures tokenUsage.timestamp == old(tokenUsage.timestamp)
    {
      var textContent := "";
      var inputTokens := 0;
      var outputTokens := 0;
      chunks := [];
      var i := 0;
      while i < |events|
        invariant 0 <= i <= |events|
        invariant var t := Translate(events[..i], model, fallback);
          && chunks == t.chunks && textContent == t.text
          && inputTokens == t.inputTokens && outputTokens == t.outputTokens
          && tokenUsage.inputTokens == old(tokenUsage.inputTokens) + t.addedInput
          && tokenUsage.outputTokens == old(tokenUsage.outputTokens) + t.addedOutput
          && tokenUsage.estimatedCost == old(tokenUsage.estimatedCost) + t.addedCost
        invariant tokenUsage.model == old(tokenUsage.model) && tokenUsage.provider == old(tokenUsage.provider)
        invariant tokenUsage.timestamp == old(tokenUsage.timestamp)
      {
        var event := events[i];
        ghost var before := Translate(events[..i], model, fallback);
        assert events[..i + 1][..i] == events[..i];
        assert Translate(events[..i + 1], model, fallback) == Step(before, event, model, fallback);
        if event.kind.Some? {
          if event.kind.value == TextDelta {
            if event.delta.Some? && event.delta.value != "" {
              textContent := textContent + event.delta.value;
              chunks := chunks + [ContentChunk(event.delta.value)];
            }
          } else if event.kind.value == FunctionCallDelta {
            chunks := chunks + [ToolCallsChunk(event.delta)];
          } else if event.kind.value == Completed {
            if event.usage.Some? {
              inputTokens := event.usage.value.inputTokens.GetOr(0);
              outputTokens := event.usage.value.outputTokens.GetOr(0);
            }
            var cost := Pricing.CalculateCost(inputTokens, outputTokens, model, fallback);
            tokenUsage.AddUsage(inputTokens, outputTokens, cost);
            chunks := chunks + [DoneChunk];
          }
        }
        i := i + 1;
      }
      assert events[..i] == events;
    }
  }
}
