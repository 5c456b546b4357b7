/**
 * The two concrete members of `ChatCompletionsBackend`, the base of
 * OpenAI-compatible chat-completions backends. Neither reads the backend's state.
 */
module ChatCompletions {
  import opened Tools

  /** `format_tools_for_api(tools)`: every tool, in order. */
  method FormatToolsForApi(tools: seq<Value>) returns (formatted: seq<Value>)
    ensures formatted == tools
  {
    formatted := [];
    var i := 0;
    while i < |tools|
      invariant 0 <= i <= |tools|
      invariant formatted == tools[..i]
    {
      var tool := tools[i];
      if tool.Object? {
        formatted := formatted + [tool];
      } else {
        formatted := formatted + [tool];
      }
      i := i + 1;
    }
    assert tools[..i] == tools;
  }

  /** `estimate_tokens(text)`: about four characters per token. */
  function EstimateTokens(text: string): (tokens: nat)
    ensures 4 * tokens <= |text| < 4 * tokens + 4
  {
    |text| / 4
  }

  lemma EstimateTokensMonotone(shorter: string, longer: string)
    requires |shorter| <= |longer|
    ensures EstimateTokens(shorter) <= EstimateTokens(longer)
    ensures |shorter| < 4 ==> EstimateTokens(shorter) == 0
  {
  }
}
