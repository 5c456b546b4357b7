/**
 * `TokenUsage`: the mutable accumulator of input and output tokens and of the
 * estimated cost that every backend owns. `AddUsage` is its only mutator.
 */
module Usage {
  import opened Wrappers

  class TokenUsage {
    var inputTokens: int
    var outputTokens: int
    var estimatedCost: real
    var model: Option<string>
    var provider: Option<string>
    /** Seconds since the epoch at creation; the clock reading is a parameter. */
    var timestamp: Option<real>

    /** A fresh accumulator as `TokenUsage()` builds it, stamped with `now`. */
    constructor (now: real)
      ensures inputTokens == 0 && outputTokens == 0 && estimatedCost == 0.0
      ensures model == None && provider == None && timestamp == Some(now)
      ensures Counted()
    {
      inputTokens, outputTokens, estimatedCost := 0, 0, 0.0;
      model, provider, timestamp := None, None, Some(now);
    }

    /** `get_total_tokens`. */
    function TotalTokens(): (total: int)
      reads this
      ensures Counted() ==> total >= inputTokens && total >= outputTokens && total >= 0
    {
      inputTokens + outputTokens
    }

    /** The counts and the cost are not negative. */
    predicate Counted()
      reads this
    {
      inputTokens >= 0 && outputTokens >= 0 && estimatedCost >= 0.0
    }

    /** `add_usage(input_tokens, output_tokens, cost)`. */
    method AddUsage(input: int, output: int, cost: real)
      modifies this
      ensures inputTokens == old(inputTokens) + input
      ensures outputTokens == old(outputTokens) + output
      ensures estimatedCost == old(estimatedCost) + cost
      ensures model == old(model) && provider == old(provider) && timestamp == old(timestamp)
      ensures TotalTokens() == old(TotalTokens()) + input + output
      ensures input >= 0 && output >= 0 ==> TotalTokens() >= old(TotalTokens())
      ensures old(Counted()) && input >= 0 && output >= 0 && cost >= 0.0 ==> Counted()
    {
      inputTokens := inputTokens + input;
      outputTokens := outputTokens + output;
      estimatedCost := estimatedCost + cost;
    }
  }
}
