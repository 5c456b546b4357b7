/**
 * Provider identity: `get_provider_from_model`, which guesses a provider from a
 * model name, and the provider test in `create_backend`.
 */
module Providers {
  import opened Wrappers
  import opened Strings

  /** The four names `get_provider_from_model` can return. */
  const KnownProviders: set<string> := {"anthropic", "google", "openai", "xai"}

  predicate NamesOpenAI(lower: string) {
    Contains(lower, "gpt") || Contains(lower, "o1") || Contains(lower, "o3")
  }

  /**
   * Substring tests on the lower-cased name, in priority order claude, gemini,
   * gpt/o1/o3, grok; an unrecognised name falls back to "openai".
   */
  function ProviderFromModel(model: string): (provider: string)
    ensures provider in KnownProviders
    ensures provider == "anthropic" <==> Contains(Lower(model), "claude")
    ensures provider == "google" <==> !Contains(Lower(model), "claude") && Contains(Lower(model), "gemini")
    ensures provider == "xai" <==>
      !Contains(Lower(model), "claude") && !Contains(Lower(model), "gemini")
      && !NamesOpenAI(Lower(model)) && Contains(Lower(model), "grok")
  {
    var lower := Lower(model);
    if Contains(lower, "claude") then "anthropic"
    else if Contains(lower, "gemini") then "google"
    else if NamesOpenAI(lower) then "openai"
    else if Contains(lower, "grok") then "xai"
    else "openai"
  }

  /** Classification ignores ASCII case. */
  lemma ProviderIgnoresCase(model: string)
    ensures ProviderFromModel(Lower(model)) == ProviderFromModel(model)
  {
    LowerIdempotent(model);
  }

  /** "claude" wins over every other marker, "gpt" included. */
  lemma {:induction false} ClaudeTakesPriority(prefix: string, suffix: string)
    ensures ProviderFromModel(prefix + "Claude" + suffix) == "anthropic"
    ensures ProviderFromModel(prefix + "claude" + suffix) == "anthropic"
  {
    ContainsInside(Lower(prefix + "Claude" + suffix), |prefix|, "claude");
    ContainsInside(Lower(prefix + "claude" + suffix), |prefix|, "claude");
  }

  /** A pattern found at position `k` of `s` is contained in `s`. */
  lemma {:induction false} ContainsInside(s: string, k: nat, pattern: string)
    requires k + |pattern| <= |s| && s[k..k + |pattern|] == pattern
    ensures Contains(s, pattern)
    decreases k
  {
    if k > 0 {
      assert s[1..][k - 1..k - 1 + |pattern|] == pattern;
      ContainsInside(s[1..], k - 1, pattern);
    }
  }

  /**
   * `create_backend` accepts only the OpenAI provider, compared after
   * lower-casing, and raises "Unsupported provider: ..." for every other name.
   */
  function CreateBackend(provider: string): (outcome: Result<string>)
    ensures outcome.Success? <==> Lower(provider) == "openai"
    ensures outcome.Success? ==> outcome.value == "openai"
    ensures outcome.Failure? ==> outcome.error == "Unsupported provider: " + provider
  {
    if Lower(provider) == "openai" then Success("openai")
    else Failure("Unsupported provider: " + provider)
  }

  /** Any capitalisation of "openai" is accepted; other providers are refused. */
  lemma CreateBackendExamples()
    ensures CreateBackend("OpenAI") == Success("openai")
    ensures CreateBackend("OPENAI") == Success("openai")
    ensures CreateBackend("anthropic") == Failure("Unsupported provider: anthropic")
  {
  }
}
