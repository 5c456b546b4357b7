/**
 * Request shaping in `OpenAIResponseBackend.stream_with_tools`: how the
 * conversation, the tools, the configuration and the model name become the
 * parameters of one Response-API call.
 */
module Requests {
  import opened Wrappers
  import opened Strings
  import opened Tools
  import Pricing

  /** A conversation message; `content` is None when the dict has no "content" key. */
  datatype Message = Message(role: Option<string>, content: Option<string>)

  /**
   * The configuration keys the backend reads. For `temperature` and
   * `max_tokens` an absent key and None are alike, as both are tested with
   * `is not None`; for `model`, None stands for an absent key only.
   */
  datatype Config = Config(model: Option<string>, temperature: Option<real>, maxTokens: Option<int>)

  datatype Effort = Low | Medium | High

  /** The keyword arguments of `client.responses.create`; None marks an absent key. */
  datatype Params = Params(
    model: string,
    stream: bool,
    instructions: Option<string>,
    input: seq<Message>,
    tools: Option<seq<Value>>,
    temperature: Option<real>,
    maxOutputTokens: Option<int>,
    reasoning: Option<Effort>)

  /** The error text of the KeyError raised by `message["content"]`. */
  const MissingContentError: string := "'content'"

  predicate IsSystem(message: Message) {
    message.role == Some("system")
  }

  /** The messages that are not system messages, in their original order. */
  function NonSystem(messages: seq<Message>): (input: seq<Message>)
    ensures |input| <= |messages|
    ensures forall i :: 0 <= i < |input| ==> !IsSystem(input[i])
  {
    if messages == [] then []
    else
      var last := messages[|messages| - 1];
      NonSystem(messages[..|messages| - 1]) + (if IsSystem(last) then [] else [last])
  }

  function SystemCount(messages: seq<Message>): nat {
    if messages == [] then 0
    else SystemCount(messages[..|messages| - 1]) + (if IsSystem(messages[|messages| - 1]) then 1 else 0)
  }

  /** The last system message, if there is one. */
  function LastSystem(messages: seq<Message>): (last: Option<Message>)
    ensures last.Some? ==> IsSystem(last.value) && last.value in messages
  {
    if messages == [] then None
    else if IsSystem(messages[|messages| - 1]) then Some(messages[|messages| - 1])
    else LastSystem(messages[..|messages| - 1])
  }

  /** Some system message lacks its "content" key. */
  predicate MissingSystemContent(messages: seq<Message>) {
    exists i :: 0 <= i < |messages| && IsSystem(messages[i]) && messages[i].content.None?
  }

  /** The system instructions: the content of the last system message, or "". */
  function Instructions(messages: seq<Message>): (instructions: string)
    ensures instructions != "" ==> exists m :: m in messages && IsSystem(m) && m.content == Some(instructions)
  {
    match LastSystem(messages)
    case Some(m) => m.content.GetOr("")
    case None => ""
  }

  /** Every message lands either in the input or among the system messages. */
  lemma {:induction false} MessagesSplit(messages: seq<Message>)
    ensures |NonSystem(messages)| + SystemCount(messages) == |messages|
    ensures SystemCount(messages) == 0 ==> NonSystem(messages) == messages
  {
    if messages != [] {
      var init := messages[..|messages| - 1];
      MessagesSplit(init);
      assert init + [messages[|messages| - 1]] == messages;
    }
  }

  /** The input keeps only messages of the conversation, each as it was. */
  lemma {:induction false} NonSystemFromMessages(messages: seq<Message>)
    ensures forall m :: m in NonSystem(messages) ==> m in messages
  {
    if messages != [] {
      var init := messages[..|messages| - 1];
      NonSystemFromMessages(init);
      forall m | m in NonSystem(messages) ensures m in messages {
        if m in NonSystem(init) {
          assert m in init;
        }
      }
    }
  }

  /** Filtering commutes with concatenation, so the input keeps the conversation's order. */
  lemma {:induction false} NonSystemAppend(a: seq<Message>, b: seq<Message>)
    ensures NonSystem(a + b) == NonSystem(a) + NonSystem(b)
  {
    if b == [] {
      assert a + b == a;
    } else {
      var init := b[..|b| - 1];
      NonSystemAppend(a, init);
      assert (a + b)[..|a + b| - 1] == a + init;
    }
  }

  /** Every non-system message of the conversation reaches the input. */
  lemma {:induction false} NonSystemKeepsAll(messages: seq<Message>)
    ensures forall m :: m in messages && !IsSystem(m) ==> m in NonSystem(messages)
  {
    if messages != [] {
      var init := messages[..|messages| - 1];
      NonSystemKeepsAll(init);
      assert messages == init + [messages[|messages| - 1]];
    }
  }

  /** LastSystem picks the system message that no later system message follows. */
  lemma {:induction false} LastSystemIsLast(messages: seq<Message>)
    ensures LastSystem(messages).None? <==> SystemCount(messages) == 0
    ensures LastSystem(messages).None? ==> forall i :: 0 <= i < |messages| ==> !IsSystem(messages[i])
    ensures LastSystem(messages).Some? ==>
      exists k :: 0 <= k < |messages| && messages[k] == LastSystem(messages).value && IsSystem(messages[k])
        && forall j :: k < j < |messages| ==> !IsSystem(messages[j])
  {
    if messages != [] {
      var n := |messages|;
      var init := messages[..n - 1];
      LastSystemIsLast(init);
      if IsSystem(messages[n - 1]) {
        assert messages[n - 1] == LastSystem(messages).value;
      } else {
        assert LastSystem(messages) == LastSystem(init) && SystemCount(messages) == SystemCount(init);
        if LastSystem(init).Some? {
          var k :| 0 <= k < |init| && init[k] == LastSystem(init).value && IsSystem(init[k])
            && forall j :: k < j < |init| ==> !IsSystem(init[j]);
          assert messages[k] == init[k];
          assert forall j :: k < j < n - 1 ==> messages[j] == init[j];
        } else {
          assert forall j :: 0 <= j < n - 1 ==> messages[j] == init[j];
        }
      }
    }
  }

  /**
   * The reasoning effort of an o-series model: "medium" or "high" when the name
   * ends with that suffix, "low" otherwise.
   */
  function EffortFor(model: string): (effort: Effort)
    ensures effort == Medium <==> EndsWith(model, "-medium")
    ensures effort == High <==> EndsWith(model, "-high")
  {
    SuffixesExclusive(model);
    if EndsWith(model, "-low") then Low
    else if EndsWith(model, "-medium") then Medium
    else if EndsWith(model, "-high") then High
    else Low
  }

  /** No name ends with two different effort suffixes. */
  lemma SuffixesExclusive(model: string)
    ensures !(EndsWith(model, "-low") && EndsWith(model, "-medium"))
    ensures !(EndsWith(model, "-low") && EndsWith(model, "-high"))
    ensures !(EndsWith(model, "-medium") && EndsWith(model, "-high"))
  {
    if EndsWith(model, "-low") {
      assert model[|model| - 1] == 'w';
    }
    if EndsWith(model, "-medium") {
      assert model[|model| - 1] == 'm';
    }
  }

  /**
   * The model name sent: an o-series name loses every occurrence of its
   * effort suffix, exactly as `calculate_cost` strips it; other names are sent as is.
   */
  function SentModel(model: string): (sent: string)
    ensures StartsWith(model, "o") ==> sent == Pricing.BaseModel(model)
    ensures !StartsWith(model, "o") || !Pricing.HasEffortSuffix(model) ==> sent == model
  {
    if StartsWith(model, "o") then
      if EndsWith(model, "-low") then RemoveAll(model, "-low")
      else if EndsWith(model, "-medium") then RemoveAll(model, "-medium")
      else if EndsWith(model, "-high") then RemoveAll(model, "-high")
      else model
    else model
  }

  /**
   * The parameters `stream_with_tools` sends, or the KeyError it raises before
   * sending anything when a system message has no content.
   */
  function RequestParams(model: string, config: Config, messages: seq<Message>, tools: seq<Value>): (r: Result<Params>)
    ensures r.Failure? <==> MissingSystemContent(messages)
    ensures r.Failure? ==> r.error == MissingContentError
    ensures r.Success? ==>
      && r.value.stream
      && r.value.input == NonSystem(messages)
      && (r.value.instructions.Some? <==> Instructions(messages) != "")
      && (r.value.instructions.Some? ==> r.value.instructions.value == Instructions(messages))
      && (r.value.tools.Some? <==> DictTools(tools) != [])
      && (r.value.tools.Some? ==> r.value.tools.value == ResponseTools(tools))
      && (r.value.temperature.Some? <==> config.temperature.Some? && !StartsWith(model, "o"))
      && (r.value.temperature.Some? ==> r.value.temperature == config.temperature)
      && r.value.maxOutputTokens == config.maxTokens
      && (r.value.reasoning.Some? <==> StartsWith(model, "o"))
      && (r.value.reasoning.Some? ==> r.value.reasoning.value == EffortFor(model))
      && r.value.model == SentModel(model)
  {
    if MissingSystemContent(messages) then Failure(MissingContentError)
    else
      var instructions := Instructions(messages);
      var sentTools := if tools != [] then ResponseTools(tools) else [];
      var isO := StartsWith(model, "o");
      Success(Params(
        model := SentModel(model),
        stream := true,
        instructions := if instructions != "" then Some(instructions) else None,
        input := NonSystem(messages),
        tools := if sentTools != [] then Some(sentTools) else None,
        temperature := if config.temperature.Some? && !isO then config.temperature else None,
        maxOutputTokens := config.maxTokens,
        reasoning := if isO then Some(EffortFor(model)) else None))
  }

  /** The parameter-building steps of `stream_with_tools`, up to the API call. */
  method BuildParams(model: string, config: Config, messages: seq<Message>, tools: seq<Value>) returns (r: Result<Params>)
    ensures r == RequestParams(model, config, messages, tools)
  {
    var instructions := "";
    var input := [];
    var i := 0;
    while i < |messages|
      invariant 0 <= i <= |messages|
      invariant !MissingSystemContent(messages[..i])
      invariant input == NonSystem(messages[..i])
      invariant instructions == Instructions(messages[..i])
    {
      var message := messages[i];
      assert messages[..i + 1][..i] == messages[..i];
      if message.role == Some("system") {
        if message.content.None? {
          assert messages[i].content.None? && IsSystem(messages[i]);
          return Failure(MissingContentError);
        }
        instructions := message.content.value;
      } else {
        input := input + [message];
      }
      i := i + 1;
    }
    assert messages[..i] == messages;

    var sentTools := None;
    if tools != [] {
      var formatted := FormatToolsForResponseApi(tools);
      if formatted != [] {
        sentTools := Some(formatted);
      }
    }

    var temperature := None;
    if config.temperature.Some? && !StartsWith(model, "o") {
      temperature := config.temperature;
    }

    var sentModel := model;
    var reasoning := None;
    if StartsWith(model, "o") {
      var effort := Low;
      if EndsWith(model, "-low") {
        effort := Low;
        sentModel := RemoveAll(model, "-low");
      } else if EndsWith(model, "-medium") {
        effort := Medium;
        sentModel := RemoveAll(model, "-medium");
      } else if EndsWith(model, "-high") {
        effort := High;
        sentModel := RemoveAll(model, "-high");
      }
      reasoning := Some(effort);
    }

    r := Success(Params(
      model := sentModel,
      stream := true,
      instructions := if instructions != "" then Some(instructions) else None,
      input := input,
      tools := sentTools,
      temperature := temperature,
      maxOutputTokens := config.maxTokens,
      reasoning := reasoning));
  }
}
