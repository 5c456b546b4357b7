/**
 * Translation of the Response-API event stream into `StreamChunk`s, as the
 * `async for` loop of `OpenAIResponseBackend.stream_with_tools` does it. The
 * network response is a finite sequence of events, possibly cut short by an
 * exception.
 */
module Streaming {
  import opened Wrappers
  import opened Strings
  import opened Tools
  import opened Requests
  import Pricing

  const TextDelta: string := "response.output_text.delta"
  const FunctionCallDelta: string := "response.function_call_output.delta"
  const Completed: string := "response.completed"
  const Source: string := "openai"

  /** Token counts of a `usage` object; None marks a missing attribute. */
  datatype UsageReport = UsageReport(inputTokens: Option<int>, outputTokens: Option<int>)

  /**
   * One streamed event; None marks a missing attribute. A `usage` attribute
   * holding None is `Some(UsageReport(None, None))`: `getattr(None, name, 0)`
   * reads both counts as missing.
   */
  datatype Event = Event(kind: Option<string>, delta: Option<string>, usage: Option<UsageReport>)

  /** What the API call yields: events, then possibly an exception's message. */
  datatype Response = Response(events: seq<Event>, failure: Option<string>)

  datatype ChunkKind = Content | ToolCalls | Error | Done

  /** The uniform unit of streamed output. */
  datatype StreamChunk = StreamChunk(
    kind: ChunkKind,
    content: Option<string>,
    error: Option<string>,
    source: string,
    status: Option<string>)

  function ContentChunk(delta: string): StreamChunk {
    StreamChunk(Content, Some(delta), None, Source, None)
  }

  function ToolCallsChunk(delta: Option<string>): StreamChunk {
    StreamChunk(ToolCalls, delta, None, Source, None)
  }

  const DoneChunk: StreamChunk := StreamChunk(Done, None, None, Source, Some("completed"))

  function ErrorChunk(message: string): StreamChunk {
    StreamChunk(Error, None, Some(message), Source, None)
  }

  /**
   * The loop's state after some events: the chunks yielded, `text_content`,
   * the loop-carried `input_tokens` and `output_tokens`, and what was added to
   * the backend's token usage.
   */
  datatype Translation = Translation(
    chunks: seq<StreamChunk>,
    text: string,
    inputTokens: int,
    outputTokens: int,
    addedInput: int,
    addedOutput: int,
    addedCost: real)

  const Start: Translation := Translation([], "", 0, 0, 0, 0, 0.0)

  predicate HasText(e: Event) {
    e.kind == Some(TextDelta) && e.delta.Some? && e.delta.value != ""
  }

  /**
   * One turn of the loop. A `response.completed` event without `usage` reuses
   * the counts the loop carried over from the previous completed event.
   */
  function Step(t: Translation, e: Event, model: string, fallback: Pricing.Rates): (next: Translation)
    ensures |t.chunks| <= |next.chunks| <= |t.chunks| + 1 && next.chunks[..|t.chunks|] == t.chunks
    ensures StartsWith(next.text, t.text)
    ensures e.kind != Some(Completed) ==> next.addedInput == t.addedInput && next.addedOutput == t.addedOutput && next.addedCost == t.addedCost
  {
    if e.kind == Some(TextDelta) then
      if HasText(e) then t.(chunks := t.chunks + [ContentChunk(e.delta.value)], text := t.text + e.delta.value)
      else t
    else if e.kind == Some(FunctionCallDelta) then
      t.(chunks := t.chunks + [ToolCallsChunk(e.delta)])
    else if e.kind == Some(Completed) then
      var input := if e.usage.Some? then e.usage.value.inputTokens.GetOr(0) else t.inputTokens;
      var output := if e.usage.Some? then e.usage.value.outputTokens.GetOr(0) else t.outputTokens;
      t.(chunks := t.chunks + [DoneChunk],
         inputTokens := input,
         outputTokens := output,
         addedInput := t.addedInput + input,
         addedOutput := t.addedOutput + output,
         addedCost := t.addedCost + Pricing.CalculateCost(input, output, model, fallback))
    else t
  }

  function Translate(events: seq<Event>, model: string, fallback: Pricing.Rates): (t: Translation)
    ensures |t.chunks| <= |events|
  {
    if events == [] then Start
    else Step(Translate(events[..|events| - 1], model, fallback), events[|events| - 1], model, fallback)
  }

  /** The whole stream: a failed request or a failing response ends in one error chunk. */
  function Streamed(model: string, config: Config, fallback: Pricing.Rates, messages: seq<Message>, tools: seq<Value>,
                    respond: Params -> Response): (s: Translation)
    ensures FromOpenAI(s.chunks)
    ensures RequestParams(model, config, messages, tools).Success? ==>
      |s.chunks| <= |respond(RequestParams(model, config, messages, tools).value).events| + 1
  {
    match RequestParams(model, config, messages, tools)
    case Failure(message) => Start.(chunks := [ErrorChunk(message)])
    case Success(params) =>
      var response := respond(params);
      var t := Translate(response.events, model, fallback);
      ChunksFromOpenAI(response.events, model, fallback);
      assert FromOpenAI([ErrorChunk(response.failure.GetOr(""))]);
      if response.failure.Some? then t.(chunks := t.chunks + [ErrorChunk(response.failure.value)]) else t
  }

  // Counting chunks and events

  function CountKind(chunks: seq<StreamChunk>, kind: ChunkKind): nat {
    if chunks == [] then 0
    else CountKind(chunks[..|chunks| - 1], kind) + (if chunks[|chunks| - 1].kind == kind then 1 else 0)
  }

  function CountEvents(events: seq<Event>, kind: string): nat {
    if events == [] then 0
    else CountEvents(events[..|events| - 1], kind) + (if events[|events| - 1].kind == Some(kind) then 1 else 0)
  }

  function CountText(events: seq<Event>): nat {
    if events == [] then 0
    else CountText(events[..|events| - 1]) + (if HasText(events[|events| - 1]) then 1 else 0)
  }

  /** The non-empty text deltas, concatenated in order. */
  function DeltaText(events: seq<Event>): string {
    if events == [] then ""
    else DeltaText(events[..|events| - 1]) + (if HasText(events[|events| - 1]) then events[|events| - 1].delta.value else "")
  }

  /** The contents of the content chunks, concatenated in order. */
  function ContentText(chunks: seq<StreamChunk>): string {
    if chunks == [] then ""
    else
      var last := chunks[|chunks| - 1];
      ContentText(chunks[..|chunks| - 1]) + (if last.kind == Content && last.content.Some? then last.content.value else "")
  }

  /** The input counts reported by the completed events. */
  function ReportedInput(events: seq<Event>): int {
    if events == [] then 0
    else
      var e := events[|events| - 1];
      ReportedInput(events[..|events| - 1])
        + (if e.kind == Some(Completed) && e.usage.Some? then e.usage.value.inputTokens.GetOr(0) else 0)
  }

  /** The output counts reported by the completed events. */
  function ReportedOutput(events: seq<Event>): int {
    if events == [] then 0
    else
      var e := events[|events| - 1];
      ReportedOutput(events[..|events| - 1])
        + (if e.kind == Some(Completed) && e.usage.Some? then e.usage.value.outputTokens.GetOr(0) else 0)
  }

  predicate EveryCompletedReports(events: seq<Event>) {
    forall i :: 0 <= i < |events| && events[i].kind == Some(Completed) ==> events[i].usage.Some?
  }

  predicate ReportsNonNegative(events: seq<Event>) {
    forall i :: 0 <= i < |events| && events[i].usage.Some? ==>
      events[i].usage.value.inputTokens.GetOr(0) >= 0 && events[i].usage.value.outputTokens.GetOr(0) >= 0
  }

  lemma ContentTextAppend(chunks: seq<StreamChunk>, c: StreamChunk)
    ensures ContentText(chunks + [c]) == ContentText(chunks) + (if c.kind == Content && c.content.Some? then c.content.value else "")
  {
    assert (chunks + [c])[..|chunks|] == chunks;
  }

  lemma CountKindAppend(chunks: seq<StreamChunk>, c: StreamChunk, kind: ChunkKind)
    ensures CountKind(chunks + [c], kind) == CountKind(chunks, kind) + (if c.kind == kind then 1 else 0)
  {
    assert (chunks + [c])[..|chunks|] == chunks;
  }

  /**
   * Each non-empty text delta yields one content chunk carrying it, so the
   * content chunks spell out exactly `text_content`, the deltas in order.
   */
  lemma {:induction false} ContentIsDeltaText(events: seq<Event>, model: string, fallback: Pricing.Rates)
    ensures ContentText(Translate(events, model, fallback).chunks) == Translate(events, model, fallback).text == DeltaText(events)
    ensures CountKind(Translate(events, model, fallback).chunks, Content) == CountText(events)
  {
    if events != [] {
      var init := events[..|events| - 1];
      var e := events[|events| - 1];
      ContentIsDeltaText(init, model, fallback);
      var t := Translate(init, model, fallback);
      assert Translate(events, model, fallback) == Step(t, e, model, fallback);
      if e.kind == Some(TextDelta) && HasText(e) {
        ContentTextAppend(t.chunks, ContentChunk(e.delta.value));
        CountKindAppend(t.chunks, ContentChunk(e.delta.value), Content);
      } else if e.kind == Some(FunctionCallDelta) {
        ContentTextAppend(t.chunks, ToolCallsChunk(e.delta));
        CountKindAppend(t.chunks, ToolCallsChunk(e.delta), Content);
      } else if e.kind == Some(Completed) {
        ContentTextAppend(t.chunks, DoneChunk);
        CountKindAppend(t.chunks, DoneChunk, Content);
      }
    }
  }

  /**
   * One tool-calls chunk per function-call delta, one done chunk (status
   * "completed") per completed event, no error chunk, and nothing for any
   * other event.
   */
  lemma {:induction false} ChunksPerEvent(events: seq<Event>, model: string, fallback: Pricing.Rates)
    ensures var chunks := Translate(events, model, fallback).chunks;
      && CountKind(chunks, ToolCalls) == CountEvents(events, FunctionCallDelta)
      && CountKind(chunks, Done) == CountEvents(events, Completed)
      && CountKind(chunks, Error) == 0
      && |chunks| == CountText(events) + CountEvents(events, FunctionCallDelta) + CountEvents(events, Completed)
  {
    if events != [] {
      var init := events[..|events| - 1];
      var e := events[|events| - 1];
      ChunksPerEvent(init, model, fallback);
      var t := Translate(init, model, fallback);
      assert Translate(events, model, fallback) == Step(t, e, model, fallback);
      if e.kind == Some(TextDelta) {
        if HasText(e) {
          CountKindAppend(t.chunks, ContentChunk(e.delta.value), ToolCalls);
          CountKindAppend(t.chunks, ContentChunk(e.delta.value), Done);
          CountKindAppend(t.chunks, ContentChunk(e.delta.value), Error);
        }
      } else if e.kind == Some(FunctionCallDelta) {
        CountKindAppend(t.chunks, ToolCallsChunk(e.delta), ToolCalls);
        CountKindAppend(t.chunks, ToolCallsChunk(e.delta), Done);
        CountKindAppend(t.chunks, ToolCallsChunk(e.delta), Error);
      } else if e.kind == Some(Completed) {
        CountKindAppend(t.chunks, DoneChunk, ToolCalls);
        CountKindAppend(t.chunks, DoneChunk, Done);
        CountKindAppend(t.chunks, DoneChunk, Error);
      }
    }
  }

  /** Every chunk comes from the "openai" source, and every done chunk says "completed". */
  predicate FromOpenAI(chunks: seq<StreamChunk>) {
    forall i :: 0 <= i < |chunks| ==>
      chunks[i].source == Source && (chunks[i].kind == Done ==> chunks[i].status == Some("completed"))
  }

  lemma {:induction false} ChunksFromOpenAI(events: seq<Event>, model: string, fallback: Pricing.Rates)
    ensures FromOpenAI(Translate(events, model, fallback).chunks)
  {
    if events != [] {
      ChunksFromOpenAI(events[..|events| - 1], model, fallback);
    }
  }

  /**
   * When every completed event carries `usage`, the tokens added to the
   * backend are exactly the reported counts, missing attributes counting 0.
   */
  lemma {:induction false} AddedIsReported(events: seq<Event>, model: string, fallback: Pricing.Rates)
    requires EveryCompletedReports(events)
    ensures Translate(events, model, fallback).addedInput == ReportedInput(events)
    ensures Translate(events, model, fallback).addedOutput == ReportedOutput(events)
  {
    if events != [] {
      var init := events[..|events| - 1];
      assert EveryCompletedReports(init) by {
        forall i | 0 <= i < |init| && init[i].kind == Some(Completed) ensures init[i].usage.Some? {
          assert init[i] == events[i];
        }
      }
      AddedIsReported(init, model, fallback);
    }
  }

  /**
   * The loop-carried counts: a completed event without `usage` adds the
   * counts of the previous completed event once more.
   */
  lemma CompletedWithoutUsageRepeats(report: UsageReport, model: string, fallback: Pricing.Rates)
    ensures var events := [Event(Some(Completed), None, Some(report)), Event(Some(Completed), None, None)];
      Translate(events, model, fallback).addedInput == 2 * report.inputTokens.GetOr(0)
      && Translate(events, model, fallback).addedOutput == 2 * report.outputTokens.GetOr(0)
  {
    var events := [Event(Some(Completed), None, Some(report)), Event(Some(Completed), None, None)];
    assert events[..1][..0] == [];
    assert events[..1] == [events[0]];
    assert |Completed| != |TextDelta| && |Completed| != |FunctionCallDelta|;
    assert Translate(events[..1][..0], model, fallback) == Start;
    var first := Translate(events[..1], model, fallback);
    assert first == Step(Start, events[0], model, fallback);
    assert first.inputTokens == first.addedInput == report.inputTokens.GetOr(0);
    assert first.outputTokens == first.addedOutput == report.outputTokens.GetOr(0);
    assert Translate(events, model, fallback) == Step(first, events[1], model, fallback);
  }

  /** The usage of the last completed event that carried one; no counts before any. */
  function Carried(events: seq<Event>): UsageReport {
    if events == [] then UsageReport(None, None)
    else
      var e := events[|events| - 1];
      if e.kind == Some(Completed) && e.usage.Some? then e.usage.value else Carried(events[..|events| - 1])
  }

  /**
   * The general loop-carried rule: after any events the carried counts are
   * those of the last completed event with `usage` (0 before any), and a
   * completed event without `usage` charges exactly those counts once more.
   */
  lemma {:induction false} CarriedCounts(events: seq<Event>, e: Event, model: string, fallback: Pricing.Rates)
    ensures Translate(events, model, fallback).inputTokens == Carried(events).inputTokens.GetOr(0)
    ensures Translate(events, model, fallback).outputTokens == Carried(events).outputTokens.GetOr(0)
    ensures e.kind == Some(Completed) && e.usage.None? ==>
      var before := Translate(events, model, fallback);
      var after := Translate(events + [e], model, fallback);
      && after.addedInput == before.addedInput + Carried(events).inputTokens.GetOr(0)
      && after.addedOutput == before.addedOutput + Carried(events).outputTokens.GetOr(0)
  {
    if events != [] {
      CarriedCounts(events[..|events| - 1], events[|events| - 1], model, fallback);
    }
    assert (events + [e])[..|events|] == events;
  }

  /** A `usage` attribute holding None charges 0 tokens and no cost, and resets the carried counts. */
  lemma UsageNoneAddsZero(t: Translation, delta: Option<string>, model: string, fallback: Pricing.Rates)
    ensures var s := Step(t, Event(Some(Completed), delta, Some(UsageReport(None, None))), model, fallback);
      && s.inputTokens == 0 && s.outputTokens == 0
      && s.addedInput == t.addedInput && s.addedOutput == t.addedOutput && s.addedCost == t.addedCost
      && s.chunks == t.chunks + [DoneChunk]
  {
    assert |Completed| != |TextDelta| && |Completed| != |FunctionCallDelta|;
  }

  /** The contents of the tool-calls chunks, in order. */
  function ToolContents(chunks: seq<StreamChunk>): seq<Option<string>> {
    if chunks == [] then []
    else
      var last := chunks[|chunks| - 1];
      ToolContents(chunks[..|chunks| - 1]) + (if last.kind == ToolCalls then [last.content] else [])
  }

  /** The deltas of the function-call events, in order; None where an event has none. */
  function ToolDeltas(events: seq<Event>): seq<Option<string>> {
    if events == [] then []
    else
      var e := events[|events| - 1];
      ToolDeltas(events[..|events| - 1]) + (if e.kind == Some(FunctionCallDelta) then [e.delta] else [])
  }

  lemma ToolContentsAppend(chunks: seq<StreamChunk>, c: StreamChunk)
    ensures ToolContents(chunks + [c]) == ToolContents(chunks) + (if c.kind == ToolCalls then [c.content] else [])
  {
    assert (chunks + [c])[..|chunks|] == chunks;
  }

  /** The k-th tool-calls chunk carries the k-th function-call event's delta, or None. */
  lemma {:induction false} ToolCallsCarryDeltas(events: seq<Event>, model: string, fallback: Pricing.Rates)
    ensures ToolContents(Translate(events, model, fallback).chunks) == ToolDeltas(events)
  {
    if events != [] {
      var init := events[..|events| - 1];
      var e := events[|events| - 1];
      ToolCallsCarryDeltas(init, model, fallback);
      var t := Translate(init, model, fallback);
      assert Translate(events, model, fallback) == Step(t, e, model, fallback);
      if e.kind == Some(TextDelta) && HasText(e) {
        ToolContentsAppend(t.chunks, ContentChunk(e.delta.value));
      } else if e.kind == Some(FunctionCallDelta) {
        ToolContentsAppend(t.chunks, ToolCallsChunk(e.delta));
      } else if e.kind == Some(Completed) {
        ToolContentsAppend(t.chunks, DoneChunk);
      }
    }
  }

  /** The cost added over a stream is the cost of the tokens added. */
  lemma {:induction false} CostOfAddedTokens(events: seq<Event>, model: string, fallback: Pricing.Rates)
    ensures var t := Translate(events, model, fallback);
      t.addedCost == Pricing.CalculateCost(t.addedInput, t.addedOutput, model, fallback)
  {
    if events != [] {
      var init := events[..|events| - 1];
      var e := events[|events| - 1];
      CostOfAddedTokens(init, model, fallback);
      var t := Translate(init, model, fallback);
      if e.kind != Some(TextDelta) && e.kind != Some(FunctionCallDelta) && e.kind == Some(Completed) {
        var s := Step(t, e, model, fallback);
        Pricing.CostAdditive(t.addedInput, t.addedOutput, s.inputTokens, s.outputTokens, model, fallback);
      }
    }
  }

  /** Non-negative reports never make the added usage negative. */
  lemma {:induction false} AddedNonNegative(events: seq<Event>, model: string, fallback: Pricing.Rates)
    requires ReportsNonNegative(events) && Pricing.NonNegative(fallback)
    ensures var t := Translate(events, model, fallback);
      t.inputTokens >= 0 && t.outputTokens >= 0
      && t.addedInput >= 0 && t.addedOutput >= 0 && t.addedCost >= 0.0
  {
    if events != [] {
      var init := events[..|events| - 1];
      assert ReportsNonNegative(init) by {
        forall i | 0 <= i < |init| && init[i].usage.Some?
          ensures init[i].usage.value.inputTokens.GetOr(0) >= 0 && init[i].usage.value.outputTokens.GetOr(0) >= 0
        {
          assert init[i] == events[i];
        }
      }
      AddedNonNegative(init, model, fallback);
    }
  }

  /**
   * A failure, whether raised while building the request or while streaming,
   * ends the stream with exactly one error chunk from "openai"; without a
   * failure no error chunk is yielded. A failed request adds no usage.
   */
  lemma StreamErrorIsLast(model: string, config: Config, fallback: Pricing.Rates, messages: seq<Message>, tools: seq<Value>,
                          respond: Params -> Response)
    ensures var request := RequestParams(model, config, messages, tools);
      var failed := request.Failure? || respond(request.value).failure.Some?;
      var s := Streamed(model, config, fallback, messages, tools, respond);
      && CountKind(s.chunks, Error) == (if failed then 1 else 0)
      && (failed ==> s.chunks[|s.chunks| - 1].kind == Error && s.chunks[|s.chunks| - 1].source == Source)
      && (request.Failure? ==> s.chunks == [ErrorChunk(MissingContentError)] && s.addedInput == s.addedOutput == 0)
  {
    var request := RequestParams(model, config, messages, tools);
    var s := Streamed(model, config, fallback, messages, tools, respond);
    if request.Failure? {
      assert s.chunks == [] + [ErrorChunk(MissingContentError)];
      CountKindAppend([], ErrorChunk(MissingContentError), Error);
    } else {
      var response := respond(request.value);
      var t := Translate(response.events, model, fallback);
      ChunksPerEvent(response.events, model, fallback);
      if response.failure.Some? {
        CountKindAppend(t.chunks, ErrorChunk(response.failure.value), Error);
      }
    }
  }
}
