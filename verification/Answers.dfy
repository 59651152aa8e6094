/** What an answer holds in either form, read off from the events one by one. */
module Answers {
  import opened Text
  import opened Lines
  import opened Protocol
  import opened StreamModel
  import opened Agreement
  import Decimal

  // ---- What single events contribute ----

  function TextIn(e: Event): string {
    match e case TextDelta(text) => text case _ => ""
  }

  function ReasoningIn(e: Event): string {
    match e case ReasoningDelta(text) => text case _ => ""
  }

  /** A call as the upstream asks for it: its arguments are a text as it is, another value in its encoded form, or an empty
      object when there is no input. */
  function CallIn(e: Event): seq<BuiltCall> {
    match e
    case ToolCall(id, name, TextInput(text)) => [BuiltCall(id, name, text)]
    case ToolCall(id, name, JsonInput(json)) => [BuiltCall(id, name, json)]
    case ToolCall(id, name, NoInput) => [BuiltCall(id, name, "{}")]
    case _ => []
  }

  /** The calls are the asked ones, in order; `id` gives the id of the k-th, from the one it came with. */
  predicate AreCalls(id: (string, nat) -> string, calls: seq<BuiltCall>, asked: seq<BuiltCall>) {
    && |calls| == |asked|
    && forall k :: 0 <= k < |asked| ==>
         && calls[k].name == asked[k].name && calls[k].arguments == asked[k].arguments
         && calls[k].id == id(asked[k].id, k)
  }

  /** Text and reasoning are the deltas one after the other, and the calls are the ones asked for. */
  predicate Tells(id: (string, nat) -> string, text: string, reasoning: string, calls: seq<BuiltCall>, es: seq<Event>) {
    && text == FlatMap(TextIn, es) && reasoning == FlatMap(ReasoningIn, es)
    && AreCalls(id, calls, FlatMap(CallIn, es))
  }

  lemma AreCallsStep(
      id: (string, nat) -> string, calls: seq<BuiltCall>, asked: seq<BuiltCall>, call: BuiltCall, ask: BuiltCall)
    requires AreCalls(id, calls, asked)
    requires call.name == ask.name && call.arguments == ask.arguments && call.id == id(ask.id, |asked|)
    ensures AreCalls(id, calls + [call], asked + [ask])
  {
  }

  lemma TellsNothing(id: (string, nat) -> string)
    ensures Tells(id, "", "", [], [])
  {
  }

  /** One more event, in the terms of any of the two consumers. */
  lemma TellsStep(
      id: (string, nat) -> string, text: string, reasoning: string, calls: seq<BuiltCall>, es: seq<Event>, e: Event,
      text': string, reasoning': string, calls': seq<BuiltCall>)
    requires Tells(id, text, reasoning, calls, es)
    requires text' == text + TextIn(e) && reasoning' == reasoning + ReasoningIn(e)
    requires if e.ToolCall? then
               exists call ::
                 && calls' == calls + [call] && [call.(id := e.id)] == CallIn(e) && call.id == id(e.id, |calls|)
             else calls' == calls
    ensures Tells(id, text', reasoning', calls', es + [e])
  {
    FlatMapSnoc(TextIn, es, e);
    FlatMapSnoc(ReasoningIn, es, e);
    FlatMapSnoc(CallIn, es, e);
    if e.ToolCall? {
      var call :| calls' == calls + [call] && [call.(id := e.id)] == CallIn(e) && call.id == id(e.id, |calls|);
      AreCallsStep(id, calls, FlatMap(CallIn, es), call, call.(id := e.id));
    } else {
      assert FlatMap(CallIn, es) + [] == FlatMap(CallIn, es);
    }
  }

  // ---- The streamed form ----

  /** The answer `f` that has been streamed so far tells the events, and the emitter has counted its calls. */
  predicate StreamedTells(w: Wire, f: Answer, s: StreamView, es: seq<Event>) {
    s.toolCallIndex == |f.calls| && Tells(StreamedId(w), f.text, f.reasoning, f.calls, es)
  }

  lemma CallChunkTells(w: Wire, f: Answer, s: StreamView, es: seq<Event>, id: string, name: string, input: ToolInput)
    requires StreamedTells(w, f, s, es)
    ensures var (s', more) := StreamStep(w, s, ToolCall(id, name, input));
            |more| == 1 && StreamedTells(w, AddChunk(f, more[0]), s', es + [ToolCall(id, name, input)])
  {
    var e := ToolCall(id, name, input);
    var call := BuiltCall(StreamedId(w)(id, |f.calls|), name, Arguments(input));
    CallStep(w, s, ACC_START, f, id, name, input);
    AskedCall(call, e);
    TellsStep(StreamedId(w), f.text, f.reasoning, f.calls, es, e, f.text, f.reasoning, f.calls + [call]);
  }

  lemma ChunkTells(w: Wire, f: Answer, s: StreamView, es: seq<Event>, e: Event)
    requires !e.Failure? && StreamedTells(w, f, s, es)
    ensures var (s', more) := StreamStep(w, s, e);
            |more| <= 1 && StreamedTells(w, if more == [] then f else AddChunk(f, more[0]), s', es + [e])
  {
    if e.ToolCall? {
      CallChunkTells(w, f, s, es, e.id, e.name, e.input);
    } else {
      var (s', more) := StreamStep(w, s, e);
      var f' := if more == [] then f else AddChunk(f, more[0]);
      TellsStep(StreamedId(w), f.text, f.reasoning, f.calls, es, e, f'.text, f'.reasoning, f'.calls);
    }
  }

  lemma {:induction false} FoldTells(w: Wire, es: seq<Event>)
    requires ErrorFree(es)
    ensures StreamedTells(w, FoldChunks(StreamFold(w, es).1), StreamFold(w, es).0, es)
  {
    if es == [] {
      TellsNothing(StreamedId(w));
    } else {
      var front, last := es[..|es| - 1], es[|es| - 1];
      Snoc(es);
      ErrorFreeStep(front, last);
      FoldTells(w, front);
      FoldTellsStep(w, front, last);
    }
  }

  lemma FoldTellsStep(w: Wire, front: seq<Event>, last: Event)
    requires ErrorFree(front) && !last.Failure?
    requires StreamedTells(w, FoldChunks(StreamFold(w, front).1), StreamFold(w, front).0, front)
    ensures var (s, out) := StreamFold(w, front + [last]);
            StreamedTells(w, FoldChunks(out), s, front + [last])
  {
    var (s, out) := StreamFold(w, front);
    FoldsKeepErrors(w, front);
    StreamFoldStep(w, front, last);
    ChunkTells(w, FoldChunks(out), s, front, last);
    FoldChunksStep(out, StreamStep(w, s, last).1);
  }

  /** A streamed call keeps its id unless it came with an empty one. */
  function IdWhenStreamed(w: Wire): (string, nat) -> string {
    (id: string, k: nat) => if id != "" then id else StreamToolId(w, k)
  }

  lemma SameIdsSameCalls(
      id: (string, nat) -> string, id': (string, nat) -> string, text: string, reasoning: string, calls: seq<BuiltCall>,
      es: seq<Event>)
    requires Tells(id, text, reasoning, calls, es)
    requires forall given, k :: id(given, k) == id'(given, k)
    ensures Tells(id', text, reasoning, calls, es)
  {
  }

  /** Main result for the streamed form: the chunks add up to the text deltas, the reasoning deltas and the calls of the
      events before the first error, in order. */
  lemma StreamTells(w: Wire, es: seq<Event>)
    ensures var f := FoldChunks(StreamFold(w, es).1);
            Tells(IdWhenStreamed(w), f.text, f.reasoning, f.calls, BeforeError(es))
  {
    var f := FoldChunks(StreamFold(w, es).1);
    ErrorsSendNothing(w, es);
    BeforeErrorIsFree(es);
    FoldTells(w, BeforeError(es));
    SameIdsSameCalls(StreamedId(w), IdWhenStreamed(w), f.text, f.reasoning, f.calls, BeforeError(es));
  }

  lemma {:induction false} BeforeErrorIsFree(es: seq<Event>)
    ensures ErrorFree(BeforeError(es))
  {
    if es != [] && !es[0].Failure? {
      BeforeErrorIsFree(es[1..]);
    }
  }

  // ---- The buffered form ----

  lemma FeedCallTells(w: Wire, a: AccView, es: seq<Event>, id: string, name: string, input: ToolInput)
    requires Tells(BufferedId(w), a.fullText, a.thinkingText, a.toolCalls, es)
    ensures var a' := AccStep(w, a, ToolCall(id, name, input));
            Tells(BufferedId(w), a'.fullText, a'.thinkingText, a'.toolCalls, es + [ToolCall(id, name, input)])
  {
    var e := ToolCall(id, name, input);
    var call := BuiltCall(BufferedId(w)(id, |a.toolCalls|), name, Arguments(input));
    CallStep(w, STREAM_START, a, NO_ANSWER, id, name, input);
    AskedCall(call, e);
    TellsStep(BufferedId(w), a.fullText, a.thinkingText, a.toolCalls, es, e, a.fullText, a.thinkingText, a.toolCalls + [call]);
  }

  lemma AskedCall(call: BuiltCall, e: Event)
    requires e.ToolCall? && call.name == e.name && call.arguments == Arguments(e.input)
    ensures [call.(id := e.id)] == CallIn(e) && TextIn(e) == "" && ReasoningIn(e) == ""
  {
  }

  lemma FeedTells(w: Wire, a: AccView, es: seq<Event>, e: Event)
    requires Tells(BufferedId(w), a.fullText, a.thinkingText, a.toolCalls, es)
    ensures var a' := AccStep(w, a, e);
            Tells(BufferedId(w), a'.fullText, a'.thinkingText, a'.toolCalls, es + [e])
  {
    if e.ToolCall? {
      FeedCallTells(w, a, es, e.id, e.name, e.input);
    } else {
      var a' := AccStep(w, a, e);
      TellsStep(BufferedId(w), a.fullText, a.thinkingText, a.toolCalls, es, e, a'.fullText, a'.thinkingText, a'.toolCalls);
    }
  }

  lemma {:induction false} AccTells(w: Wire, es: seq<Event>)
    ensures var a := AccFold(w, es);
            Tells(BufferedId(w), a.fullText, a.thinkingText, a.toolCalls, es)
  {
    if es == [] {
      TellsNothing(BufferedId(w));
    } else {
      var front, last := es[..|es| - 1], es[|es| - 1];
      Snoc(es);
      AccTells(w, front);
      AccFoldStep(w, front, last);
      FeedTells(w, AccFold(w, front), front, last);
    }
  }

  /** A buffered call keeps its id unless that is blank. */
  function IdWhenBuffered(w: Wire): (string, nat) -> string {
    (id: string, k: nat) => if !Blank(id) then id else "call_" + FormatInt(w.clock(k))
  }

  lemma BufferedIdIs(w: Wire, id: string, k: nat)
    ensures BufferedId(w)(id, k) == IdWhenBuffered(w)(id, k)
  {
    var made := "call_" + FormatInt(w.clock(k));
    SolidStart(made);
    FirstOfTwo(id, made);
  }

  /** Main result for the buffered form: the completion holds all text deltas, all reasoning deltas and all calls, in
      order. */
  lemma BufferTells(w: Wire, es: seq<Event>)
    ensures var c := Build(AccFold(w, es));
            Tells(IdWhenBuffered(w), OrEmpty(c.content), OrEmpty(c.reasoning), c.toolCalls, es)
  {
    var a := AccFold(w, es);
    AccTells(w, es);
    forall id, k
      ensures BufferedId(w)(id, k) == IdWhenBuffered(w)(id, k)
    {
      BufferedIdIs(w, id, k);
    }
    SameIdsSameCalls(BufferedId(w), IdWhenBuffered(w), a.fullText, a.thinkingText, a.toolCalls, es);
  }

  /** The clock reading in a made-up id can be read back. */
  lemma FormatRoundTrip(i: int)
    ensures Decimal.Parse(FormatInt(i)) == Some(i)
  {
    if i == 0 {
      Decimal.ShownRoundTrip(0);
    } else {
      Decimal.ParseOfDigits(if i < 0 then -i else i);
    }
  }

  // ---- How an answer ends ----

  function ReasonShown(reason: string): string {
    if reason != "pause_turn" then reason else "length"
  }

  /** Usage without output counts for nothing; otherwise the numbers lose their fractions, and the total is that of input
      and output. */
  function CountsShown(used: Option<Usage>): OpenAIUsage {
    if used == None || used.value.output == 0.0 then OpenAIUsage(0, 0, 0, 0)
    else
      var prompt, completion := Truncate(used.value.input), Truncate(used.value.output);
      OpenAIUsage(prompt, completion, prompt + completion, Truncate(used.value.cached))
  }

  lemma UsageIsShown(used: Option<Usage>)
    ensures ToOpenAIUsage(Normalized(used)) == CountsShown(used)
  {
  }

  lemma ReasonIsShown(reason: string)
    ensures ToOpenAIFinishReason(reason) == ReasonShown(reason)
  {
  }

  /** Truncation is towards zero. */
  lemma TruncateMeans(x: real)
    ensures x >= 0.0 ==> 0 <= Truncate(x) && Truncate(x) as real <= x < Truncate(x) as real + 1.0
    ensures Truncate(-x) == -Truncate(x)
  {
  }

  /** The answer shows what the last of these events, a `finish`, leads to: the last step reason before its own, and the
      usage known by then. */
  predicate EndsLike(w: Wire, a: Answer, p: seq<Event>) {
    && p != [] && p[|p| - 1].Finish?
    && a.finish == Some(ReasonShown(Mapped(w, StepReason(p), w.finish(p[|p| - 1].reason))))
    && a.usage == Some(CountsShown(LastUsage(p)))
  }

  /** Main result: an answer that is delivered as a stream tells all events of the stream, the one of an open last line
      included; it ends with the last step reason, or failing that the reason of the last `finish`, and with the usage known
      by then. */
  lemma DeliveredStreamTells(w: Wire, b: Bytes, timeouts: nat, a: Answer)
    requires forall r :: w.finish(r) != ""
    requires StreamedOutcome(StreamItems(w, b, Closed, timeouts)) == Delivered(a)
    ensures var es := Events(w, Split(b));
            && Tells(IdWhenStreamed(w), a.text, a.reasoning, a.calls, es)
            && EndsLike(w, a, ToLastFinish(es))
  {
    var es := Events(w, Split(b));
    StreamedIsEventsStreamed(w, b, timeouts);
    StreamVerdictRead(w, es);
    NoErrorMeansErrorFree(w, es);
    StreamTells(w, es);
    FreeIsBeforeError(es);
    FinishChunkShows(w, es);
    LastFinishEnds(w, es, a);
  }

  lemma LastFinishEnds(w: Wire, es: seq<Event>, a: Answer)
    requires StreamedError(w, es) == None && a.finish == FinishShown(w, es) && a.usage == UsageShown(es)
    ensures EndsLike(w, a, ToLastFinish(es))
  {
    var p := ToLastFinish(es);
    ToLastFinishEnds(es);
    UsageIsShown(LastUsage(p));
    if p != [] {
      ReasonIsShown(Mapped(w, StepReason(p), w.finish(p[|p| - 1].reason)));
    }
  }

  lemma {:induction false} FreeIsBeforeError(es: seq<Event>)
    ensures ErrorFree(es) ==> BeforeError(es) == es
  {
    if es != [] {
      BeforeErrorStep(es[..|es| - 1], es[|es| - 1]);
      Snoc(es);
      ErrorFreeStep(es[..|es| - 1], es[|es| - 1]);
    }
  }

  /** And one that is delivered in one piece tells all events of the terminated lines; it ends with the last reason and the
      last usage that any finishing event gives. */
  lemma DeliveredBufferTells(w: Wire, b: Bytes, timeouts: nat, a: Answer)
    requires BufferedOutcome(CollectResult(w, b, Closed, timeouts)) == Delivered(a)
    ensures var es := Events(w, Complete(b));
            && Tells(IdWhenBuffered(w), a.text, a.reasoning, a.calls, es)
            && a.finish == Some(ReasonShown(Mapped(w, AnyReason(es), "stop")))
            && a.usage == Some(CountsShown(LastUsage(es)))
  {
    var es := Events(w, Complete(b));
    AccVerdictRead(w, es);
    BufferTells(w, es);
    FoldsKeepErrors(w, es);
    FoldsKeepFinish(w, es);
    ReasonIsShown(Mapped(w, AnyReason(es), "stop"));
    UsageIsShown(LastUsage(es));
  }
}
