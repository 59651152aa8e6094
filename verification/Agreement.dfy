/** When the streamed form and the buffered form of one upstream stream tell the client the same thing. */
module Agreement {
  import opened Text
  import opened Lines
  import opened Protocol
  import opened StreamModel
  import Decimal

  // ---- What a client makes of each form ----

  datatype Answer = Answer(
    text: string, reasoning: string, calls: seq<BuiltCall>, finish: Option<string>, usage: Option<OpenAIUsage>)

  datatype Outcome = Delivered(answer: Answer) | Refused(error: Error)

  const NO_ANSWER := Answer("", "", [], None, None)

  /** A client adds up the deltas; of several finish chunks the last one counts. */
  function AddChunk(f: Answer, c: OutChunk): Answer {
    f.(text := if c.delta.content.Is? then f.text + c.delta.content.text else f.text,
       reasoning := if c.delta.reasoning.Some? then f.reasoning + c.delta.reasoning.value else f.reasoning,
       calls := match c.delta.tool
                case None => f.calls
                case Some(t) => f.calls + [BuiltCall(t.id, t.name, t.arguments)],
       finish := if c.finish.Some? then c.finish else f.finish,
       usage := if c.usage.Some? then c.usage else f.usage)
  }

  function FoldChunks(chunks: seq<OutChunk>): Answer {
    if chunks == [] then NO_ANSWER else AddChunk(FoldChunks(chunks[..|chunks| - 1]), chunks[|chunks| - 1])
  }

  function FoldItems(items: seq<Item>): Answer {
    if items == [] then NO_ANSWER
    else
      match items[|items| - 1]
      case Sent(chunk) => AddChunk(FoldItems(items[..|items| - 1]), chunk)
      case Failed(_) => FoldItems(items[..|items| - 1])
  }

  function StreamedOutcome(items: seq<Item>): Outcome {
    if items != [] && items[|items| - 1].Failed? then Refused(items[|items| - 1].error) else Delivered(FoldItems(items))
  }

  function BufferedOutcome(r: Result<Completion, Error>): Outcome {
    match r
    case Err(error) => Refused(error)
    case Ok(c) => Delivered(Answer(OrEmpty(c.content), OrEmpty(c.reasoning), c.toolCalls, Some(c.finish), Some(c.usage)))
  }

  // ---- What the events say, read off from the end ----

  function FirstError(es: seq<Event>): Option<UpstreamError> {
    if es == [] then None else if es[0].Failure? then Some(es[0].error) else FirstError(es[1..])
  }

  function LastError(es: seq<Event>): Option<UpstreamError> {
    if es == [] then None
    else if es[|es| - 1].Failure? then Some(es[|es| - 1].error)
    else LastError(es[..|es| - 1])
  }

  predicate ErrorFree(es: seq<Event>) {
    forall k :: 0 <= k < |es| ==> !es[k].Failure?
  }

  predicate Finishes(es: seq<Event>) {
    exists k :: 0 <= k < |es| && (es[k].Finish? || es[k].FinishStep?)
  }

  /** The last reason that a `finish-step` gives. */
  function StepReason(es: seq<Event>): Option<string> {
    if es == [] then None
    else
      var e := es[|es| - 1];
      if e.FinishStep? && e.reason != "" then Some(e.reason) else StepReason(es[..|es| - 1])
  }

  /** The last reason that any finishing event gives. */
  function AnyReason(es: seq<Event>): Option<string> {
    if es == [] then None
    else
      var e := es[|es| - 1];
      if (e.FinishStep? || e.Finish?) && e.reason != "" then Some(e.reason) else AnyReason(es[..|es| - 1])
  }

  /** The last usage that any finishing event gives. */
  function LastUsage(es: seq<Event>): Option<Usage> {
    if es == [] then None
    else
      var e := es[|es| - 1];
      if (e.FinishStep? || e.Finish?) && e.usage.Some? then e.usage else LastUsage(es[..|es| - 1])
  }

  /** The events up to and including the last `finish`; none without one. */
  function ToLastFinish(es: seq<Event>): seq<Event> {
    if es == [] || es[|es| - 1].Finish? then es else ToLastFinish(es[..|es| - 1])
  }

  /** The ids of the tool calls as the upstream sent them. */
  function CallIds(es: seq<Event>): seq<string> {
    if es == [] then []
    else CallIds(es[..|es| - 1]) + if es[|es| - 1].ToolCall? then [es[|es| - 1].id] else []
  }

  function Mapped(w: Wire, reason: Option<string>, absent: string): string {
    match reason case None => absent case Some(r) => w.finish(r)
  }

  lemma {:induction false} ToLastFinishEnds(es: seq<Event>)
    ensures ToLastFinish(es) != [] ==> ToLastFinish(es)[|ToLastFinish(es)| - 1].Finish?
  {
    if es != [] && !es[|es| - 1].Finish? {
      ToLastFinishEnds(es[..|es| - 1]);
    }
  }

  /** The reason on the last finish chunk: a `finish-step` reason beats the one on the `finish` itself. */
  function FinishShown(w: Wire, es: seq<Event>): Option<string> {
    var p := ToLastFinish(es);
    ToLastFinishEnds(es);
    if p == [] then None
    else Some(ToOpenAIFinishReason(Mapped(w, StepReason(p), w.finish(p[|p| - 1].reason))))
  }

  function UsageShown(es: seq<Event>): Option<OpenAIUsage> {
    var p := ToLastFinish(es);
    if p == [] then None else Some(ToOpenAIUsage(Normalized(LastUsage(p))))
  }

  /** The error a form ends with, from the upstream error it holds, whether an event finished, the reason it goes by, and
      the usage it counts. */
  function ClosingError(error: Option<UpstreamError>, finishes: bool, reason: string, used: Option<Usage>): Option<Error> {
    if error.Some? then Some(FromUpstream(error.value))
    else if IncompleteDetail(finishes, reason) != "" then Some(Truncated(IncompleteDetail(finishes, reason)))
    else if Tokens(used) == 0 then Some(EMPTY_RESPONSE)
    else None
  }

  function StreamedError(w: Wire, es: seq<Event>): Option<Error> {
    ClosingError(FirstError(es), Finishes(es), Mapped(w, StepReason(es), ""), LastUsage(ToLastFinish(es)))
  }

  function BufferedError(w: Wire, es: seq<Event>): Option<Error> {
    ClosingError(LastError(es), Finishes(es), Mapped(w, AnyReason(es), "stop"), LastUsage(es))
  }

  /** The event adds nothing to the answer, except perhaps how it finished. */
  predicate Silent(e: Event) {
    match e
    case TextDelta(text) => text == ""
    case ReasoningDelta(text) => text == ""
    case ToolCall(_, _, _) => false
    case Failure(_) => false
    case _ => true
  }

  predicate AllGiven(ids: seq<string>) {
    forall k :: 0 <= k < |ids| ==> !Blank(ids[k])
  }

  /** The exact condition for agreement, on the events alone: `closed` are the events of the terminated lines, and `rest`
      the event of what follows them, if it is one. */
  predicate Agreeing(w: Wire, closed: seq<Event>, rest: seq<Event>) {
    var read := closed + rest;
    if StreamedError(w, read).Some? || BufferedError(w, closed).Some? then
      StreamedError(w, read) == BufferedError(w, closed)
    else
      && (forall k :: 0 <= k < |rest| ==> Silent(rest[k]))
      && AllGiven(CallIds(closed))
      && FinishShown(w, read) == Some(ToOpenAIFinishReason(Mapped(w, AnyReason(closed), "stop")))
      && UsageShown(read) == Some(ToOpenAIUsage(Normalized(LastUsage(closed))))
  }

  // ---- One more event ----

  predicate IsFinishing(e: Event) {
    e.Finish? || e.FinishStep?
  }

  lemma FinishesStep(es: seq<Event>, e: Event)
    ensures Finishes(es + [e]) == (Finishes(es) || IsFinishing(e))
  {
    var all := es + [e];
    if Finishes(es) {
      var k :| 0 <= k < |es| && (es[k].Finish? || es[k].FinishStep?);
      assert all[k] == es[k];
    }
    assert all[|es|] == e;
  }

  lemma ReasonsStep(es: seq<Event>, e: Event)
    ensures StepReason(es + [e]) == if e.FinishStep? && e.reason != "" then Some(e.reason) else StepReason(es)
    ensures AnyReason(es + [e]) == if IsFinishing(e) && e.reason != "" then Some(e.reason) else AnyReason(es)
    ensures LastUsage(es + [e]) == if IsFinishing(e) && e.usage.Some? then e.usage else LastUsage(es)
  {
    assert (es + [e])[..|es|] == es;
  }

  lemma ToLastFinishStep(es: seq<Event>, e: Event)
    ensures ToLastFinish(es + [e]) == if e.Finish? then es + [e] else ToLastFinish(es)
  {
    assert (es + [e])[..|es|] == es;
  }

  lemma CallIdsStep(es: seq<Event>, e: Event)
    ensures CallIds(es + [e]) == if e.ToolCall? then CallIds(es) + [e.id] else CallIds(es)
  {
    assert (es + [e])[..|es|] == es;
  }

  lemma FoldChunksStep(out: seq<OutChunk>, more: seq<OutChunk>)
    requires |more| <= 1
    ensures FoldChunks(out + more) == if more == [] then FoldChunks(out) else AddChunk(FoldChunks(out), more[0])
  {
    if more == [] {
      assert out + more == out;
    } else {
      assert (out + more)[..|out|] == out;
    }
  }

  lemma {:induction false} FirstErrorStep(es: seq<Event>, e: Event)
    ensures FirstError(es + [e]) ==
            if FirstError(es).Some? then FirstError(es) else if e.Failure? then Some(e.error) else None
  {
    if es != [] {
      FirstErrorStep(es[1..], e);
      assert (es + [e])[1..] == es[1..] + [e];
    }
  }

  lemma ErrorFreeStep(es: seq<Event>, e: Event)
    ensures ErrorFree(es + [e]) <==> ErrorFree(es) && !e.Failure?
    ensures LastError(es + [e]) == if e.Failure? then Some(e.error) else LastError(es)
  {
    assert (es + [e])[..|es|] == es;
    assert forall k :: 0 <= k < |es| ==> (es + [e])[k] == es[k];
    assert (es + [e])[|es|] == e;
  }

  // ---- The emitter's and the accumulator's state in those terms ----

  lemma {:induction false} ErrorFreeMeansNone(es: seq<Event>)
    ensures ErrorFree(es) <==> FirstError(es) == None
    ensures ErrorFree(es) <==> LastError(es) == None
  {
    if es != [] {
      var front, last := es[..|es| - 1], es[|es| - 1];
      Snoc(es);
      ErrorFreeMeansNone(front);
      FirstErrorStep(front, last);
      ErrorFreeStep(front, last);
    }
  }

  lemma {:induction false} StreamKeepsFirstError(w: Wire, es: seq<Event>)
    ensures StreamFold(w, es).0.upstreamError == FirstError(es)
  {
    if es != [] {
      var front, last := es[..|es| - 1], es[|es| - 1];
      Snoc(es);
      StreamKeepsFirstError(w, front);
      FirstErrorStep(front, last);
      StreamFoldStep(w, front, last);
    }
  }

  lemma {:induction false} AccKeepsLastError(w: Wire, es: seq<Event>)
    ensures AccFold(w, es).upstreamError == LastError(es)
  {
    if es != [] {
      var front, last := es[..|es| - 1], es[|es| - 1];
      Snoc(es);
      AccKeepsLastError(w, front);
      ErrorFreeStep(front, last);
      AccFoldStep(w, front, last);
    }
  }

  /** The emitter reports the first error event, the accumulator the last. */
  lemma FoldsKeepErrors(w: Wire, es: seq<Event>)
    ensures StreamFold(w, es).0.upstreamError == FirstError(es)
    ensures AccFold(w, es).upstreamError == LastError(es)
    ensures ErrorFree(es) <==> FirstError(es) == None
    ensures ErrorFree(es) <==> LastError(es) == None
  {
    StreamKeepsFirstError(w, es);
    AccKeepsLastError(w, es);
    ErrorFreeMeansNone(es);
  }

  predicate FinishMatches(
      w: Wire, s: StreamView, a: AccView, finishes: bool, step: Option<string>, any: Option<string>,
      used: Option<Usage>, usedAtFinish: Option<Usage>)
  {
    && s.sawFinish == a.sawFinish == finishes
    && s.finishReason == Mapped(w, step, "")
    && a.finishReason == Mapped(w, any, "stop")
    && a.usage == used && Normalized(s.usage) == Normalized(used)
    && s.outputTokens == Tokens(usedAtFinish)
  }

  lemma FinishMatchesStep(
      w: Wire, s: StreamView, a: AccView, finishes: bool, step: Option<string>, any: Option<string>,
      used: Option<Usage>, usedAtFinish: Option<Usage>, e: Event)
    requires !e.Failure? && FinishMatches(w, s, a, finishes, step, any, used, usedAtFinish)
    ensures var used' := if IsFinishing(e) && e.usage.Some? then e.usage else used;
            FinishMatches(
              w, StreamStep(w, s, e).0, AccStep(w, a, e), finishes || IsFinishing(e),
              if e.FinishStep? && e.reason != "" then Some(e.reason) else step,
              if IsFinishing(e) && e.reason != "" then Some(e.reason) else any,
              used', if e.Finish? then used' else usedAtFinish)
  {
  }

  /** What the two states hold after any error-free events. */
  lemma {:induction false} FoldsKeepFinish(w: Wire, es: seq<Event>)
    requires ErrorFree(es)
    ensures FinishMatches(w, StreamFold(w, es).0, AccFold(w, es), Finishes(es), StepReason(es), AnyReason(es),
                          LastUsage(es), LastUsage(ToLastFinish(es)))
  {
    if es != [] {
      var front, last := es[..|es| - 1], es[|es| - 1];
      assert es == front + [last];
      FoldsKeepErrors(w, front);
      ErrorFreeStep(front, last);
      FoldsKeepFinish(w, front);
      FinishMatchesStep(w, StreamFold(w, front).0, AccFold(w, front), Finishes(front), StepReason(front),
                        AnyReason(front), LastUsage(front), LastUsage(ToLastFinish(front)), last);
      StreamFoldStep(w, front, last);
      AccFoldStep(w, front, last);
      FinishesStep(front, last);
      ReasonsStep(front, last);
      ToLastFinishStep(front, last);
    }
  }

  /** The id each form gives to the k-th call, from the id the call came with. */
  function StreamedId(w: Wire): (string, nat) -> string {
    (id: string, k: nat) => if id == "" then StreamToolId(w, k) else id
  }

  function BufferedId(w: Wire): (string, nat) -> string {
    (id: string, k: nat) => BufferedToolId(w, id, k)
  }

  /** Call by call the two forms agree on name and arguments, and give the ids they should. */
  predicate CallsMatch(
      inStream: (string, nat) -> string, inBuffer: (string, nat) -> string,
      calls: seq<BuiltCall>, built: seq<BuiltCall>, ids: seq<string>)
  {
    && |calls| == |built| == |ids|
    && forall k :: 0 <= k < |ids| ==>
         && calls[k].name == built[k].name && calls[k].arguments == built[k].arguments
         && calls[k].id == inStream(ids[k], k) && built[k].id == inBuffer(ids[k], k)
  }

  lemma CallsMatchStep(
      inStream: (string, nat) -> string, inBuffer: (string, nat) -> string, calls: seq<BuiltCall>, built: seq<BuiltCall>,
      ids: seq<string>, id: string, name: string, arguments: string)
    requires CallsMatch(inStream, inBuffer, calls, built, ids)
    ensures CallsMatch(
              inStream, inBuffer, calls + [BuiltCall(inStream(id, |ids|), name, arguments)],
              built + [BuiltCall(inBuffer(id, |ids|), name, arguments)], ids + [id])
  {
  }

  predicate ContentMatches(w: Wire, clock: nat -> int, f: Answer, calls: nat, a: AccView, ids: seq<string>) {
    && f.text == a.fullText && f.reasoning == a.thinkingText
    && calls == |ids| && CallsMatch(StreamedId(w), BufferedId(w.(clock := clock)), f.calls, a.toolCalls, ids)
  }

  lemma CallStep(w: Wire, s: StreamView, a: AccView, f: Answer, id: string, name: string, input: ToolInput)
    ensures var (s', more) := StreamStep(w, s, ToolCall(id, name, input));
            && |more| == 1 && s'.toolCallIndex == s.toolCallIndex + 1
            && AddChunk(f, more[0]) ==
               f.(calls := f.calls + [BuiltCall(StreamedId(w)(id, s.toolCallIndex), name, Arguments(input))])
    ensures AccStep(w, a, ToolCall(id, name, input)) ==
            a.(toolCalls := a.toolCalls + [BuiltCall(BufferedId(w)(id, |a.toolCalls|), name, Arguments(input))])
  {
  }

  lemma ContentMatchesStep(
      w: Wire, clock: nat -> int, f: Answer, s: StreamView, a: AccView, ids: seq<string>, e: Event)
    requires !e.Failure? && ContentMatches(w, clock, f, s.toolCallIndex, a, ids)
    ensures var (s', more) := StreamStep(w, s, e);
            && |more| <= 1
            && ContentMatches(w, clock, if more == [] then f else AddChunk(f, more[0]), s'.toolCallIndex,
                              AccStep(w.(clock := clock), a, e), if e.ToolCall? then ids + [e.id] else ids)
  {
    var w' := w.(clock := clock);
    match e {
      case TextDelta(text) =>
        assert text == "" ==> a.fullText + text == a.fullText;
      case ReasoningDelta(text) =>
        assert text == "" ==> a.thinkingText + text == a.thinkingText;
      case ToolCall(id, name, input) =>
        CallStep(w, s, a, f, id, name, input);
        CallStep(w', s, a, f, id, name, input);
        CallsMatchStep(StreamedId(w), BufferedId(w'), f.calls, a.toolCalls, ids, id, name, Arguments(input));
      case _ =>
    }
  }

  /** Text, reasoning and the calls' names and arguments always agree, whatever the finishing events say. */
  lemma {:induction false} ContentAgrees(w: Wire, clock: nat -> int, es: seq<Event>)
    requires ErrorFree(es)
    ensures ContentMatches(w, clock, FoldChunks(StreamFold(w, es).1), StreamFold(w, es).0.toolCallIndex,
                           AccFold(w.(clock := clock), es), CallIds(es))
  {
    if es != [] {
      var front, last := es[..|es| - 1], es[|es| - 1];
      assert es == front + [last];
      var (s, out) := StreamFold(w, front);
      FoldsKeepErrors(w, front);
      ErrorFreeStep(front, last);
      ContentAgrees(w, clock, front);
      ContentMatchesStep(w, clock, FoldChunks(out), s, AccFold(w.(clock := clock), front), CallIds(front), last);
      StreamFoldStep(w, front, last);
      AccFoldStep(w.(clock := clock), front, last);
      FoldChunksStep(out, StreamStep(w, s, last).1);
      CallIdsStep(front, last);
    }
  }

  lemma FinishShownStep(w: Wire, es: seq<Event>, e: Event)
    ensures FinishShown(w, es + [e]) ==
            if e.Finish? then Some(ToOpenAIFinishReason(Mapped(w, StepReason(es), w.finish(e.reason))))
            else FinishShown(w, es)
    ensures UsageShown(es + [e]) ==
            if e.Finish? then Some(ToOpenAIUsage(Normalized(if e.usage.Some? then e.usage else LastUsage(es))))
            else UsageShown(es)
  {
    ToLastFinishStep(es, e);
    ReasonsStep(es, e);
    ToLastFinishEnds(es);
    ToLastFinishEnds(es + [e]);
  }

  lemma FinishChunkStep(w: Wire, f: Answer, s: StreamView, e: Event, step: Option<string>, used: Option<Usage>)
    requires (forall r :: w.finish(r) != "") && !e.Failure?
    requires s.finishReason == Mapped(w, step, "") && Normalized(s.usage) == Normalized(used)
    ensures var more := StreamStep(w, s, e).1;
            var f' := if more == [] then f else AddChunk(f, more[0]);
            && |more| <= 1
            && f'.finish == (if e.Finish? then Some(ToOpenAIFinishReason(Mapped(w, step, w.finish(e.reason)))) else f.finish)
            && f'.usage == if e.Finish? then Some(ToOpenAIUsage(Normalized(if e.usage.Some? then e.usage else used)))
                           else f.usage
  {
  }

  lemma {:induction false} FinishChunkShows(w: Wire, es: seq<Event>)
    requires forall r :: w.finish(r) != ""
    requires ErrorFree(es)
    ensures FoldChunks(StreamFold(w, es).1).finish == FinishShown(w, es)
    ensures FoldChunks(StreamFold(w, es).1).usage == UsageShown(es)
  {
    if es != [] {
      var front, last := es[..|es| - 1], es[|es| - 1];
      assert es == front + [last];
      var (s, out) := StreamFold(w, front);
      FoldsKeepErrors(w, front);
      ErrorFreeStep(front, last);
      FoldsKeepFinish(w, front);
      FinishChunkShows(w, front);
      FinishChunkStep(w, FoldChunks(out), s, last, StepReason(front), LastUsage(front));
      StreamFoldStep(w, front, last);
      FoldChunksStep(out, StreamStep(w, s, last).1);
      FinishShownStep(w, front, last);
    }
  }

  // ---- Tool ids ----

  lemma {:induction false} DigitsHaveNoUnderscore(n: nat)
    ensures '_' !in Decimal.Digits(n)
  {
    if n > 0 {
      DigitsHaveNoUnderscore(n / 10);
    }
  }

  lemma FormatHasNoUnderscore(i: int)
    ensures '_' !in FormatInt(i)
  {
    DigitsHaveNoUnderscore(if i < 0 then -i else i);
  }

  /** Both forms give a call the same id exactly when the upstream gave it a non-blank one, whatever their clocks read. */
  lemma IdsAgreeIffGiven(w: Wire, clock: nat -> int, id: string, k: nat)
    ensures (if id == "" then StreamToolId(w, k) else id) == BufferedToolId(w.(clock := clock), id, k) <==> !Blank(id)
  {
    var made := "call_" + FormatInt(clock(k));
    FirstOfTwo(id, made);
    SolidStart(made);
    BlankIffAllSpaces(id);
    if id == "" {
      var head := "call_" + FormatInt(w.clock(k));
      assert StreamToolId(w, k)[|head|] == '_';
      FormatHasNoUnderscore(clock(k));
      if |head| < |made| {
        assert made[|head|] == FormatInt(clock(k))[|head| - 5];
      }
    } else if Blank(id) {
      assert IsSpace(id[0]);
    }
  }

  /** The place of the second underscore pins down what stands before and after it. */
  lemma UnderscoreSplits(a: string, m: string, b: string, n: string)
    requires '_' !in a && '_' !in b
    requires a + "_" + m == b + "_" + n
    ensures m == n
  {
    var x, y := a + "_" + m, b + "_" + n;
    assert x[|a|] == '_' && y[|b|] == '_';
    assert |a| == |b|;
    assert m == x[|a| + 1..] && n == y[|b| + 1..];
  }

  /** Ids made up within one stream differ from each other, whatever the clock reads. */
  lemma StreamToolIdsDistinct(w: Wire, i: nat, j: nat)
    requires i < j <= Decimal.MAX_INT64
    ensures StreamToolId(w, i) != StreamToolId(w, j)
  {
    Decimal.ShownInjective(ToInt64(i), ToInt64(j));
    FormatHasNoUnderscore(w.clock(i));
    FormatHasNoUnderscore(w.clock(j));
    JoinedDiffer(FormatInt(w.clock(i)), Decimal.Shown(ToInt64(i)), FormatInt(w.clock(j)), Decimal.Shown(ToInt64(j)));
  }

  lemma JoinedDiffer(a: string, m: string, b: string, n: string)
    requires '_' !in a && '_' !in b && m != n
    ensures "call_" + a + "_" + m != "call_" + b + "_" + n
  {
    var x, y := "call_" + a + "_" + m, "call_" + b + "_" + n;
    assert x[5..] == a + "_" + m && y[5..] == b + "_" + n;
    if x == y {
      UnderscoreSplits(a, m, b, n);
    }
  }

  // ---- The two outcomes ----

  function EventsStreamed(w: Wire, es: seq<Event>): Outcome {
    var (s, out) := StreamFold(w, es);
    match StreamVerdict(s) case Some(error) => Refused(error) case None => Delivered(FoldChunks(out))
  }

  function EventsBuffered(w: Wire, es: seq<Event>): Outcome {
    var a := AccFold(w, es);
    match AccVerdict(a)
    case Some(error) => Refused(error)
    case None => BufferedOutcome(Ok(Build(a)))
  }

  lemma {:induction false} FoldItemsOfPayloads(chunks: seq<OutChunk>)
    ensures FoldItems(Payloads(chunks)) == FoldChunks(chunks)
  {
    if chunks != [] {
      var n := |chunks| - 1;
      FoldItemsOfPayloads(chunks[..n]);
      assert Payloads(chunks)[..n] == Payloads(chunks[..n]);
    }
  }

  lemma ClosedRunReadsAll(w: Wire, b: Bytes)
    ensures StreamRun(w, b, Closed) == StreamFold(w, Events(w, Split(b)))
  {
    var closed := Events(w, Complete(b));
    if StreamFold(w, closed).0.upstreamError.Some? {
      StreamFoldStops(w, closed, LineEvents(w, Tail(b)));
    }
  }

  lemma OutcomeOfItems(out: seq<OutChunk>, verdict: Option<Error>)
    ensures StreamedOutcome(Payloads(out) + ErrItems(verdict)) ==
            match verdict case Some(error) => Refused(error) case None => Delivered(FoldChunks(out))
  {
    FoldItemsOfPayloads(out);
    assert Payloads(out) + [] == Payloads(out);
  }

  lemma StreamedIsEventsStreamed(w: Wire, b: Bytes, timeouts: nat)
    ensures StreamedOutcome(StreamItems(w, b, Closed, timeouts)) == EventsStreamed(w, Events(w, Split(b)))
  {
    ClosedRunReadsAll(w, b);
    var (s, out) := StreamRun(w, b, Closed);
    OutcomeOfItems(out, StreamVerdict(s));
  }

  lemma BufferedIsEventsBuffered(w: Wire, b: Bytes, timeouts: nat)
    ensures BufferedOutcome(CollectResult(w, b, Closed, timeouts)) == EventsBuffered(w, Events(w, Complete(b)))
  {
  }

  lemma CallsAgreeIff(w: Wire, clock: nat -> int, calls: seq<BuiltCall>, built: seq<BuiltCall>, ids: seq<string>)
    requires CallsMatch(StreamedId(w), BufferedId(w.(clock := clock)), calls, built, ids)
    ensures calls == built <==> AllGiven(ids)
  {
    forall k | 0 <= k < |ids|
      ensures calls[k] == built[k] <==> !Blank(ids[k])
    {
      IdsAgreeIffGiven(w, clock, ids[k], k);
    }
  }

  lemma BuiltAnswer(a: AccView)
    ensures BufferedOutcome(Ok(Build(a))) ==
            Delivered(Answer(a.fullText, a.thinkingText, a.toolCalls, Some(ToOpenAIFinishReason(a.finishReason)),
                             Some(ToOpenAIUsage(Normalized(a.usage)))))
  {
  }

  lemma ErrorFreeFront(closed: seq<Event>, rest: seq<Event>)
    requires ErrorFree(closed + rest)
    ensures ErrorFree(closed)
  {
    assert forall k :: 0 <= k < |closed| ==> (closed + rest)[k] == closed[k];
  }

  /** What one more event does to the streamed text, reasoning and calls: nothing exactly when it is silent, and otherwise
      one of them grows. */
  predicate Extends(f: Answer, g: Answer, silent: bool) {
    if silent then f.text == g.text && f.reasoning == g.reasoning && f.calls == g.calls
    else |f.text| > |g.text| || |f.reasoning| > |g.reasoning| || |f.calls| > |g.calls|
  }

  lemma RestExtends(w: Wire, closed: seq<Event>, rest: seq<Event>)
    requires |rest| <= 1 && ErrorFree(closed + rest)
    ensures Extends(FoldChunks(StreamFold(w, closed + rest).1), FoldChunks(StreamFold(w, closed).1),
                    forall k :: 0 <= k < |rest| ==> Silent(rest[k]))
  {
    if rest == [] {
      assert closed + rest == closed;
    } else {
      var e := rest[0];
      var (s, out) := StreamFold(w, closed);
      assert rest == [e];
      assert (closed + rest)[|closed|] == e;
      ErrorFreeFront(closed, rest);
      FoldsKeepErrors(w, closed);
      StreamFoldStep(w, closed, e);
      FoldChunksStep(out, StreamStep(w, s, e).1);
      EventExtends(w, FoldChunks(out), s, e);
    }
  }

  lemma EventExtends(w: Wire, f: Answer, s: StreamView, e: Event)
    requires !e.Failure?
    ensures var more := StreamStep(w, s, e).1;
            |more| <= 1 && Extends(if more == [] then f else AddChunk(f, more[0]), f, Silent(e))
  {
  }

  lemma AnswersAgree(w: Wire, clock: nat -> int, closed: seq<Event>, rest: seq<Event>)
    requires forall r :: w.finish(r) != ""
    requires |rest| <= 1 && ErrorFree(closed + rest)
    ensures Delivered(FoldChunks(StreamFold(w, closed + rest).1))
            == BufferedOutcome(Ok(Build(AccFold(w.(clock := clock), closed)))) <==>
            && (forall k :: 0 <= k < |rest| ==> Silent(rest[k]))
            && AllGiven(CallIds(closed))
            && FinishShown(w, closed + rest) == Some(ToOpenAIFinishReason(Mapped(w, AnyReason(closed), "stop")))
            && UsageShown(closed + rest) == Some(ToOpenAIUsage(Normalized(LastUsage(closed))))
  {
    var w' := w.(clock := clock);
    var before, a := FoldChunks(StreamFold(w, closed).1), AccFold(w', closed);
    ErrorFreeFront(closed, rest);
    ContentAgrees(w, clock, closed);
    CallsAgreeIff(w, clock, before.calls, a.toolCalls, CallIds(closed));
    RestExtends(w, closed, rest);
    FinishChunkShows(w, closed + rest);
    assert a.finishReason == Mapped(w, AnyReason(closed), "stop") && a.usage == LastUsage(closed) by {
      FoldsKeepFinish(w', closed);
      ReasonIgnoresClock(w, clock, AnyReason(closed), "stop");
    }
    BuiltAnswer(a);
  }

  lemma ReasonIgnoresClock(w: Wire, clock: nat -> int, reason: Option<string>, absent: string)
    ensures Mapped(w, reason, absent) == Mapped(w.(clock := clock), reason, absent)
  {
  }

  lemma StreamVerdictRead(w: Wire, es: seq<Event>)
    ensures StreamVerdict(StreamFold(w, es).0) == StreamedError(w, es)
  {
    FoldsKeepErrors(w, es);
    if ErrorFree(es) {
      FoldsKeepFinish(w, es);
    }
  }

  lemma NormalizedTokens(used: Option<Usage>)
    ensures Tokens(Normalized(used)) == Tokens(used)
  {
  }

  lemma AccVerdictRead(w: Wire, es: seq<Event>)
    ensures AccVerdict(AccFold(w, es)) == BufferedError(w, es)
  {
    NormalizedTokens(LastUsage(es));
    FoldsKeepErrors(w, es);
    if ErrorFree(es) {
      FoldsKeepFinish(w, es);
    }
  }

  /** Which error each form ends with, read off from the events. */
  lemma VerdictsRead(w: Wire, clock: nat -> int, es: seq<Event>)
    ensures StreamVerdict(StreamFold(w, es).0) == StreamedError(w, es)
    ensures AccVerdict(AccFold(w.(clock := clock), es)) == BufferedError(w, es)
  {
    StreamVerdictRead(w, es);
    AccVerdictRead(w.(clock := clock), es);
    ReasonIgnoresClock(w, clock, AnyReason(es), "stop");
  }

  lemma NoErrorMeansErrorFree(w: Wire, es: seq<Event>)
    ensures StreamedError(w, es) == None ==> ErrorFree(es)
  {
    FoldsKeepErrors(w, es);
  }

  lemma EventsAgreeIff(w: Wire, clock: nat -> int, closed: seq<Event>, rest: seq<Event>)
    requires forall r :: w.finish(r) != ""
    requires |rest| <= 1
    ensures EventsStreamed(w, closed + rest) == EventsBuffered(w.(clock := clock), closed) <==> Agreeing(w, closed, rest)
  {
    VerdictsRead(w, clock, closed + rest);
    VerdictsRead(w, clock, closed);
    if StreamedError(w, closed + rest) == None {
      NoErrorMeansErrorFree(w, closed + rest);
      AnswersAgree(w, clock, closed, rest);
    }
  }

  /** Main result. On every stream the two forms give the client the same answer, or the same error, if and only if the
      events of its terminated lines and of its open last line are agreeing. Each form reads its own clock. */
  lemma FormsAgreeIff(w: Wire, clock: nat -> int, b: Bytes, timeouts: nat)
    requires forall r :: w.finish(r) != ""
    ensures StreamedOutcome(StreamItems(w, b, Closed, timeouts))
            == BufferedOutcome(CollectResult(w.(clock := clock), b, Closed, timeouts))
            <==> Agreeing(w, Events(w, Complete(b)), LineEvents(w, Tail(b)))
  {
    StreamedIsEventsStreamed(w, b, timeouts);
    BufferedIsEventsBuffered(w.(clock := clock), b, timeouts);
    EventsIgnoreClock(w, clock, Complete(b));
    EventsAgreeIff(w, clock, Events(w, Complete(b)), LineEvents(w, Tail(b)));
  }

  lemma {:induction false} EventsIgnoreClock(w: Wire, clock: nat -> int, lines: seq<Bytes>)
    ensures Events(w.(clock := clock), lines) == Events(w, lines)
  {
    if lines != [] {
      EventsIgnoreClock(w, clock, lines[..|lines| - 1]);
    }
  }

  // ---- An open last line ----

  lemma DetailTells(finishes: bool, reason: string)
    ensures IncompleteDetail(finishes, reason) == "" <==> finishes && reason != "upstream_error"
    ensures finishes ==> IncompleteDetail(finishes, reason) != "no finish event"
  {
    assert |STOPPED_SHORT| > |"no finish event"|;
  }

  lemma DetailsDiffer(a: string, b: string)
    requires a != b
    ensures Truncated(a) != Truncated(b)
  {
    var head, tail := "Upstream stream ended without a completion finish (", ") - response was truncated";
    var x, y := Truncated(a).msg, Truncated(b).msg;
    assert x == head + a + tail && y == head + b + tail;
    assert x[|head|..|x| - |tail|] == a && y[|head|..|y| - |tail|] == b;
  }

  /** The streamed form ends without the buffered form's complaint about a missing finish as soon as something finishes. */
  lemma FinishingIsNoMissingFinish(reason: string, used: Option<Usage>)
    ensures ClosingError(None, true, reason, used) != Some(Truncated("no finish event"))
  {
    DetailTells(true, reason);
    if IncompleteDetail(true, reason) != "" {
      DetailsDiffer(IncompleteDetail(true, reason), "no finish event");
    }
  }

  /** How one more event changes what the two errors depend on. */
  lemma ErrorsStep(w: Wire, closed: seq<Event>, e: Event)
    requires ErrorFree(closed)
    ensures StreamedError(w, closed + [e]) ==
            ClosingError(
              if e.Failure? then Some(e.error) else None, Finishes(closed) || IsFinishing(e),
              Mapped(w, if e.FinishStep? && e.reason != "" then Some(e.reason) else StepReason(closed), ""),
              if !e.Finish? then LastUsage(ToLastFinish(closed)) else if e.usage.Some? then e.usage else LastUsage(closed))
  {
    ErrorFreeMeansNone(closed);
    FirstErrorStep(closed, e);
    FinishesStep(closed, e);
    ReasonsStep(closed, e);
    ToLastFinishStep(closed, e);
  }

  /** When the terminated lines hold no error and no finishing event, an open last line leaves the forms in agreement if
      and only if it does not finish either, or fails in the very words of the buffered error. */
  lemma OpenLineWithoutFinish(w: Wire, clock: nat -> int, b: Bytes, timeouts: nat, e: Event)
    requires forall r :: w.finish(r) != ""
    requires w.parse(Tail(b)) == Some(e)
    requires ErrorFree(Events(w, Complete(b))) && !Finishes(Events(w, Complete(b)))
    ensures BufferedOutcome(CollectResult(w.(clock := clock), b, Closed, timeouts)) == Refused(Truncated("no finish event"))
    ensures StreamedOutcome(StreamItems(w, b, Closed, timeouts))
            == BufferedOutcome(CollectResult(w.(clock := clock), b, Closed, timeouts)) <==>
            if e.Failure? then FromUpstream(e.error) == Truncated("no finish event") else !IsFinishing(e)
  {
    var closed := Events(w, Complete(b));
    FormsAgreeIff(w, clock, b, timeouts);
    ErrorsStep(w, closed, e);
    ErrorFreeMeansNone(closed);
    BufferedIsEventsBuffered(w.(clock := clock), b, timeouts);
    EventsIgnoreClock(w, clock, Complete(b));
    VerdictsRead(w, clock, closed);
    if IsFinishing(e) {
      FinishingIsNoMissingFinish(
        Mapped(w, if e.FinishStep? && e.reason != "" then Some(e.reason) else StepReason(closed), ""),
        if !e.Finish? then LastUsage(ToLastFinish(closed)) else if e.usage.Some? then e.usage else LastUsage(closed));
    }
  }

  /** What an open last line may be without changing an answer that both forms give: silent, no upstream failure, and if it
      is another `finish`, one that shows the same reason and the same usage. */
  predicate Harmless(w: Wire, closed: seq<Event>, e: Event) {
    && Silent(e)
    && (e.FinishStep? && e.reason != "" ==> w.finish(e.reason) != "upstream_error")
    && (e.Finish? ==>
          && ToOpenAIFinishReason(Mapped(w, StepReason(closed), w.finish(e.reason))) ==
             ToOpenAIFinishReason(Mapped(w, AnyReason(closed), "stop"))
          && (e.usage.Some? ==> ToOpenAIUsage(Normalized(e.usage)) == ToOpenAIUsage(Normalized(LastUsage(closed)))))
  }

  lemma TokensShown(used: Option<Usage>)
    ensures ToOpenAIUsage(Normalized(used)).completion == Tokens(used)
  {
  }

  /** When both forms give the same answer to the terminated lines, an open last line leaves them in agreement if and only
      if it is harmless. */
  lemma OpenLineAfterAnswer(w: Wire, clock: nat -> int, b: Bytes, timeouts: nat, e: Event)
    requires forall r :: w.finish(r) != ""
    requires w.parse(Tail(b)) == Some(e)
    requires Agreeing(w, Events(w, Complete(b)), []) && BufferedError(w, Events(w, Complete(b))) == None
    ensures StreamedOutcome(StreamItems(w, b, Closed, timeouts))
            == BufferedOutcome(CollectResult(w.(clock := clock), b, Closed, timeouts)) <==>
            Harmless(w, Events(w, Complete(b)), e)
  {
    var closed := Events(w, Complete(b));
    assert closed + [] == closed;
    FormsAgreeIff(w, clock, b, timeouts);
    NoErrorMeansErrorFree(w, closed);
    ErrorsStep(w, closed, e);
    FinishShownStep(w, closed, e);
    HarmlessIff(w, closed, e);
  }

  lemma HarmlessIff(w: Wire, closed: seq<Event>, e: Event)
    requires ErrorFree(closed) && StreamedError(w, closed) == None && BufferedError(w, closed) == None
    requires AllGiven(CallIds(closed))
    requires FinishShown(w, closed) == Some(ToOpenAIFinishReason(Mapped(w, AnyReason(closed), "stop")))
    requires UsageShown(closed) == Some(ToOpenAIUsage(Normalized(LastUsage(closed))))
    ensures Agreeing(w, closed, [e]) <==> Harmless(w, closed, e)
  {
    ErrorsStep(w, closed, e);
    FinishShownStep(w, closed, e);
    ErrorFreeMeansNone(closed);
    TokensShown(LastUsage(closed));
    DetailTells(true, Mapped(w, StepReason(closed), ""));
    if e.FinishStep? {
      DetailTells(true, w.finish(e.reason));
    }
    if e.Finish? && e.usage.Some? {
      TokensShown(e.usage);
    }
  }

  // ---- Made-up ids ----

  /** The events up to the first error. */
  function BeforeError(es: seq<Event>): seq<Event> {
    if es == [] || es[0].Failure? then [] else [es[0]] + BeforeError(es[1..])
  }

  lemma {:induction false} BeforeErrorStep(es: seq<Event>, e: Event)
    ensures BeforeError(es + [e]) == if ErrorFree(es) && !e.Failure? then es + [e] else BeforeError(es)
    ensures ErrorFree(BeforeError(es)) && (ErrorFree(es) ==> BeforeError(es) == es)
  {
    if es != [] {
      BeforeErrorStep(es[1..], e);
      assert (es + [e])[1..] == es[1..] + [e];
      assert ErrorFree(es) <==> !es[0].Failure? && ErrorFree(es[1..]) by {
        assert forall k :: 1 <= k < |es| ==> es[k] == es[1..][k - 1];
      }
      assert es == [es[0]] + es[1..];
    }
  }

  /** What is sent is what is sent for the events before the first error. */
  lemma {:induction false} ErrorsSendNothing(w: Wire, es: seq<Event>)
    ensures StreamFold(w, es).1 == StreamFold(w, BeforeError(es)).1
  {
    if es != [] {
      var front, last := es[..|es| - 1], es[|es| - 1];
      Snoc(es);
      ErrorsSendNothing(w, front);
      BeforeErrorStep(front, last);
      FoldsKeepErrors(w, front);
      StreamFoldStep(w, front, last);
    }
  }

  /** Calls that arrive without an id in one stream are told apart by the ids made up for them, whatever the clock reads,
      whether the stream ends well or in an error. */
  lemma MadeUpIdsDistinct(w: Wire, es: seq<Event>, i: nat, j: nat)
    requires var ids := CallIds(BeforeError(es)); i < j < |ids| && j <= Decimal.MAX_INT64 && ids[i] == ids[j] == ""
    ensures var calls := FoldChunks(StreamFold(w, es).1).calls;
            |calls| == |CallIds(BeforeError(es))| && calls[i].id != calls[j].id
  {
    BeforeErrorStep(es, Other(""));
    ErrorsSendNothing(w, es);
    ContentAgrees(w, w.clock, BeforeError(es));
    StreamToolIdsDistinct(w, i, j);
  }

  // ---- Ordinary streams agree; the ways in which others do not ----

  /** One error event at most, and otherwise non-blank ids and a single `finish` at the very end, whose reason, when
      given, maps to the last step reason, when given; an upstream failure is announced by a `finish-step`. */
  predicate Ordinary(w: Wire, es: seq<Event>) {
    if !ErrorFree(es) then
      forall i, j :: 0 <= i < |es| && 0 <= j < |es| && es[i].Failure? && es[j].Failure? ==> i == j
    else
      && es != [] && es[|es| - 1].Finish?
      && (forall k :: 0 <= k < |es| - 1 ==> !es[k].Finish?)
      && AllGiven(CallIds(es))
      && (es[|es| - 1].reason != "" ==>
            match StepReason(es)
            case Some(step) => w.finish(es[|es| - 1].reason) == w.finish(step)
            case None => w.finish(es[|es| - 1].reason) != "upstream_error")
  }

  lemma {:induction false} StepsOnlyReasons(es: seq<Event>)
    requires forall k :: 0 <= k < |es| ==> !es[k].Finish?
    ensures AnyReason(es) == StepReason(es)
  {
    if es != [] {
      StepsOnlyReasons(es[..|es| - 1]);
    }
  }

  lemma {:induction false} FirstErrorAt(es: seq<Event>, k: nat)
    requires k < |es| && es[k].Failure? && forall j :: 0 <= j < |es| && es[j].Failure? ==> j == k
    ensures FirstError(es) == Some(es[k].error)
    decreases k
  {
    if k > 0 {
      FirstErrorAt(es[1..], k - 1);
    }
  }

  lemma {:induction false} LastErrorAt(es: seq<Event>, k: nat)
    requires k < |es| && es[k].Failure? && forall j :: 0 <= j < |es| && es[j].Failure? ==> j == k
    ensures LastError(es) == Some(es[k].error)
    decreases |es|
  {
    if k < |es| - 1 {
      LastErrorAt(es[..|es| - 1], k);
    }
  }

  lemma OrdinaryIsAgreeing(w: Wire, es: seq<Event>)
    requires w.finish("") == "stop"
    requires Ordinary(w, es)
    ensures Agreeing(w, es, [])
  {
    assert es + [] == es;
    if ErrorFree(es) {
      var front, last := es[..|es| - 1], es[|es| - 1];
      assert es == front + [last];
      ErrorFreeMeansNone(es);
      ReasonsStep(front, last);
      FinishesStep(front, last);
      StepsOnlyReasons(front);
    } else {
      var k :| 0 <= k < |es| && es[k].Failure?;
      FirstErrorAt(es, k);
      LastErrorAt(es, k);
    }
  }

  /** Main result for ordinary streams: folding the emitted deltas gives exactly the buffered message, or both forms
      fail with the same error. */
  lemma OrdinaryFormsAgree(w: Wire, clock: nat -> int, b: Bytes, timeouts: nat)
    requires w.finish("") == "stop" && forall r :: w.finish(r) != ""
    requires Tail(b) == [] && w.parse([]) == None
    requires Ordinary(w, Events(w, Complete(b)))
    ensures StreamedOutcome(StreamItems(w, b, Closed, timeouts))
            == BufferedOutcome(CollectResult(w.(clock := clock), b, Closed, timeouts))
  {
    OrdinaryIsAgreeing(w, Events(w, Complete(b)));
    FormsAgreeIff(w, clock, b, timeouts);
  }

  // ---- With the plugin's own parser and mapping ----

  lemma EmptyLineIsNoEvent(decode: string -> Option<RawEvent>, line: string)
    requires line == ""
    ensures ParseEvent(decode, line) == None
  {
    assert TrimSpace(line) == "";
  }

  /** For `parseCCEvent` and `mapFinishReason`, whatever the JSON decoder, the two forms agree on every stream exactly when
      its events are agreeing. */
  lemma PluginFormsAgreeIff(
      text: Bytes -> string, decode: string -> Option<RawEvent>, lower: char -> char, clock: nat -> int,
      clock': nat -> int, b: Bytes, timeouts: nat)
    ensures var w := PluginWire(text, decode, lower, clock);
            StreamedOutcome(StreamItems(w, b, Closed, timeouts))
            == BufferedOutcome(CollectResult(PluginWire(text, decode, lower, clock'), b, Closed, timeouts))
            <==> Agreeing(w, Events(w, Complete(b)), LineEvents(w, Tail(b)))
  {
    FormsAgreeIff(PluginWire(text, decode, lower, clock), clock', b, timeouts);
    PluginClock(text, decode, lower, clock, clock');
  }

  lemma PluginClock(
      text: Bytes -> string, decode: string -> Option<RawEvent>, lower: char -> char, clock: nat -> int, clock': nat -> int)
    ensures PluginWire(text, decode, lower, clock).(clock := clock') == PluginWire(text, decode, lower, clock')
  {
  }

  /** And they agree on every ordinary stream whose last line is terminated. */
  lemma PluginOrdinaryFormsAgree(
      text: Bytes -> string, decode: string -> Option<RawEvent>, lower: char -> char, clock: nat -> int,
      clock': nat -> int, b: Bytes, timeouts: nat)
    requires text([]) == "" && Tail(b) == []
    requires var w := PluginWire(text, decode, lower, clock); Ordinary(w, Events(w, Complete(b)))
    ensures StreamedOutcome(StreamItems(PluginWire(text, decode, lower, clock), b, Closed, timeouts))
            == BufferedOutcome(CollectResult(PluginWire(text, decode, lower, clock'), b, Closed, timeouts))
  {
    EmptyLineIsNoEvent(decode, text([]));
    OrdinaryFormsAgree(PluginWire(text, decode, lower, clock), clock', b, timeouts);
    PluginClock(text, decode, lower, clock, clock');
  }

  const SOME_USAGE := Usage(1.0, 1.0, 0.0)

  lemma OneEvent(w: Wire, e: Event)
    ensures AccFold(w, [e]) == AccStep(w, ACC_START, e) && StreamFold(w, [e]) == StreamStep(w, STREAM_START, e)
  {
    StreamFoldStep(w, [], e);
    AccFoldStep(w, [], e);
    assert [] + [e] == [e];
    assert [] + StreamStep(w, STREAM_START, e).1 == StreamStep(w, STREAM_START, e).1;
  }

  lemma TwoEvents(w: Wire, d: Event, e: Event)
    requires !d.Failure?
    ensures StreamFold(w, [d, e]).0 == StreamStep(w, StreamStep(w, STREAM_START, d).0, e).0
    ensures AccFold(w, [d, e]) == AccStep(w, AccStep(w, ACC_START, d), e)
  {
    OneEvent(w, d);
    StreamFoldStep(w, [d], e);
    AccFoldStep(w, [d], e);
    assert [d] + [e] == [d, e];
  }

  /** An upstream failure that only the `finish` event reports passes as success when streamed. */
  lemma FinishOnlyFailureDiverges(w: Wire, reason: string)
    requires reason != "" && w.finish(reason) == "upstream_error"
    ensures EventsStreamed(w, [Finish(reason, Some(SOME_USAGE))]).Delivered?
    ensures EventsBuffered(w, [Finish(reason, Some(SOME_USAGE))]) == Refused(Truncated(STOPPED_SHORT))
  {
    OneEvent(w, Finish(reason, Some(SOME_USAGE)));
  }

  /** Usage that only a `finish-step` after the `finish` reports is not counted when streamed. */
  lemma LateUsageDiverges(w: Wire)
    requires w.finish("") == "stop"
    ensures var es := [Finish("", None), FinishStep("", Some(SOME_USAGE))];
            EventsStreamed(w, es) == Refused(EMPTY_RESPONSE) && EventsBuffered(w, es).Delivered?
  {
    TwoEvents(w, Finish("", None), FinishStep("", Some(SOME_USAGE)));
  }

  /** Of two errors the streamed form reports the first and the buffered form the last. */
  lemma TwoErrorsDiverge(w: Wire, e: UpstreamError, f: UpstreamError)
    ensures EventsStreamed(w, [Failure(e), Failure(f)]) == Refused(FromUpstream(e))
    ensures EventsBuffered(w, [Failure(e), Failure(f)]) == Refused(FromUpstream(f))
  {
    OneEvent(w, Failure(e));
    StreamFoldStep(w, [Failure(e)], Failure(f));
    AccFoldStep(w, [Failure(e)], Failure(f));
    assert [Failure(e)] + [Failure(f)] == [Failure(e), Failure(f)];
  }
}
