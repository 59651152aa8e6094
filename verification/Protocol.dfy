/** The upstream NDJSON events and the two consumers of them: the delta emitter used for streaming
    and the accumulator used for buffered responses. */
module Protocol {
  import opened Text
  import opened Lines
  import Decimal
  import FinishReasons

  // ---- Events ----

  /** A tool call's `input`: absent, a string, or any other JSON value in its encoded form. */
  datatype ToolInput = NoInput | TextInput(text: string) | JsonInput(json: string)

  /** Token counts as `asNumber` reads them; absent counts read as zero. */
  datatype Usage = Usage(input: real, output: real, cached: real)

  datatype UpstreamError = UpstreamError(status: int, message: string, retryAfter: int)

  /** A decoded JSON object seen through the keys the code reads. */
  datatype RawEvent = RawEvent(
    typ: string, text: string, delta: string,
    toolCallId: string, toolName: string, input: ToolInput,
    finishReason: string, totalUsage: Option<Usage>, usage: Option<Usage>,
    errorMessage: string, message: string, statusCode: Option<real>)

  datatype Event =
    | TextDelta(text: string)
    | ReasoningDelta(text: string)
    | ToolCall(id: string, name: string, input: ToolInput)
    | FinishStep(reason: string, usage: Option<Usage>)
    | Finish(reason: string, usage: Option<Usage>)
    | Failure(error: UpstreamError)
    | Other(typ: string)

  /** What the two consumers are given: the event a line decodes to, the mapping of finish reasons, and
      the millisecond clock as read for the k-th tool call. Nothing below depends on which ones they are. */
  datatype Wire = Wire(parse: Bytes -> Option<Event>, finish: string -> string, clock: nat -> int)

  /** The wire the plugin runs with: `parseCCEvent` and `mapFinishReason`, over a reading of bytes as text,
      a JSON decoder and a lower-casing table. */
  function PluginWire(
      text: Bytes -> string, decode: string -> Option<RawEvent>, lower: char -> char, clock: nat -> int): (w: Wire)
    ensures w.finish("") == "stop" && forall reason :: w.finish(reason) != ""
  {
    Wire(line => ParseEvent(decode, text(line)), reason => FinishReasons.MapFinishReason(lower, reason), clock)
  }

  /** Conversion of a float to int64, towards zero. */
  function Truncate(x: real): int {
    if x >= 0.0 then x.Floor else -((-x).Floor)
  }

  /** The status a client sees for an upstream status. */
  function MappedStatus(status: int): int {
    match status
    case 400 => 400
    case 401 => 401
    case 402 => 429
    case 403 => 401
    case 404 => 404
    case 422 => 400
    case 429 => 429
    case 500 => 502
    case 502 => 502
    case 503 => 503
    case _ => 502
  }

  /** The status in a message that starts like `<429>`. */
  function ReportedStatus(message: string): int {
    if |message| >= 5 && message[0] == '<' && message[4] == '>'
       && (forall k :: 1 <= k < 4 ==> Decimal.IsDigit(message[k]))
    then Decimal.Value(message[1..4]) else 0
  }

  /** The message of an error event, untrimmed. */
  function ErrorMessage(raw: RawEvent): string {
    FirstNonEmpty([raw.errorMessage, raw.message, "Unknown CC error"])
  }

  function EventError(message: string, statusCode: Option<real>): UpstreamError {
    var reported :=
      if ReportedStatus(message) == 0 && statusCode.Some? then Truncate(statusCode.value) else ReportedStatus(message);
    var status := MappedStatus(reported);
    UpstreamError(status, message, if status == 429 then 30 else 0)
  }

  datatype EventType =
    TextType | ReasoningType | ToolCallType | FinishStepType | FinishType | ErrorType | UnnamedType | UnknownType

  function TypeOf(typ: string): EventType {
    if typ == "" then UnnamedType
    else if typ == "text-delta" then TextType
    else if typ == "reasoning-delta" then ReasoningType
    else if typ == "tool-call" then ToolCallType
    else if typ == "finish-step" then FinishStepType
    else if typ == "finish" then FinishType
    else if typ == "error" then ErrorType
    else UnknownType
  }

  /** The event of a decoded object of a type. */
  function EventByType(t: EventType, raw: RawEvent): Option<Event> {
    var usage := if raw.totalUsage.Some? then raw.totalUsage else raw.usage;
    match t
    case UnnamedType => None
    case TextType => Some(TextDelta(FirstNonEmpty([raw.text, raw.delta])))
    case ReasoningType => Some(ReasoningDelta(raw.text))
    case ToolCallType => Some(ToolCall(raw.toolCallId, raw.toolName, raw.input))
    case FinishStepType => Some(FinishStep(raw.finishReason, usage))
    case FinishType => Some(Finish(raw.finishReason, usage))
    case ErrorType => Some(Failure(EventError(ErrorMessage(raw), raw.statusCode)))
    case UnknownType => Some(Other(TrimSpace(raw.typ)))
  }

  function EventOf(raw: RawEvent): Option<Event> {
    EventByType(TypeOf(TrimSpace(raw.typ)), raw)
  }

  /** `parseCCEvent`: blank lines, the end marker, comments and lines that are no JSON object give no event. */
  function ParseEvent(decode: string -> Option<RawEvent>, line: string): Option<Event> {
    var trimmed := TrimSpace(line);
    if trimmed == "" || trimmed == "[DONE]" || HasPrefix(trimmed, ":") then None
    else match decode(trimmed) case None => None case Some(raw) => EventOf(raw)
  }

  /** The event of a line, if it decodes to one. */
  function LineEvents(w: Wire, line: Bytes): seq<Event> {
    match w.parse(line) case None => [] case Some(e) => [e]
  }

  /** The events of a list of lines, in order; lines that decode to nothing are skipped. */
  function Events(w: Wire, lines: seq<Bytes>): seq<Event> {
    if lines == [] then [] else Events(w, lines[..|lines| - 1]) + LineEvents(w, lines[|lines| - 1])
  }

  lemma EventsStep(w: Wire, lines: seq<Bytes>, k: nat)
    requires k < |lines|
    ensures Events(w, lines[..k + 1]) == Events(w, lines[..k]) + LineEvents(w, lines[k])
  {
    assert lines[..k + 1][..k] == lines[..k];
  }

  lemma EventsSnoc(w: Wire, lines: seq<Bytes>, line: Bytes)
    ensures Events(w, lines + [line]) == Events(w, lines) + LineEvents(w, line)
  {
    assert (lines + [line])[..|lines|] == lines;
  }

  lemma EventsAppendStep(w: Wire, a: seq<Bytes>, front: seq<Bytes>, last: Bytes)
    requires Events(w, a + front) == Events(w, a) + Events(w, front)
    ensures Events(w, a + (front + [last])) == Events(w, a) + Events(w, front + [last])
  {
    Regroup(a, front, [last]);
    EventsSnoc(w, a + front, last);
    EventsSnoc(w, front, last);
    Regroup(Events(w, a), Events(w, front), LineEvents(w, last));
  }

  lemma {:induction false} EventsAppend(w: Wire, a: seq<Bytes>, b: seq<Bytes>)
    ensures Events(w, a + b) == Events(w, a) + Events(w, b)
  {
    if b == [] {
      assert a + b == a;
    } else {
      var front, last := b[..|b| - 1], b[|b| - 1];
      Snoc(b);
      EventsAppend(w, a, front);
      EventsAppendStep(w, a, front, last);
    }
  }

  // ---- Finish reasons and usage ----

  function ToOpenAIFinishReason(reason: string): string {
    if reason == "pause_turn" then "length" else reason
  }

  /** Usage that reports no output is zeroed. */
  function NormalizeUsage(usage: Usage): Usage {
    if usage.output == 0.0 then Usage(0.0, usage.output, 0.0) else usage
  }

  datatype OpenAIUsage = OpenAIUsage(prompt: int, completion: int, total: int, cached: int)

  function ToOpenAIUsage(usage: Option<Usage>): OpenAIUsage {
    match usage
    case None => OpenAIUsage(0, 0, 0, 0)
    case Some(u) =>
      OpenAIUsage(Truncate(u.input), Truncate(u.output), Truncate(u.input) + Truncate(u.output), Truncate(u.cached))
  }

  function Normalized(usage: Option<Usage>): Option<Usage> {
    if usage.Some? then Some(NormalizeUsage(usage.value)) else None
  }

  function Tokens(usage: Option<Usage>): int {
    match usage case None => 0 case Some(u) => Truncate(u.output)
  }

  function Arguments(input: ToolInput): string {
    match input
    case NoInput => "{}"
    case TextInput(text) => text
    case JsonInput(json) => json
  }

  const STOPPED_SHORT := "provider reported an upstream connection failure"

  function IncompleteDetail(sawFinish: bool, finishReason: string): string {
    if !sawFinish then "no finish event"
    else if finishReason == "upstream_error" then STOPPED_SHORT
    else ""
  }

  // ---- The delta emitter ----

  datatype Content = Absent | Null | Is(text: string)

  datatype ToolEntry = ToolEntry(index: nat, id: string, name: string, arguments: string)

  datatype Delta = Delta(role: Option<string>, content: Content, reasoning: Option<string>, tool: Option<ToolEntry>)

  const EMPTY_DELTA := Delta(None, Absent, None, None)

  datatype OutChunk = OutChunk(delta: Delta, finish: Option<string>, usage: Option<OpenAIUsage>)

  /** The fields of `ccStreamState` that decide anything. */
  datatype StreamView = StreamView(
    sawFinish: bool, chunkIndex: nat, toolCallIndex: nat, finishReason: string,
    usage: Option<Usage>, inputTokens: int, outputTokens: int, cachedTokens: int,
    upstreamError: Option<UpstreamError>)

  const STREAM_START := StreamView(false, 0, 0, "", None, 0, 0, 0, None)

  function FormatInt(i: int): string {
    if i == 0 then "0" else if i < 0 then "-" + Decimal.Digits(-i) else Decimal.Digits(i)
  }

  /** `int64(n)`: wraps around. */
  function ToInt64(n: nat): Decimal.int64 {
    var m := n % 0x1_0000_0000_0000_0000;
    if m > Decimal.MAX_INT64 then m - 0x1_0000_0000_0000_0000 else m
  }

  /** The id given to a tool call that came without one. */
  function StreamToolId(w: Wire, index: nat): string {
    "call_" + FormatInt(w.clock(index)) + "_" + Decimal.Shown(ToInt64(index))
  }

  function StreamStep(w: Wire, s: StreamView, e: Event): (StreamView, seq<OutChunk>) {
    var role := if s.chunkIndex == 0 then Some("assistant") else None;
    match e
    case Failure(error) => (s.(upstreamError := Some(error)), [])
    case TextDelta(text) =>
      if text == "" then (s, [])
      else (s.(chunkIndex := s.chunkIndex + 1), [OutChunk(Delta(role, Is(text), None, None), None, None)])
    case ReasoningDelta(text) =>
      if text == "" then (s, [])
      else (s.(chunkIndex := s.chunkIndex + 1), [OutChunk(Delta(role, Absent, Some(text), None), None, None)])
    case ToolCall(id, name, input) =>
      var entry := ToolEntry(
        s.toolCallIndex, if id == "" then StreamToolId(w, s.toolCallIndex) else id, name, Arguments(input));
      var content := if s.chunkIndex == 0 then Null else Absent;
      (s.(chunkIndex := s.chunkIndex + 1, toolCallIndex := s.toolCallIndex + 1),
       [OutChunk(Delta(role, content, None, Some(entry)), None, None)])
    case FinishStep(reason, usage) =>
      (s.(sawFinish := true,
          finishReason := if reason != "" then w.finish(reason) else s.finishReason,
          usage := if usage.Some? then usage else s.usage), [])
    case Finish(reason, usage) =>
      var finish := if s.finishReason != "" then s.finishReason else w.finish(reason);
      var last := Normalized(if usage.Some? then usage else s.usage);
      var shown := ToOpenAIUsage(last);
      (s.(sawFinish := true, usage := last, inputTokens := shown.prompt, outputTokens := shown.completion,
          cachedTokens := shown.cached),
       [OutChunk(EMPTY_DELTA, Some(ToOpenAIFinishReason(finish)), Some(shown))])
    case Other(_) => (s, [])
  }

  /** `ccStreamState` and its `parseLine`. */
  class CCStreamState {
    var sawFinish: bool
    var chunkIndex: nat
    var toolCallIndex: nat
    var finishReason: string
    var usage: Option<Usage>
    var inputTokens: int
    var outputTokens: int
    var cachedTokens: int
    var upstreamError: Option<UpstreamError>

    function View(): StreamView
      reads this
    {
      StreamView(sawFinish, chunkIndex, toolCallIndex, finishReason, usage, inputTokens, outputTokens,
                 cachedTokens, upstreamError)
    }

    constructor ()
      ensures View() == STREAM_START
    {
      sawFinish, chunkIndex, toolCallIndex, finishReason := false, 0, 0, "";
      usage, inputTokens, outputTokens, cachedTokens, upstreamError := None, 0, 0, 0, None;
    }

    method ParseLine(w: Wire, line: Bytes) returns (out: seq<OutChunk>)
      modifies this
      ensures match w.parse(line)
              case None => View() == old(View()) && out == []
              case Some(e) => (View(), out) == StreamStep(w, old(View()), e)
    {
      var event := w.parse(line);
      match event {
        case None =>
          out := [];
        case Some(e) =>
          out := HandleEvent(w, e);
      }
    }

    method HandleEvent(w: Wire, event: Event) returns (out: seq<OutChunk>)
      modifies this
      ensures (View(), out) == StreamStep(w, old(View()), event)
    {
      out := [];
      match event {
        case Failure(error) =>
          upstreamError := Some(error);
        case TextDelta(text) =>
          if text == "" {
            return;
          }
          var delta := EMPTY_DELTA.(content := Is(text));
          if chunkIndex == 0 {
            delta := delta.(role := Some("assistant"));
          }
          out := [OutChunk(delta, None, None)];
          chunkIndex := chunkIndex + 1;
        case ReasoningDelta(text) =>
          if text == "" {
            return;
          }
          var delta := EMPTY_DELTA.(reasoning := Some(text));
          if chunkIndex == 0 {
            delta := delta.(role := Some("assistant"));
          }
          out := [OutChunk(delta, None, None)];
          chunkIndex := chunkIndex + 1;
        case ToolCall(callId, name, input) =>
          var id := callId;
          if id == "" {
            id := StreamToolId(w, toolCallIndex);
          }
          var delta := EMPTY_DELTA.(tool := Some(ToolEntry(toolCallIndex, id, name, Arguments(input))));
          if chunkIndex == 0 {
            delta := delta.(role := Some("assistant"), content := Null);
          }
          out := [OutChunk(delta, None, None)];
          chunkIndex := chunkIndex + 1;
          toolCallIndex := toolCallIndex + 1;
        case FinishStep(reason, stepUsage) =>
          sawFinish := true;
          if reason != "" {
            finishReason := w.finish(reason);
          }
          if stepUsage.Some? {
            usage := stepUsage;
          }
        case Finish(reason, finalUsage) =>
          out := HandleFinish(w, reason, finalUsage);
        case Other(_) =>
      }
    }

    method HandleFinish(w: Wire, reason: string, finalUsage: Option<Usage>) returns (out: seq<OutChunk>)
      modifies this
      ensures (View(), out) == StreamStep(w, old(View()), Finish(reason, finalUsage))
    {
      sawFinish := true;
      var finish := w.finish(reason);
      if finishReason != "" {
        finish := finishReason;
      }
      if finalUsage.Some? {
        usage := finalUsage;
      }
      usage := Normalized(usage);
      var shown := ToOpenAIUsage(usage);
      inputTokens, outputTokens, cachedTokens := shown.prompt, shown.completion, shown.cached;
      out := [OutChunk(EMPTY_DELTA, Some(ToOpenAIFinishReason(finish)), Some(shown))];
    }
  }

  // ---- The accumulator ----

  datatype BuiltCall = BuiltCall(id: string, name: string, arguments: string)

  datatype AccView = AccView(
    fullText: string, thinkingText: string, finishReason: string, sawFinish: bool,
    usage: Option<Usage>, toolCalls: seq<BuiltCall>, upstreamError: Option<UpstreamError>)

  const ACC_START := AccView("", "", "stop", false, None, [], None)

  function BufferedToolId(w: Wire, id: string, index: nat): string {
    FirstNonEmpty([id, "call_" + FormatInt(w.clock(index))])
  }

  function AccStep(w: Wire, a: AccView, e: Event): AccView {
    match e
    case Failure(error) => a.(upstreamError := Some(error))
    case TextDelta(text) => a.(fullText := a.fullText + text)
    case ReasoningDelta(text) => a.(thinkingText := a.thinkingText + text)
    case ToolCall(id, name, input) =>
      a.(toolCalls := a.toolCalls + [BuiltCall(BufferedToolId(w, id, |a.toolCalls|), name, Arguments(input))])
    case FinishStep(reason, usage) => AccFinish(w, a, reason, usage)
    case Finish(reason, usage) => AccFinish(w, a, reason, usage)
    case Other(_) => a
  }

  function AccFinish(w: Wire, a: AccView, reason: string, usage: Option<Usage>): AccView {
    a.(sawFinish := true,
       finishReason := if reason != "" then w.finish(reason) else a.finishReason,
       usage := if usage.Some? then usage else a.usage)
  }

  /** The buffered chat completion. */
  datatype Completion = Completion(
    content: Option<string>, reasoning: Option<string>, toolCalls: seq<BuiltCall>, finish: string, usage: OpenAIUsage)

  function NonEmpty(text: string): Option<string> {
    if text == "" then None else Some(text)
  }

  function Build(a: AccView): Completion {
    Completion(NonEmpty(a.fullText), NonEmpty(a.thinkingText), a.toolCalls,
               ToOpenAIFinishReason(a.finishReason), ToOpenAIUsage(Normalized(a.usage)))
  }

  /** `ccAccumulator`. */
  class CCAccumulator {
    var fullText: string
    var thinkingText: string
    var finishReason: string
    var sawFinish: bool
    var usage: Option<Usage>
    var toolCalls: seq<BuiltCall>
    var upstreamError: Option<UpstreamError>

    function View(): AccView
      reads this
    {
      AccView(fullText, thinkingText, finishReason, sawFinish, usage, toolCalls, upstreamError)
    }

    constructor ()
      ensures View() == ACC_START
    {
      fullText, thinkingText, finishReason, sawFinish := "", "", "stop", false;
      usage, toolCalls, upstreamError := None, [], None;
    }

    method Feed(w: Wire, line: Bytes)
      modifies this
      ensures match w.parse(line)
              case None => View() == old(View())
              case Some(e) => View() == AccStep(w, old(View()), e)
    {
      var event := w.parse(line);
      match event {
        case None =>
        case Some(e) =>
          FeedEvent(w, e);
      }
    }

    method FeedEvent(w: Wire, event: Event)
      modifies this
      ensures View() == AccStep(w, old(View()), event)
    {
      match event {
        case Failure(error) =>
          upstreamError := Some(error);
        case TextDelta(text) =>
          fullText := fullText + text;
        case ReasoningDelta(text) =>
          thinkingText := thinkingText + text;
        case ToolCall(id, name, input) =>
          toolCalls := toolCalls + [BuiltCall(BufferedToolId(w, id, |toolCalls|), name, Arguments(input))];
        case FinishStep(reason, newUsage) =>
          FeedFinish(w, reason, newUsage);
        case Finish(reason, newUsage) =>
          FeedFinish(w, reason, newUsage);
        case Other(_) =>
      }
    }

    method FeedFinish(w: Wire, reason: string, newUsage: Option<Usage>)
      modifies this
      ensures View() == AccFinish(w, old(View()), reason, newUsage)
    {
      sawFinish := true;
      if reason != "" {
        finishReason := w.finish(reason);
      }
      if newUsage.Some? {
        usage := newUsage;
      }
    }

    /** Normalises the stored usage in place as a side effect. */
    method OutputTokens() returns (tokens: int)
      modifies `usage
      ensures usage == Normalized(old(usage)) && tokens == Tokens(old(usage))
    {
      if usage == None {
        return 0;
      }
      usage := Normalized(usage);
      tokens := Truncate(usage.value.output);
    }

    method BuildCompletion() returns (c: Completion)
      modifies `usage
      ensures c == Build(old(View()))
    {
      usage := Normalized(usage);
      var content := Some(fullText);
      if fullText == "" {
        content := None;
      }
      var reasoning := None;
      if thinkingText != "" {
        reasoning := Some(thinkingText);
      }
      c := Completion(content, reasoning, toolCalls, ToOpenAIFinishReason(finishReason), ToOpenAIUsage(usage));
    }
  }

  // ---- Reading events back ----

  const NO_RAW := RawEvent("", "", "", "", "", NoInput, "", None, None, "", "", None)

  /** How the upstream writes an event's type. */
  function NameOf(t: EventType): string
    requires t != UnknownType && t != UnnamedType
  {
    match t
    case TextType => "text-delta"
    case ReasoningType => "reasoning-delta"
    case ToolCallType => "tool-call"
    case FinishStepType => "finish-step"
    case FinishType => "finish"
    case ErrorType => "error"
  }

  lemma NameIsSolid(t: EventType)
    requires t != UnknownType && t != UnnamedType
    ensures var name := NameOf(t); name != "" && !IsSpace(name[0]) && !IsSpace(name[|name| - 1])
  {
  }

  lemma NameIsRead(t: EventType)
    requires t != UnknownType && t != UnnamedType
    ensures TypeOf(NameOf(t)) == t
  {
  }

  function EventTypeOf(e: Event): EventType
    requires !e.Failure? && !e.Other?
  {
    match e
    case TextDelta(_) => TextType
    case ReasoningDelta(_) => ReasoningType
    case ToolCall(_, _, _) => ToolCallType
    case FinishStep(_, _) => FinishStepType
    case Finish(_, _) => FinishType
  }

  /** The JSON object that the upstream sends for an event that carries data. */
  function RawOf(e: Event): RawEvent
    requires !e.Failure? && !e.Other?
  {
    var raw := NO_RAW.(typ := NameOf(EventTypeOf(e)));
    match e
    case TextDelta(text) => raw.(text := text)
    case ReasoningDelta(text) => raw.(text := text)
    case ToolCall(id, name, input) => raw.(toolCallId := id, toolName := name, input := input)
    case FinishStep(reason, usage) => raw.(finishReason := reason, usage := usage)
    case Finish(reason, usage) => raw.(finishReason := reason, totalUsage := usage)
  }

  lemma TextOfDelta(text: string)
    ensures FirstNonEmpty([text, ""]) == if Blank(text) then "" else text
  {
    assert Blank("");
    assert [text, ""][1..] == [""] && [""][1..] == [];
  }

  lemma TypeIsRead(e: Event)
    requires !e.Failure? && !e.Other?
    ensures TypeOf(TrimSpace(RawOf(e).typ)) == EventTypeOf(e)
  {
    NameIsSolid(EventTypeOf(e));
    NameIsRead(EventTypeOf(e));
    SolidText(RawOf(e).typ);
  }

  lemma DataIsRead(e: Event)
    requires !e.Failure? && !e.Other?
    ensures EventByType(EventTypeOf(e), RawOf(e)) == if e.TextDelta? && Blank(e.text) then Some(TextDelta("")) else Some(e)
  {
    if e.TextDelta? {
      TextOfDelta(e.text);
    }
  }

  /** Every event is read back from the object that stands for it, with one exception: a text delta of nothing but white
      space is read as empty, and so vanishes in both forms. */
  lemma EventRoundTrip(e: Event)
    requires !e.Failure? && !e.Other?
    ensures EventOf(RawOf(e)) == if e.TextDelta? && Blank(e.text) then Some(TextDelta("")) else Some(e)
  {
    TypeIsRead(e);
    DataIsRead(e);
  }

  /** An empty delta leaves no trace in either form. */
  lemma EmptyTextVanishes(w: Wire, s: StreamView, a: AccView)
    ensures StreamStep(w, s, TextDelta("")) == (s, []) && AccStep(w, a, TextDelta("")) == a
  {
    assert a.fullText + "" == a.fullText;
  }

  /** A status written into the message beats the one reported beside it, and the client is told to wait exactly when it
      is shown 429, that is for 402 and 429. */
  lemma EventErrorStatus(digits: string, rest: string, statusCode: Option<real>)
    requires |digits| == 3 && forall k :: 0 <= k < 3 ==> Decimal.IsDigit(digits[k])
    requires Decimal.Value(digits) != 0
    ensures var e := EventError("<" + digits + ">" + rest, statusCode);
            && e.status == MappedStatus(Decimal.Value(digits))
            && e.retryAfter == (if Decimal.Value(digits) in {402, 429} then 30 else 0)
  {
    var m := "<" + digits + ">" + rest;
    assert m[1..4] == digits;
    assert forall k :: 1 <= k < 4 ==> m[k] == digits[k - 1];
  }

  /** A response without output is not charged for its input. */
  lemma UsageAccounting(u: Usage)
    ensures ToOpenAIUsage(Normalized(Some(u))) ==
            if u.output == 0.0 then OpenAIUsage(0, 0, 0, 0) else ToOpenAIUsage(Some(u))
    ensures ToOpenAIUsage(Normalized(Some(u))).total ==
            ToOpenAIUsage(Normalized(Some(u))).prompt + ToOpenAIUsage(Normalized(Some(u))).completion
    ensures Normalized(Normalized(Some(u))) == Normalized(Some(u))
  {
  }
}
