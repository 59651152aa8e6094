/** What the plugin's own event parser makes of a line, by the names and keys that the upstream writes. */
module Parser {
  import opened Text
  import opened Lines
  import opened Protocol
  import Decimal
  import FinishReasons

  // ---- Which lines are events ----

  /** The line's text is more than white space, an end marker or a comment, and is a JSON object. */
  predicate Carries(decode: string -> Option<RawEvent>, line: string, raw: RawEvent) {
    var t := TrimSpace(line);
    t != "" && t != "[DONE]" && t[0] != ':' && decode(t) == Some(raw)
  }

  lemma CarriedIsRead(decode: string -> Option<RawEvent>, line: string, raw: RawEvent)
    requires Carries(decode, line, raw)
    ensures ParseEvent(decode, line) == EventOf(raw)
  {
  }

  lemma NotCarriedIsSkipped(decode: string -> Option<RawEvent>, line: string)
    requires forall raw :: !Carries(decode, line, raw)
    ensures ParseEvent(decode, line) == None
  {
    var t := TrimSpace(line);
    if t != "" && t != "[DONE]" && t[0] == ':' {
      assert ":" <= t;
    } else if t != "" && t != "[DONE]" && decode(t).Some? {
      assert Carries(decode, line, decode(t).value);
    }
  }

  const NAMES := ["", "text-delta", "reasoning-delta", "tool-call", "finish-step", "finish", "error"]

  lemma NamesAreTypes(name: string)
    ensures TypeOf(name) == UnnamedType <==> name == ""
    ensures TypeOf(name) == TextType <==> name == "text-delta"
    ensures TypeOf(name) == ReasoningType <==> name == "reasoning-delta"
    ensures TypeOf(name) == ToolCallType <==> name == "tool-call"
    ensures TypeOf(name) == FinishStepType <==> name == "finish-step"
    ensures TypeOf(name) == FinishType <==> name == "finish"
    ensures TypeOf(name) == ErrorType <==> name == "error"
    ensures TypeOf(name) == UnknownType <==> name !in NAMES
  {
  }

  /** Main result on skipping: a line gives no event exactly when its trimmed text is empty, the end marker, a comment or no
      JSON object, or the object has no type. */
  lemma NoEventIff(
      text: Bytes -> string, decode: string -> Option<RawEvent>, lower: char -> char, clock: nat -> int, line: Bytes)
    ensures PluginWire(text, decode, lower, clock).parse(line) == None <==>
            var t := TrimSpace(text(line));
            t == "" || t == "[DONE]" || t[0] == ':' || decode(t) == None || Blank(decode(t).value.typ)
  {
    var t := TrimSpace(text(line));
    if t != "" && t != "[DONE]" && t[0] != ':' && decode(t).Some? {
      var raw := decode(t).value;
      CarriedIsRead(decode, text(line), raw);
      NamesAreTypes(TrimSpace(raw.typ));
    } else {
      NotCarriedIsSkipped(decode, text(line));
    }
  }

  // ---- Which event a line is ----

  function FirstSolid(a: string, b: string, absent: string): string {
    if !Blank(a) then a else if !Blank(b) then b else absent
  }

  function UsageIn(raw: RawEvent): Option<Usage> {
    match raw.totalUsage case Some(total) => Some(total) case None => raw.usage
  }

  /** Main result on reading: what a line that carries an object with a type reads as, name by name. */
  lemma EventIsRead(
      text: Bytes -> string, decode: string -> Option<RawEvent>, lower: char -> char, clock: nat -> int, line: Bytes,
      raw: RawEvent)
    requires Carries(decode, text(line), raw)
    ensures var e, name := PluginWire(text, decode, lower, clock).parse(line), TrimSpace(raw.typ);
            && (name == "text-delta" ==> e == Some(TextDelta(FirstSolid(raw.text, raw.delta, ""))))
            && (name == "reasoning-delta" ==> e == Some(ReasoningDelta(raw.text)))
            && (name == "tool-call" ==> e == Some(ToolCall(raw.toolCallId, raw.toolName, raw.input)))
            && (name == "finish-step" ==> e == Some(FinishStep(raw.finishReason, UsageIn(raw))))
            && (name == "finish" ==> e == Some(Finish(raw.finishReason, UsageIn(raw))))
            && (name !in NAMES ==> e == Some(Event.Other(name)))
  {
    CarriedIsRead(decode, text(line), raw);
    NamedIsRead(raw, TrimSpace(raw.typ));
  }

  lemma NamedIsRead(raw: RawEvent, name: string)
    requires name == TrimSpace(raw.typ)
    ensures name == "text-delta" ==> EventOf(raw) == Some(TextDelta(FirstSolid(raw.text, raw.delta, "")))
    ensures name == "reasoning-delta" ==> EventOf(raw) == Some(ReasoningDelta(raw.text))
    ensures name == "tool-call" ==> EventOf(raw) == Some(ToolCall(raw.toolCallId, raw.toolName, raw.input))
    ensures name == "finish-step" ==> EventOf(raw) == Some(FinishStep(raw.finishReason, UsageIn(raw)))
    ensures name == "finish" ==> EventOf(raw) == Some(Finish(raw.finishReason, UsageIn(raw)))
    ensures name !in NAMES ==> EventOf(raw) == Some(Event.Other(name))
  {
    NamesAreTypes(name);
    TypedIsRead(raw, TypeOf(name));
  }

  lemma TypedIsRead(raw: RawEvent, t: EventType)
    ensures EventByType(t, raw) ==
            match t
            case UnnamedType => None
            case TextType => Some(TextDelta(FirstSolid(raw.text, raw.delta, "")))
            case ReasoningType => Some(ReasoningDelta(raw.text))
            case ToolCallType => Some(ToolCall(raw.toolCallId, raw.toolName, raw.input))
            case FinishStepType => Some(FinishStep(raw.finishReason, UsageIn(raw)))
            case FinishType => Some(Finish(raw.finishReason, UsageIn(raw)))
            case ErrorType => Some(Failure(EventError(ErrorMessage(raw), raw.statusCode)))
            case UnknownType => Some(Event.Other(TrimSpace(raw.typ)))
  {
    if t == TextType {
      FirstOfTwo(raw.text, raw.delta);
    }
  }

  /** A line whose object stands for an event is read as that event, except that a text delta of nothing but white space is
      read as empty. */
  lemma EventIsReadBack(
      text: Bytes -> string, decode: string -> Option<RawEvent>, lower: char -> char, clock: nat -> int, line: Bytes,
      e: Event)
    requires !e.Failure? && !e.Other? && Carries(decode, text(line), RawOf(e))
    ensures PluginWire(text, decode, lower, clock).parse(line) ==
            if e.TextDelta? && Blank(e.text) then Some(TextDelta("")) else Some(e)
  {
    CarriedIsRead(decode, text(line), RawOf(e));
    EventRoundTrip(e);
  }

  // ---- Errors ----

  /** The statuses that have a mapping; every other becomes 502. */
  const SHOWN_STATUS: map<int, int> := map[
    400 := 400, 401 := 401, 402 := 429, 403 := 401, 404 := 404, 422 := 400, 429 := 429, 500 := 502, 502 := 502, 503 := 503
  ]

  function ShownStatus(status: int): int {
    if status in SHOWN_STATUS then SHOWN_STATUS[status] else 502
  }

  lemma StatusIsShown(status: int)
    ensures MappedStatus(status) == ShownStatus(status)
    ensures MappedStatus(status) == 429 <==> status in {402, 429}
  {
  }

  predicate Digits(s: string) {
    forall k :: 0 <= k < |s| ==> '0' <= s[k] <= '9'
  }

  /** The message starts with a three-digit number in angle brackets. */
  predicate Opens(message: string, status: int) {
    && |message| >= 5 && message[0] == '<' && message[4] == '>' && Digits(message[1..4])
    && status == 100 * (message[1] as int - '0' as int) + 10 * (message[2] as int - '0' as int)
                 + (message[3] as int - '0' as int)
  }

  lemma ThreeDigits(d: string)
    requires |d| == 3 && forall k :: 0 <= k < 3 ==> Decimal.IsDigit(d[k])
    ensures Decimal.Value(d) == 100 * Decimal.DigitValue(d[0]) + 10 * Decimal.DigitValue(d[1]) + Decimal.DigitValue(d[2])
  {
    assert d[..2][..1] == d[..1] && d[..1][..0] == [];
    assert Decimal.Value(d[..1]) == Decimal.DigitValue(d[0]);
    assert Decimal.Value(d[..2]) == 10 * Decimal.Value(d[..1]) + Decimal.DigitValue(d[1]);
  }

  lemma ReportedMeans(message: string)
    ensures forall status :: Opens(message, status) ==> ReportedStatus(message) == status
    ensures (forall status :: !Opens(message, status)) ==> ReportedStatus(message) == 0
  {
    if |message| >= 5 && message[0] == '<' && message[4] == '>' && Digits(message[1..4]) {
      var d := message[1..4];
      assert forall k :: 1 <= k < 4 ==> message[k] == d[k - 1];
      ThreeDigits(d);
      assert Opens(message, Decimal.Value(d));
    } else if ReportedStatus(message) != 0 {
      assert Digits(message[1..4]);
    }
  }

  /** The status an error is given: the one its message opens with, unless that is zero or missing; else the one beside
      it, towards zero. */
  ghost predicate Reports(message: string, statusCode: Option<real>, status: int) {
    if exists n :: n != 0 && Opens(message, n) then Opens(message, status)
    else status == if statusCode.Some? then Truncate(statusCode.value) else 0
  }

  /** Main result on errors: an error object is read with the first message it has, the status that the table shows for the
      one it reports, and a wait of half a minute exactly for 402 and 429. */
  lemma ErrorIsRead(
      text: Bytes -> string, decode: string -> Option<RawEvent>, lower: char -> char, clock: nat -> int, line: Bytes,
      raw: RawEvent, status: int)
    requires Carries(decode, text(line), raw) && TrimSpace(raw.typ) == "error"
    requires Reports(FirstSolid(raw.errorMessage, raw.message, "Unknown CC error"), raw.statusCode, status)
    ensures PluginWire(text, decode, lower, clock).parse(line) ==
            Some(Failure(UpstreamError(
              ShownStatus(status), FirstSolid(raw.errorMessage, raw.message, "Unknown CC error"),
              if status in {402, 429} then 30 else 0)))
  {
    CarriedIsRead(decode, text(line), raw);
    NamesAreTypes(TrimSpace(raw.typ));
    ErrorMessageIs(raw);
    ErrorIs(ErrorMessage(raw), raw.statusCode, status);
  }

  lemma ErrorMessageIs(raw: RawEvent)
    ensures ErrorMessage(raw) == FirstSolid(raw.errorMessage, raw.message, "Unknown CC error")
  {
    var unknown := "Unknown CC error";
    SolidStart(unknown);
    FirstOfThree(raw.errorMessage, raw.message, unknown);
  }

  lemma ErrorIs(message: string, statusCode: Option<real>, status: int)
    requires Reports(message, statusCode, status)
    ensures EventError(message, statusCode) == UpstreamError(ShownStatus(status), message, if status in {402, 429} then 30 else 0)
  {
    ReportedMeans(message);
    StatusIsShown(status);
    if exists n :: n != 0 && Opens(message, n) {
      assert ReportedStatus(message) == status;
    } else if exists n :: Opens(message, n) {
      var n :| Opens(message, n);
      assert n == 0;
    }
  }

  /** A finish reason goes by its trimmed text in lower case. */
  lemma ReasonIsRead(
      text: Bytes -> string, decode: string -> Option<RawEvent>, lower: char -> char, clock: nat -> int, reason: string,
      i: nat, j: nat, trimmed: string, low: string)
    requires TrimmedAt(reason, i, j, trimmed)
    requires |low| == |trimmed| && forall k :: 0 <= k < |low| ==> low[k] == lower(trimmed[k])
    ensures PluginWire(text, decode, lower, clock).finish(reason) == FinishReasons.Canonical(low)
  {
    TrimSpaceMeans(reason, trimmed);
    LoweredIs(lower, trimmed, low);
  }

  lemma LoweredIs(lower: char -> char, t: string, low: string)
    requires |low| == |t| && forall k :: 0 <= k < |low| ==> low[k] == lower(t[k])
    ensures FinishReasons.LowerCase(lower, t) == low
  {
  }

  // ---- Whole streams ----

  /** The events as they are read: a text delta of nothing but white space is empty. */
  function AsRead(e: Event): Event {
    if e.TextDelta? && Blank(e.text) then TextDelta("") else e
  }

  lemma {:induction false} LinesGive(w: Wire, lines: seq<Bytes>, es: seq<Event>)
    requires |lines| == |es| && forall k :: 0 <= k < |es| ==> w.parse(lines[k]) == Some(es[k])
    ensures Events(w, lines) == es
  {
    if es != [] {
      var n := |es| - 1;
      LinesGive(w, lines[..n], es[..n]);
    }
  }

  function AllRead(es: seq<Event>): seq<Event> {
    seq(|es|, k requires 0 <= k < |es| => AsRead(es[k]))
  }

  lemma LineIsRead(
      text: Bytes -> string, decode: string -> Option<RawEvent>, lower: char -> char, clock: nat -> int, line: Bytes,
      es: seq<Event>, k: nat)
    requires k < |es| && !es[k].Failure? && !es[k].Other? && Carries(decode, text(line), RawOf(es[k]))
    ensures PluginWire(text, decode, lower, clock).parse(line) == Some(AllRead(es)[k])
  {
    EventIsReadBack(text, decode, lower, clock, line, es[k]);
  }

  /** When every line carries the object that stands for an event, the stream is read as those events. */
  lemma StreamIsRead(
      text: Bytes -> string, decode: string -> Option<RawEvent>, lower: char -> char, clock: nat -> int,
      lines: seq<Bytes>, es: seq<Event>)
    requires |lines| == |es|
    requires forall k :: 0 <= k < |es| ==>
               !es[k].Failure? && !es[k].Other? && Carries(decode, text(lines[k]), RawOf(es[k]))
    ensures Events(PluginWire(text, decode, lower, clock), lines) == AllRead(es)
  {
    var w := PluginWire(text, decode, lower, clock);
    forall k | 0 <= k < |es|
      ensures w.parse(lines[k]) == Some(AllRead(es)[k])
    {
      LineIsRead(text, decode, lower, clock, lines[k], es, k);
    }
    LinesGive(w, lines, AllRead(es));
  }
}
