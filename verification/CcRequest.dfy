/** The envelope builder: wire messages, wire system blocks and the cache marker. */
module CcRequest {
  import opened Text
  import opened Chat

  datatype WirePart =
    | Passed(part: Part)
    | PlainText(text: string)
    | Reasoning(text: string)
    | ToolUse(id: string, name: string, input: string)
    | Image(url: string, mime: Option<string>)

  datatype WireMessage =
    | WireUser(parts: seq<WirePart>)
    | WireAssistant(parts: seq<WirePart>)
    | WireResult(callId: string, name: string, output: string)

  datatype SystemBlock = SystemBlock(text: string, cache: Option<string>)

  /** What a text is as JSON; an object is held in its encoded form. */
  datatype Decoded = Invalid | NullValue | Object(json: string) | OtherValue

  /** The JSON library: the text of a list of parts, and the reading of a call's arguments. */
  datatype Codec = Codec(render: seq<Part> -> string, decode: string -> Decoded)

  /** `asString` of content. */
  function Shown(codec: Codec, content: Content): string {
    match content
    case NoContent => ""
    case Text(text) => text
    case Parts(parts) => codec.render(parts)
    case Scalar(shown) => shown
  }

  /** The input that a call's arguments become: what is not an object becomes an empty one, but `null` stays. */
  function WireInput(codec: Codec, arguments: Arguments): string {
    match arguments
    case Encoded(text) =>
      (match codec.decode(text)
       case Object(json) => json
       case NullValue => "null"
       case _ => "{}")
    case Given(json) => json
    case Unusable => "{}"
  }

  /** The position of the first semicolon; the length if there is none. */
  function Semicolon(url: string): (at: nat)
    ensures at <= |url|
    ensures ';' !in url[..at] && (at < |url| ==> url[at] == ';')
  {
    if url == "" || url[0] == ';' then 0 else 1 + Semicolon(url[1..])
  }

  function MimeOf(url: string): Option<string> {
    var at := Semicolon(url);
    if 0 < at < |url| && HasPrefix(url, "data:") && at > 5 then Some(url[5..at]) else None
  }

  function UserPart(part: Part): WirePart {
    if part.kind == ImagePart then Image(part.url, MimeOf(part.url)) else Passed(part)
  }

  function UserParts(codec: Codec, content: Content): seq<WirePart> {
    match content
    case Text(text) => [PlainText(text)]
    case Parts(parts) => seq(|parts|, i requires 0 <= i < |parts| => UserPart(parts[i]))
    case _ => [PlainText(Shown(codec, content))]
  }

  /** The text and reasoning parts that an assistant keeps from a content list. */
  function KeptParts(parts: seq<Part>, ownReasoning: bool): seq<WirePart> {
    if parts == [] then []
    else
      var last := parts[|parts| - 1];
      KeptParts(parts[..|parts| - 1], ownReasoning) +
      if last.kind == TextPart || (last.kind == ReasoningPart && !ownReasoning) then [Passed(last)] else []
  }

  function ToolUseOf(codec: Codec, c: Call): WirePart {
    ToolUse(c.id, c.name, WireInput(codec, c.arguments))
  }

  function ToolUses(codec: Codec, calls: seq<Call>): seq<WirePart> {
    seq(|calls|, i requires 0 <= i < |calls| => ToolUseOf(codec, calls[i]))
  }

  function Head(reasoning: string): seq<WirePart> {
    if reasoning != "" then [Reasoning(reasoning)] else []
  }

  function Body(content: Content, ownReasoning: bool): seq<WirePart> {
    match content
    case Text(text) => if text != "" then [PlainText(text)] else []
    case Parts(parts) => KeptParts(parts, ownReasoning)
    case _ => []
  }

  function AssistantParts(codec: Codec, m: Message): seq<WirePart> {
    Head(m.reasoning) + Body(m.content, m.reasoning != "") + ToolUses(codec, m.calls)
  }

  /** The texts of the text parts, one a line. */
  function TextsOf(parts: seq<Part>): seq<string> {
    if parts == [] then []
    else TextsOf(parts[..|parts| - 1]) + if parts[|parts| - 1].kind == TextPart then [parts[|parts| - 1].text] else []
  }

  function ToolOutput(content: Content): string {
    match content
    case NoContent => ""
    case Text(text) => text
    case Parts(parts) => Join(TextsOf(parts), "\n")
    case Scalar(shown) => shown
  }

  method AddKeptParts(head: seq<WirePart>, list: seq<Part>, ownReasoning: bool) returns (parts: seq<WirePart>)
    ensures parts == head + KeptParts(list, ownReasoning)
  {
    parts := head;
    for i := 0 to |list|
      invariant parts == head + KeptParts(list[..i], ownReasoning)
    {
      assert list[..i + 1][..i] == list[..i];
      match list[i].kind {
        case TextPart =>
          parts := parts + [Passed(list[i])];
        case ReasoningPart =>
          if !ownReasoning {
            parts := parts + [Passed(list[i])];
          }
        case _ =>
      }
    }
    assert list[..|list|] == list;
  }

  method ParseArguments(codec: Codec, arguments: Arguments) returns (parsed: string)
    ensures parsed == WireInput(codec, arguments)
  {
    parsed := "{}";
    match arguments {
      case Encoded(text) =>
        match codec.decode(text) {
          case Object(json) =>
            parsed := json;
          case NullValue =>
            parsed := "null";
          case _ =>
        }
      case Given(json) =>
        parsed := json;
      case Unusable =>
    }
  }

  method AddToolUses(codec: Codec, head: seq<WirePart>, calls: seq<Call>) returns (parts: seq<WirePart>)
    ensures parts == head + ToolUses(codec, calls)
  {
    parts := head;
    for i := 0 to |calls|
      invariant parts == head + ToolUses(codec, calls)[..i]
    {
      var parsed := ParseArguments(codec, calls[i].arguments);
      parts := parts + [ToolUse(calls[i].id, calls[i].name, parsed)];
    }
  }

  /** `ccUserContent`. */
  method CcUserContent(codec: Codec, content: Content) returns (parts: seq<WirePart>)
    ensures parts == UserParts(codec, content)
  {
    match content {
      case Text(text) =>
        parts := [PlainText(text)];
      case Parts(list) =>
        parts := [];
        for i := 0 to |list|
          invariant parts == UserParts(codec, content)[..i]
        {
          if list[i].kind == ImagePart {
            parts := parts + [Image(list[i].url, MimeOf(list[i].url))];
            continue;
          }
          parts := parts + [Passed(list[i])];
        }
      case _ =>
        parts := [PlainText(Shown(codec, content))];
    }
  }

  /** `ccAssistantMessage`. */
  method CcAssistantMessage(codec: Codec, m: Message) returns (wire: WireMessage)
    ensures wire == WireAssistant(AssistantParts(codec, m))
  {
    var parts: seq<WirePart> := [];
    if m.reasoning != "" {
      parts := parts + [Reasoning(m.reasoning)];
    }
    match m.content {
      case Text(text) =>
        if text != "" {
          parts := parts + [PlainText(text)];
        }
      case Parts(list) =>
        parts := AddKeptParts(parts, list, m.reasoning != "");
      case _ =>
    }
    parts := AddToolUses(codec, parts, m.calls);
    wire := WireAssistant(parts);
  }

  /** The name on a wire result: from the calls seen so far when the id is not empty, and otherwise, or when that gives
      nothing, from the message itself. */
  function ResultName(trace: seq<Mark>, id: string, given: string): string {
    var seen := if id == "" then "" else OrEmpty(LatestName(trace, id));
    if seen == "" then given else seen
  }

  /** The tool activity of the messages, in order. */
  function MessageMarks(m: Message): seq<Mark> {
    match m.role
    case Assistant => CallMarks(m.calls)
    case Tool => [AnOutput(m.callId, ToolOutput(m.content), m.name)]
    case _ => []
  }

  function ChatMarks(messages: seq<Message>): seq<Mark> {
    FlatMap(MessageMarks, messages)
  }

  function WireOf(codec: Codec, m: Message, trace: seq<Mark>): seq<WireMessage> {
    match m.role
    case System => []
    case User => [WireUser(UserParts(codec, m.content))]
    case Assistant => [WireAssistant(AssistantParts(codec, m))]
    case Tool => [WireResult(m.callId, ResultName(trace, m.callId, m.name), ToolOutput(m.content))]
    case OtherRole => [WireUser([PlainText(Shown(codec, m.content))])]
  }

  /** The wire messages of a chat, when `wire` makes them from a message and the trace before it. */
  function FoldWire(wire: (Message, seq<Mark>) -> seq<WireMessage>, messages: seq<Message>): seq<WireMessage> {
    if messages == [] then []
    else
      var front := messages[..|messages| - 1];
      FoldWire(wire, front) + wire(messages[|messages| - 1], ChatMarks(front))
  }

  function WireStep(codec: Codec): (Message, seq<Mark>) -> seq<WireMessage> {
    (m: Message, trace: seq<Mark>) => WireOf(codec, m, trace)
  }

  function WireChat(codec: Codec, messages: seq<Message>): seq<WireMessage> {
    FoldWire(WireStep(codec), messages)
  }

  /** `toolNameMap` knows the latest name of every id that is not empty. */
  ghost predicate Knows(names: map<string, string>, trace: seq<Mark>) {
    && "" !in names
    && forall id :: id != "" ==> LatestName(trace, id) == if id in names then Some(names[id]) else None
  }

  method CcMessage(codec: Codec, m: Message, names: map<string, string>, ghost trace: seq<Mark>)
    returns (wire: WireMessage)
    requires m.role != System && Knows(names, trace)
    ensures [wire] == WireOf(codec, m, trace)
  {
    match m.role {
      case User =>
        var parts := CcUserContent(codec, m.content);
        wire := WireUser(parts);
      case Assistant =>
        wire := CcAssistantMessage(codec, m);
      case Tool =>
        var name := if m.callId in names then names[m.callId] else "";
        if name == "" {
          name := m.name;
        }
        wire := WireResult(m.callId, name, ToolOutput(m.content));
      case _ =>
        wire := WireUser([PlainText(Shown(codec, m.content))]);
    }
  }

  /** The message loop of `buildCcRequest`. */
  method BuildMessages(codec: Codec, messages: seq<Message>) returns (chat: seq<WireMessage>)
    ensures chat == WireChat(codec, messages)
  {
    chat := [];
    var names: map<string, string> := map[];
    ghost var trace: seq<Mark> := [];
    for n := 0 to |messages|
      invariant chat == WireChat(codec, messages[..n])
      invariant trace == ChatMarks(messages[..n])
      invariant Knows(names, trace)
    {
      assert messages[..n + 1][..n] == messages[..n];
      var m := messages[n];
      if m.role == System {
        assert trace + [] == trace && chat + [] == chat;
        continue;
      }
      ghost var before := trace;
      if m.role == Assistant {
        names, trace := LearnNames(m.calls, names, trace);
      } else if m.role == Tool {
        OutputKeepsNames(names, trace, AnOutput(m.callId, ToolOutput(m.content), m.name));
        trace := trace + MessageMarks(m);
      } else {
        assert trace + [] == trace;
      }
      var wire := CcMessage(codec, m, names, trace);
      assert [wire] == WireOf(codec, m, before);
      chat := chat + [wire];
    }
    assert messages[..|messages|] == messages;
  }

  method LearnNames(calls: seq<Call>, names: map<string, string>, ghost trace: seq<Mark>)
    returns (names': map<string, string>, ghost trace': seq<Mark>)
    requires Knows(names, trace)
    ensures Knows(names', trace') && trace' == trace + CallMarks(calls)
  {
    names', trace' := names, trace;
    for k := 0 to |calls|
      invariant Knows(names', trace') && trace' == trace + CallMarks(calls[..k])
    {
      CallMarksStep(calls, k);
      Regroup(trace, CallMarks(calls[..k]), [ACall(calls[k])]);
      CallTeachesName(names', trace', calls[k]);
      if calls[k].id != "" {
        names' := names'[calls[k].id := calls[k].name];
      }
      trace' := trace' + [ACall(calls[k])];
    }
    assert calls[..|calls|] == calls;
  }

  lemma CallTeachesName(names: map<string, string>, trace: seq<Mark>, c: Call)
    requires Knows(names, trace)
    ensures Knows(if c.id != "" then names[c.id := c.name] else names, trace + [ACall(c)])
  {
    forall id
      ensures LatestName(trace + [ACall(c)], id) == if c.id == id then Some(c.name) else LatestName(trace, id)
    {
      LatestNameStep(trace, ACall(c), id);
    }
  }

  lemma OutputKeepsNames(names: map<string, string>, trace: seq<Mark>, m: Mark)
    requires Knows(names, trace) && m.AnOutput?
    ensures Knows(names, trace + [m])
    ensures forall id :: LatestName(trace + [m], id) == LatestName(trace, id)
  {
    forall id
      ensures LatestName(trace + [m], id) == LatestName(trace, id)
    {
      LatestNameStep(trace, m, id);
    }
  }

  // ---- Tool names on the wire ----

  /** The tool activity that the wire shows: its tool calls and its named results, in order. */
  datatype WireMark = WCall(id: string, name: string, input: string) | WResult(callId: string, name: string, output: string)

  function PartMark(part: WirePart): seq<WireMark> {
    if part.ToolUse? then [WCall(part.id, part.name, part.input)] else []
  }

  function PartMarks(parts: seq<WirePart>): seq<WireMark> {
    FlatMap(PartMark, parts)
  }

  function WireMessageMarks(m: WireMessage): seq<WireMark> {
    match m
    case WireUser(parts) => PartMarks(parts)
    case WireAssistant(parts) => PartMarks(parts)
    case WireResult(callId, name, output) => [WResult(callId, name, output)]
  }

  function WireMarks(chat: seq<WireMessage>): seq<WireMark> {
    FlatMap(WireMessageMarks, chat)
  }

  function NamedMark(codec: Codec, trace: seq<Mark>, m: Mark): WireMark {
    match m
    case ACall(c) => WCall(c.id, c.name, WireInput(codec, c.arguments))
    case AnOutput(id, output, given) => WResult(id, ResultName(trace, id, given), output)
  }

  /** A trace with every output named by the calls before it. */
  function Named(codec: Codec, trace: seq<Mark>): seq<WireMark> {
    if trace == [] then []
    else
      var front := trace[..|trace| - 1];
      Named(codec, front) + [NamedMark(codec, front, trace[|trace| - 1])]
  }

  lemma NamedStep(codec: Codec, trace: seq<Mark>, m: Mark)
    ensures Named(codec, trace + [m]) == Named(codec, trace) + [NamedMark(codec, trace, m)]
  {
    assert (trace + [m])[..|trace|] == trace;
  }

  predicate NoToolUse(parts: seq<WirePart>) {
    forall i :: 0 <= i < |parts| ==> !parts[i].ToolUse?
  }

  lemma NoToolUseNoMarks(parts: seq<WirePart>)
    requires NoToolUse(parts)
    ensures PartMarks(parts) == []
  {
    FlatMapOfNothing(PartMark, parts);
  }

  lemma {:induction false} KeptPartsNoToolUse(parts: seq<Part>, ownReasoning: bool)
    ensures NoToolUse(KeptParts(parts, ownReasoning))
  {
    if parts != [] {
      KeptPartsNoToolUse(parts[..|parts| - 1], ownReasoning);
    }
  }

  lemma ToolUsesStep(codec: Codec, front: seq<Call>, last: Call)
    ensures ToolUses(codec, front + [last]) == ToolUses(codec, front) + [ToolUseOf(codec, last)]
    ensures PartMarks(ToolUses(codec, front + [last])) ==
            PartMarks(ToolUses(codec, front)) + [WCall(last.id, last.name, WireInput(codec, last.arguments))]
  {
    assert ToolUses(codec, front + [last]) == ToolUses(codec, front) + [ToolUseOf(codec, last)];
    FlatMapSnoc(PartMark, ToolUses(codec, front), ToolUseOf(codec, last));
  }

  lemma {:induction false} NamedCalls(codec: Codec, trace: seq<Mark>, calls: seq<Call>)
    ensures Named(codec, trace + CallMarks(calls)) == Named(codec, trace) + PartMarks(ToolUses(codec, calls))
  {
    if calls == [] {
      assert trace + CallMarks(calls) == trace;
      assert ToolUses(codec, calls) == [];
    } else {
      var front, last := calls[..|calls| - 1], calls[|calls| - 1];
      Snoc(calls);
      NamedCalls(codec, trace, front);
      ToolUsesStep(codec, front, last);
      CallMarksSnoc(trace, front, last);
      NamedStep(codec, trace + CallMarks(front), ACall(last));
    }
  }

  lemma CallMarksSnoc(trace: seq<Mark>, front: seq<Call>, last: Call)
    ensures trace + CallMarks(front + [last]) == trace + CallMarks(front) + [ACall(last)]
  {
    CallMarksAppend(front, [last]);
    assert CallMarks([last]) == [ACall(last)];
    Regroup(trace, CallMarks(front), [ACall(last)]);
  }

  lemma BodyNoMarks(content: Content, ownReasoning: bool)
    ensures PartMarks(Body(content, ownReasoning)) == []
  {
    if content.Parts? {
      KeptPartsNoToolUse(content.parts, ownReasoning);
    }
    NoToolUseNoMarks(Body(content, ownReasoning));
  }

  lemma LastPartCounts(a: seq<WirePart>, b: seq<WirePart>, c: seq<WirePart>)
    requires PartMarks(a) == [] && PartMarks(b) == []
    ensures PartMarks(a + b + c) == PartMarks(c)
  {
    FlatMapAppend(PartMark, a, b);
    FlatMapAppend(PartMark, a + b, c);
  }

  lemma AssistantMarks(codec: Codec, m: Message)
    ensures PartMarks(AssistantParts(codec, m)) == PartMarks(ToolUses(codec, m.calls))
  {
    NoToolUseNoMarks(Head(m.reasoning));
    BodyNoMarks(m.content, m.reasoning != "");
    LastPartCounts(Head(m.reasoning), Body(m.content, m.reasoning != ""), ToolUses(codec, m.calls));
  }

  lemma UserMarks(parts: seq<WirePart>)
    requires NoToolUse(parts)
    ensures WireMarks([WireUser(parts)]) == []
  {
    FlatMapOne(WireMessageMarks, WireUser(parts));
    NoToolUseNoMarks(parts);
  }

  lemma AssistantNamed(codec: Codec, m: Message, trace: seq<Mark>)
    ensures Named(codec, trace + CallMarks(m.calls)) ==
            Named(codec, trace) + WireMarks([WireAssistant(AssistantParts(codec, m))])
  {
    NamedCalls(codec, trace, m.calls);
    AssistantMarks(codec, m);
    FlatMapOne(WireMessageMarks, WireAssistant(AssistantParts(codec, m)));
  }

  lemma OneMessageNamed(codec: Codec, m: Message, trace: seq<Mark>)
    ensures |WireOf(codec, m, trace)| <= 1
    ensures Named(codec, trace + MessageMarks(m)) == Named(codec, trace) + WireMarks(WireOf(codec, m, trace))
  {
    assert trace + [] == trace;
    match m.role {
      case Assistant =>
        AssistantNamed(codec, m, trace);
      case Tool =>
        NamedStep(codec, trace, AnOutput(m.callId, ToolOutput(m.content), m.name));
        FlatMapOne(WireMessageMarks, WireOf(codec, m, trace)[0]);
      case System =>
      case User =>
        UserMarks(UserParts(codec, m.content));
      case OtherRole =>
        UserMarks([PlainText(Shown(codec, m.content))]);
    }
  }

  /** Each message adds to the wire what it adds to the trace, named by the trace before it. */
  ghost predicate NamesEach(codec: Codec, wire: (Message, seq<Mark>) -> seq<WireMessage>) {
    forall m, t :: Named(codec, t + MessageMarks(m)) == Named(codec, t) + WireMarks(wire(m, t))
  }

  lemma {:induction false} FoldKeepsTrace(
      codec: Codec, wire: (Message, seq<Mark>) -> seq<WireMessage>, messages: seq<Message>)
    requires NamesEach(codec, wire)
    ensures WireMarks(FoldWire(wire, messages)) == Named(codec, ChatMarks(messages))
  {
    if messages != [] {
      var front, last := messages[..|messages| - 1], messages[|messages| - 1];
      FoldKeepsTrace(codec, wire, front);
      FlatMapAppend(WireMessageMarks, FoldWire(wire, front), wire(last, ChatMarks(front)));
    }
  }

  lemma StepNamesEach(codec: Codec)
    ensures NamesEach(codec, WireStep(codec))
  {
    forall m, t
      ensures Named(codec, t + MessageMarks(m)) == Named(codec, t) + WireMarks(WireStep(codec)(m, t))
    {
      OneMessageNamed(codec, m, t);
    }
  }

  /** The wire shows every tool call and every tool output of the chat once and in order, each call with its decoded input
      and each output named by the latest call before it. */
  lemma WireKeepsTrace(codec: Codec, messages: seq<Message>)
    ensures WireMarks(WireChat(codec, messages)) == Named(codec, ChatMarks(messages))
  {
    StepNamesEach(codec);
    FoldKeepsTrace(codec, WireStep(codec), messages);
  }

  // ---- System blocks ----

  /** The text of one content part of a system message: its `text`, or failing that its `content`. */
  function PartText(part: Part): string {
    if part.text == "" && part.content.Some? then part.content.value else part.text
  }

  /** The block a part becomes; a part without text or cache marker becomes none. */
  function PartBlocks(part: Part): seq<SystemBlock> {
    if PartText(part) == "" && part.cache == None then [] else [SystemBlock(PartText(part), part.cache)]
  }

  function ListBlocks(parts: seq<Part>): seq<SystemBlock> {
    FlatMap(PartBlocks, parts)
  }

  function ContentBlocks(content: Content): seq<SystemBlock> {
    match content
    case NoContent => []
    case Text(text) => if text != "" then [SystemBlock(text, None)] else []
    case Parts(parts) => ListBlocks(parts)
    case Scalar(shown) => [SystemBlock(shown, None)]
  }

  /** The system and developer texts that are kept, before they are joined. */
  function KeptBlocks(messages: seq<Message>): seq<SystemBlock> {
    FlatMap(MessageBlocks, messages)
  }

  function MessageBlocks(m: Message): seq<SystemBlock> {
    if m.role == System then ContentBlocks(m.content) else []
  }

  /** Every block but the last ends its line. */
  function Lined(blocks: seq<SystemBlock>): seq<SystemBlock> {
    seq(|blocks|, i requires 0 <= i < |blocks| =>
      if i < |blocks| - 1 then blocks[i].(text := blocks[i].text + "\n") else blocks[i])
  }

  /** The blocks of a system message with a list of parts. */
  method AddListBlocks(blocks: seq<SystemBlock>, parts: seq<Part>) returns (out: seq<SystemBlock>)
    ensures out == blocks + ListBlocks(parts)
  {
    out := blocks;
    for k := 0 to |parts|
      invariant out == blocks + ListBlocks(parts[..k])
    {
      assert parts[..k + 1][..k] == parts[..k];
      var text := parts[k].text;
      if text == "" && parts[k].content.Some? {
        text := parts[k].content.value;
      }
      if text == "" && parts[k].cache == None {
        continue;
      }
      out := out + [SystemBlock(text, parts[k].cache)];
    }
    assert parts[..|parts|] == parts;
  }

  /** The message loop of `systemBlocksFromMessages`. */
  method KeepBlocks(messages: seq<Message>) returns (blocks: seq<SystemBlock>)
    ensures blocks == KeptBlocks(messages)
  {
    blocks := [];
    for n := 0 to |messages|
      invariant blocks == KeptBlocks(messages[..n])
    {
      assert messages[..n + 1][..n] == messages[..n];
      if messages[n].role != System {
        continue;
      }
      match messages[n].content {
        case Text(text) =>
          if text != "" {
            blocks := blocks + [SystemBlock(text, None)];
          }
        case Parts(parts) =>
          blocks := AddListBlocks(blocks, parts);
        case Scalar(shown) =>
          blocks := blocks + [SystemBlock(shown, None)];
        case NoContent =>
      }
    }
    assert messages[..|messages|] == messages;
  }

  /** `systemBlocksFromMessages`. */
  method SystemBlocksFromMessages(messages: seq<Message>) returns (blocks: seq<SystemBlock>)
    ensures blocks == Lined(KeptBlocks(messages))
  {
    blocks := KeepBlocks(messages);
    ghost var kept := blocks;
    var last := if blocks == [] then 0 else |blocks| - 1;
    for i := 0 to last
      invariant |blocks| == |kept|
      invariant forall k :: 0 <= k < |kept| ==> blocks[k] == if k < i then Lined(kept)[k] else kept[k]
    {
      blocks := blocks[i := blocks[i].(text := blocks[i].text + "\n")];
    }
    assert blocks == Lined(kept);
  }

  function BlockTexts(blocks: seq<SystemBlock>): seq<string> {
    seq(|blocks|, i requires 0 <= i < |blocks| => blocks[i].text)
  }

  /** System text is preserved: read one after the other, the wire blocks give the kept texts joined by one newline, and
      each block keeps its cache marker. */
  lemma SystemTextPreserved(blocks: seq<SystemBlock>)
    ensures Concat(BlockTexts(Lined(blocks))) == Join(BlockTexts(blocks), "\n")
    ensures |Lined(blocks)| == |blocks| && forall i :: 0 <= i < |blocks| ==> Lined(blocks)[i].cache == blocks[i].cache
  {
    assert BlockTexts(Lined(blocks)) == EndLines(BlockTexts(blocks));
    JoinEndsLines(BlockTexts(blocks));
  }

  // ---- The cache marker ----

  function CacheOf(part: WirePart): Option<string> {
    if part.Passed? then part.part.cache else None
  }

  predicate MarkedMessage(m: WireMessage) {
    !m.WireResult? && exists i :: 0 <= i < |m.parts| && CacheOf(m.parts[i]).Some?
  }

  /** Some block or message part already carries a cache marker. */
  predicate HasMarker(system: seq<SystemBlock>, chat: seq<WireMessage>) {
    || (exists i :: 0 <= i < |system| && system[i].cache.Some?)
    || (exists i :: 0 <= i < |chat| && MarkedMessage(chat[i]))
  }

  const EPHEMERAL := "{\"type\":\"ephemeral\"}"

  /** The cache part of `buildCcRequest`: scan for a marker, and put one on the last system block if a cache key was given
      and none was found. */
  method PlaceMarker(cacheKey: string, system: seq<SystemBlock>, chat: seq<WireMessage>) returns (marked: seq<SystemBlock>)
    ensures |marked| == |system|
    ensures cacheKey != "" && system != [] && !HasMarker(system, chat) ==>
              marked == system[|system| - 1 := system[|system| - 1].(cache := Some(EPHEMERAL))]
    ensures cacheKey == "" || HasMarker(system, chat) ==> marked == system
    ensures HasMarker(marked, chat) <==> HasMarker(system, chat) || (cacheKey != "" && system != [])
  {
    var hasCacheMarker := false;
    for i := 0 to |system|
      invariant hasCacheMarker == exists k :: 0 <= k < i && system[k].cache.Some?
    {
      if system[i].cache.Some? {
        hasCacheMarker := true;
      }
    }
    if !hasCacheMarker {
      var i := 0;
      while i < |chat| && !hasCacheMarker
        invariant 0 <= i <= |chat|
        invariant hasCacheMarker == exists k :: 0 <= k < i && MarkedMessage(chat[k])
      {
        if !chat[i].WireResult? {
          var found := FindMarker(chat[i]);
          if found {
            hasCacheMarker := true;
          }
        }
        i := i + 1;
      }
    }
    assert hasCacheMarker == HasMarker(system, chat);
    marked := system;
    if cacheKey != "" && !hasCacheMarker && |system| > 0 {
      marked := system[|system| - 1 := system[|system| - 1].(cache := Some(EPHEMERAL))];
      assert marked[|system| - 1].cache.Some?;
    }
  }

  method FindMarker(m: WireMessage) returns (found: bool)
    requires !m.WireResult?
    ensures found == MarkedMessage(m)
  {
    found := false;
    for k := 0 to |m.parts|
      invariant !exists i :: 0 <= i < k && CacheOf(m.parts[i]).Some?
    {
      if CacheOf(m.parts[k]).Some? {
        return true;
      }
    }
  }
}
