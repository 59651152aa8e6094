/** Converting an Anthropic request into chat messages: blocks are sorted into text, thinking, calls and results, and
    results are hoisted in front of the user's text. */
module Anthropic {
  import opened Text
  import opened Chat
  import opened CcRequest

  /** A result's content; of a list's parts only the text counts. */
  datatype ResultContent = NoResult | Whole(text: string) | Lines(parts: seq<Part>) | Other(shown: string)

  /** An image's `source`; absent keys read as empty. */
  datatype Source = Source(base64: bool, data: string, mediaType: string, url: string)

  /** A content block by its type. `arguments` is the encoded input of a tool use. */
  datatype Block =
    | TextBlock(text: string, cache: Option<string>)
    | Thinking(text: string)
    | ToolUseBlock(id: string, name: string, arguments: string)
    | ImageBlock(source: Source)
    | ToolResult(id: string, content: ResultContent)
    | OtherBlock

  /** A message's content: absent, a list, or a scalar, which only counts as text for a user if it is a string. */
  datatype Body = NoBody | Blocks(blocks: seq<Block>) | ScalarBody(shown: string, isString: bool)

  datatype Speaker = AssistantSpeaker | UserSpeaker | OtherSpeaker

  datatype AMessage = AMessage(speaker: Speaker, body: Body)

  const PNG := "image/png"

  function MediaType(given: string): string {
    FirstNonEmpty([given, PNG])
  }

  function ImageURL(source: Source): string {
    if source.base64 && source.data != "" then "data:" + MediaType(source.mediaType) + ";base64," + source.data
    else source.url
  }

  function ResultText(content: ResultContent): string {
    match content
    case NoResult => ""
    case Whole(text) => text
    case Lines(parts) => Join(PartTexts(parts), "\n")
    case Other(shown) => shown
  }

  function PartTexts(parts: seq<Part>): seq<string> {
    seq(|parts|, i requires 0 <= i < |parts| => parts[i].text)
  }

  /** An assistant's blocks. An empty list is not a list to the code but a value that prints as `[]`. */
  function AssistantBlocks(body: Body): seq<Block> {
    match body
    case NoBody => []
    case Blocks(blocks) => if blocks == [] then [TextBlock("[]", None)] else blocks
    case ScalarBody(shown, _) => [TextBlock(shown, None)]
  }

  function UserBlocks(body: Body): seq<Block> {
    if body.Blocks? then body.blocks else []
  }

  // ---- What the blocks of one message hold ----

  function TextPartOf(b: Block): Part
    requires b.TextBlock?
  {
    Part(TextPart, b.text, None, b.cache, "")
  }

  function TextParts(blocks: seq<Block>): seq<Part> {
    if blocks == [] then []
    else
      var last := blocks[|blocks| - 1];
      TextParts(blocks[..|blocks| - 1]) + if last.TextBlock? then [TextPartOf(last)] else []
  }

  /** An image without a URL is dropped. */
  function ImageParts(url: string): seq<Part> {
    if url == "" then [] else [Part(ImagePart, "", None, None, url)]
  }

  function UserPartList(blocks: seq<Block>): seq<Part> {
    if blocks == [] then []
    else
      var last := blocks[|blocks| - 1];
      UserPartList(blocks[..|blocks| - 1]) +
      (if last.TextBlock? then [TextPartOf(last)]
       else if last.ImageBlock? then ImageParts(ImageURL(last.source))
       else [])
  }

  function AllText(blocks: seq<Block>): string {
    if blocks == [] then ""
    else AllText(blocks[..|blocks| - 1]) + if blocks[|blocks| - 1].TextBlock? then blocks[|blocks| - 1].text else ""
  }

  function AllThinking(blocks: seq<Block>): string {
    if blocks == [] then ""
    else AllThinking(blocks[..|blocks| - 1]) + if blocks[|blocks| - 1].Thinking? then blocks[|blocks| - 1].text else ""
  }

  function CallsOf(blocks: seq<Block>): seq<Call> {
    if blocks == [] then []
    else
      var last := blocks[|blocks| - 1];
      CallsOf(blocks[..|blocks| - 1]) + if last.ToolUseBlock? then [Call(last.id, last.name, Encoded(last.arguments))] else []
  }

  function ResultsOf(blocks: seq<Block>): seq<Block> {
    if blocks == [] then []
    else ResultsOf(blocks[..|blocks| - 1]) + if blocks[|blocks| - 1].ToolResult? then [blocks[|blocks| - 1]] else []
  }

  /** Some text block carries a cache marker. */
  predicate TextCached(blocks: seq<Block>) {
    blocks != [] &&
    (TextCached(blocks[..|blocks| - 1]) || (blocks[|blocks| - 1].TextBlock? && blocks[|blocks| - 1].cache.Some?))
  }

  // ---- One message ----

  /** Parts where there are several or a cache marker must stay in its place, and plain text otherwise. */
  function AssistantContent(parts: seq<Part>, cached: bool, text: string): Content {
    if |parts| > 1 || cached then Parts(parts) else if text != "" then Chat.Text(text) else NoContent
  }

  function AssistantMessage(body: Body): Message {
    var blocks := AssistantBlocks(body);
    Message(Assistant, AssistantContent(TextParts(blocks), TextCached(blocks), AllText(blocks)),
            AllThinking(blocks), CallsOf(blocks), "", "")
  }

  /** The user's own text; a string body is its text. */
  function UserText(body: Body): string {
    if body.ScalarBody? && body.isString then body.shown else AllText(UserBlocks(body))
  }

  function UserMessage(body: Body): seq<Message> {
    var parts := UserPartList(UserBlocks(body));
    var single := |parts| <= 1 && (parts == [] || parts[0].kind == TextPart) && !TextCached(UserBlocks(body));
    if parts == [] && UserText(body) == "" then []
    else if single then [TextMessage(User, Chat.Text(UserText(body)))]
    else [TextMessage(User, Parts(parts))]
  }

  /** A result message; its name is the one the trace knows for the id. */
  function ResultMessage(b: Block, trace: seq<Mark>): Message
    requires b.ToolResult?
  {
    Message(Tool, Chat.Text(ResultText(b.content)), "", [], b.id, OrEmpty(LatestName(trace, b.id)))
  }

  function ResultMessages(results: seq<Block>, trace: seq<Mark>): seq<Message>
    requires forall i :: 0 <= i < |results| ==> results[i].ToolResult?
  {
    seq(|results|, i requires 0 <= i < |results| => ResultMessage(results[i], trace))
  }

  lemma {:induction false} ResultsAreResults(blocks: seq<Block>)
    ensures forall i :: 0 <= i < |ResultsOf(blocks)| ==> ResultsOf(blocks)[i].ToolResult?
  {
    if blocks != [] {
      ResultsAreResults(blocks[..|blocks| - 1]);
    }
  }

  function MessagesFor(m: AMessage, trace: seq<Mark>): seq<Message> {
    match m.speaker
    case AssistantSpeaker => [AssistantMessage(m.body)]
    case UserSpeaker =>
      ResultsAreResults(UserBlocks(m.body));
      ResultMessages(ResultsOf(UserBlocks(m.body)), trace) + UserMessage(m.body)
    case OtherSpeaker => []
  }

  // ---- The tool activity of the input, read directly ----

  /** What an input message does with tools. */
  function InputMarks(m: AMessage): seq<Mark> {
    match m.speaker
    case AssistantSpeaker => CallMarks(CallsOf(AssistantBlocks(m.body)))
    case UserSpeaker =>
      ResultsAreResults(UserBlocks(m.body));
      ResultMarks(ResultsOf(UserBlocks(m.body)))
    case OtherSpeaker => []
  }

  function ResultMarks(results: seq<Block>): seq<Mark>
    requires forall i :: 0 <= i < |results| ==> results[i].ToolResult?
  {
    seq(|results|, i requires 0 <= i < |results| => AnOutput(results[i].id, ResultText(results[i].content), ""))
  }

  function InputTrace(messages: seq<AMessage>): seq<Mark> {
    if messages == [] then [] else InputTrace(messages[..|messages| - 1]) + InputMarks(messages[|messages| - 1])
  }

  function Converted(messages: seq<AMessage>): seq<Message> {
    if messages == [] then []
    else
      var front := messages[..|messages| - 1];
      Converted(front) + MessagesFor(messages[|messages| - 1], InputTrace(front))
  }

  // ---- Tool activity, block by block ----

  function UseActs(b: Block): seq<Mark> {
    match b
    case ToolUseBlock(id, name, arguments) => [ACall(Call(id, name, Encoded(arguments)))]
    case _ => []
  }

  /** The output of a result: a text as it is, a list as the texts of its parts, each on a line of its own. */
  function OutputActs(b: Block): seq<Mark> {
    match b
    case ToolResult(id, Whole(text)) => [AnOutput(id, text, "")]
    case ToolResult(id, Lines(parts)) => [AnOutput(id, Concat(EndLines(PartTexts(parts))), "")]
    case ToolResult(id, NoResult) => [AnOutput(id, "", "")]
    case ToolResult(id, Other(shown)) => [AnOutput(id, shown, "")]
    case _ => []
  }

  /** What the blocks of a message do with tools: only an assistant uses them, and only a user reports results. */
  function Acts(m: AMessage): seq<Mark> {
    if !m.body.Blocks? || m.speaker == OtherSpeaker then []
    else FlatMap(if m.speaker == AssistantSpeaker then UseActs else OutputActs, m.body.blocks)
  }

  lemma {:induction false} CallsAreActs(blocks: seq<Block>)
    ensures CallMarks(CallsOf(blocks)) == FlatMap(UseActs, blocks)
  {
    if blocks != [] {
      var front, last := blocks[..|blocks| - 1], blocks[|blocks| - 1];
      CallsAreActs(front);
      if last.ToolUseBlock? {
        var call := Call(last.id, last.name, Encoded(last.arguments));
        CallMarksAppend(CallsOf(front), [call]);
        assert CallMarks([call]) == [ACall(call)];
      }
    }
  }

  lemma ResultIsAct(b: Block)
    requires b.ToolResult?
    ensures OutputActs(b) == [AnOutput(b.id, ResultText(b.content), "")]
  {
    if b.content.Lines? {
      JoinEndsLines(PartTexts(b.content.parts));
    }
  }

  lemma {:induction false} ResultsAreActs(blocks: seq<Block>)
    ensures forall i :: 0 <= i < |ResultsOf(blocks)| ==> ResultsOf(blocks)[i].ToolResult?
    ensures ResultMarks(ResultsOf(blocks)) == FlatMap(OutputActs, blocks)
  {
    ResultsAreResults(blocks);
    if blocks != [] {
      var front, last := blocks[..|blocks| - 1], blocks[|blocks| - 1];
      ResultsAreActs(front);
      if last.ToolResult? {
        ResultIsAct(last);
        assert ResultMarks(ResultsOf(front) + [last]) == ResultMarks(ResultsOf(front)) + OutputActs(last);
      }
    }
  }

  lemma MessageActs(m: AMessage)
    ensures InputMarks(m) == Acts(m)
  {
    match m.speaker {
      case AssistantSpeaker =>
        CallsAreActs(AssistantBlocks(m.body));
        if !m.body.Blocks? || m.body.blocks == [] {
          FlatMapOfNothing(UseActs, AssistantBlocks(m.body));
        }
      case UserSpeaker =>
        ResultsAreActs(UserBlocks(m.body));
      case OtherSpeaker =>
    }
  }

  /** The trace of the input is what its messages do, block by block. */
  lemma {:induction false} TraceIsActs(messages: seq<AMessage>)
    ensures InputTrace(messages) == FlatMap(Acts, messages)
  {
    if messages != [] {
      TraceIsActs(messages[..|messages| - 1]);
      MessageActs(messages[|messages| - 1]);
    }
  }

  /** What a chat message reports as a tool's output. */
  function Reported(m: Message): seq<Mark> {
    if m.role == Tool && m.content.Text? then [AnOutput(m.callId, m.content.text, "")] else []
  }

  lemma {:induction false} ResultMessagesReport(results: seq<Block>, trace: seq<Mark>)
    requires forall i :: 0 <= i < |results| ==> results[i].ToolResult?
    ensures FlatMap(Reported, ResultMessages(results, trace)) == ResultMarks(results)
  {
    if results != [] {
      var front, last := results[..|results| - 1], results[|results| - 1];
      ResultMessagesReport(front, trace);
      ResultReports(last, trace);
      assert ResultMessages(results, trace) == ResultMessages(front, trace) + [ResultMessage(last, trace)];
      FlatMapSnoc(Reported, ResultMessages(front, trace), ResultMessage(last, trace));
      assert ResultMarks(results) == ResultMarks(front) + [AnOutput(last.id, ResultText(last.content), "")];
    }
  }

  lemma ResultReports(b: Block, trace: seq<Mark>)
    requires b.ToolResult?
    ensures Reported(ResultMessage(b, trace)) == [AnOutput(b.id, ResultText(b.content), "")]
  {
  }

  /** A user's messages report the outputs of the results among its blocks, in order and nothing else. */
  lemma UserReports(body: Body, trace: seq<Mark>)
    ensures FlatMap(Reported, MessagesFor(AMessage(UserSpeaker, body), trace)) == FlatMap(OutputActs, UserBlocks(body))
  {
    var blocks := UserBlocks(body);
    ResultsAreActs(blocks);
    ResultMessagesReport(ResultsOf(blocks), trace);
    FlatMapOfNothing(Reported, UserMessage(body));
    FlatMapAppend(Reported, ResultMessages(ResultsOf(blocks), trace), UserMessage(body));
  }

  // ---- The conversion ----

  /** `toolNameFromID` holds the latest name of every id, the empty one included. */
  ghost predicate Remembers(names: map<string, string>, trace: seq<Mark>) {
    forall id :: LatestName(trace, id) == if id in names then Some(names[id]) else None
  }

  lemma ToolUseRemembered(names: map<string, string>, trace: seq<Mark>, c: Call)
    requires Remembers(names, trace)
    ensures Remembers(names[c.id := c.name], trace + [ACall(c)])
  {
    forall id
      ensures LatestName(trace + [ACall(c)], id) == if c.id == id then Some(c.name) else LatestName(trace, id)
    {
      LatestNameStep(trace, ACall(c), id);
    }
  }

  lemma {:induction false} ResultsForgotten(names: map<string, string>, trace: seq<Mark>, results: seq<Block>)
    requires forall i :: 0 <= i < |results| ==> results[i].ToolResult?
    requires Remembers(names, trace)
    ensures Remembers(names, trace + ResultMarks(results))
  {
    if results == [] {
      assert trace + ResultMarks(results) == trace;
    } else {
      var n := |results| - 1;
      ResultsForgotten(names, trace, results[..n]);
      var before, mark := trace + ResultMarks(results[..n]), ResultMarks(results)[n];
      assert trace + ResultMarks(results) == before + [mark];
      forall id
        ensures LatestName(before + [mark], id) == LatestName(before, id)
      {
        LatestNameStep(before, mark, id);
      }
    }
  }

  lemma BlocksStep(blocks: seq<Block>, n: nat)
    requires n < |blocks|
    ensures var b := blocks[n];
            && TextParts(blocks[..n + 1]) == (if b.TextBlock? then TextParts(blocks[..n]) + [TextPartOf(b)] else TextParts(blocks[..n]))
            && AllText(blocks[..n + 1]) == (if b.TextBlock? then AllText(blocks[..n]) + b.text else AllText(blocks[..n]))
            && AllThinking(blocks[..n + 1]) == (if b.Thinking? then AllThinking(blocks[..n]) + b.text else AllThinking(blocks[..n]))
            && CallsOf(blocks[..n + 1]) ==
               (if b.ToolUseBlock? then CallsOf(blocks[..n]) + [Call(b.id, b.name, Encoded(b.arguments))] else CallsOf(blocks[..n]))
            && ResultsOf(blocks[..n + 1]) == (if b.ToolResult? then ResultsOf(blocks[..n]) + [b] else ResultsOf(blocks[..n]))
  {
    assert blocks[..n + 1][..n] == blocks[..n];
  }

  lemma CachedStep(blocks: seq<Block>, n: nat)
    requires n < |blocks|
    ensures TextCached(blocks[..n + 1]) == (TextCached(blocks[..n]) || (blocks[n].TextBlock? && blocks[n].cache.Some?))
  {
    assert blocks[..n + 1][..n] == blocks[..n];
  }

  lemma CallRemembered(names: map<string, string>, trace: seq<Mark>, calls: seq<Call>, call: Call)
    requires Remembers(names, trace + CallMarks(calls))
    ensures Remembers(names[call.id := call.name], trace + CallMarks(calls + [call]))
  {
    ToolUseRemembered(names, trace + CallMarks(calls), call);
    CallMarksAppend(calls, [call]);
    assert CallMarks([call]) == [ACall(call)];
    Regroup(trace, CallMarks(calls), [ACall(call)]);
  }

  lemma NoCallsYet(names: map<string, string>, trace: seq<Mark>)
    requires Remembers(names, trace)
    ensures Remembers(names, trace + CallMarks([]))
  {
    assert trace + CallMarks([]) == trace;
  }

  /** The block loop of the assistant branch. */
  method SortAssistantBlocks(blocks: seq<Block>, names: map<string, string>, ghost trace: seq<Mark>)
    returns (textContent: string, thinkingContent: string, textParts: seq<Part>, textHasCache: bool, toolCalls: seq<Call>,
             names': map<string, string>)
    requires Remembers(names, trace)
    ensures textContent == AllText(blocks) && thinkingContent == AllThinking(blocks)
    ensures textParts == TextParts(blocks) && textHasCache == TextCached(blocks) && toolCalls == CallsOf(blocks)
    ensures Remembers(names', trace + CallMarks(CallsOf(blocks)))
  {
    textContent, thinkingContent, textParts, textHasCache, toolCalls := "", "", [], false, [];
    names' := names;
    assert blocks[..0] == [];
    NoCallsYet(names, trace);
    for n := 0 to |blocks|
      invariant textContent == AllText(blocks[..n]) && thinkingContent == AllThinking(blocks[..n])
      invariant textParts == TextParts(blocks[..n]) && toolCalls == CallsOf(blocks[..n])
      invariant textHasCache == TextCached(blocks[..n])
      invariant Remembers(names', trace + CallMarks(toolCalls))
    {
      BlocksStep(blocks, n);
      CachedStep(blocks, n);
      match blocks[n] {
        case TextBlock(text, cache) =>
          textContent := textContent + text;
          if cache.Some? {
            textHasCache := true;
          }
          textParts := textParts + [Part(TextPart, text, None, cache, "")];
        case Thinking(text) =>
          thinkingContent := thinkingContent + text;
        case ToolUseBlock(id, name, arguments) =>
          var call := Call(id, name, Encoded(arguments));
          CallRemembered(names', trace, toolCalls, call);
          names' := names'[id := name];
          toolCalls := toolCalls + [call];
        case _ =>
      }
    }
    assert blocks[..|blocks|] == blocks;
  }

  /** The assistant branch of the loop. */
  method ConvertAssistant(body: Body, names: map<string, string>, ghost trace: seq<Mark>)
    returns (message: Message, names': map<string, string>)
    requires Remembers(names, trace)
    ensures message == AssistantMessage(body)
    ensures Remembers(names', trace + CallMarks(CallsOf(AssistantBlocks(body))))
  {
    var textContent, thinkingContent, textParts, textHasCache, toolCalls;
    textContent, thinkingContent, textParts, textHasCache, toolCalls, names' :=
      SortAssistantBlocks(AssistantBlocks(body), names, trace);
    var content := NoContent;
    if |textParts| > 1 || textHasCache {
      content := Parts(textParts);
    } else if textContent != "" {
      content := Chat.Text(textContent);
    }
    message := Message(Assistant, content, thinkingContent, toolCalls, "", "");
  }

  lemma UserPartsStep(blocks: seq<Block>, n: nat)
    requires n < |blocks|
    ensures UserPartList(blocks[..n + 1]) ==
            UserPartList(blocks[..n]) +
            if blocks[n].TextBlock? then [TextPartOf(blocks[n])]
            else if blocks[n].ImageBlock? then ImageParts(ImageURL(blocks[n].source))
            else []
  {
    assert blocks[..n + 1][..n] == blocks[..n];
  }

  /** The block loop of the user branch. */
  method SortUserBlocks(blocks: seq<Block>)
    returns (textContent: string, parts: seq<Part>, textHasCache: bool, toolResults: seq<Block>)
    ensures textContent == AllText(blocks) && parts == UserPartList(blocks)
    ensures textHasCache == TextCached(blocks) && toolResults == ResultsOf(blocks)
  {
    textContent, parts, textHasCache, toolResults := "", [], false, [];
    assert blocks[..0] == [];
    for n := 0 to |blocks|
      invariant textContent == AllText(blocks[..n]) && parts == UserPartList(blocks[..n])
      invariant textHasCache == TextCached(blocks[..n]) && toolResults == ResultsOf(blocks[..n])
    {
      BlocksStep(blocks, n);
      CachedStep(blocks, n);
      UserPartsStep(blocks, n);
      match blocks[n] {
        case TextBlock(text, cache) =>
          textContent := textContent + text;
          if cache.Some? {
            textHasCache := true;
          }
          parts := parts + [Part(TextPart, text, None, cache, "")];
        case ImageBlock(source) =>
          var url := source.url;
          if source.base64 && source.data != "" {
            url := "data:" + MediaType(source.mediaType) + ";base64," + source.data;
          }
          if url != "" {
            parts := parts + [Part(ImagePart, "", None, None, url)];
          }
        case ToolResult(_, _) =>
          toolResults := toolResults + [blocks[n]];
        case _ =>
      }
    }
    assert blocks[..|blocks|] == blocks;
  }

  /** The text of one result's content. */
  method ReadResult(content: ResultContent) returns (toolContent: string)
    ensures toolContent == ResultText(content)
  {
    toolContent := "";
    match content {
      case Whole(text) =>
        toolContent := text;
      case Lines(parts) =>
        var texts: seq<string> := [];
        for k := 0 to |parts|
          invariant texts == PartTexts(parts)[..k]
        {
          texts := texts + [parts[k].text];
        }
        assert texts == PartTexts(parts);
        toolContent := Join(texts, "\n");
      case Other(shown) =>
        toolContent := shown;
      case NoResult =>
    }
  }

  /** The loop over the results that hoists them in front of what the user said. */
  method HoistResults(toolResults: seq<Block>, names: map<string, string>, ghost trace: seq<Mark>)
    returns (out: seq<Message>)
    requires Remembers(names, trace)
    requires forall i :: 0 <= i < |toolResults| ==> toolResults[i].ToolResult?
    ensures out == ResultMessages(toolResults, trace)
  {
    out := [];
    for k := 0 to |toolResults|
      invariant out == ResultMessages(toolResults, trace)[..k]
    {
      var id := toolResults[k].id;
      var name := if id in names then names[id] else "";
      var toolContent := ReadResult(toolResults[k].content);
      out := out + [Message(Tool, Chat.Text(toolContent), "", [], id, name)];
    }
  }

  /** The user branch of the loop: results first, then what the user said. */
  method ConvertUser(body: Body, names: map<string, string>, ghost trace: seq<Mark>) returns (out: seq<Message>)
    requires Remembers(names, trace)
    ensures out == MessagesFor(AMessage(UserSpeaker, body), trace)
    ensures FlatMap(Reported, out) == FlatMap(OutputActs, UserBlocks(body))
  {
    UserReports(body, trace);
    var textContent, parts, textHasCache, toolResults := SortUserBlocks(UserBlocks(body));
    if body.ScalarBody? && body.isString {
      textContent := body.shown;
    }
    ResultsAreResults(UserBlocks(body));
    out := HoistResults(toolResults, names, trace);
    var own: seq<Message> := [];
    if parts != [] || textContent != "" {
      var singleText := |parts| <= 1 && (parts == [] || parts[0].kind == TextPart) && !textHasCache;
      if singleText {
        own := [TextMessage(User, Chat.Text(textContent))];
      } else {
        own := [TextMessage(User, Parts(parts))];
      }
    }
    out := out + own;
  }

  /** One round of the message loop. */
  method ConvertMessage(m: AMessage, names: map<string, string>, ghost trace: seq<Mark>)
    returns (out: seq<Message>, names': map<string, string>)
    requires Remembers(names, trace)
    ensures out == MessagesFor(m, trace) && Remembers(names', trace + InputMarks(m))
  {
    out, names' := [], names;
    match m.speaker {
      case AssistantSpeaker =>
        var message;
        message, names' := ConvertAssistant(m.body, names, trace);
        out := [message];
      case UserSpeaker =>
        ResultsAreResults(UserBlocks(m.body));
        out := ConvertUser(m.body, names, trace);
        ResultsForgotten(names, trace, ResultsOf(UserBlocks(m.body)));
      case OtherSpeaker =>
        assert trace + [] == trace;
    }
  }

  /** The message loop of `convertAnthropicToOpenAI`. */
  method ConvertMessages(messages: seq<AMessage>) returns (out: seq<Message>)
    ensures out == Converted(messages)
  {
    out := [];
    var names: map<string, string> := map[];
    for n := 0 to |messages|
      invariant out == Converted(messages[..n])
      invariant Remembers(names, InputTrace(messages[..n]))
    {
      assert messages[..n + 1][..n] == messages[..n];
      var more;
      more, names := ConvertMessage(messages[n], names, InputTrace(messages[..n]));
      out := out + more;
    }
    assert messages[..|messages|] == messages;
  }

  /** The request's `system`: absent, a string, or a list of parts of which the text ones count. */
  datatype SystemBody = NoSystem | SystemText(text: string) | SystemParts(parts: seq<Part>)

  function SystemBlocks(parts: seq<Part>): seq<Part> {
    if parts == [] then []
    else
      var last := parts[|parts| - 1];
      SystemBlocks(parts[..|parts| - 1]) +
      if last.kind == TextPart then [Part(TextPart, last.text, None, last.cache, "")] else []
  }

  /** The leading system message; none when the joined text is empty. */
  function SystemMessage(system: SystemBody): seq<Message> {
    match system
    case NoSystem => []
    case SystemText(text) => if text == "" then [] else [TextMessage(System, Chat.Text(text))]
    case SystemParts(parts) =>
      if Join(CcRequest.TextsOf(parts), "\n") == "" then [] else [TextMessage(System, Parts(SystemBlocks(parts)))]
  }

  /** `convertAnthropicToOpenAI`, as far as the messages go. */
  method ConvertAnthropicToOpenAI(system: SystemBody, messages: seq<AMessage>) returns (out: seq<Message>)
    ensures out == SystemMessage(system) + Converted(messages)
  {
    var systemPrompt := "";
    var systemBlocks: seq<Part> := [];
    match system {
      case NoSystem =>
      case SystemText(text) =>
        systemPrompt := text;
      case SystemParts(parts) =>
        var texts: seq<string> := [];
        for n := 0 to |parts|
          invariant systemBlocks == SystemBlocks(parts[..n]) && texts == CcRequest.TextsOf(parts[..n])
          invariant |systemBlocks| == |texts|
        {
          assert parts[..n + 1][..n] == parts[..n];
          if parts[n].kind == TextPart {
            systemBlocks := systemBlocks + [Part(TextPart, parts[n].text, None, parts[n].cache, "")];
            texts := texts + [parts[n].text];
          }
        }
        assert parts[..|parts|] == parts;
        systemPrompt := Join(texts, "\n");
    }
    out := [];
    if systemPrompt != "" {
      if systemBlocks != [] {
        out := [TextMessage(System, Parts(systemBlocks))];
      } else {
        out := [TextMessage(System, Chat.Text(systemPrompt))];
      }
    }
    var rest := ConvertMessages(messages);
    out := out + rest;
  }

  // ---- Text ----

  function PartsText(parts: seq<Part>): string {
    if parts == [] then "" else PartsText(parts[..|parts| - 1]) + parts[|parts| - 1].text
  }

  function ContentText(content: Content): string {
    match content
    case Text(text) => text
    case Parts(parts) => PartsText(parts)
    case _ => ""
  }

  lemma PartsTextStep(parts: seq<Part>, part: Part)
    ensures PartsText(parts + [part]) == PartsText(parts) + part.text
  {
    assert (parts + [part])[..|parts|] == parts;
  }

  lemma {:induction false} TextPartsHoldText(blocks: seq<Block>)
    ensures PartsText(TextParts(blocks)) == AllText(blocks)
  {
    if blocks != [] {
      var n := |blocks| - 1;
      TextPartsHoldText(blocks[..n]);
      assert TextParts(blocks[..n]) + [] == TextParts(blocks[..n]) && AllText(blocks[..n]) + "" == AllText(blocks[..n]);
      if blocks[n].TextBlock? {
        PartsTextStep(TextParts(blocks[..n]), TextPartOf(blocks[n]));
      }
    }
  }

  lemma {:induction false} UserPartsHoldText(blocks: seq<Block>)
    ensures PartsText(UserPartList(blocks)) == AllText(blocks)
  {
    if blocks != [] {
      var n := |blocks| - 1;
      UserPartsHoldText(blocks[..n]);
      assert UserPartList(blocks[..n]) + [] == UserPartList(blocks[..n]) && AllText(blocks[..n]) + "" == AllText(blocks[..n]);
      if blocks[n].TextBlock? {
        PartsTextStep(UserPartList(blocks[..n]), TextPartOf(blocks[n]));
      } else if blocks[n].ImageBlock? && ImageURL(blocks[n].source) != "" {
        PartsTextStep(UserPartList(blocks[..n]), Part(ImagePart, "", None, None, ImageURL(blocks[n].source)));
      }
    }
  }

  lemma AssistantContentText(parts: seq<Part>, cached: bool, text: string)
    requires PartsText(parts) == text
    ensures ContentText(AssistantContent(parts, cached, text)) == text
  {
  }

  /** However the text is laid out, as one string or as parts, no text of a message is lost or reordered. */
  lemma AssistantTextIsKept(body: Body)
    ensures ContentText(AssistantMessage(body).content) == AllText(AssistantBlocks(body))
  {
    var blocks := AssistantBlocks(body);
    TextPartsHoldText(blocks);
    AssistantContentText(TextParts(blocks), TextCached(blocks), AllText(blocks));
  }

  lemma UserTextIsKept(body: Body)
    ensures UserMessage(body) == [] ==> UserText(body) == ""
    ensures UserMessage(body) != [] ==> ContentText(UserMessage(body)[0].content) == UserText(body)
  {
    UserPartsHoldText(UserBlocks(body));
  }

  /** What an assistant's body says. */
  function OwnText(body: Body): string {
    match body
    case NoBody => ""
    case Blocks(blocks) => AllText(blocks)
    case ScalarBody(shown, _) => shown
  }

  function OwnThinking(body: Body): string {
    if body.Blocks? then AllThinking(body.blocks) else ""
  }

  lemma SingleText(text: string)
    ensures AllText([TextBlock(text, None)]) == text && AllThinking([TextBlock(text, None)]) == ""
  {
    BlocksStep([TextBlock(text, None)], 0);
    assert [TextBlock(text, None)][..0] == [];
    assert [TextBlock(text, None)][..1] == [TextBlock(text, None)];
  }

  /** An assistant message says exactly what its body says, except that an empty list of blocks says `[]`. */
  lemma AssistantSaysItsTextIff(body: Body)
    ensures ContentText(AssistantMessage(body).content) == OwnText(body) <==> body != Blocks([])
    ensures body == Blocks([]) ==> ContentText(AssistantMessage(body).content) == "[]"
    ensures AssistantMessage(body).reasoning == OwnThinking(body)
  {
    AssistantTextIsKept(body);
    SingleText("[]");
    if body.ScalarBody? {
      SingleText(body.shown);
    }
  }
}
