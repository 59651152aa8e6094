/** Text and thinking, followed through both stages onto the wire. */
module WireText {
  import opened Text
  import opened Chat
  import opened CcRequest
  import Anthropic
  import Responses

  function PartText(part: WirePart): string {
    match part
    case PlainText(text) => text
    case Passed(p) => if p.kind == TextPart then p.text else ""
    case _ => ""
  }

  /** The text that a message's wire parts show. */
  function ShownText(parts: seq<WirePart>): string {
    FlatMap(PartText, parts)
  }

  function PartReasoning(part: WirePart): string {
    match part
    case Reasoning(text) => text
    case Passed(p) => if p.kind == ReasoningPart then p.text else ""
    case _ => ""
  }

  /** The reasoning that a message's wire parts show. */
  function ShownReasoning(parts: seq<WirePart>): string {
    FlatMap(PartReasoning, parts)
  }

  lemma ShownAppend(a: seq<WirePart>, b: seq<WirePart>)
    ensures ShownText(a + b) == ShownText(a) + ShownText(b)
    ensures ShownReasoning(a + b) == ShownReasoning(a) + ShownReasoning(b)
  {
    FlatMapAppend(PartText, a, b);
    FlatMapAppend(PartReasoning, a, b);
  }

  lemma ShownOne(part: WirePart)
    ensures ShownText([part]) == PartText(part) && ShownReasoning([part]) == PartReasoning(part)
  {
    FlatMapOne(PartText, part);
    FlatMapOne(PartReasoning, part);
  }

  lemma {:induction false} ToolUsesAreSilent(codec: Codec, calls: seq<Call>)
    ensures ShownText(ToolUses(codec, calls)) == "" && ShownReasoning(ToolUses(codec, calls)) == ""
  {
    if calls == [] {
      assert ToolUses(codec, calls) == [];
    } else {
      var front, last := calls[..|calls| - 1], calls[|calls| - 1];
      Snoc(calls);
      ToolUsesAreSilent(codec, front);
      ToolUsesStep(codec, front, last);
      ShownAppend(ToolUses(codec, front), [ToolUseOf(codec, last)]);
      ShownOne(ToolUseOf(codec, last));
    }
  }

  predicate OnlyText(parts: seq<Part>) {
    forall i :: 0 <= i < |parts| ==> parts[i].kind == TextPart
  }

  lemma {:induction false} KeptTextIsShown(parts: seq<Part>, ownReasoning: bool)
    requires OnlyText(parts)
    ensures ShownText(KeptParts(parts, ownReasoning)) == Anthropic.PartsText(parts)
    ensures ShownReasoning(KeptParts(parts, ownReasoning)) == ""
  {
    if parts != [] {
      var front, last := parts[..|parts| - 1], parts[|parts| - 1];
      KeptTextIsShown(front, ownReasoning);
      ShownAppend(KeptParts(front, ownReasoning), [Passed(last)]);
      ShownOne(Passed(last));
    }
  }

  lemma {:induction false} TextPartsAreText(blocks: seq<Anthropic.Block>)
    ensures OnlyText(Anthropic.TextParts(blocks))
  {
    if blocks != [] {
      TextPartsAreText(blocks[..|blocks| - 1]);
    }
  }

  lemma HeadShows(reasoning: string)
    ensures ShownText(Head(reasoning)) == "" && ShownReasoning(Head(reasoning)) == reasoning
  {
    if reasoning != "" {
      ShownOne(Reasoning(reasoning));
    }
  }

  lemma BodyShows(content: Content, ownReasoning: bool)
    requires content.Parts? ==> OnlyText(content.parts)
    ensures ShownText(Body(content, ownReasoning)) == Anthropic.ContentText(content)
    ensures ShownReasoning(Body(content, ownReasoning)) == ""
  {
    match content {
      case Text(text) =>
        if text != "" {
          ShownOne(PlainText(text));
        }
      case Parts(parts) =>
        KeptTextIsShown(parts, ownReasoning);
      case _ =>
    }
  }

  lemma AssistantShows(codec: Codec, m: Message)
    requires m.content.Parts? ==> OnlyText(m.content.parts)
    ensures ShownText(AssistantParts(codec, m)) == Anthropic.ContentText(m.content)
    ensures ShownReasoning(AssistantParts(codec, m)) == m.reasoning
  {
    var head, body, tail := Head(m.reasoning), Body(m.content, m.reasoning != ""), ToolUses(codec, m.calls);
    HeadShows(m.reasoning);
    BodyShows(m.content, m.reasoning != "");
    ToolUsesAreSilent(codec, m.calls);
    ShownAppend(head, body);
    ShownAppend(head + body, tail);
    assert "" + Anthropic.ContentText(m.content) + "" == Anthropic.ContentText(m.content);
    assert m.reasoning + "" + "" == m.reasoning;
  }

  /** An assistant's thinking reaches the wire whole and in order, and so does its text, except that an empty list of
      blocks shows as `[]`. */
  lemma AssistantReachesWire(codec: Codec, body: Anthropic.Body)
    ensures var parts := AssistantParts(codec, Anthropic.AssistantMessage(body));
            && (ShownText(parts) == Anthropic.OwnText(body) <==> body != Anthropic.Blocks([]))
            && (body == Anthropic.Blocks([]) ==> ShownText(parts) == "[]")
            && ShownReasoning(parts) == Anthropic.OwnThinking(body)
  {
    TextPartsAreText(Anthropic.AssistantBlocks(body));
    Anthropic.AssistantSaysItsTextIff(body);
    AssistantShows(codec, Anthropic.AssistantMessage(body));
  }

  function Passing(parts: seq<Part>): seq<WirePart> {
    seq(|parts|, i requires 0 <= i < |parts| => UserPart(parts[i]))
  }

  predicate NoReasoningParts(parts: seq<Part>) {
    forall i :: 0 <= i < |parts| ==> parts[i].kind == TextPart || (parts[i].kind == ImagePart && parts[i].text == "")
  }

  lemma {:induction false} PassingShows(parts: seq<Part>)
    requires NoReasoningParts(parts)
    ensures ShownText(Passing(parts)) == Anthropic.PartsText(parts)
  {
    if parts != [] {
      var front, last := parts[..|parts| - 1], parts[|parts| - 1];
      PassingShows(front);
      assert Passing(parts) == Passing(front) + [UserPart(last)];
      ShownAppend(Passing(front), [UserPart(last)]);
      ShownOne(UserPart(last));
    }
  }

  lemma {:induction false} UserPartsAreShown(blocks: seq<Anthropic.Block>)
    ensures NoReasoningParts(Anthropic.UserPartList(blocks))
  {
    if blocks != [] {
      UserPartsAreShown(blocks[..|blocks| - 1]);
    }
  }

  /** A user's text reaches the wire whole and in order. */
  lemma UserReachesWire(codec: Codec, body: Anthropic.Body)
    requires Anthropic.UserMessage(body) != []
    ensures ShownText(UserParts(codec, Anthropic.UserMessage(body)[0].content)) == Anthropic.UserText(body)
  {
    var content := Anthropic.UserMessage(body)[0].content;
    Anthropic.UserTextIsKept(body);
    UserPartsAreShown(Anthropic.UserBlocks(body));
    match content {
      case Text(text) =>
        ShownOne(PlainText(text));
      case Parts(parts) =>
        PassingShows(parts);
    }
  }

  // ---- Whole conversations ----

  /** What one party says in one message. */
  datatype Speech = Speech(byAssistant: bool, text: string, reasoning: string)

  function WireSpeech(m: WireMessage): seq<Speech> {
    match m
    case WireUser(parts) => [Speech(false, ShownText(parts), "")]
    case WireAssistant(parts) => [Speech(true, ShownText(parts), ShownReasoning(parts))]
    case WireResult(_, _, _) => []
  }

  /** Neither text nor an image that can be addressed. */
  predicate ShowsNothing(b: Anthropic.Block) {
    !b.TextBlock? && (b.ImageBlock? ==> Anthropic.ImageURL(b.source) == "")
  }

  predicate SaysNothing(body: Anthropic.Body) {
    && Anthropic.UserText(body) == ""
    && forall i :: 0 <= i < |Anthropic.UserBlocks(body)| ==> ShowsNothing(Anthropic.UserBlocks(body)[i])
  }

  /** What an input message says; an assistant speaks even when it has nothing to say. */
  function InputSpeech(m: Anthropic.AMessage): seq<Speech> {
    match m.speaker
    case AssistantSpeaker =>
      [Speech(true, if m.body == Anthropic.Blocks([]) then "[]" else Anthropic.OwnText(m.body),
              Anthropic.OwnThinking(m.body))]
    case UserSpeaker => if SaysNothing(m.body) then [] else [Speech(false, Anthropic.UserText(m.body), "")]
    case OtherSpeaker => []
  }

  /** What a chat message will say on the wire. */
  function ChatSpeech(codec: Codec): Message -> seq<Speech> {
    (m: Message) => FlatMap(WireSpeech, WireOf(codec, m, []))
  }

  lemma SpeechIgnoresNames(codec: Codec, m: Message, trace: seq<Mark>)
    ensures FlatMap(WireSpeech, WireOf(codec, m, trace)) == ChatSpeech(codec)(m)
  {
    if m.role == Tool {
      FlatMapOne(WireSpeech, WireOf(codec, m, trace)[0]);
      FlatMapOne(WireSpeech, WireOf(codec, m, [])[0]);
    }
  }

  lemma SpeechByRole(codec: Codec, m: Message)
    ensures m.role == Tool || m.role == System ==> ChatSpeech(codec)(m) == []
    ensures m.role == User ==> ChatSpeech(codec)(m) == [Speech(false, ShownText(UserParts(codec, m.content)), "")]
    ensures m.role == Assistant ==>
              ChatSpeech(codec)(m) ==
              [Speech(true, ShownText(AssistantParts(codec, m)), ShownReasoning(AssistantParts(codec, m)))]
  {
    var out := WireOf(codec, m, []);
    if out != [] {
      FlatMapOne(WireSpeech, out[0]);
      assert out == [out[0]];
    }
  }

  lemma {:induction false} WireSaysChat(codec: Codec, messages: seq<Message>)
    ensures FlatMap(WireSpeech, WireChat(codec, messages)) == FlatMap(ChatSpeech(codec), messages)
  {
    if messages != [] {
      var front, last := messages[..|messages| - 1], messages[|messages| - 1];
      WireSaysChat(codec, front);
      FlatMapAppend(WireSpeech, WireChat(codec, front), WireOf(codec, last, ChatMarks(front)));
      SpeechIgnoresNames(codec, last, ChatMarks(front));
    }
  }

  lemma ResultsSayNothing(codec: Codec, results: seq<Message>)
    requires forall i :: 0 <= i < |results| ==> results[i].role == Tool
    ensures FlatMap(ChatSpeech(codec), results) == []
  {
    forall i | 0 <= i < |results|
      ensures ChatSpeech(codec)(results[i]) == []
    {
      SpeechByRole(codec, results[i]);
    }
    FlatMapOfNothing(ChatSpeech(codec), results);
  }

  lemma NoPartsStep(front: seq<Anthropic.Block>, b: Anthropic.Block)
    ensures Anthropic.UserPartList(front + [b]) == [] <==> Anthropic.UserPartList(front) == [] && ShowsNothing(b)
  {
    assert (front + [b])[..|front|] == front;
  }

  lemma {:induction false} NoPartsIff(blocks: seq<Anthropic.Block>)
    ensures Anthropic.UserPartList(blocks) == [] <==> forall i :: 0 <= i < |blocks| ==> ShowsNothing(blocks[i])
  {
    if blocks != [] {
      var n := |blocks| - 1;
      Snoc(blocks);
      NoPartsIff(blocks[..n]);
      NoPartsStep(blocks[..n], blocks[n]);
      assert forall i :: 0 <= i < n ==> blocks[..n][i] == blocks[i];
    }
  }

  lemma OneSays(codec: Codec, out: seq<Message>)
    requires |out| == 1
    ensures FlatMap(ChatSpeech(codec), out) == ChatSpeech(codec)(out[0])
  {
    FlatMapOne(ChatSpeech(codec), out[0]);
    assert out == [out[0]];
  }

  lemma UserSays(codec: Codec, body: Anthropic.Body)
    ensures FlatMap(ChatSpeech(codec), Anthropic.UserMessage(body)) ==
            InputSpeech(Anthropic.AMessage(Anthropic.UserSpeaker, body))
  {
    NoPartsIff(Anthropic.UserBlocks(body));
    var out := Anthropic.UserMessage(body);
    if out != [] {
      UserReachesWire(codec, body);
      SpeechByRole(codec, out[0]);
      OneSays(codec, out);
    }
  }

  lemma AssistantSays(codec: Codec, body: Anthropic.Body)
    ensures FlatMap(ChatSpeech(codec), [Anthropic.AssistantMessage(body)]) ==
            InputSpeech(Anthropic.AMessage(Anthropic.AssistantSpeaker, body))
  {
    AssistantReachesWire(codec, body);
    OneSays(codec, [Anthropic.AssistantMessage(body)]);
    SpeechByRole(codec, Anthropic.AssistantMessage(body));
  }

  lemma MessageSays(codec: Codec, m: Anthropic.AMessage, trace: seq<Mark>)
    ensures FlatMap(ChatSpeech(codec), Anthropic.MessagesFor(m, trace)) == InputSpeech(m)
  {
    match m.speaker {
      case AssistantSpeaker =>
        AssistantSays(codec, m.body);
      case UserSpeaker =>
        Anthropic.ResultsAreResults(Anthropic.UserBlocks(m.body));
        var results := Anthropic.ResultMessages(Anthropic.ResultsOf(Anthropic.UserBlocks(m.body)), trace);
        ResultsSayNothing(codec, results);
        UserSays(codec, m.body);
        FlatMapAppend(ChatSpeech(codec), results, Anthropic.UserMessage(m.body));
        assert [] + InputSpeech(m) == InputSpeech(m);
      case OtherSpeaker =>
    }
  }

  lemma {:induction false} MessagesSay(codec: Codec, messages: seq<Anthropic.AMessage>)
    ensures FlatMap(ChatSpeech(codec), Anthropic.Converted(messages)) == FlatMap(InputSpeech, messages)
  {
    if messages != [] {
      var front, last := messages[..|messages| - 1], messages[|messages| - 1];
      MessagesSay(codec, front);
      MessageSays(codec, last, Anthropic.InputTrace(front));
      FlatMapAppend(
        ChatSpeech(codec), Anthropic.Converted(front), Anthropic.MessagesFor(last, Anthropic.InputTrace(front)));
    }
  }

  lemma SystemSaysNothing(codec: Codec, system: Anthropic.SystemBody)
    ensures FlatMap(ChatSpeech(codec), Anthropic.SystemMessage(system)) == []
  {
    var out := Anthropic.SystemMessage(system);
    if out != [] {
      OneSays(codec, out);
      SpeechByRole(codec, out[0]);
    }
  }

  /** Main result: through both stages the wire shows what every message of the conversation says, in order: a user's text
      whole, unless the message says nothing, and an assistant's text and thinking whole, where an empty list of blocks
      says `[]`. */
  lemma ConversationReachesWire(codec: Codec, system: Anthropic.SystemBody, messages: seq<Anthropic.AMessage>)
    ensures FlatMap(WireSpeech, WireChat(codec, Anthropic.SystemMessage(system) + Anthropic.Converted(messages)))
            == FlatMap(InputSpeech, messages)
  {
    WireSaysChat(codec, Anthropic.SystemMessage(system) + Anthropic.Converted(messages));
    FlatMapAppend(ChatSpeech(codec), Anthropic.SystemMessage(system), Anthropic.Converted(messages));
    SystemSaysNothing(codec, system);
    MessagesSay(codec, messages);
    assert [] + FlatMap(InputSpeech, messages) == FlatMap(InputSpeech, messages);
  }

  // ---- Responses input ----

  /** What a run says: its last text and its last reasoning, if something in it speaks. */
  function RunSpeech(run: seq<Responses.Item>): seq<Speech> {
    if exists i :: 0 <= i < |run| && Responses.Speaks(run[i]) then
      [Speech(true, OrEmpty(Responses.LastSaid(run)), Responses.LastThought(run))]
    else []
  }

  /** Position k is the last of a run. */
  predicate EndsRun(items: seq<Responses.Item>, k: nat) {
    && k < |items| && !Responses.Flushes(items[k])
    && (k + 1 == |items| || Responses.Flushes(items[k + 1]))
  }

  /** What is said at position k: a user's turn, or a whole run at its end. */
  function SpeechAt(items: seq<Responses.Item>, k: nat): seq<Speech>
    requires k < |items|
  {
    match items[k]
    case Turn(bySystem, text) => if bySystem || text == "" then [] else [Speech(false, text, "")]
    case FunctionOutput(_, _) => []
    case _ => if EndsRun(items, k) then RunSpeech(Responses.OpenRun(items[..k + 1])) else []
  }

  function Speeches(items: seq<Responses.Item>): nat -> seq<Speech> {
    (k: nat) => if k < |items| then SpeechAt(items, k) else []
  }

  function Spoken(items: seq<Responses.Item>): seq<Speech> {
    Gathered(Speeches(items), |items|)
  }

  lemma RunSays(codec: Codec, run: seq<Responses.Item>)
    ensures FlatMap(ChatSpeech(codec), Responses.RunMessage(run)) == RunSpeech(run)
  {
    Responses.RunSpeaks(run);
    var out := Responses.RunMessage(run);
    if out != [] {
      OneSays(codec, out);
      SpeechByRole(codec, out[0]);
      AssistantShows(codec, out[0]);
    }
  }

  lemma UserTurnSays(codec: Codec, text: string)
    ensures ChatSpeech(codec)(TextMessage(User, Chat.Text(text))) == [Speech(false, text, "")]
  {
    SpeechByRole(codec, TextMessage(User, Chat.Text(text)));
    ShownOne(PlainText(text));
  }

  lemma BoundarySays(codec: Codec, items: seq<Responses.Item>, k: nat)
    requires k < |items| && Responses.Flushes(items[k])
    ensures FlatMap(ChatSpeech(codec), Responses.Boundary(items[k])) == SpeechAt(items, k)
  {
    var out := Responses.Boundary(items[k]);
    if out != [] {
      OneSays(codec, out);
      if out[0].role == User {
        UserTurnSays(codec, items[k].text);
      } else {
        SpeechByRole(codec, out[0]);
      }
    }
  }

  /** At the end of a run, or where none is open, the open run's message included. */
  function SettledAt(items: seq<Responses.Item>, n: nat): seq<Message>
    requires n <= |items|
  {
    Responses.Settled(items[..n]) +
    if n == |items| || Responses.Flushes(items[n]) then Responses.RunMessage(Responses.OpenRun(items[..n])) else []
  }

  lemma FlushSettles(items: seq<Responses.Item>, n: nat)
    requires n < |items| && Responses.Flushes(items[n])
    ensures SettledAt(items, n + 1) == SettledAt(items, n) + Responses.Boundary(items[n])
  {
    Responses.RunGrows(items, n);
    assert Responses.RunMessage([]) == [];
  }

  lemma FlushSays(codec: Codec, items: seq<Responses.Item>, n: nat)
    requires n < |items| && Responses.Flushes(items[n])
    ensures FlatMap(ChatSpeech(codec), SettledAt(items, n + 1)) ==
            FlatMap(ChatSpeech(codec), SettledAt(items, n)) + SpeechAt(items, n)
  {
    FlushSettles(items, n);
    BoundarySays(codec, items, n);
    FlatMapAppend(ChatSpeech(codec), SettledAt(items, n), Responses.Boundary(items[n]));
  }

  lemma KeepSays(codec: Codec, items: seq<Responses.Item>, n: nat)
    requires n < |items| && !Responses.Flushes(items[n])
    ensures FlatMap(ChatSpeech(codec), SettledAt(items, n + 1)) ==
            FlatMap(ChatSpeech(codec), SettledAt(items, n)) + SpeechAt(items, n)
  {
    var settled, run := Responses.Settled(items[..n]), Responses.OpenRun(items[..n + 1]);
    Responses.RunGrows(items, n);
    assert SettledAt(items, n) == settled;
    if EndsRun(items, n) {
      FlatMapAppend(ChatSpeech(codec), settled, Responses.RunMessage(run));
      RunSays(codec, run);
    } else {
      assert SettledAt(items, n + 1) == settled;
      assert FlatMap(ChatSpeech(codec), settled) + [] == FlatMap(ChatSpeech(codec), settled);
    }
  }

  lemma NothingSettled(items: seq<Responses.Item>)
    ensures SettledAt(items, 0) == []
  {
    assert items[..0] == [];
    assert Responses.OpenRun([]) == [] && Responses.RunMessage([]) == [] && Responses.Settled([]) == [];
  }

  function SaidBy(codec: Codec, items: seq<Responses.Item>): nat -> seq<Speech> {
    (k: nat) => if k <= |items| then FlatMap(ChatSpeech(codec), SettledAt(items, k)) else []
  }

  lemma SaysNext(codec: Codec, items: seq<Responses.Item>, k: nat)
    requires k < |items|
    ensures SaidBy(codec, items)(k + 1) == SaidBy(codec, items)(k) + SpeechAt(items, k)
  {
    if Responses.Flushes(items[k]) {
      FlushSays(codec, items, k);
    } else {
      KeepSays(codec, items, k);
    }
  }

  lemma SaysNothingAtFirst(codec: Codec, items: seq<Responses.Item>)
    ensures SaidBy(codec, items)(0) == []
  {
    NothingSettled(items);
  }

  lemma SettledSays(codec: Codec, items: seq<Responses.Item>)
    ensures SaidBy(codec, items)(|items|) == Spoken(items)
  {
    SaysNothingAtFirst(codec, items);
    forall k: nat | k < |items|
      ensures SaidBy(codec, items)(k + 1) == SaidBy(codec, items)(k) + Speeches(items)(k)
    {
      SaysNext(codec, items, k);
    }
    Gathers(SaidBy(codec, items), Speeches(items), |items|);
  }

  /** Main result for Responses input: through both stages the wire shows, in order, every non-empty user turn, and for
      every run in which something speaks its last text and its last reasoning. */
  lemma ItemsReachWire(codec: Codec, instructions: string, items: seq<Responses.Item>)
    ensures FlatMap(WireSpeech, WireChat(codec, Responses.Preamble(instructions) + Responses.Converted(items)))
            == Spoken(items)
  {
    var preamble := Responses.Preamble(instructions);
    WireSaysChat(codec, preamble + Responses.Converted(items));
    FlatMapAppend(ChatSpeech(codec), preamble, Responses.Converted(items));
    if preamble != [] {
      OneSays(codec, preamble);
      SpeechByRole(codec, preamble[0]);
    }
    assert items[..|items|] == items;
    SettledSays(codec, items);
    assert [] + Spoken(items) == Spoken(items);
  }
}
