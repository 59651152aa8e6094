/** Images of Anthropic input, followed through both stages onto the wire. */
module WireImages {
  import opened Text
  import opened Chat
  import opened CcRequest
  import Anthropic

  // ---- Media types ----

  lemma {:induction false} SemicolonFirst(front: string, rest: string)
    ensures Semicolon(front + ";" + rest) == |front| <==> ';' !in front
  {
    if front == "" {
      assert (front + ";" + rest)[0] == ';';
    } else {
      var whole := front + ";" + rest;
      assert whole[0] == front[0] && whole[1..] == front[1..] + ";" + rest;
      SemicolonFirst(front[1..], rest);
      assert front == [front[0]] + front[1..];
    }
  }

  lemma WrittenTypeSurvives(mediaType: string, data: string)
    requires mediaType != ""
    ensures MimeOf("data:" + mediaType + ";base64," + data) == Some(mediaType) <==> ';' !in mediaType
  {
    var front, rest := "data:" + mediaType, "base64," + data;
    var url := "data:" + mediaType + ";base64," + data;
    assert url == front + ";" + rest;
    SemicolonFirst(front, rest);
    assert ';' in mediaType <==> ';' in front by {
      assert front[5..] == mediaType;
      assert forall i :: 0 <= i < 5 ==> front[i] != ';';
    }
    var at := Semicolon(url);
    if at == |front| {
      assert url[5..at] == mediaType;
    }
  }

  /** The builder reads out of the converter's data URL the media type that the request gave, if and only if it gave one
      that is not blank and has no semicolon; a blank one is sent as a PNG. */
  lemma MediaTypeSurvives(source: Anthropic.Source)
    requires source.base64 && source.data != ""
    ensures MimeOf(Anthropic.ImageURL(source)) == Some(source.mediaType) <==>
            !Blank(source.mediaType) && ';' !in source.mediaType
    ensures Blank(source.mediaType) ==> MimeOf(Anthropic.ImageURL(source)) == Some(Anthropic.PNG)
  {
    PngIsWritten();
    WrittenTypeIs(source.mediaType);
    assert Blank("");
    WrittenTypeSurvives(Anthropic.MediaType(source.mediaType), source.data);
  }

  lemma PngIsWritten()
    ensures Anthropic.PNG != "" && !IsSpace(Anthropic.PNG[0]) && ';' !in Anthropic.PNG
  {
  }

  lemma WrittenTypeIs(given: string)
    ensures Anthropic.MediaType(given) == if Blank(given) then Anthropic.PNG else given
  {
    SolidStart(Anthropic.PNG);
    FirstOfTwo(given, Anthropic.PNG);
  }

  /** The type read out of a URL is what stands between a leading `data:` and the first semicolon, if it is not empty. */
  lemma MimeOfMeans(url: string, mime: string)
    ensures MimeOf(url) == Some(mime) <==>
            mime != "" && ';' !in mime && exists rest :: url == "data:" + mime + ";" + rest
  {
    if MimeOf(url) == Some(mime) {
      var at := Semicolon(url);
      assert url == "data:" + mime + ";" + url[at + 1..];
      assert forall i :: 5 <= i < at ==> url[i] != ';';
    }
    forall rest | mime != "" && ';' !in mime && url == "data:" + mime + ";" + rest
      ensures MimeOf(url) == Some(mime)
    {
      var front := "data:" + mime;
      assert url == front + ";" + rest;
      assert ';' !in front;
      SemicolonFirst(front, rest);
      assert url[5..|front|] == mime;
    }
  }

  // ---- Whole conversations ----

  /** The address of an image: its data written as a URL, with PNG for a blank media type, or else its own URL. */
  function Address(source: Anthropic.Source): string {
    if source.base64 && source.data != "" then
      "data:" + (if Blank(source.mediaType) then "image/png" else source.mediaType) + ";base64," + source.data
    else source.url
  }

  function BlockAddress(b: Anthropic.Block): seq<string> {
    if b.ImageBlock? && Address(b.source) != "" then [Address(b.source)] else []
  }

  /** The addresses of the images in a user's message. */
  function InputAddresses(m: Anthropic.AMessage): seq<string> {
    if m.speaker == Anthropic.UserSpeaker && m.body.Blocks? then FlatMap(BlockAddress, m.body.blocks) else []
  }

  function ChatPartAddress(part: Part): seq<string> {
    if part.kind == ImagePart then [part.url] else []
  }

  function ChatAddresses(m: Message): seq<string> {
    if m.role == User && m.content.Parts? then FlatMap(ChatPartAddress, m.content.parts) else []
  }

  function WirePartAddress(part: WirePart): seq<string> {
    if part.Image? then [part.url] else []
  }

  function WireAddresses(m: WireMessage): seq<string> {
    if m.WireResult? then [] else FlatMap(WirePartAddress, m.parts)
  }

  lemma AddressIsWritten(source: Anthropic.Source)
    ensures Anthropic.ImageURL(source) == Address(source)
  {
    PngIsWritten();
    WrittenTypeIs(source.mediaType);
  }

  lemma {:induction false} PartsKeepAddresses(blocks: seq<Anthropic.Block>)
    ensures FlatMap(ChatPartAddress, Anthropic.UserPartList(blocks)) == FlatMap(BlockAddress, blocks)
  {
    if blocks != [] {
      var front, last := blocks[..|blocks| - 1], blocks[|blocks| - 1];
      var parts := Anthropic.UserPartList(front);
      PartsKeepAddresses(front);
      if last.TextBlock? {
        FlatMapSnoc(ChatPartAddress, parts, Anthropic.TextPartOf(last));
      } else if last.ImageBlock? {
        AddressIsWritten(last.source);
        if Address(last.source) == "" {
          assert parts + [] == parts;
        } else {
          FlatMapSnoc(ChatPartAddress, parts, Part(ImagePart, "", None, None, Address(last.source)));
        }
      } else {
        assert parts + [] == parts;
      }
    }
  }

  /** An image makes a message a list of parts. */
  lemma UserMessageKeepsAddresses(body: Anthropic.Body)
    ensures FlatMap(ChatAddresses, Anthropic.UserMessage(body)) ==
            InputAddresses(Anthropic.AMessage(Anthropic.UserSpeaker, body))
  {
    var parts, out := Anthropic.UserPartList(Anthropic.UserBlocks(body)), Anthropic.UserMessage(body);
    PartsKeepAddresses(Anthropic.UserBlocks(body));
    if |parts| == 1 {
      FlatMapOne(ChatPartAddress, parts[0]);
      assert parts == [parts[0]];
    }
    if out != [] {
      FlatMapOne(ChatAddresses, out[0]);
      assert out == [out[0]];
    }
  }

  lemma MessageKeepsAddresses(m: Anthropic.AMessage, trace: seq<Mark>)
    ensures FlatMap(ChatAddresses, Anthropic.MessagesFor(m, trace)) == InputAddresses(m)
  {
    match m.speaker {
      case AssistantSpeaker =>
        FlatMapOne(ChatAddresses, Anthropic.AssistantMessage(m.body));
      case UserSpeaker =>
        Anthropic.ResultsAreResults(Anthropic.UserBlocks(m.body));
        var results := Anthropic.ResultMessages(Anthropic.ResultsOf(Anthropic.UserBlocks(m.body)), trace);
        FlatMapOfNothing(ChatAddresses, results);
        FlatMapAppend(ChatAddresses, results, Anthropic.UserMessage(m.body));
        UserMessageKeepsAddresses(m.body);
      case OtherSpeaker =>
    }
  }

  lemma {:induction false} ConvertedKeepsAddresses(messages: seq<Anthropic.AMessage>)
    ensures FlatMap(ChatAddresses, Anthropic.Converted(messages)) == FlatMap(InputAddresses, messages)
  {
    if messages != [] {
      var front, last := messages[..|messages| - 1], messages[|messages| - 1];
      ConvertedKeepsAddresses(front);
      MessageKeepsAddresses(last, Anthropic.InputTrace(front));
      FlatMapAppend(ChatAddresses, Anthropic.Converted(front), Anthropic.MessagesFor(last, Anthropic.InputTrace(front)));
    }
  }

  lemma {:induction false} UserPartsKeepAddresses(codec: Codec, parts: seq<Part>)
    ensures FlatMap(WirePartAddress, UserParts(codec, Parts(parts))) == FlatMap(ChatPartAddress, parts)
  {
    if parts != [] {
      var front, last := parts[..|parts| - 1], parts[|parts| - 1];
      UserPartsKeepAddresses(codec, front);
      assert UserParts(codec, Parts(parts)) == UserParts(codec, Parts(front)) + [UserPart(last)];
      FlatMapSnoc(WirePartAddress, UserParts(codec, Parts(front)), UserPart(last));
    }
  }

  predicate NoImage(parts: seq<WirePart>) {
    forall i :: 0 <= i < |parts| ==> !parts[i].Image?
  }

  lemma {:induction false} KeptPartsNoImage(parts: seq<Part>, ownReasoning: bool)
    ensures NoImage(KeptParts(parts, ownReasoning))
  {
    if parts != [] {
      KeptPartsNoImage(parts[..|parts| - 1], ownReasoning);
    }
  }

  lemma AssistantShowsNoImage(codec: Codec, m: Message)
    ensures FlatMap(WirePartAddress, AssistantParts(codec, m)) == []
  {
    if m.content.Parts? {
      KeptPartsNoImage(m.content.parts, m.reasoning != "");
    }
    assert NoImage(Head(m.reasoning)) && NoImage(Body(m.content, m.reasoning != "")) && NoImage(ToolUses(codec, m.calls));
    FlatMapOfNothing(WirePartAddress, AssistantParts(codec, m));
  }

  lemma WireOfKeepsAddresses(codec: Codec, m: Message, trace: seq<Mark>)
    ensures FlatMap(WireAddresses, WireOf(codec, m, trace)) == ChatAddresses(m)
  {
    var out := WireOf(codec, m, trace);
    if out != [] {
      FlatMapOne(WireAddresses, out[0]);
      assert out == [out[0]];
    }
    match m.role {
      case User =>
        if m.content.Parts? {
          UserPartsKeepAddresses(codec, m.content.parts);
        } else {
          FlatMapOfNothing(WirePartAddress, UserParts(codec, m.content));
        }
      case Assistant =>
        AssistantShowsNoImage(codec, m);
      case OtherRole =>
        FlatMapOfNothing(WirePartAddress, [PlainText(Shown(codec, m.content))]);
      case _ =>
    }
  }

  lemma {:induction false} WireKeepsAddresses(codec: Codec, messages: seq<Message>)
    ensures FlatMap(WireAddresses, WireChat(codec, messages)) == FlatMap(ChatAddresses, messages)
  {
    if messages != [] {
      var front, last := messages[..|messages| - 1], messages[|messages| - 1];
      WireKeepsAddresses(codec, front);
      FlatMapAppend(WireAddresses, WireChat(codec, front), WireOf(codec, last, ChatMarks(front)));
      WireOfKeepsAddresses(codec, last, ChatMarks(front));
    }
  }

  lemma LeadingHasNoImages(codec: Codec, leading: seq<Message>, chat: seq<Message>)
    requires forall i :: 0 <= i < |leading| ==> ChatAddresses(leading[i]) == []
    ensures FlatMap(WireAddresses, WireChat(codec, leading + chat)) == FlatMap(ChatAddresses, chat)
  {
    WireKeepsAddresses(codec, leading + chat);
    FlatMapAppend(ChatAddresses, leading, chat);
    FlatMapOfNothing(ChatAddresses, leading);
  }

  /** Main result: through both stages the images of the users' messages, and no others, reach the wire in order, each under
      its address; one without an address is dropped. */
  lemma ImagesReachWire(codec: Codec, system: Anthropic.SystemBody, messages: seq<Anthropic.AMessage>)
    ensures FlatMap(WireAddresses, WireChat(codec, Anthropic.SystemMessage(system) + Anthropic.Converted(messages)))
            == FlatMap(InputAddresses, messages)
  {
    var leading := Anthropic.SystemMessage(system);
    LeadingHasNoImages(codec, leading, Anthropic.Converted(messages));
    ConvertedKeepsAddresses(messages);
  }
}
