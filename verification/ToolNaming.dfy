/** Tool names across the two stages: what the converters put into chat messages, and what the envelope builder makes of
    them with a name table of its own. */
module ToolNaming {
  import opened Text
  import opened Chat
  import opened CcRequest
  import Anthropic
  import Responses

  /** The input that arguments stand for: an object, given as it is or as text, is itself; text that is `null` stays so; and
      everything else counts as an empty object. */
  function MeantInput(codec: Codec, arguments: Arguments): string {
    if arguments.Given? then arguments.json
    else if arguments.Encoded? && codec.decode(arguments.text).Object? then codec.decode(arguments.text).json
    else if arguments.Encoded? && codec.decode(arguments.text).NullValue? then "null"
    else "{}"
  }

  /** A mark as it should appear on the wire after `trace`: an output bears the name of the latest call before it with
      its id, and an empty name if there is none. */
  function ExpectedMark(codec: Codec, trace: seq<Mark>, m: Mark): WireMark {
    match m
    case ACall(c) => WCall(c.id, c.name, MeantInput(codec, c.arguments))
    case AnOutput(id, output, _) => WResult(id, OrEmpty(LatestName(trace, id)), output)
  }

  function Expected(codec: Codec, trace: seq<Mark>): seq<WireMark> {
    if trace == [] then []
    else
      var front := trace[..|trace| - 1];
      Expected(codec, front) + [ExpectedMark(codec, front, trace[|trace| - 1])]
  }

  lemma ExpectedStep(codec: Codec, trace: seq<Mark>, m: Mark)
    ensures Expected(codec, trace + [m]) == Expected(codec, trace) + [ExpectedMark(codec, trace, m)]
  {
    assert (trace + [m])[..|trace|] == trace;
  }

  /** The chat's trace `t` and the input's trace `u` hold the same calls and outputs, and naming `t` from its own table and
      given names gives the same as naming `u` by its latest calls. */
  ghost predicate Agree(codec: Codec, t: seq<Mark>, u: seq<Mark>) {
    Named(codec, t) == Expected(codec, u) && forall id :: LatestName(t, id) == LatestName(u, id)
  }

  lemma AgreeOnCall(codec: Codec, t: seq<Mark>, u: seq<Mark>, c: Call)
    requires Agree(codec, t, u)
    ensures Agree(codec, t + [ACall(c)], u + [ACall(c)])
  {
    NamedStep(codec, t, ACall(c));
    ExpectedStep(codec, u, ACall(c));
    forall id
      ensures LatestName(t + [ACall(c)], id) == LatestName(u + [ACall(c)], id)
    {
      LatestNameStep(t, ACall(c), id);
      LatestNameStep(u, ACall(c), id);
    }
  }

  /** An output agrees when the name it was given is the latest one, or when it was given none and its id is not empty or
      not the id of any call. */
  lemma AgreeOnOutput(codec: Codec, t: seq<Mark>, u: seq<Mark>, id: string, output: string, given: string, other: string)
    requires Agree(codec, t, u)
    requires given == OrEmpty(LatestName(u, id)) || (given == "" && (id == "" ==> LatestName(u, id) == None))
    ensures Agree(codec, t + [AnOutput(id, output, given)], u + [AnOutput(id, output, other)])
    ensures forall i :: LatestName(u + [AnOutput(id, output, other)], i) == LatestName(u, i)
  {
    var m, n := AnOutput(id, output, given), AnOutput(id, output, other);
    NamedStep(codec, t, m);
    ExpectedStep(codec, u, n);
    forall i
      ensures LatestName(t + [m], i) == LatestName(u + [n], i) == LatestName(u, i)
    {
      LatestNameStep(t, m, i);
      LatestNameStep(u, n, i);
    }
  }

  lemma {:induction false} AgreeOnCalls(codec: Codec, t: seq<Mark>, u: seq<Mark>, calls: seq<Call>)
    requires Agree(codec, t, u)
    ensures Agree(codec, t + CallMarks(calls), u + CallMarks(calls))
  {
    if calls == [] {
      assert t + CallMarks(calls) == t && u + CallMarks(calls) == u;
    } else {
      var front, last := calls[..|calls| - 1], calls[|calls| - 1];
      AgreeOnCalls(codec, t, u, front);
      AgreeOnCall(codec, t + CallMarks(front), u + CallMarks(front), last);
      assert t + CallMarks(calls) == t + CallMarks(front) + [ACall(last)];
      assert u + CallMarks(calls) == u + CallMarks(front) + [ACall(last)];
    }
  }

  // ---- Anthropic input ----

  function ResultMark(b: Anthropic.Block, given: string): Mark
    requires b.ToolResult?
  {
    AnOutput(b.id, Anthropic.ResultText(b.content), given)
  }

  /** The marks of a message's results, in the chat and in the input. */
  lemma ResultMarksStep(u: seq<Mark>, results: seq<Anthropic.Block>)
    requires results != [] && forall i :: 0 <= i < |results| ==> results[i].ToolResult?
    ensures var front, last := results[..|results| - 1], results[|results| - 1];
            && ChatMarks(Anthropic.ResultMessages(results, u)) ==
               ChatMarks(Anthropic.ResultMessages(front, u)) + [ResultMark(last, OrEmpty(LatestName(u, last.id)))]
            && Anthropic.ResultMarks(results) == Anthropic.ResultMarks(front) + [ResultMark(last, "")]
  {
    var front, last := results[..|results| - 1], results[|results| - 1];
    var message := Anthropic.ResultMessage(last, u);
    assert Anthropic.ResultMessages(results, u) == Anthropic.ResultMessages(front, u) + [message];
    FlatMapAppend(MessageMarks, Anthropic.ResultMessages(front, u), [message]);
    FlatMapOne(MessageMarks, message);
  }

  lemma {:induction false} AgreeOnResults(codec: Codec, t: seq<Mark>, u: seq<Mark>, results: seq<Anthropic.Block>)
    requires forall i :: 0 <= i < |results| ==> results[i].ToolResult?
    requires Agree(codec, t, u)
    ensures Agree(codec, t + ChatMarks(Anthropic.ResultMessages(results, u)), u + Anthropic.ResultMarks(results))
    ensures forall id :: LatestName(u + Anthropic.ResultMarks(results), id) == LatestName(u, id)
  {
    if results == [] {
      assert t + ChatMarks(Anthropic.ResultMessages(results, u)) == t && u + Anthropic.ResultMarks(results) == u;
    } else {
      var front, last := results[..|results| - 1], results[|results| - 1];
      AgreeOnResults(codec, t, u, front);
      ResultMarksStep(u, results);
      var inChat, inInput := ChatMarks(Anthropic.ResultMessages(front, u)), Anthropic.ResultMarks(front);
      var given := OrEmpty(LatestName(u, last.id));
      AgreeOnOutput(codec, t + inChat, u + inInput, last.id, Anthropic.ResultText(last.content), given, "");
      Regroup(t, inChat, [ResultMark(last, given)]);
      Regroup(u, inInput, [ResultMark(last, "")]);
    }
  }

  lemma UserMessageHasNoMarks(body: Anthropic.Body)
    ensures ChatMarks(Anthropic.UserMessage(body)) == []
  {
    var out := Anthropic.UserMessage(body);
    if out != [] {
      FlatMapOne(MessageMarks, out[0]);
      assert out == [out[0]];
    }
  }

  lemma AgreeOnMessage(codec: Codec, t: seq<Mark>, u: seq<Mark>, m: Anthropic.AMessage)
    requires Agree(codec, t, u)
    ensures Agree(codec, t + ChatMarks(Anthropic.MessagesFor(m, u)), u + Anthropic.InputMarks(m))
  {
    match m.speaker {
      case AssistantSpeaker =>
        FlatMapOne(MessageMarks, Anthropic.AssistantMessage(m.body));
        AgreeOnCalls(codec, t, u, Anthropic.CallsOf(Anthropic.AssistantBlocks(m.body)));
      case UserSpeaker =>
        Anthropic.ResultsAreResults(Anthropic.UserBlocks(m.body));
        var results := Anthropic.ResultsOf(Anthropic.UserBlocks(m.body));
        AgreeOnResults(codec, t, u, results);
        FlatMapAppend(MessageMarks, Anthropic.ResultMessages(results, u), Anthropic.UserMessage(m.body));
        UserMessageHasNoMarks(m.body);
        assert ChatMarks(Anthropic.ResultMessages(results, u)) + [] == ChatMarks(Anthropic.ResultMessages(results, u));
      case OtherSpeaker =>
        assert t + [] == t && u + [] == u;
    }
  }

  lemma {:induction false} AnthropicAgrees(codec: Codec, messages: seq<Anthropic.AMessage>)
    ensures Agree(codec, ChatMarks(Anthropic.Converted(messages)), Anthropic.InputTrace(messages))
  {
    if messages != [] {
      var front, last := messages[..|messages| - 1], messages[|messages| - 1];
      AnthropicAgrees(codec, front);
      AgreeOnMessage(codec, ChatMarks(Anthropic.Converted(front)), Anthropic.InputTrace(front), last);
      FlatMapAppend(MessageMarks, Anthropic.Converted(front), Anthropic.MessagesFor(last, Anthropic.InputTrace(front)));
    }
  }

  lemma LeadingSystemHasNoMarks(system: seq<Message>, messages: seq<Message>)
    requires |system| <= 1 && (system != [] ==> system[0].role == System)
    ensures ChatMarks(system + messages) == ChatMarks(messages)
  {
    FlatMapAppend(MessageMarks, system, messages);
    if system != [] {
      FlatMapOne(MessageMarks, system[0]);
      assert system == [system[0]];
    }
  }

  /** What agrees with a trace is named on the wire like it. */
  lemma NamedLike(codec: Codec, system: seq<Message>, chat: seq<Message>, trace: seq<Mark>)
    requires |system| <= 1 && (system != [] ==> system[0].role == System)
    requires Agree(codec, ChatMarks(chat), trace)
    ensures WireMarks(WireChat(codec, system + chat)) == Expected(codec, trace)
  {
    WireKeepsTrace(codec, system + chat);
    LeadingSystemHasNoMarks(system, chat);
  }

  /** Main result for Anthropic input: through both stages every tool use and every tool result appears on the wire once
      and in order, and every result bears the name of the latest tool use before it with its id, or an empty name. */
  lemma AnthropicResultsAreNamed(
      codec: Codec, system: Anthropic.SystemBody, messages: seq<Anthropic.AMessage>)
    ensures WireMarks(WireChat(codec, Anthropic.SystemMessage(system) + Anthropic.Converted(messages)))
            == Expected(codec, FlatMap(Anthropic.Acts, messages))
  {
    Anthropic.TraceIsActs(messages);
    AnthropicAgrees(codec, messages);
    var leading := Anthropic.SystemMessage(system);
    NamedLike(codec, leading, Anthropic.Converted(messages), Anthropic.InputTrace(messages));
  }

  /** The whole translation of an Anthropic request's messages. */
  method TranslateAnthropic(codec: Codec, system: Anthropic.SystemBody, messages: seq<Anthropic.AMessage>)
    returns (chat: seq<WireMessage>)
    ensures WireMarks(chat) == Expected(codec, FlatMap(Anthropic.Acts, messages))
  {
    AnthropicResultsAreNamed(codec, system, messages);
    var openAI := Anthropic.ConvertAnthropicToOpenAI(system, messages);
    chat := BuildMessages(codec, openAI);
  }

  // ---- Responses input ----

  /** The tool activity of the items. */
  function ItemMarks(item: Responses.Item): seq<Mark> {
    match item
    case FunctionCall(call) => [ACall(call)]
    case FunctionOutput(callId, output) => [AnOutput(callId, output, "")]
    case _ => []
  }

  function ItemsMarks(items: seq<Responses.Item>): seq<Mark> {
    FlatMap(ItemMarks, items)
  }

  lemma {:induction false} RunMarks(run: seq<Responses.Item>)
    requires forall i :: 0 <= i < |run| ==> !Responses.Flushes(run[i])
    ensures ItemsMarks(run) == CallMarks(Responses.CallsOf(run))
  {
    if run != [] {
      var front, last := run[..|run| - 1], run[|run| - 1];
      Snoc(run);
      RunMarks(front);
      FlatMapSnoc(ItemMarks, front, last);
      Responses.RunReadings(front, last);
      if last.FunctionCall? {
        CallMarksAppend(Responses.CallsOf(front), [last.call]);
        assert CallMarks([last.call]) == [ACall(last.call)];
      }
    }
  }

  lemma RunMessageMarks(run: seq<Responses.Item>)
    requires forall i :: 0 <= i < |run| ==> !Responses.Flushes(run[i])
    ensures ChatMarks(Responses.RunMessage(run)) == ItemsMarks(run)
  {
    RunMarks(run);
    if Responses.RunMessage(run) != [] {
      FlatMapOne(MessageMarks, Responses.RunMessage(run)[0]);
    }
  }

  lemma BoundaryMarks(item: Responses.Item)
    requires Responses.Flushes(item)
    ensures ChatMarks(Responses.Boundary(item)) == ItemMarks(item)
  {
    if Responses.Boundary(item) != [] {
      FlatMapOne(MessageMarks, Responses.Boundary(item)[0]);
    }
  }

  lemma ResponsesMarks(items: seq<Responses.Item>)
    ensures ChatMarks(Responses.Converted(items)) == ItemsMarks(items)
  {
    forall run: seq<Responses.Item> | forall i :: 0 <= i < |run| ==> !Responses.Flushes(run[i])
      ensures FlatMap(MessageMarks, Responses.RunMessage(run)) == FlatMap(ItemMarks, run)
    {
      RunMessageMarks(run);
    }
    forall item | Responses.Flushes(item)
      ensures FlatMap(MessageMarks, Responses.Boundary(item)) == ItemMarks(item)
    {
      BoundaryMarks(item);
    }
    Responses.ConvertedReads(MessageMarks, ItemMarks, items);
  }

  /** Every call has an id. */
  predicate CallsHaveIds(items: seq<Responses.Item>) {
    forall i :: 0 <= i < |items| && items[i].FunctionCall? ==> items[i].call.id != ""
  }

  lemma CallIdIsFound(raw: Responses.RawItem, digits: string)
    ensures Responses.CallIdOf(raw, "call_" + digits) != ""
  {
    var made := "call_" + digits;
    BlankIffAllSpaces(made);
    assert !IsSpace(made[0]);
    FirstNonEmptyFinds([raw.callId, raw.id, made], 2);
  }

  lemma CallKeepsId(raw: Responses.RawItem, callId: string)
    ensures Responses.ReadItem(raw, callId).FunctionCall? ==> Responses.ReadItem(raw, callId).call.id == callId
  {
  }

  /** Reading the items of a request finds or makes up an id for every call. */
  lemma ReadCallsHaveIds(raws: seq<Responses.RawItem>, random: nat -> string)
    ensures CallsHaveIds(Responses.ReadItems(raws, random))
  {
    forall i | 0 <= i < |raws| && Responses.ReadItems(raws, random)[i].FunctionCall?
      ensures Responses.ReadItems(raws, random)[i].call.id != ""
    {
      CallKeepsId(raws[i], Responses.CallIdOf(raws[i], "call_" + random(i)));
      CallIdIsFound(raws[i], random(i));
    }
  }

  lemma {:induction false} NoEmptyId(items: seq<Responses.Item>)
    requires CallsHaveIds(items)
    ensures LatestName(ItemsMarks(items), "") == None
  {
    if items != [] {
      var front, last := items[..|items| - 1], items[|items| - 1];
      NoEmptyId(front);
      match last {
        case FunctionCall(call) => LatestNameStep(ItemsMarks(front), ACall(call), "");
        case FunctionOutput(callId, output) => LatestNameStep(ItemsMarks(front), AnOutput(callId, output, ""), "");
        case _ => assert ItemsMarks(front) + [] == ItemsMarks(front);
      }
    }
  }

  lemma {:induction false} ItemsAgree(codec: Codec, items: seq<Responses.Item>)
    requires CallsHaveIds(items)
    ensures Agree(codec, ItemsMarks(items), ItemsMarks(items))
  {
    if items != [] {
      var front, last := items[..|items| - 1], items[|items| - 1];
      var t := ItemsMarks(front);
      ItemsAgree(codec, front);
      NoEmptyId(front);
      match last {
        case FunctionCall(call) => AgreeOnCall(codec, t, t, call);
        case FunctionOutput(callId, output) => AgreeOnOutput(codec, t, t, callId, output, "", "");
        case _ => assert t + [] == t;
      }
    }
  }

  // ---- Responses input as it is sent ----

  /** The id of a call: its own, failing that its item's, and failing that one made up from random digits. */
  function GivenId(raw: Responses.RawItem, digits: string): string {
    if !Blank(raw.callId) then raw.callId else if !Blank(raw.id) then raw.id else "call_" + digits
  }

  /** What one item does with tools. */
  function RawActs(raw: Responses.RawItem, digits: string): seq<Mark> {
    if raw.typ == "function_call" then [ACall(Call(GivenId(raw, digits), raw.name, Encoded(raw.arguments)))]
    else if raw.typ == "function_call_output" then [AnOutput(raw.callId, raw.output, "")]
    else []
  }

  function RawTrace(raws: seq<Responses.RawItem>, random: nat -> string): seq<Mark> {
    if raws == [] then []
    else RawTrace(raws[..|raws| - 1], random) + RawActs(raws[|raws| - 1], random(|raws| - 1))
  }

  lemma CallIdIsGiven(raw: Responses.RawItem, digits: string)
    ensures Responses.CallIdOf(raw, "call_" + digits) == GivenId(raw, digits)
  {
    var made := "call_" + digits;
    SolidStart(made);
    FirstOfThree(raw.callId, raw.id, made);
  }

  lemma ItemActs(raw: Responses.RawItem, digits: string)
    ensures ItemMarks(Responses.ReadItem(raw, Responses.CallIdOf(raw, "call_" + digits))) == RawActs(raw, digits)
  {
    CallIdIsGiven(raw, digits);
    ActsById(raw, GivenId(raw, digits), digits);
  }

  lemma ActsById(raw: Responses.RawItem, id: string, digits: string)
    requires id == GivenId(raw, digits)
    ensures ItemMarks(Responses.ReadItem(raw, id)) == RawActs(raw, digits)
  {
    Responses.TypesByName(raw);
    TypesDiffer(raw.typ);
  }

  lemma TypesDiffer(typ: string)
    ensures typ == "function_call" ==> typ != "function_call_output"
  {
    assert |"function_call"| < |"function_call_output"|;
  }

  /** The tool activity of the items that are read is that of the items as they are sent. */
  lemma {:induction false} ItemsActs(raws: seq<Responses.RawItem>, random: nat -> string)
    ensures ItemsMarks(Responses.ReadItems(raws, random)) == RawTrace(raws, random)
  {
    if raws != [] {
      var n := |raws| - 1;
      ItemsActs(raws[..n], random);
      var digits := random(n);
      ItemActs(raws[n], digits);
      Responses.ReadItemsSnoc(raws, random);
      FlatMapSnoc(ItemMarks, Responses.ReadItems(raws[..n], random),
                  Responses.ReadItem(raws[n], Responses.CallIdOf(raws[n], "call_" + digits)));
    }
  }

  /** Main result for Responses input: every call and every output appears on the wire once and in order, and every output
      bears the name of the latest call before it with its call id, or an empty name. */
  lemma ResponsesOutputsAreNamed(
      codec: Codec, instructions: string, raws: seq<Responses.RawItem>, random: nat -> string)
    ensures WireMarks(WireChat(codec, Responses.Preamble(instructions)
                                      + Responses.Converted(Responses.ReadItems(raws, random))))
            == Expected(codec, RawTrace(raws, random))
  {
    ItemsActs(raws, random);
    var items := Responses.ReadItems(raws, random);
    ResponsesMarks(items);
    ReadCallsHaveIds(raws, random);
    ItemsAgree(codec, items);
    NamedLike(codec, Responses.Preamble(instructions), Responses.Converted(items), ItemsMarks(items));
  }

  /** The whole translation of a Responses request's messages. */
  method TranslateResponses(codec: Codec, instructions: string, raws: seq<Responses.RawItem>, random: nat -> string)
    returns (chat: seq<WireMessage>)
    ensures WireMarks(chat) == Expected(codec, RawTrace(raws, random))
  {
    ResponsesOutputsAreNamed(codec, instructions, raws, random);
    var items := Responses.ReadAll(raws, random);
    var openAI := Responses.ConvertResponsesToChat(instructions, Responses.Items(items));
    chat := BuildMessages(codec, openAI);
  }
}
