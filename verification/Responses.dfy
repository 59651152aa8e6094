/** Converting a Responses request into chat messages. Reasoning, assistant text and tool calls gather in one pending
    message until something else flushes it. */
module Responses {
  import opened Text
  import opened Chat
  import opened CcRequest

  /** An input item seen through the keys the code reads: `text` is the text of its content, `reasoningText` that of its
      summary, content or text, and `output` its output as text. */
  datatype RawItem = RawItem(
    typ: string, role: Option<string>, text: string, reasoningText: string,
    callId: string, id: string, name: string, arguments: string, output: string)

  datatype Item =
    | Thought(text: string)
    | Said(text: string)
    | Turn(bySystem: bool, text: string)
    | FunctionCall(call: Call)
    | FunctionOutput(callId: string, output: string)
    | Ignored

  datatype ItemType = ReasoningType | MessageType | CallType | OutputType | UnknownType

  /** The type of an item; one without a type but with a role is a message. */
  function TypeOf(raw: RawItem): ItemType {
    if raw.typ == "message" || (raw.typ == "" && raw.role.Some?) then MessageType
    else if raw.typ == "reasoning" then ReasoningType
    else if raw.typ == "function_call" then CallType
    else if raw.typ == "function_call_output" then OutputType
    else UnknownType
  }

  /** A message's own role: anything but an assistant or a system role is taken for a user. */
  function RoleOf(raw: RawItem): Role {
    if raw.role == Some("assistant") then Assistant
    else if raw.role == Some("system") || raw.role == Some("developer") then System
    else User
  }

  function TurnRole(bySystem: bool): Role {
    if bySystem then System else User
  }

  /** A call's id; `made` is the one made up for a call that has none. */
  function CallIdOf(raw: RawItem, made: string): string {
    FirstNonEmpty([raw.callId, raw.id, made])
  }

  /** `callId` is the id for a call. */
  function ReadItem(raw: RawItem, callId: string): Item {
    match TypeOf(raw)
    case ReasoningType => Thought(raw.reasoningText)
    case MessageType => if RoleOf(raw) == Assistant then Said(raw.text) else Turn(RoleOf(raw) == System, raw.text)
    case CallType => FunctionCall(Call(callId, raw.name, Encoded(raw.arguments)))
    case OutputType => FunctionOutput(raw.callId, raw.output)
    case UnknownType => Ignored
  }

  /** The items of a request; `random` gives the hexadecimal digits for a made-up id. */
  function ReadItems(raws: seq<RawItem>, random: nat -> string): seq<Item> {
    seq(|raws|, i requires 0 <= i < |raws| => ReadItem(raws[i], CallIdOf(raws[i], "call_" + random(i))))
  }

  /** The types by name. */
  lemma TypesByName(raw: RawItem)
    ensures TypeOf(raw) == CallType <==> raw.typ == "function_call"
    ensures TypeOf(raw) == OutputType <==> raw.typ == "function_call_output"
    ensures TypeOf(raw) == ReasoningType <==> raw.typ == "reasoning"
    ensures TypeOf(raw) == MessageType <==> raw.typ == "message" || (raw.typ == "" && raw.role.Some?)
  {
  }

  method ReadMessage(raw: RawItem) returns (item: Item)
    ensures item == if RoleOf(raw) == Assistant then Said(raw.text) else Turn(RoleOf(raw) == System, raw.text)
  {
    if raw.role == Some("assistant") {
      item := Said(raw.text);
    } else if raw.role == Some("system") || raw.role == Some("developer") {
      item := Turn(true, raw.text);
    } else {
      item := Turn(false, raw.text);
    }
  }

  /** Reading one item; `made` is the id made up for a call. */
  method ReadOne(raw: RawItem, made: string) returns (item: Item)
    ensures item == ReadItem(raw, CallIdOf(raw, made))
  {
    match TypeOf(raw) {
      case ReasoningType =>
        item := Thought(raw.reasoningText);
      case MessageType =>
        item := ReadMessage(raw);
      case CallType =>
        item := FunctionCall(Call(CallIdOf(raw, made), raw.name, Encoded(raw.arguments)));
      case OutputType =>
        item := FunctionOutput(raw.callId, raw.output);
      case UnknownType =>
        item := Ignored;
    }
  }

  lemma ReadOneMore(raws: seq<RawItem>, random: nat -> string, n: nat, item: Item)
    requires n < |raws| && item == ReadItem(raws[n], CallIdOf(raws[n], "call_" + random(n)))
    ensures ReadItems(raws, random)[..n + 1] == ReadItems(raws, random)[..n] + [item]
  {
  }

  lemma ReadItemsSnoc(raws: seq<RawItem>, random: nat -> string)
    requires raws != []
    ensures var n := |raws| - 1;
            ReadItems(raws, random) ==
            ReadItems(raws[..n], random) + [ReadItem(raws[n], CallIdOf(raws[n], "call_" + random(n)))]
  {
  }

  method ReadAll(raws: seq<RawItem>, random: nat -> string) returns (items: seq<Item>)
    ensures items == ReadItems(raws, random)
  {
    items := [];
    for n := 0 to |raws|
      invariant items == ReadItems(raws, random)[..n]
    {
      var made := "call_" + random(n);
      var item := ReadOne(raws[n], made);
      ReadOneMore(raws, random, n, item);
      items := items + [item];
    }
  }

  datatype Input = NoInput | TextInput(text: string) | Items(items: seq<Item>)

  // ---- What the output should be ----

  /** Items that end the pending message. */
  predicate Flushes(item: Item) {
    item.Turn? || item.FunctionOutput?
  }

  /** The items since the last flush. */
  function OpenRun(items: seq<Item>): seq<Item> {
    if items == [] || Flushes(items[|items| - 1]) then []
    else OpenRun(items[..|items| - 1]) + [items[|items| - 1]]
  }

  /** The last assistant text of a run that is not empty; earlier ones are overwritten. */
  function LastSaid(run: seq<Item>): Option<string> {
    if run == [] then None
    else
      var last := run[|run| - 1];
      if last.Said? && last.text != "" then Some(last.text) else LastSaid(run[..|run| - 1])
  }

  function LastThought(run: seq<Item>): string {
    if run == [] then ""
    else
      var last := run[|run| - 1];
      if last.Thought? && last.text != "" then last.text else LastThought(run[..|run| - 1])
  }

  function CallsOf(run: seq<Item>): seq<Call> {
    if run == [] then []
    else CallsOf(run[..|run| - 1]) + if run[|run| - 1].FunctionCall? then [run[|run| - 1].call] else []
  }

  /** The one message a run becomes; a run with neither text nor calls becomes none, and its reasoning is lost. */
  function RunMessage(run: seq<Item>): seq<Message> {
    if LastSaid(run) == None && CallsOf(run) == [] then []
    else
      var content := match LastSaid(run) case None => NoContent case Some(text) => Chat.Text(text);
      [Message(Assistant, content, LastThought(run), CallsOf(run), "", "")]
  }

  /** The message of the item that ends a run. */
  function Boundary(item: Item): seq<Message> {
    match item
    case Turn(bySystem, text) => if text == "" then [] else [TextMessage(TurnRole(bySystem), Chat.Text(text))]
    case FunctionOutput(callId, output) => [Message(Tool, Chat.Text(output), "", [], callId, "")]
    case _ => []
  }

  /** The messages of everything up to the last flush. */
  function Settled(items: seq<Item>): seq<Message> {
    if items == [] then []
    else
      var front, last := items[..|items| - 1], items[|items| - 1];
      if Flushes(last) then Settled(front) + RunMessage(OpenRun(front)) + Boundary(last) else Settled(front)
  }

  function Converted(items: seq<Item>): seq<Message> {
    Settled(items) + RunMessage(OpenRun(items))
  }

  function Preamble(instructions: string): seq<Message> {
    if instructions == "" then [] else [TextMessage(System, Chat.Text(instructions))]
  }

  // ---- The conversion ----

  /** The pending assistant message. */
  datatype Pending = Pending(content: Option<string>, reasoning: string, calls: seq<Call>)

  const FRESH_PENDING := Pending(None, "", [])

  /** The pending message for a run: none until something has gone into it. */
  function PendingOf(run: seq<Item>): Option<Pending> {
    if LastSaid(run) == None && LastThought(run) == "" && CallsOf(run) == [] then None
    else Some(Pending(LastSaid(run), LastThought(run), CallsOf(run)))
  }

  /** `flushPending`. */
  method FlushPending(messages: seq<Message>, pending: Option<Pending>, ghost run: seq<Item>) returns (out: seq<Message>)
    requires pending == PendingOf(run)
    ensures out == messages + RunMessage(run)
  {
    if pending == None {
      return messages;
    }
    var p := pending.value;
    if p.content == None && p.calls == [] {
      return messages;
    }
    var content := match p.content case None => NoContent case Some(text) => Chat.Text(text);
    return messages + [Message(Assistant, content, p.reasoning, p.calls, "", "")];
  }

  function EnsurePending(pending: Option<Pending>): Pending {
    match pending case None => FRESH_PENDING case Some(p) => p
  }

  lemma RunGrows(items: seq<Item>, n: nat)
    requires n < |items|
    ensures var run, item := OpenRun(items[..n]), items[n];
            if Flushes(item) then
              OpenRun(items[..n + 1]) == []
              && Settled(items[..n + 1]) == Settled(items[..n]) + RunMessage(run) + Boundary(item)
            else OpenRun(items[..n + 1]) == run + [item] && Settled(items[..n + 1]) == Settled(items[..n])
  {
    assert items[..n + 1][..n] == items[..n];
  }

  lemma RunReadings(run: seq<Item>, item: Item)
    ensures LastSaid(run + [item]) == if item.Said? && item.text != "" then Some(item.text) else LastSaid(run)
    ensures LastThought(run + [item]) == if item.Thought? && item.text != "" then item.text else LastThought(run)
    ensures CallsOf(run + [item]) == if item.FunctionCall? then CallsOf(run) + [item.call] else CallsOf(run)
  {
    assert (run + [item])[..|run|] == run;
  }

  /** One round of the item loop. */
  method TakeItem(messages: seq<Message>, pending: Option<Pending>, item: Item, ghost run: seq<Item>)
    returns (messages': seq<Message>, pending': Option<Pending>)
    requires pending == PendingOf(run)
    ensures messages' == if Flushes(item) then messages + RunMessage(run) + Boundary(item) else messages
    ensures pending' == PendingOf(if Flushes(item) then [] else run + [item])
  {
    messages', pending' := messages, pending;
    RunReadings(run, item);
    match item {
      case Thought(text) =>
        if text != "" {
          pending' := Some(EnsurePending(pending).(reasoning := text));
        }
      case Said(text) =>
        if text != "" {
          pending' := Some(EnsurePending(pending).(content := Some(text)));
        }
      case FunctionCall(call) =>
        var p := EnsurePending(pending);
        pending' := Some(p.(calls := p.calls + [call]));
      case Turn(bySystem, text) =>
        messages' := FlushPending(messages, pending, run);
        pending' := None;
        if text != "" {
          messages' := messages' + [TextMessage(TurnRole(bySystem), Chat.Text(text))];
        }
      case FunctionOutput(callId, output) =>
        messages' := FlushPending(messages, pending, run);
        pending' := None;
        messages' := messages' + [Message(Tool, Chat.Text(output), "", [], callId, "")];
      case Ignored =>
    }
  }

  /** The item loop of `convertResponsesToChat`. */
  method ConvertItems(start: seq<Message>, items: seq<Item>) returns (messages: seq<Message>)
    ensures messages == start + Converted(items)
  {
    messages := start;
    var pending: Option<Pending> := None;
    for n := 0 to |items|
      invariant messages == start + Settled(items[..n])
      invariant pending == PendingOf(OpenRun(items[..n]))
    {
      RunGrows(items, n);
      ghost var settled, run := Settled(items[..n]), OpenRun(items[..n]);
      messages, pending := TakeItem(messages, pending, items[n], run);
      Regroup(start, settled, RunMessage(run));
      Regroup(start, settled + RunMessage(run), Boundary(items[n]));
    }
    assert items[..|items|] == items;
    Regroup(start, Settled(items), RunMessage(OpenRun(items)));
    messages := FlushPending(messages, pending, OpenRun(items));
  }

  /** `convertResponsesToChat`, as far as the messages go. */
  method ConvertResponsesToChat(instructions: string, input: Input) returns (messages: seq<Message>)
    ensures messages == Preamble(instructions) +
              match input
              case NoInput => []
              case TextInput(text) => [TextMessage(User, Chat.Text(text))]
              case Items(items) => Converted(items)
  {
    messages := [];
    if instructions != "" {
      messages := [TextMessage(System, Chat.Text(instructions))];
    }
    match input {
      case NoInput =>
      case TextInput(text) =>
        messages := messages + [TextMessage(User, Chat.Text(text))];
      case Items(items) =>
        messages := ConvertItems(messages, items);
    }
  }

  // ---- Conservation ----

  /** What must survive the conversion: calls, outputs, and user and system texts. */
  datatype Trace = Called(call: Call) | Output(callId: string, output: string) | Spoke(role: Role, text: string)

  function ItemTrace(item: Item): seq<Trace> {
    match item
    case FunctionCall(call) => [Called(call)]
    case FunctionOutput(callId, output) => [Output(callId, output)]
    case Turn(bySystem, text) => if text == "" then [] else [Spoke(TurnRole(bySystem), text)]
    case _ => []
  }

  function CallTrace(calls: seq<Call>): seq<Trace> {
    seq(|calls|, i requires 0 <= i < |calls| => Called(calls[i]))
  }

  function MessageTrace(m: Message): seq<Trace> {
    match m.role
    case Assistant => CallTrace(m.calls)
    case Tool => [Output(m.callId, ToolOutput(m.content))]
    case _ => [Spoke(m.role, if m.content.Text? then m.content.text else "")]
  }

  lemma CallTraceStep(calls: seq<Call>, call: Call)
    ensures CallTrace(calls + [call]) == CallTrace(calls) + [Called(call)]
  {
  }

  /** A reading of the messages that finds in them what a reading of the items finds: in the message of a run what its
      calls read as, and in the message after it what the item reads as. */
  ghost predicate Reads<T(!new)>(fromMessage: Message -> seq<T>, fromItem: Item -> seq<T>) {
    && (forall run :: (forall i :: 0 <= i < |run| ==> !Flushes(run[i])) ==>
          FlatMap(fromMessage, RunMessage(run)) == FlatMap(fromItem, run))
    && (forall item :: Flushes(item) ==> FlatMap(fromMessage, Boundary(item)) == fromItem(item))
  }

  lemma {:induction false} OpenRunIsOpen(items: seq<Item>)
    ensures forall i :: 0 <= i < |OpenRun(items)| ==> !Flushes(OpenRun(items)[i])
  {
    if items != [] {
      OpenRunIsOpen(items[..|items| - 1]);
    }
  }

  lemma FlushReads<T(!new)>(
      fromMessage: Message -> seq<T>, fromItem: Item -> seq<T>, settled: seq<Message>, run: seq<Item>, item: Item)
    requires Reads(fromMessage, fromItem)
    requires Flushes(item) && forall i :: 0 <= i < |run| ==> !Flushes(run[i])
    ensures FlatMap(fromMessage, settled + RunMessage(run) + Boundary(item)) ==
            FlatMap(fromMessage, settled) + FlatMap(fromItem, run) + fromItem(item)
  {
    FlatMapAppend(fromMessage, settled, RunMessage(run));
    FlatMapAppend(fromMessage, settled + RunMessage(run), Boundary(item));
  }

  lemma KeepReads<T>(fromItem: Item -> seq<T>, settled: seq<T>, run: seq<Item>, item: Item)
    ensures settled + FlatMap(fromItem, run + [item]) == settled + FlatMap(fromItem, run) + fromItem(item)
  {
    FlatMapSnoc(fromItem, run, item);
    Regroup(settled, FlatMap(fromItem, run), fromItem(item));
  }

  lemma {:induction false} SettledReads<T(!new)>(
      fromMessage: Message -> seq<T>, fromItem: Item -> seq<T>, items: seq<Item>)
    requires Reads(fromMessage, fromItem)
    ensures FlatMap(fromMessage, Settled(items)) + FlatMap(fromItem, OpenRun(items)) == FlatMap(fromItem, items)
  {
    if items != [] {
      var front, last := items[..|items| - 1], items[|items| - 1];
      SettledReads(fromMessage, fromItem, front);
      if Flushes(last) {
        OpenRunIsOpen(front);
        FlushReads(fromMessage, fromItem, Settled(front), OpenRun(front), last);
      } else {
        KeepReads(fromItem, FlatMap(fromMessage, Settled(front)), OpenRun(front), last);
      }
    }
  }

  /** Whatever is read from single items is read from the messages, once and in the same order. */
  lemma ConvertedReads<T(!new)>(fromMessage: Message -> seq<T>, fromItem: Item -> seq<T>, items: seq<Item>)
    requires Reads(fromMessage, fromItem)
    ensures FlatMap(fromMessage, Converted(items)) == FlatMap(fromItem, items)
  {
    SettledReads(fromMessage, fromItem, items);
    OpenRunIsOpen(items);
    FlatMapAppend(fromMessage, Settled(items), RunMessage(OpenRun(items)));
  }

  lemma {:induction false} RunTrace(run: seq<Item>)
    requires forall i :: 0 <= i < |run| ==> !Flushes(run[i])
    ensures FlatMap(ItemTrace, run) == CallTrace(CallsOf(run))
  {
    if run != [] {
      var front, last := run[..|run| - 1], run[|run| - 1];
      Snoc(run);
      RunTrace(front);
      FlatMapSnoc(ItemTrace, front, last);
      RunReadings(front, last);
      if last.FunctionCall? {
        CallTraceStep(CallsOf(front), last.call);
      }
    }
  }

  lemma RunMessageTrace(run: seq<Item>)
    requires forall i :: 0 <= i < |run| ==> !Flushes(run[i])
    ensures FlatMap(MessageTrace, RunMessage(run)) == FlatMap(ItemTrace, run)
  {
    RunTrace(run);
    if RunMessage(run) != [] {
      FlatMapOne(MessageTrace, RunMessage(run)[0]);
    }
  }

  lemma BoundaryTrace(item: Item)
    requires Flushes(item)
    ensures FlatMap(MessageTrace, Boundary(item)) == ItemTrace(item)
  {
    if Boundary(item) != [] {
      FlatMapOne(MessageTrace, Boundary(item)[0]);
    }
  }

  /** Main result: the messages show exactly the calls, outputs and texts of the items, in the same order. */
  lemma ConversionConserves(items: seq<Item>)
    ensures FlatMap(MessageTrace, Converted(items)) == FlatMap(ItemTrace, items)
  {
    forall run: seq<Item> | forall i :: 0 <= i < |run| ==> !Flushes(run[i])
      ensures FlatMap(MessageTrace, RunMessage(run)) == FlatMap(ItemTrace, run)
    {
      RunMessageTrace(run);
    }
    forall item | Flushes(item)
      ensures FlatMap(MessageTrace, Boundary(item)) == ItemTrace(item)
    {
      BoundaryTrace(item);
    }
    ConvertedReads(MessageTrace, ItemTrace, items);
  }

  predicate Meaningful(m: Message) {
    m.role == Assistant ==> m.content != NoContent || m.calls != []
  }

  predicate AllMeaningful(messages: seq<Message>) {
    forall i :: 0 <= i < |messages| ==> Meaningful(messages[i])
  }

  lemma FlushMeaningful(settled: seq<Message>, run: seq<Item>, last: Item)
    requires AllMeaningful(settled)
    ensures AllMeaningful(settled + RunMessage(run))
    ensures AllMeaningful(settled + RunMessage(run) + Boundary(last))
  {
    assert AllMeaningful(RunMessage(run));
    assert AllMeaningful(Boundary(last));
  }

  lemma {:induction false} SettledMeaningful(items: seq<Item>)
    ensures AllMeaningful(Settled(items))
  {
    if items != [] {
      var front, last := items[..|items| - 1], items[|items| - 1];
      SettledMeaningful(front);
      FlushMeaningful(Settled(front), OpenRun(front), last);
    }
  }

  /** No assistant message is empty. */
  lemma NoEmptyAssistant(items: seq<Item>)
    ensures AllMeaningful(Converted(items))
  {
    SettledMeaningful(items);
    FlushMeaningful(Settled(items), OpenRun(items), Ignored);
  }

  // ---- What is overwritten and lost ----

  /** Of the assistant texts of one run exactly the last that is not empty is kept. */
  lemma {:induction false} LastSaidMeans(run: seq<Item>, text: string)
    ensures LastSaid(run) == Some(text) <==>
            exists i :: 0 <= i < |run| && run[i] == Said(text) && text != ""
                        && forall j :: i < j < |run| && run[j].Said? ==> run[j].text == ""
  {
    if run != [] {
      var n := |run| - 1;
      LastSaidMeans(run[..n], text);
      if run[n].Said? && run[n].text != "" {
        assert LastSaid(run) == Some(text) ==> run[n] == Said(text);
      } else {
        assert LastSaid(run) == LastSaid(run[..n]);
        assert forall i :: 0 <= i < n ==> run[..n][i] == run[i];
      }
    }
  }

  /** An item that gives its run a message. */
  predicate Speaks(item: Item) {
    item.FunctionCall? || (item.Said? && item.text != "")
  }

  predicate Muses(item: Item) {
    item.Thought? && item.text != ""
  }

  /** Nothing between the two positions, nor at them, flushes. */
  ghost predicate SameRun(items: seq<Item>, i: nat, j: nat) {
    i < |items| && j < |items| && forall m :: (i <= m <= j || j <= m <= i) ==> !Flushes(items[m])
  }

  /** The reasoning at position k survives: no later one in its run overwrites it, and something in the run speaks. */
  ghost predicate Kept(items: seq<Item>, k: nat) {
    && k < |items| && Muses(items[k])
    && (forall j :: k < j < |items| && SameRun(items, k, j) ==> !Muses(items[j]))
    && (exists j :: 0 <= j < |items| && SameRun(items, k, j) && Speaks(items[j]))
  }

  /** The reasoning kept from positions `from`, ..., `end - 1`, in order. */
  ghost function KeptThoughts(items: seq<Item>, from: nat, end: nat): seq<string>
    requires from <= end <= |items|
  {
    if from == end then []
    else KeptThoughts(items, from, end - 1) + if Kept(items, end - 1) then [items[end - 1].text] else []
  }

  lemma {:induction false} KeptThoughtsJoin(items: seq<Item>, from: nat, mid: nat, end: nat)
    requires from <= mid <= end <= |items|
    ensures KeptThoughts(items, from, end) == KeptThoughts(items, from, mid) + KeptThoughts(items, mid, end)
    decreases end
  {
    if mid < end {
      KeptThoughtsJoin(items, from, mid, end - 1);
    }
  }

  /** Positions a, ..., b - 1 are one whole run. */
  predicate WholeRun(items: seq<Item>, a: nat, b: nat) {
    && a <= b <= |items|
    && (forall m :: a <= m < b ==> !Flushes(items[m]))
    && (a == 0 || Flushes(items[a - 1])) && (b == |items| || Flushes(items[b]))
  }

  lemma WholeRunIsSame(items: seq<Item>, a: nat, b: nat, k: nat, j: nat)
    requires WholeRun(items, a, b) && a <= k < b
    ensures SameRun(items, k, j) <==> a <= j < b
  {
  }

  predicate NoMoreMusing(items: seq<Item>, n: nat, b: nat)
    requires b <= |items|
  {
    forall j :: n <= j < b ==> !Muses(items[j])
  }

  predicate Voiced(items: seq<Item>, a: nat, b: nat)
    requires b <= |items|
  {
    exists j :: a <= j < b && Speaks(items[j])
  }

  lemma KeptInRun(items: seq<Item>, a: nat, b: nat, k: nat)
    requires WholeRun(items, a, b) && a <= k < b
    ensures Kept(items, k) <==> Muses(items[k]) && NoMoreMusing(items, k + 1, b) && Voiced(items, a, b)
  {
    forall j: nat
      ensures SameRun(items, k, j) <==> a <= j < b
    {
      WholeRunIsSame(items, a, b, k, j);
    }
  }

  lemma {:induction false} RunSpeaks(run: seq<Item>)
    ensures LastSaid(run) == None && CallsOf(run) == [] <==> forall i :: 0 <= i < |run| ==> !Speaks(run[i])
  {
    if run != [] {
      RunSpeaks(run[..|run| - 1]);
    }
  }

  lemma MusingStep(items: seq<Item>, n: nat, b: nat)
    requires n < b <= |items|
    ensures NoMoreMusing(items, n, b) <==> !Muses(items[n]) && NoMoreMusing(items, n + 1, b)
  {
  }

  lemma LastThoughtStep(items: seq<Item>, a: nat, n: nat)
    requires a <= n < |items|
    ensures LastThought(items[a..n + 1]) == if Muses(items[n]) then items[n].text else LastThought(items[a..n])
  {
    assert items[a..n + 1][..n - a] == items[a..n];
  }

  /** Of the reasoning before position n of a run, at most the last is kept. */
  lemma {:induction false} KeptBefore(items: seq<Item>, a: nat, b: nat, n: nat)
    requires WholeRun(items, a, b) && a <= n <= b
    ensures var last := LastThought(items[a..n]);
            KeptThoughts(items, a, n) ==
            if Voiced(items, a, b) && NoMoreMusing(items, n, b) && last != "" then [last] else []
    decreases n
  {
    if a < n {
      KeptBefore(items, a, b, n - 1);
      KeptInRun(items, a, b, n - 1);
      MusingStep(items, n - 1, b);
      LastThoughtStep(items, a, n - 1);
    } else {
      assert items[a..n] == [];
    }
  }

  function ReasoningOf(m: Message): seq<string> {
    if m.reasoning == "" then [] else [m.reasoning]
  }

  lemma VoicedRunSpeaks(items: seq<Item>, a: nat, b: nat)
    requires a <= b <= |items|
    ensures Voiced(items, a, b) <==> RunMessage(items[a..b]) != []
  {
    var run := items[a..b];
    RunSpeaks(run);
    assert forall j :: a <= j < b ==> run[j - a] == items[j];
  }

  lemma RunReasons(run: seq<Item>)
    ensures FlatMap(ReasoningOf, RunMessage(run)) ==
            if RunMessage(run) == [] || LastThought(run) == "" then [] else [LastThought(run)]
  {
    if RunMessage(run) != [] {
      FlatMapOne(ReasoningOf, RunMessage(run)[0]);
    }
  }

  lemma RunKeeps(items: seq<Item>, a: nat, b: nat)
    requires WholeRun(items, a, b)
    ensures FlatMap(ReasoningOf, RunMessage(items[a..b])) == KeptThoughts(items, a, b)
  {
    KeptBefore(items, a, b, b);
    VoicedRunSpeaks(items, a, b);
    RunReasons(items[a..b]);
  }

  lemma {:induction false} OpenRunIsSuffix(items: seq<Item>)
    ensures var a := |items| - |OpenRun(items)|;
            && a >= 0 && OpenRun(items) == items[a..] && (a == 0 || Flushes(items[a - 1]))
            && forall m :: a <= m < |items| ==> !Flushes(items[m])
  {
    if items != [] {
      OpenRunIsSuffix(items[..|items| - 1]);
    }
  }

  function RunStart(items: seq<Item>, n: nat): (a: nat)
    requires n <= |items|
    ensures a <= n
  {
    OpenRunIsSuffix(items[..n]);
    n - |OpenRun(items[..n])|
  }

  lemma RunStarts(items: seq<Item>, n: nat)
    requires n <= |items| && (n == |items| || Flushes(items[n]))
    ensures WholeRun(items, RunStart(items, n), n) && OpenRun(items[..n]) == items[RunStart(items, n)..n]
  {
    OpenRunIsSuffix(items[..n]);
    assert forall m :: 0 <= m < n ==> items[..n][m] == items[m];
  }

  lemma BoundaryIsThoughtless(item: Item)
    ensures FlatMap(ReasoningOf, Boundary(item)) == []
  {
    FlatMapOfNothing(ReasoningOf, Boundary(item));
  }

  lemma FlushKeeps(items: seq<Item>, m: nat)
    requires m < |items| && Flushes(items[m])
    requires FlatMap(ReasoningOf, Settled(items[..m])) == KeptThoughts(items, 0, RunStart(items, m))
    ensures FlatMap(ReasoningOf, Settled(items[..m]) + RunMessage(OpenRun(items[..m])) + Boundary(items[m])) ==
            KeptThoughts(items, 0, m + 1)
  {
    var settled, run := Settled(items[..m]), OpenRun(items[..m]);
    RunStarts(items, m);
    RunKeeps(items, RunStart(items, m), m);
    BoundaryIsThoughtless(items[m]);
    FlatMapAppend(ReasoningOf, settled, RunMessage(run));
    FlatMapAppend(ReasoningOf, settled + RunMessage(run), Boundary(items[m]));
    KeptThoughtsJoin(items, 0, RunStart(items, m), m);
    assert KeptThoughts(items, 0, m + 1) == KeptThoughts(items, 0, m) + [];
  }

  lemma {:induction false} SettledKeeps(items: seq<Item>, n: nat)
    requires n <= |items|
    ensures FlatMap(ReasoningOf, Settled(items[..n])) == KeptThoughts(items, 0, RunStart(items, n))
  {
    if n == 0 {
      assert items[..0] == [];
    } else {
      SettledKeeps(items, n - 1);
      RunGrows(items, n - 1);
      if Flushes(items[n - 1]) {
        FlushKeeps(items, n - 1);
      }
    }
  }

  /** Main result: the reasoning that the messages carry is, in order, exactly that of the items which are the last
      reasoning of their run, in runs with a non-empty text or a call. All other reasoning is lost. */
  lemma ReasoningIsKeptIff(items: seq<Item>)
    ensures FlatMap(ReasoningOf, Converted(items)) == KeptThoughts(items, 0, |items|)
  {
    var n := |items|;
    assert items[..n] == items;
    SettledKeeps(items, n);
    RunStarts(items, n);
    RunKeeps(items, RunStart(items, n), n);
    FlatMapAppend(ReasoningOf, Settled(items), RunMessage(OpenRun(items)));
    KeptThoughtsJoin(items, 0, RunStart(items, n), n);
  }
}
