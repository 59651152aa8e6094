/** System text, followed through both stages onto the wire. */
module WireSystem {
  import opened Text
  import opened Chat
  import opened CcRequest
  import Anthropic
  import Responses

  // ---- Anthropic input ----

  /** The builder drops a text part without text or cache marker. */
  predicate Dropped(part: Part) {
    part.kind == TextPart && part.text == "" && part.cache == None
  }

  function KeptPart(part: Part): seq<SystemBlock> {
    if part.kind == TextPart && !Dropped(part) then [SystemBlock(part.text, part.cache)] else []
  }

  /** What becomes of a request's own system text. */
  function SystemKept(system: Anthropic.SystemBody): seq<SystemBlock> {
    match system
    case NoSystem => []
    case SystemText(text) => if text == "" then [] else [SystemBlock(text, None)]
    case SystemParts(parts) => if Join(TextsOf(parts), "\n") == "" then [] else FlatMap(KeptPart, parts)
  }

  lemma {:induction false} ListKeeps(parts: seq<Part>)
    ensures ListBlocks(Anthropic.SystemBlocks(parts)) == FlatMap(KeptPart, parts)
  {
    if parts != [] {
      var front, last := parts[..|parts| - 1], parts[|parts| - 1];
      ListKeeps(front);
      if last.kind == TextPart {
        FlatMapSnoc(PartBlocks, Anthropic.SystemBlocks(front), Part(TextPart, last.text, None, last.cache, ""));
      } else {
        assert Anthropic.SystemBlocks(front) + [] == Anthropic.SystemBlocks(front);
        assert FlatMap(KeptPart, front) + [] == FlatMap(KeptPart, front);
      }
    }
  }

  predicate NoSystemAmong(messages: seq<Message>) {
    forall i :: 0 <= i < |messages| ==> messages[i].role != System
  }

  lemma {:induction false} ConvertedHasNoSystem(messages: seq<Anthropic.AMessage>)
    ensures NoSystemAmong(Anthropic.Converted(messages))
  {
    if messages != [] {
      var front := messages[..|messages| - 1];
      ConvertedHasNoSystem(front);
      assert NoSystemAmong(Anthropic.MessagesFor(messages[|messages| - 1], Anthropic.InputTrace(front)));
    }
  }

  lemma SystemMessageKeeps(system: Anthropic.SystemBody)
    ensures KeptBlocks(Anthropic.SystemMessage(system)) == SystemKept(system)
  {
    var out := Anthropic.SystemMessage(system);
    if out != [] {
      FlatMapOne(MessageBlocks, out[0]);
      assert out == [out[0]];
    }
    if system.SystemParts? {
      ListKeeps(system.parts);
    }
  }

  /** The blocks that are kept of a whole conversation are those of its system text. */
  lemma SystemReachesWire(system: Anthropic.SystemBody, messages: seq<Anthropic.AMessage>)
    ensures KeptBlocks(Anthropic.SystemMessage(system) + Anthropic.Converted(messages)) == SystemKept(system)
  {
    FlatMapAppend(MessageBlocks, Anthropic.SystemMessage(system), Anthropic.Converted(messages));
    SystemMessageKeeps(system);
    ConvertedHasNoSystem(messages);
    FlatMapOfNothing(MessageBlocks, Anthropic.Converted(messages));
  }

  function TotalLength(texts: seq<string>): nat {
    if texts == [] then 0 else TotalLength(texts[..|texts| - 1]) + |texts[|texts| - 1]|
  }

  lemma {:induction false} TotalFromFront(texts: seq<string>)
    requires texts != []
    ensures TotalLength(texts) == |texts[0]| + TotalLength(texts[1..])
  {
    if |texts| > 1 {
      TotalFromFront(texts[..|texts| - 1]);
      assert texts[..|texts| - 1][1..] == texts[1..][..|texts[1..]| - 1];
    }
  }

  lemma {:induction false} JoinLength(texts: seq<string>)
    ensures |Join(texts, "\n")| == TotalLength(texts) + if texts == [] then 0 else |texts| - 1
  {
    if texts != [] {
      TotalFromFront(texts);
      JoinLength(texts[1..]);
    }
  }

  lemma KeptStep(front: seq<SystemBlock>, last: SystemBlock)
    ensures BlockTexts(front + [last]) == BlockTexts(front) + [last.text]
    ensures TotalLength(BlockTexts(front + [last])) == TotalLength(BlockTexts(front)) + |last.text|
  {
    assert BlockTexts(front + [last]) == BlockTexts(front) + [last.text];
    assert (BlockTexts(front) + [last.text])[..|front|] == BlockTexts(front);
  }

  lemma TotalStep(front: seq<string>, last: string)
    ensures TotalLength(front + [last]) == TotalLength(front) + |last|
  {
    assert (front + [last])[..|front|] == front;
  }

  predicate NoneDropped(parts: seq<Part>) {
    forall i :: 0 <= i < |parts| ==> !Dropped(parts[i])
  }

  lemma NoneDroppedStep(parts: seq<Part>, n: nat)
    requires n + 1 == |parts|
    ensures NoneDropped(parts) <==> NoneDropped(parts[..n]) && !Dropped(parts[n])
  {
    assert forall i :: 0 <= i < n ==> parts[..n][i] == parts[i];
  }

  /** One more part. */
  lemma LengthsStep(kept: seq<SystemBlock>, texts: seq<string>, part: Part)
    ensures var more := if part.kind == TextPart then [part.text] else [];
            && TotalLength(BlockTexts(kept + KeptPart(part))) - TotalLength(BlockTexts(kept))
               == TotalLength(texts + more) - TotalLength(texts)
            && BlockTexts(kept + KeptPart(part)) == (if Dropped(part) then BlockTexts(kept) else BlockTexts(kept) + more)
            && (if part.kind == TextPart then |texts + more| == |texts| + 1 else texts + more == texts)
  {
    if part.kind == TextPart {
      TotalStep(texts, part.text);
      if Dropped(part) {
        assert kept + [] == kept;
      } else {
        KeptStep(kept, SystemBlock(part.text, part.cache));
      }
    } else {
      assert kept + [] == kept && texts + [] == texts && BlockTexts(kept) + [] == BlockTexts(kept);
    }
  }

  /** Dropping empty parts changes how many texts there are, but not their length. */
  lemma {:induction false} KeptLengths(parts: seq<Part>)
    ensures var kept, texts := BlockTexts(FlatMap(KeptPart, parts)), TextsOf(parts);
            && TotalLength(kept) == TotalLength(texts) && |kept| <= |texts|
            && (if NoneDropped(parts) then kept == texts else |kept| < |texts|)
  {
    if parts != [] {
      var n := |parts| - 1;
      KeptLengths(parts[..n]);
      NoneDroppedStep(parts, n);
      LengthsStep(FlatMap(KeptPart, parts[..n]), TextsOf(parts[..n]), parts[n]);
    }
  }

  /** What the wire blocks read as, one after the other. */
  function WireSystemText(blocks: seq<SystemBlock>): string {
    Concat(BlockTexts(Lined(blocks)))
  }

  /** Main result: of a system list the wire shows the texts joined by newlines, as the request has them, if and only if
      they join to nothing at all or the list has no empty text without a cache marker. */
  lemma SystemListIsKeptIff(parts: seq<Part>, messages: seq<Anthropic.AMessage>)
    ensures var system, joined := Anthropic.SystemParts(parts), Join(TextsOf(parts), "\n");
            var shown := WireSystemText(KeptBlocks(Anthropic.SystemMessage(system) + Anthropic.Converted(messages)));
            shown == joined <==> joined == "" || NoneDropped(parts)
  {
    var kept := SystemKept(Anthropic.SystemParts(parts));
    SystemReachesWire(Anthropic.SystemParts(parts), messages);
    SystemTextPreserved(kept);
    KeptLengths(parts);
    JoinLength(BlockTexts(kept));
    JoinLength(TextsOf(parts));
  }

  // ---- Responses input ----

  function ItemBlocks(item: Responses.Item): seq<SystemBlock> {
    if item.Turn? && item.bySystem && item.text != "" then [SystemBlock(item.text, None)] else []
  }

  lemma RunHasNoSystem(run: seq<Responses.Item>)
    requires forall i :: 0 <= i < |run| ==> !Responses.Flushes(run[i])
    ensures FlatMap(MessageBlocks, Responses.RunMessage(run)) == [] && FlatMap(ItemBlocks, run) == []
  {
    FlatMapOfNothing(MessageBlocks, Responses.RunMessage(run));
    FlatMapOfNothing(ItemBlocks, run);
  }

  lemma BoundaryBlocks(item: Responses.Item)
    ensures FlatMap(MessageBlocks, Responses.Boundary(item)) == ItemBlocks(item)
  {
    var out := Responses.Boundary(item);
    if out != [] {
      FlatMapOne(MessageBlocks, out[0]);
      assert out == [out[0]];
    }
  }

  lemma TurnsReachWire(items: seq<Responses.Item>)
    ensures KeptBlocks(Responses.Converted(items)) == FlatMap(ItemBlocks, items)
  {
    forall run: seq<Responses.Item> | forall i :: 0 <= i < |run| ==> !Responses.Flushes(run[i])
      ensures FlatMap(MessageBlocks, Responses.RunMessage(run)) == FlatMap(ItemBlocks, run)
    {
      RunHasNoSystem(run);
    }
    forall item | Responses.Flushes(item)
      ensures FlatMap(MessageBlocks, Responses.Boundary(item)) == ItemBlocks(item)
    {
      BoundaryBlocks(item);
    }
    Responses.ConvertedReads(MessageBlocks, ItemBlocks, items);
  }

  /** Main result: the wire shows the instructions and the system turns, in order and each in its own line; empty ones are
      left out. */
  lemma InstructionsReachWire(instructions: string, items: seq<Responses.Item>)
    ensures var own := if instructions == "" then [] else [SystemBlock(instructions, None)];
            && KeptBlocks(Responses.Preamble(instructions) + Responses.Converted(items)) == own + FlatMap(ItemBlocks, items)
            && WireSystemText(KeptBlocks(Responses.Preamble(instructions) + Responses.Converted(items)))
               == Join(BlockTexts(own + FlatMap(ItemBlocks, items)), "\n")
  {
    var preamble := Responses.Preamble(instructions);
    if preamble != [] {
      FlatMapOne(MessageBlocks, preamble[0]);
      assert preamble == [preamble[0]];
    }
    FlatMapAppend(MessageBlocks, preamble, Responses.Converted(items));
    TurnsReachWire(items);
    SystemTextPreserved(KeptBlocks(preamble + Responses.Converted(items)));
  }
}
