/** What every streamed run looks like: the order of its items, and the shape of its chunks. */
module Runs {
  import opened Text
  import opened Lines
  import opened Protocol
  import opened StreamModel
  import opened Agreement

  // ---- Terminal discipline ----

  /** An error, if any, is the last item, wherever the sends may fail. */
  lemma ErrorComesLast(w: Wire, b: Bytes, ending: Ending, timeouts: nat, room: Room)
    ensures var items := Cut(StreamItems(w, b, ending, timeouts), room);
            forall i :: 0 <= i < |items| - 1 ==> items[i].Sent?
  {
  }

  /** A stream that a client may take for complete. */
  predicate CompleteStream(w: Wire, es: seq<Event>) {
    && ErrorFree(es) && Finishes(es)
    && Mapped(w, StepReason(es), "") != "upstream_error"
    && Tokens(LastUsage(ToLastFinish(es))) != 0
  }

  /** Nothing on the channel is an error. */
  predicate Clean(items: seq<Item>) {
    forall i :: 0 <= i < |items| ==> items[i].Sent?
  }

  lemma CleanIffNoError(out: seq<OutChunk>, verdict: Option<Error>)
    ensures Clean(Payloads(out) + ErrItems(verdict)) <==> verdict == None
  {
    if verdict.Some? {
      assert (Payloads(out) + ErrItems(verdict))[|out|] == Failed(verdict.value);
    }
  }

  lemma VerdictIffComplete(w: Wire, es: seq<Event>)
    ensures StreamVerdict(StreamFold(w, es).0) == None <==> CompleteStream(w, es)
  {
    FoldsKeepErrors(w, es);
    if ErrorFree(es) {
      VerdictsRead(w, w.clock, es);
      DetailTells(Finishes(es), Mapped(w, StepReason(es), ""));
    }
  }

  /** When the upstream has closed, the channel closes without an error if and only if the stream was complete. */
  lemma ClosesCleanlyIffComplete(w: Wire, b: Bytes, timeouts: nat)
    ensures Clean(StreamItems(w, b, Closed, timeouts)) <==> CompleteStream(w, Events(w, Split(b)))
  {
    ClosedRunReadsAll(w, b);
    VerdictIffComplete(w, Events(w, Split(b)));
    var (s, out) := StreamRun(w, b, Closed);
    CleanIffNoError(out, StreamVerdict(s));
  }

  /** When the input broke off or stalled there is exactly one error: the first error event in the complete lines if
      there is one, and otherwise the transport or timeout error. After a cancellation nothing is added. */
  lemma BrokenRunsReport(w: Wire, b: Bytes, signal: Signal, timeouts: nat)
    requires !signal.Chunk?
    ensures var errors := FirstError(Events(w, Complete(b)));
            StreamError(w, b, Stopped(signal), timeouts) ==
            if errors.Some? then Some(FromUpstream(errors.value))
            else match signal
              case Broken(msg) => Some(StatusError(502, "Upstream stream error: " + msg, 10))
              case Idle =>
                Some(StatusError(
                  429,
                  if timeouts < 2 then "Response timeout - request timed out"
                  else "Response timeout - try reducing context length (summarize earlier messages)",
                  5))
              case _ => None
  {
    FoldsKeepErrors(w, Events(w, Complete(b)));
  }

  /** When the upstream has closed, a stream without an error event that is not complete is refused as cut short or as
      empty: the first if nothing finished or the last step reason was an upstream failure. */
  lemma IncompleteRunsReport(w: Wire, b: Bytes, timeouts: nat)
    requires ErrorFree(Events(w, Split(b)))
    ensures var es := Events(w, Split(b));
            StreamError(w, b, Closed, timeouts) ==
            if !Finishes(es) then
              Some(StatusError(
                502, "Upstream stream ended without a completion finish (" + "no finish event" + ") - response was truncated", 10))
            else if Mapped(w, StepReason(es), "") == "upstream_error" then
              Some(StatusError(
                502,
                "Upstream stream ended without a completion finish (" + "provider reported an upstream connection failure"
                + ") - response was truncated",
                10))
            else if Tokens(LastUsage(ToLastFinish(es))) == 0 then
              Some(StatusError(429, "Empty response from upstream (zero output tokens)", 10))
            else None
  {
    var es := Events(w, Split(b));
    ClosedRunReadsAll(w, b);
    StreamVerdictRead(w, es);
    FoldsKeepErrors(w, es);
    DetailTells(Finishes(es), Mapped(w, StepReason(es), ""));
  }

  /** Chunks are sent as their lines arrive: whatever a cut-off run has sent is a prefix of the chunks that any
      longer run of the same stream sends. */
  lemma SentIsPrefix(w: Wire, b: Bytes, later: Bytes, signal: Signal, ending: Ending)
    ensures StreamRun(w, b, Stopped(signal)).1 <= StreamRun(w, b + later, ending).1
  {
    SplitResumes(b, later);
    var seen, rest := Complete(b), Complete(Tail(b) + later);
    EventsAppend(w, seen, rest);
    FoldGrows(w, Events(w, seen), Events(w, rest));
    FoldGrows(w, Events(w, Complete(b + later)), LineEvents(w, Tail(b + later)));
  }

  // ---- Shape ----

  predicate IsDelta(c: OutChunk) {
    c.finish == None
  }

  function Deltas(out: seq<OutChunk>): nat {
    if out == [] then 0 else Deltas(out[..|out| - 1]) + if IsDelta(out[|out| - 1]) then 1 else 0
  }

  function Tools(out: seq<OutChunk>): nat {
    if out == [] then 0 else Tools(out[..|out| - 1]) + if out[|out| - 1].delta.tool.Some? then 1 else 0
  }

  /** A chunk that follows `deltas` delta chunks and `tools` tool calls: a finish chunk has an empty delta and usage; a
      delta chunk carries exactly one of text, reasoning and a tool call, the role if and only if it is the first, and
      its tool call is numbered by the calls before it. */
  predicate ChunkShape(c: OutChunk, deltas: nat, tools: nat) {
    if !IsDelta(c) then c.delta == EMPTY_DELTA && c.usage.Some?
    else
      && c.usage == None
      && c.delta.role == (if deltas == 0 then Some("assistant") else None)
      && (match c.delta.tool
          case Some(entry) =>
            entry.index == tools && c.delta.reasoning == None && c.delta.content == (if deltas == 0 then Null else Absent)
          case None =>
            || (c.delta.reasoning == None && c.delta.content.Is? && c.delta.content.text != "")
            || (c.delta.content == Absent && c.delta.reasoning.Some? && c.delta.reasoning.value != ""))
  }

  predicate RunShape(out: seq<OutChunk>) {
    forall i :: 0 <= i < |out| ==> ChunkShape(out[i], Deltas(out[..i]), Tools(out[..i]))
  }

  lemma StepShape(w: Wire, s: StreamView, e: Event)
    ensures var (s', more) := StreamStep(w, s, e);
            || (more == [] && s'.chunkIndex == s.chunkIndex && s'.toolCallIndex == s.toolCallIndex)
            || (&& |more| == 1 && ChunkShape(more[0], s.chunkIndex, s.toolCallIndex)
                && s'.chunkIndex == s.chunkIndex + (if IsDelta(more[0]) then 1 else 0)
                && s'.toolCallIndex == s.toolCallIndex + (if more[0].delta.tool.Some? then 1 else 0))
  {
  }

  lemma RunShapeStep(out: seq<OutChunk>, c: OutChunk)
    requires RunShape(out) && ChunkShape(c, Deltas(out), Tools(out))
    ensures RunShape(out + [c])
    ensures Deltas(out + [c]) == Deltas(out) + (if IsDelta(c) then 1 else 0)
    ensures Tools(out + [c]) == Tools(out) + if c.delta.tool.Some? then 1 else 0
  {
    var all := out + [c];
    assert all[..|out|] == out;
    forall i | 0 <= i < |all|
      ensures ChunkShape(all[i], Deltas(all[..i]), Tools(all[..i]))
    {
      if i < |out| {
        assert all[..i] == out[..i];
      }
    }
  }

  /** Every run has this shape, and the emitter's two counters count its delta chunks and its tool calls. */
  lemma {:induction false} EveryRunIsShaped(w: Wire, es: seq<Event>)
    ensures var (s, out) := StreamFold(w, es);
            RunShape(out) && s.chunkIndex == Deltas(out) && s.toolCallIndex == Tools(out)
  {
    if es != [] {
      var front, last := es[..|es| - 1], es[|es| - 1];
      assert es == front + [last];
      EveryRunIsShaped(w, front);
      StreamFoldStep(w, front, last);
      var (s, out) := StreamFold(w, front);
      StepShape(w, s, last);
      var more := StreamStep(w, s, last).1;
      if more == [] {
        assert out + more == out;
      } else {
        assert more == [more[0]];
        RunShapeStep(out, more[0]);
      }
    }
  }

  /** Later chunks see at least the counts that chunk `i` leaves behind. */
  lemma {:induction false} CountsGrow(out: seq<OutChunk>, i: nat, j: nat)
    requires i < j <= |out|
    ensures Deltas(out[..j]) >= Deltas(out[..i]) + if IsDelta(out[i]) then 1 else 0
    ensures Tools(out[..j]) >= Tools(out[..i]) + if out[i].delta.tool.Some? then 1 else 0
    decreases j
  {
    assert out[..j][..j - 1] == out[..j - 1];
    if i < j - 1 {
      CountsGrow(out, i, j - 1);
    }
  }

  lemma ShapedPair(out: seq<OutChunk>, i: nat, j: nat)
    requires RunShape(out) && i < j < |out|
    ensures IsDelta(out[i]) ==> out[j].delta.role == None
    ensures out[i].delta.tool.Some? && out[j].delta.tool.Some? ==>
              out[i].delta.tool.value.index < out[j].delta.tool.value.index
  {
    CountsGrow(out, i, j);
    assert ChunkShape(out[i], Deltas(out[..i]), Tools(out[..i])) && ChunkShape(out[j], Deltas(out[..j]), Tools(out[..j]));
  }

  /** The role is announced once, on the first delta chunk, and tool calls are numbered upwards. */
  lemma RoleOnceAndToolsNumbered(w: Wire, es: seq<Event>, i: nat, j: nat)
    requires i < j < |StreamFold(w, es).1|
    ensures var out := StreamFold(w, es).1;
            && (IsDelta(out[i]) ==> out[j].delta.role == None)
            && (out[i].delta.tool.Some? && out[j].delta.tool.Some? ==>
                  out[i].delta.tool.value.index < out[j].delta.tool.value.index)
  {
    EveryRunIsShaped(w, es);
    ShapedPair(StreamFold(w, es).1, i, j);
  }
}
