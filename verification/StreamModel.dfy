/** What a whole upstream stream means to each of the two consumers, as functions of its bytes. */
module StreamModel {
  import opened Text
  import opened Lines
  import opened Protocol

  /** The emitter over a list of events. Nothing is read after an error event. */
  function StreamFold(w: Wire, es: seq<Event>): (StreamView, seq<OutChunk>) {
    if es == [] then (STREAM_START, [])
    else
      var (s, out) := StreamFold(w, es[..|es| - 1]);
      if s.upstreamError.Some? then (s, out)
      else
        var (next, more) := StreamStep(w, s, es[|es| - 1]);
        (next, out + more)
  }

  /** The accumulator over a list of events. It reads on after an error event. */
  function AccFold(w: Wire, es: seq<Event>): AccView {
    if es == [] then ACC_START else AccStep(w, AccFold(w, es[..|es| - 1]), es[|es| - 1])
  }

  /** One more event. */
  lemma StreamFoldStep(w: Wire, es: seq<Event>, e: Event)
    ensures StreamFold(w, es + [e]) ==
            if StreamFold(w, es).0.upstreamError.Some? then StreamFold(w, es)
            else (StreamStep(w, StreamFold(w, es).0, e).0, StreamFold(w, es).1 + StreamStep(w, StreamFold(w, es).0, e).1)
  {
    assert (es + [e])[..|es|] == es;
  }

  lemma AccFoldStep(w: Wire, es: seq<Event>, e: Event)
    ensures AccFold(w, es + [e]) == AccStep(w, AccFold(w, es), e)
  {
    assert (es + [e])[..|es|] == es;
  }

  /** After an error event the emitter ignores whatever follows. */
  lemma {:induction false} StreamFoldStops(w: Wire, es: seq<Event>, rest: seq<Event>)
    requires StreamFold(w, es).0.upstreamError.Some?
    ensures StreamFold(w, es + rest) == StreamFold(w, es)
  {
    if rest == [] {
      assert es + rest == es;
    } else {
      StreamFoldStops(w, es, rest[..|rest| - 1]);
      assert (es + rest)[..|es + rest| - 1] == es + rest[..|rest| - 1];
    }
  }

  /** What is sent for some events is a prefix of what is sent for more. */
  lemma {:induction false} FoldGrows(w: Wire, es: seq<Event>, more: seq<Event>)
    ensures StreamFold(w, es).1 <= StreamFold(w, es + more).1
  {
    if more == [] {
      assert es + more == es;
    } else {
      var front, last := more[..|more| - 1], more[|more| - 1];
      FoldGrows(w, es, front);
      StreamFoldStep(w, es + front, last);
      assert es + more == es + front + [last];
    }
  }

  // ---- What the receive loop observes ----

  /** One outcome of the receive loop's `select`: data, a transport error, the idle timer, or cancellation.
      A list of signals that runs out means that the upstream closed its channel. */
  datatype Signal = Chunk(payload: Bytes) | Broken(msg: string) | Idle | Cancelled

  datatype Ending = Closed | Stopped(signal: Signal)

  /** All bytes that arrive before the receive loop ends. */
  function Received(signals: seq<Signal>): Bytes {
    if signals == [] || !signals[0].Chunk? then [] else signals[0].payload + Received(signals[1..])
  }

  function EndingOf(signals: seq<Signal>): Ending {
    if signals == [] then Closed
    else if signals[0].Chunk? then EndingOf(signals[1..])
    else Stopped(signals[0])
  }

  // ---- Results ----

  datatype Error = StatusError(status: int, msg: string, retryAfter: int) | ContextDone

  datatype Item = Sent(chunk: OutChunk) | Failed(error: Error)

  function FromUpstream(e: UpstreamError): Error {
    StatusError(e.status, e.message, e.retryAfter)
  }

  function Truncated(detail: string): Error {
    StatusError(502, "Upstream stream ended without a completion finish (" + detail + ") - response was truncated", 10)
  }

  const EMPTY_RESPONSE := StatusError(429, "Empty response from upstream (zero output tokens)", 10)

  function TransportError(msg: string): Error {
    StatusError(502, "Upstream stream error: " + msg, 10)
  }

  /** The error for the `count`-th timeout in a row. */
  function TimeoutError(count: nat): Error {
    StatusError(
      429,
      if count >= 3 then "Response timeout - try reducing context length (summarize earlier messages)"
      else "Response timeout - request timed out",
      5)
  }

  function Payloads(chunks: seq<OutChunk>): (items: seq<Item>)
    ensures |items| == |chunks| && forall k :: 0 <= k < |chunks| ==> items[k] == Sent(chunks[k])
  {
    seq(|chunks|, k requires 0 <= k < |chunks| => Sent(chunks[k]))
  }

  /** What the emitter reports once its input has closed: none when the stream was complete. */
  function StreamVerdict(s: StreamView): Option<Error> {
    if s.upstreamError.Some? then Some(FromUpstream(s.upstreamError.value))
    else if IncompleteDetail(s.sawFinish, s.finishReason) != "" then
      Some(Truncated(IncompleteDetail(s.sawFinish, s.finishReason)))
    else if s.outputTokens == 0 then Some(EMPTY_RESPONSE)
    else None
  }

  function AccVerdict(a: AccView): Option<Error> {
    if a.upstreamError.Some? then Some(FromUpstream(a.upstreamError.value))
    else if IncompleteDetail(a.sawFinish, a.finishReason) != "" then
      Some(Truncated(IncompleteDetail(a.sawFinish, a.finishReason)))
    else if Tokens(Normalized(a.usage)) == 0 then Some(EMPTY_RESPONSE)
    else None
  }

  function ErrItems(verdict: Option<Error>): seq<Item> {
    match verdict case None => [] case Some(error) => [Failed(error)]
  }

  /** The items for some events: their chunks, and the error event at which the emitter stops. */
  function ItemsFor(w: Wire, es: seq<Event>): seq<Item> {
    var (s, out) := StreamFold(w, es);
    Payloads(out) + ErrItems(if s.upstreamError.Some? then Some(FromUpstream(s.upstreamError.value)) else None)
  }

  /** How many items the channel takes before a cancelled context makes the next send fail; `None` if no send fails. */
  type Room = Option<nat>

  predicate Fits(n: nat, room: Room) {
    room.Some? ==> n <= room.value
  }

  /** What gets through of a list of items. */
  function Cut(items: seq<Item>, room: Room): seq<Item> {
    if Fits(|items|, room) then items else items[..room.value]
  }

  lemma CutPrefix(items: seq<Item>, more: seq<Item>, room: Room)
    requires items <= more && !Fits(|items|, room)
    ensures Cut(items, room) == Cut(more, room)
  {
  }

  lemma PayloadsPrefix(a: seq<OutChunk>, b: seq<OutChunk>)
    requires a <= b
    ensures Payloads(a) <= Payloads(b)
  {
    assert forall k :: 0 <= k < |a| ==> Payloads(a)[k] == Payloads(b)[k];
  }

  /** The emitter's run over `b`, told only how the input ended. */
  function StreamRun(w: Wire, b: Bytes, ending: Ending): (StreamView, seq<OutChunk>) {
    var run := StreamFold(w, Events(w, Complete(b)));
    if run.0.upstreamError.None? && ending == Closed then StreamFold(w, Events(w, Split(b))) else run
  }

  function StreamError(w: Wire, b: Bytes, ending: Ending, timeouts: nat): Option<Error> {
    var s := StreamRun(w, b, ending).0;
    if s.upstreamError.Some? then Some(FromUpstream(s.upstreamError.value))
    else
      match ending
      case Closed => StreamVerdict(s)
      case Stopped(Broken(msg)) => Some(TransportError(msg))
      case Stopped(Idle) => Some(TimeoutError(timeouts + 1))
      case Stopped(_) => None
  }

  /** Everything the output channel carries before it is closed. */
  function StreamItems(w: Wire, b: Bytes, ending: Ending, timeouts: nat): seq<Item> {
    Payloads(StreamRun(w, b, ending).1) + ErrItems(StreamError(w, b, ending, timeouts))
  }

  function StreamTimeouts(w: Wire, b: Bytes, ending: Ending, timeouts: nat): nat {
    if StreamRun(w, b, ending).0.upstreamError.Some? then timeouts
    else
      match ending
      case Closed => if StreamVerdict(StreamRun(w, b, ending).0) == None then 0 else timeouts
      case Stopped(Idle) => timeouts + 1
      case Stopped(_) => timeouts
  }

  /** A failed send ends the loop before it can count a timeout or a success. */
  function CutTimeouts(w: Wire, b: Bytes, ending: Ending, timeouts: nat, room: Room): nat {
    if Fits(|StreamRun(w, b, ending).1|, room) then StreamTimeouts(w, b, ending, timeouts) else timeouts
  }

  /** The buffered result over `b`. The bytes after the last newline are never fed. */
  function CollectResult(w: Wire, b: Bytes, ending: Ending, timeouts: nat): Result<Completion, Error> {
    var a := AccFold(w, Events(w, Complete(b)));
    match ending
    case Closed =>
      (match AccVerdict(a)
       case Some(error) => Err(error)
       case None => Ok(Build(a)))
    case Stopped(Broken(msg)) => Err(TransportError(msg))
    case Stopped(Idle) => Err(TimeoutError(timeouts + 1))
    case Stopped(_) => Err(ContextDone)
  }

  /** Timeouts in a row after a buffered request: a success resets them, and an idle upstream adds one. */
  function CollectTimeouts(ok: bool, ending: Ending, timeouts: nat): nat {
    if ok then 0 else if ending == Stopped(Idle) then timeouts + 1 else timeouts
  }
}
