/** The executor's receive loops over a chunked upstream stream. */
module Executor {
  import opened Text
  import opened Lines
  import opened Protocol
  import opened StreamModel
  import opened Pool
  import opened Failover

  const MISSING_KEY := StatusError(
    401,
    "commandcode executor: missing api key (router path passes nil auth; set plugins.configs.commandcode.api_key or api_keys in config.yaml)",
    0)

  function Busy(limit: int): Error {
    StatusError(503, "Too many concurrent requests (limit " + FormatInt(limit) + "), retry shortly", 5)
  }

  const MAX_PENDING := 4 * 1024 * 1024

  class Executor {
    const limit: int
    var inflight: int
    var timeouts: nat

    constructor (maxInflight: int)
      ensures limit == maxInflight && inflight == 0 && timeouts == 0
    {
      limit, inflight, timeouts := maxInflight, 0, 0;
    }

    method AcquireInflight() returns (ok: bool)
      modifies `inflight
      ensures ok == (limit <= 0 || old(inflight) < limit)
      ensures inflight == if ok && limit > 0 then old(inflight) + 1 else old(inflight)
    {
      if limit <= 0 {
        return true;
      }
      inflight := inflight + 1;
      if inflight > limit {
        inflight := inflight - 1;
        return false;
      }
      return true;
    }

    method ReleaseInflight()
      modifies `inflight
      ensures inflight == if limit > 0 then old(inflight) - 1 else old(inflight)
    {
      if limit > 0 {
        inflight := inflight - 1;
      }
    }

    method NextTimeout() returns (error: Error)
      modifies `timeouts
      ensures timeouts == old(timeouts) + 1 && error == TimeoutError(timeouts)
    {
      timeouts := timeouts + 1;
      error := TimeoutError(timeouts);
    }

    /** A buffered request: the slot it takes is given back on every path. */
    method Execute(
        w: Wire, describe: (int, Bytes) -> string, weights: seq<int>, draws: seq<nat>, world: nat -> Attempt)
      returns (r: Result<Completion, Error>, tried: seq<nat>)
      requires ValidDraws(weights, Indices(|weights|), draws)
      requires forall i :: WellFormed(world(i))
      modifies this
      ensures inflight == old(inflight)
      ensures limit > 0 && old(inflight) >= limit ==>
                && r == Err(StatusError(503, "Too many concurrent requests (limit " + FormatInt(limit) + "), retry shortly", 5))
                && tried == [] && timeouts == old(timeouts)
      ensures (limit <= 0 || old(inflight) < limit) && weights == [] ==>
                r == Err(MISSING_KEY) && r.error.status == 401 && tried == [] && timeouts == old(timeouts)
      ensures (limit <= 0 || old(inflight) < limit) && weights != [] ==>
                && tried != []
                && Tries(OrderOf(weights, Indices(|weights|), draws), world, tried)
                && (match Settled(describe, world(tried[|tried| - 1]))
                    case Err(error) => r == Err(error) && timeouts == old(timeouts)
                    case Ok(signals) =>
                      && r == CollectResult(w, Received(signals), EndingOf(signals), old(timeouts))
                      && timeouts == CollectTimeouts(r.Ok?, EndingOf(signals), old(timeouts)))
    {
      tried := [];
      var ok := AcquireInflight();
      if !ok {
        return Err(Busy(limit)), tried;
      }
      if weights == [] {
        ReleaseInflight();
        return Err(MISSING_KEY), tried;
      }
      r, tried := Answer(w, describe, weights, draws, world);
      ReleaseInflight();
    }

    /** The attempts of a buffered request, and what is made of the winning stream. */
    method Answer(
        w: Wire, describe: (int, Bytes) -> string, weights: seq<int>, draws: seq<nat>, world: nat -> Attempt)
      returns (r: Result<Completion, Error>, tried: seq<nat>)
      requires weights != [] && ValidDraws(weights, Indices(|weights|), draws)
      requires forall i :: WellFormed(world(i))
      modifies `timeouts
      ensures tried != [] && Tries(OrderOf(weights, Indices(|weights|), draws), world, tried)
      ensures match Settled(describe, world(tried[|tried| - 1]))
              case Err(error) => r == Err(error) && timeouts == old(timeouts)
              case Ok(signals) =>
                && r == CollectResult(w, Received(signals), EndingOf(signals), old(timeouts))
                && timeouts == CollectTimeouts(r.Ok?, EndingOf(signals), old(timeouts))
    {
      var order := Order(weights, draws);
      var answer;
      answer, tried := TryMembers(describe, order, world);
      match answer {
        case Err(error) =>
          r := Err(error);
        case Ok(signals) =>
          r := Collect(w, signals);
      }
    }

    method Collect(w: Wire, signals: seq<Signal>) returns (r: Result<Completion, Error>)
      modifies `timeouts
      ensures r == CollectResult(w, Received(signals), EndingOf(signals), old(timeouts))
      ensures timeouts == CollectTimeouts(r.Ok?, EndingOf(signals), old(timeouts))
    {
      r := CollectNonStream(w, signals);
      if r.Ok? {
        timeouts := 0;
      }
    }

    /** A streamed request up to the hand-over: the slot is kept exactly when a stream was started, whose loop then gives
        it back. */
    method ExecuteStream(describe: (int, Bytes) -> string, weights: seq<int>, draws: seq<nat>, world: nat -> Attempt)
      returns (r: Result<seq<Signal>, Error>, tried: seq<nat>)
      requires ValidDraws(weights, Indices(|weights|), draws)
      requires forall i :: WellFormed(world(i))
      modifies `inflight
      ensures inflight == if r.Ok? && limit > 0 then old(inflight) + 1 else old(inflight)
      ensures limit > 0 && old(inflight) >= limit ==>
                && r == Err(StatusError(503, "Too many concurrent requests (limit " + FormatInt(limit) + "), retry shortly", 5))
                && tried == []
      ensures (limit <= 0 || old(inflight) < limit) && weights == [] ==>
                r == Err(MISSING_KEY) && r.error.status == 401 && tried == []
      ensures (limit <= 0 || old(inflight) < limit) && weights != [] ==>
                && tried != []
                && Tries(OrderOf(weights, Indices(|weights|), draws), world, tried)
                && r == Settled(describe, world(tried[|tried| - 1]))
    {
      tried := [];
      var ok := AcquireInflight();
      if !ok {
        return Err(Busy(limit)), tried;
      }
      var releaseOnReturn := true;
      if weights == [] {
        r := Err(MISSING_KEY);
      } else {
        var order := Order(weights, draws);
        r, tried := TryMembers(describe, order, world);
        if r.Ok? {
          releaseOnReturn := false;
        }
      }
      if releaseOnReturn {
        ReleaseInflight();
      }
    }

    /** Sends the chunks one by one until a send fails. */
    static method Emit(out: seq<Item>, chunks: seq<OutChunk>, room: Room) returns (emitted: seq<Item>, ok: bool)
      requires Fits(|out|, room)
      ensures emitted == Cut(out + Payloads(chunks), room)
      ensures ok == Fits(|out| + |chunks|, room)
    {
      emitted := out;
      for k := 0 to |chunks|
        invariant emitted == out + Payloads(chunks)[..k] && Fits(|emitted|, room)
      {
        if room == Some(|emitted|) {
          return emitted, false;
        }
        emitted := emitted + [Sent(chunks[k])];
      }
      ok := true;
    }

    static method EmitErr(out: seq<Item>, error: Error, room: Room) returns (emitted: seq<Item>)
      requires Fits(|out|, room)
      ensures emitted == Cut(out + [Failed(error)], room)
    {
      emitted := out;
      if room != Some(|emitted|) {
        emitted := emitted + [Failed(error)];
      }
    }

    /** Feeds every line that a newline closes in `pending`; stops after an error event or a failed send. `seen` holds the
        events fed before, and `out` what was sent for them. */
    method Process(w: Wire, state: CCStreamState, pending: Bytes, ghost seen: seq<Event>, out: seq<Item>, room: Room)
      returns (rest: Bytes, emitted: seq<Item>, ok: bool)
      requires state.View() == StreamFold(w, seen).0 && state.upstreamError == None
      requires out == Payloads(StreamFold(w, seen).1) && Fits(|out|, room)
      modifies state
      ensures rest == Tail(pending)
      ensures Fed(w, state.View(), seen + Events(w, Complete(pending)), emitted, ok, room)
    {
      var lines := Split(pending);
      ghost var complete := Complete(pending);
      rest := lines[|lines| - 1];
      emitted := out;
      ghost var fed := seen;
      NoneFed(w, seen, complete);
      var k := 0;
      while k < |lines| - 1
        invariant 0 <= k <= |lines| - 1
        invariant fed == seen + Events(w, complete[..k])
        invariant state.View() == StreamFold(w, fed).0
        invariant emitted == Payloads(StreamFold(w, fed).1) && Fits(|emitted|, room)
        invariant state.upstreamError == None
      {
        emitted, ok := FeedLine(w, state, lines[k], fed, emitted, room);
        LineFed(w, seen, complete, k);
        fed := fed + LineEvents(w, lines[k]);
        k := k + 1;
        if !ok {
          StoppedAt(w, state.View(), seen, complete, k, emitted, room);
          return;
        }
        GoesOn(w, state.View(), fed, emitted, room);
      }
      assert complete[..k] == complete;
      ok := true;
      FedAll(w, state.View(), fed, emitted, room);
    }

    /** One line: its chunks, and the error after an error event. */
    method FeedLine(w: Wire, state: CCStreamState, line: Bytes, ghost fed: seq<Event>, out: seq<Item>, room: Room)
      returns (emitted: seq<Item>, ok: bool)
      requires state.View() == StreamFold(w, fed).0 && state.upstreamError == None
      requires out == Payloads(StreamFold(w, fed).1) && Fits(|out|, room)
      modifies state
      ensures state.View() == StreamFold(w, fed + LineEvents(w, line)).0
      ensures Fed(w, state.View(), fed + LineEvents(w, line), emitted, ok, room)
    {
      var chunks := state.ParseLine(w, line);
      StreamFoldLine(w, fed, line);
      PayloadsAppend(StreamFold(w, fed).1, chunks);
      emitted, ok := Emit(out, chunks, room);
      if !ok {
        CutPrefix(out + Payloads(chunks), ItemsFor(w, fed + LineEvents(w, line)), room);
        return;
      }
      if state.upstreamError.Some? {
        emitted := EmitErr(emitted, FromUpstream(state.upstreamError.value), room);
        ok := false;
      }
    }

    /** The goroutine behind a streamed response: its output is everything sent before the channel closes. */
    method StreamLoop(w: Wire, signals: seq<Signal>, room: Room) returns (out: seq<Item>)
      modifies this
      ensures out == Cut(StreamItems(w, Received(signals), EndingOf(signals), old(timeouts)), room)
      ensures timeouts == CutTimeouts(w, Received(signals), EndingOf(signals), old(timeouts), room)
      ensures inflight == if limit > 0 then old(inflight) - 1 else old(inflight)
    {
      out := Receive(w, signals, room);
      ReleaseInflight();
    }

    method Receive(w: Wire, signals: seq<Signal>, room: Room) returns (out: seq<Item>)
      modifies `timeouts
      ensures out == Cut(StreamItems(w, Received(signals), EndingOf(signals), old(timeouts)), room)
      ensures timeouts == CutTimeouts(w, Received(signals), EndingOf(signals), old(timeouts), room)
    {
      var state := new CCStreamState();
      var pending: Bytes := [];
      out := [];
      ghost var got: Bytes := [];
      NothingReceived(w);
      var i := 0;
      while i < |signals|
        invariant 0 <= i <= |signals|
        invariant fresh(state) && state.upstreamError == None
        invariant pending == Tail(got)
        invariant state.View() == StreamFold(w, Events(w, Complete(got))).0
        invariant out == Payloads(StreamFold(w, Events(w, Complete(got))).1) && Fits(|out|, room)
        invariant Observed(signals, i, got)
        invariant timeouts == old(timeouts)
      {
        ObservedStep(signals, i, got);
        match signals[i] {
          case Chunk(payload) =>
            var ok;
            pending, out, ok := TakeChunk(w, state, pending, payload, got, out, room);
            got := got + payload;
            if !ok {
              StoppedEarly(w, got, Received(signals[i + 1..]), EndingOf(signals), timeouts, room);
              return;
            }
          case signal =>
            out := Stop(w, signal, got, out, room);
            return;
        }
        i := i + 1;
      }
      ObservedAll(signals, got);
      out := Close(w, state, pending, got, out, room);
    }

    /** The input broke off, stalled, or was cancelled. */
    method Stop(w: Wire, signal: Signal, ghost got: Bytes, out: seq<Item>, room: Room) returns (emitted: seq<Item>)
      requires !signal.Chunk? && StreamFold(w, Events(w, Complete(got))).0.upstreamError == None
      requires out == Payloads(StreamFold(w, Events(w, Complete(got))).1) && Fits(|out|, room)
      modifies `timeouts
      ensures emitted == Cut(StreamItems(w, got, Stopped(signal), old(timeouts)), room)
      ensures timeouts == CutTimeouts(w, got, Stopped(signal), old(timeouts), room)
    {
      emitted := out;
      StoppedRun(w, got, signal, timeouts);
      assert out + [] == out;
      match signal {
        case Idle =>
          var error := NextTimeout();
          emitted := EmitErr(out, error, room);
        case Broken(msg) =>
          emitted := EmitErr(out, TransportError(msg), room);
        case _ =>
      }
    }

    /** One data chunk: append to `pending`, and process it when the chunk brought a newline or `pending` grew large. */
    method TakeChunk(
        w: Wire, state: CCStreamState, before: Bytes, payload: Bytes, ghost got: Bytes, out: seq<Item>, room: Room)
      returns (pending: Bytes, emitted: seq<Item>, ok: bool)
      requires before == Tail(got) && state.upstreamError == None
      requires state.View() == StreamFold(w, Events(w, Complete(got))).0
      requires out == Payloads(StreamFold(w, Events(w, Complete(got))).1) && Fits(|out|, room)
      modifies state
      ensures pending == Tail(got + payload)
      ensures Fed(w, state.View(), Events(w, Complete(got + payload)), emitted, ok, room)
    {
      ghost var seen, all := Events(w, Complete(got)), Events(w, Complete(got + payload));
      Resumed(w, got, payload);
      pending, emitted, ok := before + payload, out, true;
      if NEWLINE in payload {
        pending, emitted, ok := Process(w, state, pending, seen, out, room);
      } else {
        NothingToCut(w, got, payload);
      }
      if ok && |pending| > MAX_PENDING {
        NothingToCut(w, got + payload, []);
        pending, emitted, ok := Process(w, state, pending, all, emitted, room);
      }
    }

    /** The upstream closed its channel: what is left over counts as a line. */
    method Close(w: Wire, state: CCStreamState, pending: Bytes, ghost got: Bytes, out: seq<Item>, room: Room)
      returns (emitted: seq<Item>)
      requires pending == Tail(got) && state.upstreamError == None
      requires state.View() == StreamFold(w, Events(w, Complete(got))).0
      requires out == Payloads(StreamFold(w, Events(w, Complete(got))).1) && Fits(|out|, room)
      modifies state, `timeouts
      ensures emitted == Cut(StreamItems(w, got, Closed, old(timeouts)), room)
      ensures timeouts == CutTimeouts(w, got, Closed, old(timeouts), room)
    {
      StreamFoldLine(w, Events(w, Complete(got)), pending);
      ClosedRun(w, got);
      var last := state.ParseLine(w, pending);
      PayloadsAppend(StreamFold(w, Events(w, Complete(got))).1, last);
      var ok;
      emitted, ok := Emit(out, last, room);
      if !ok {
        CutPrefix(out + Payloads(last), StreamItems(w, got, Closed, timeouts), room);
        return;
      }
      var verdict := Finish(state);
      match verdict {
        case Some(error) =>
          emitted := EmitErr(emitted, error, room);
        case None =>
          timeouts := 0;
      }
    }

    /** What there is to report once the input has closed. */
    static method Finish(state: CCStreamState) returns (verdict: Option<Error>)
      ensures verdict == StreamVerdict(state.View())
    {
      if state.upstreamError.Some? {
        return Some(FromUpstream(state.upstreamError.value));
      }
      var detail := IncompleteDetail(state.sawFinish, state.finishReason);
      if detail != "" {
        return Some(Truncated(detail));
      }
      if state.outputTokens == 0 {
        return Some(EMPTY_RESPONSE);
      }
      return None;
    }

    /** Why a buffered request ends without having read everything. */
    method Interrupted(signal: Signal) returns (error: Error)
      requires !signal.Chunk?
      modifies `timeouts
      ensures forall w, got :: CollectResult(w, got, Stopped(signal), old(timeouts)) == Err(error)
      ensures timeouts == if signal == Idle then old(timeouts) + 1 else old(timeouts)
    {
      match signal {
        case Idle =>
          error := NextTimeout();
        case Broken(msg) =>
          error := TransportError(msg);
        case _ =>
          error := ContextDone;
      }
    }

    /** Reads the whole stream before answering. */
    method CollectNonStream(w: Wire, signals: seq<Signal>) returns (r: Result<Completion, Error>)
      modifies `timeouts
      ensures r == CollectResult(w, Received(signals), EndingOf(signals), old(timeouts))
      ensures timeouts == if EndingOf(signals) == Stopped(Idle) then old(timeouts) + 1 else old(timeouts)
    {
      var acc := new CCAccumulator();
      var pending: Bytes := [];
      ghost var got: Bytes := [];
      NothingReceived(w);
      var i := 0;
      while i < |signals|
        invariant 0 <= i <= |signals|
        invariant fresh(acc)
        invariant pending == Tail(got)
        invariant acc.View() == AccFold(w, Events(w, Complete(got)))
        invariant Observed(signals, i, got)
        invariant timeouts == old(timeouts)
      {
        ObservedStep(signals, i, got);
        match signals[i] {
          case Chunk(payload) =>
            pending := TakeBytes(w, acc, pending, payload, got);
            got := got + payload;
          case signal =>
            var error := Interrupted(signal);
            return Err(error);
        }
        i := i + 1;
      }
      ObservedAll(signals, got);
      NothingToCut(w, got, []);
      pending := FeedLines(w, acc, pending, Events(w, Complete(got)));
      r := FinishNonStream(acc);
    }

    /** One data chunk: append to `pending`, and process it when the chunk brought a newline. */
    method TakeBytes(w: Wire, acc: CCAccumulator, before: Bytes, payload: Bytes, ghost got: Bytes) returns (pending: Bytes)
      requires before == Tail(got) && acc.View() == AccFold(w, Events(w, Complete(got)))
      modifies acc
      ensures pending == Tail(got + payload) && acc.View() == AccFold(w, Events(w, Complete(got + payload)))
    {
      Resumed(w, got, payload);
      pending := before + payload;
      if NEWLINE in payload {
        pending := FeedLines(w, acc, pending, Events(w, Complete(got)));
      } else {
        NothingToCut(w, got, payload);
      }
    }

    method FeedLines(w: Wire, acc: CCAccumulator, pending: Bytes, ghost seen: seq<Event>) returns (rest: Bytes)
      requires acc.View() == AccFold(w, seen)
      modifies acc
      ensures rest == Tail(pending) && acc.View() == AccFold(w, seen + Events(w, Complete(pending)))
    {
      var lines := Split(pending);
      rest := lines[|lines| - 1];
      var k := 0;
      assert Complete(pending)[..0] == [];
      assert seen + [] == seen;
      while k < |lines| - 1
        invariant 0 <= k <= |lines| - 1
        invariant acc.View() == AccFold(w, seen + Events(w, Complete(pending)[..k]))
      {
        acc.Feed(w, lines[k]);
        AccFoldLine(w, seen + Events(w, Complete(pending)[..k]), lines[k]);
        LineFed(w, seen, Complete(pending), k);
        k := k + 1;
      }
      assert Complete(pending)[..k] == Complete(pending);
    }

    method FinishNonStream(acc: CCAccumulator) returns (r: Result<Completion, Error>)
      modifies acc
      ensures r == match old(AccVerdict(acc.View())) case Some(error) => Err(error) case None => Ok(old(Build(acc.View())))
    {
      if acc.upstreamError.Some? {
        return Err(FromUpstream(acc.upstreamError.value));
      }
      var detail := IncompleteDetail(acc.sawFinish, acc.finishReason);
      if detail != "" {
        return Err(Truncated(detail));
      }
      var tokens := acc.OutputTokens();
      if tokens == 0 {
        return Err(EMPTY_RESPONSE);
      }
      var completion := acc.BuildCompletion();
      return Ok(completion);
    }
  }

  // ---- Steps of the loops, on values ----

  lemma NothingReceived(w: Wire)
    ensures Complete([]) == [] && Tail([]) == []
    ensures Events(w, Complete([])) == []
  {
  }

  lemma NoneFed(w: Wire, seen: seq<Event>, lines: seq<Bytes>)
    ensures seen == seen + Events(w, lines[..0])
  {
  }

  /** Feeding line `k` extends the events fed so far by what that line decodes to. */
  lemma LineFed(w: Wire, seen: seq<Event>, lines: seq<Bytes>, k: nat)
    requires k < |lines|
    ensures seen + Events(w, lines[..k]) + LineEvents(w, lines[k]) == seen + Events(w, lines[..k + 1])
  {
    EventsStep(w, lines, k);
    Regroup(seen, Events(w, lines[..k]), LineEvents(w, lines[k]));
  }

  /** `parseLine` moves the emitter from the meaning of `fed` to the meaning of `fed` and one more line. */
  lemma StreamFoldLine(w: Wire, fed: seq<Event>, line: Bytes)
    requires StreamFold(w, fed).0.upstreamError == None
    ensures var (s, out) := StreamFold(w, fed);
            match w.parse(line)
            case None => StreamFold(w, fed + LineEvents(w, line)) == (s, out + [])
            case Some(e) =>
              StreamFold(w, fed + LineEvents(w, line)) == (StreamStep(w, s, e).0, out + StreamStep(w, s, e).1)
  {
    match w.parse(line) {
      case None =>
        assert fed + [] == fed;
        assert StreamFold(w, fed).1 + [] == StreamFold(w, fed).1;
      case Some(e) =>
        StreamFoldStep(w, fed, e);
    }
  }

  lemma PayloadsAppend(out: seq<OutChunk>, more: seq<OutChunk>)
    ensures Payloads(out) + Payloads(more) == Payloads(out + more)
  {
  }

  /** When the input has closed, what is left over has been read like a line. */
  lemma ClosedRun(w: Wire, b: Bytes)
    requires StreamFold(w, Events(w, Complete(b))).0.upstreamError == None
    ensures StreamRun(w, b, Closed) == StreamFold(w, Events(w, Complete(b)) + LineEvents(w, Tail(b)))
  {
  }

  /** A run that stops early reports why, after what it has sent. */
  lemma StoppedRun(w: Wire, b: Bytes, signal: Signal, timeouts: nat)
    requires StreamFold(w, Events(w, Complete(b))).0.upstreamError == None
    ensures StreamItems(w, b, Stopped(signal), timeouts) ==
            Payloads(StreamFold(w, Events(w, Complete(b))).1) +
            match signal
            case Broken(msg) => [Failed(TransportError(msg))]
            case Idle => [Failed(TimeoutError(timeouts + 1))]
            case _ => []
    ensures StreamRun(w, b, Stopped(signal)) == StreamFold(w, Events(w, Complete(b)))
    ensures StreamTimeouts(w, b, Stopped(signal), timeouts) == if signal == Idle then timeouts + 1 else timeouts
  {
  }

  lemma AccFoldLine(w: Wire, fed: seq<Event>, line: Bytes)
    ensures match w.parse(line)
            case None => AccFold(w, fed + LineEvents(w, line)) == AccFold(w, fed)
            case Some(e) => AccFold(w, fed + LineEvents(w, line)) == AccStep(w, AccFold(w, fed), e)
  {
    match w.parse(line) {
      case None => assert fed + [] == fed;
      case Some(e) => AccFoldStep(w, fed, e);
    }
  }

  /** Where a feeding ends: everything that gets through has been sent for the events, and the loop goes on exactly when
      no error event came and all sends went through. */
  ghost predicate Fed(w: Wire, view: StreamView, es: seq<Event>, emitted: seq<Item>, ok: bool, room: Room) {
    var (s, out) := StreamFold(w, es);
    && emitted == Cut(ItemsFor(w, es), room)
    && ok == (s.upstreamError == None && Fits(|out|, room))
    && (ok ==> view == s)
  }

  /** The loop does not outlive these events: an error came, or a send failed. */
  ghost predicate Ends(w: Wire, es: seq<Event>, room: Room) {
    StreamFold(w, es).0.upstreamError.Some? || !Fits(|StreamFold(w, es).1|, room)
  }

  /** A feeding that has stopped sends nothing for later events. */
  lemma StopsForGood(w: Wire, es: seq<Event>, more: seq<Event>, room: Room)
    requires Ends(w, es, room)
    ensures Cut(ItemsFor(w, es + more), room) == Cut(ItemsFor(w, es), room) && Ends(w, es + more, room)
  {
    if StreamFold(w, es).0.upstreamError.Some? {
      StreamFoldStops(w, es, more);
    } else {
      FoldGrows(w, es, more);
      CutByPayloads(w, es, Payloads(StreamFold(w, es).1), room);
      PayloadsPrefix(StreamFold(w, es).1, StreamFold(w, es + more).1);
      CutByPayloads(w, es + more, Payloads(StreamFold(w, es).1), room);
    }
  }

  lemma CutByPayloads(w: Wire, es: seq<Event>, sent: seq<Item>, room: Room)
    requires sent <= Payloads(StreamFold(w, es).1) && !Fits(|sent|, room)
    ensures Cut(ItemsFor(w, es), room) == Cut(sent, room)
  {
    CutPrefix(sent, ItemsFor(w, es), room);
  }

  lemma EventsSplit(w: Wire, seen: seq<Event>, lines: seq<Bytes>, k: nat)
    requires k <= |lines|
    ensures seen + Events(w, lines) == seen + Events(w, lines[..k]) + Events(w, lines[k..])
  {
    EventsAppend(w, lines[..k], lines[k..]);
    assert lines == lines[..k] + lines[k..];
    Regroup(seen, Events(w, lines[..k]), Events(w, lines[k..]));
  }

  lemma FedAll(w: Wire, view: StreamView, es: seq<Event>, emitted: seq<Item>, room: Room)
    requires view == StreamFold(w, es).0 && view.upstreamError == None
    requires emitted == Payloads(StreamFold(w, es).1) && Fits(|emitted|, room)
    ensures Fed(w, view, es, emitted, true, room)
  {
    assert emitted + [] == emitted;
  }

  lemma GoesOn(w: Wire, view: StreamView, es: seq<Event>, emitted: seq<Item>, room: Room)
    requires Fed(w, view, es, emitted, true, room)
    ensures view == StreamFold(w, es).0 && view.upstreamError == None
    ensures emitted == Payloads(StreamFold(w, es).1) && Fits(|emitted|, room)
  {
  }

  lemma StoppedAt(
      w: Wire, view: StreamView, seen: seq<Event>, lines: seq<Bytes>, k: nat, emitted: seq<Item>, room: Room)
    requires k <= |lines| && Fed(w, view, seen + Events(w, lines[..k]), emitted, false, room)
    ensures Fed(w, view, seen + Events(w, lines), emitted, false, room)
  {
    RestIgnored(w, seen, lines, k, room);
  }

  lemma RestIgnored(w: Wire, seen: seq<Event>, lines: seq<Bytes>, k: nat, room: Room)
    requires k <= |lines| && Ends(w, seen + Events(w, lines[..k]), room)
    ensures Cut(ItemsFor(w, seen + Events(w, lines)), room) == Cut(ItemsFor(w, seen + Events(w, lines[..k])), room)
    ensures Ends(w, seen + Events(w, lines), room)
  {
    EventsSplit(w, seen, lines, k);
    StopsForGood(w, seen + Events(w, lines[..k]), Events(w, lines[k..]), room);
  }

  /** New bytes are read as a continuation of the bytes left over. */
  lemma Resumed(w: Wire, got: Bytes, payload: Bytes)
    ensures Tail(got + payload) == Tail(Tail(got) + payload)
    ensures Events(w, Complete(got + payload)) == Events(w, Complete(got)) + Events(w, Complete(Tail(got) + payload))
  {
    SplitResumes(got, payload);
    EventsAppend(w, Complete(got), Complete(Tail(got) + payload));
  }

  /** Bytes without a newline only make the left-over bytes longer. */
  lemma NothingToCut(w: Wire, got: Bytes, payload: Bytes)
    requires NEWLINE !in payload
    ensures Tail(Tail(got) + payload) == Tail(got) + payload
    ensures Events(w, Complete(got)) + Events(w, Complete(Tail(got) + payload)) == Events(w, Complete(got))
    ensures payload == [] ==> Tail(got) + payload == Tail(got)
  {
    SplitRoundTrip(got);
    NoNewlineNoSplit(Tail(got) + payload);
  }

  /** After `i` signals, all data and still running, `got` has arrived. */
  ghost predicate Observed(signals: seq<Signal>, i: nat, got: Bytes) {
    i <= |signals| && Received(signals) == got + Received(signals[i..]) && EndingOf(signals) == EndingOf(signals[i..])
  }

  lemma ObservedStep(signals: seq<Signal>, i: nat, got: Bytes)
    requires i < |signals| && Observed(signals, i, got)
    ensures signals[i].Chunk? ==> Observed(signals, i + 1, got + signals[i].payload)
    ensures !signals[i].Chunk? ==> Received(signals) == got && EndingOf(signals) == Stopped(signals[i])
  {
    assert signals[i..][1..] == signals[i + 1..];
    if signals[i].Chunk? {
      Regroup(got, signals[i].payload, Received(signals[i + 1..]));
    }
  }

  lemma ObservedAll(signals: seq<Signal>, got: Bytes)
    requires Observed(signals, |signals|, got)
    ensures Received(signals) == got && EndingOf(signals) == Closed
  {
  }

  /** Whatever arrives after the loop has stopped changes nothing. */
  lemma StoppedEarly(w: Wire, got: Bytes, later: Bytes, ending: Ending, timeouts: nat, room: Room)
    requires Ends(w, Events(w, Complete(got)), room)
    ensures Cut(StreamItems(w, got + later, ending, timeouts), room) == Cut(ItemsFor(w, Events(w, Complete(got))), room)
    ensures CutTimeouts(w, got + later, ending, timeouts, room) == timeouts
  {
    var es := Events(w, Complete(got));
    Resumed(w, got, later);
    if StreamFold(w, es).0.upstreamError.Some? {
      StreamFoldStops(w, es, Events(w, Complete(Tail(got) + later)));
    } else {
      RunGrows(w, got, later, ending);
      PayloadsPrefix(StreamFold(w, es).1, StreamRun(w, got + later, ending).1);
      CutPrefix(Payloads(StreamFold(w, es).1), StreamItems(w, got + later, ending, timeouts), room);
      CutByPayloads(w, es, Payloads(StreamFold(w, es).1), room);
    }
  }

  lemma RunGrows(w: Wire, got: Bytes, later: Bytes, ending: Ending)
    ensures StreamFold(w, Events(w, Complete(got))).1 <= StreamRun(w, got + later, ending).1
  {
    var es := Events(w, Complete(got));
    Resumed(w, got, later);
    FoldGrows(w, es, Events(w, Complete(Tail(got) + later)));
    FoldGrows(w, Events(w, Complete(got + later)), LineEvents(w, Tail(got + later)));
  }
}
