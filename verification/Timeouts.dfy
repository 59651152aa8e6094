/** Timeouts over the life of an executor: requests run one after the other, and each may raise or reset the counter. */
module Timeouts {
  import opened Text
  import opened Lines
  import opened Protocol
  import opened StreamModel

  /** One request's receive loop: its bytes, how its input ended, and, when streamed, how many sends go through. */
  datatype Run =
    | Streamed(bytes: Bytes, ending: Ending, room: Room)
    | Buffered(bytes: Bytes, ending: Ending)

  /** The counter after one more run. */
  function Counted(w: Wire, run: Run, timeouts: nat): nat {
    match run
    case Streamed(b, ending, room) => CutTimeouts(w, b, ending, timeouts, room)
    case Buffered(b, ending) => CollectTimeouts(CollectResult(w, b, ending, timeouts).Ok?, ending, timeouts)
  }

  function CountAfter(w: Wire, runs: seq<Run>): nat {
    if runs == [] then 0 else Counted(w, runs[|runs| - 1], CountAfter(w, runs[..|runs| - 1]))
  }

  /** The error with which a run ends, before any failed send. */
  function ErrorAfter(w: Wire, run: Run, timeouts: nat): Option<Error> {
    match run
    case Streamed(b, ending, _) => StreamError(w, b, ending, timeouts)
    case Buffered(b, ending) =>
      match CollectResult(w, b, ending, timeouts) case Err(error) => Some(error) case Ok(_) => None
  }

  /** The run gives up on an idle upstream. A streamed one must have got that far: no error event, no failed send. */
  predicate TimesOut(w: Wire, run: Run) {
    && run.ending == Stopped(Idle)
    && (run.Streamed? ==>
          && StreamFold(w, Events(w, Complete(run.bytes))).0.upstreamError == None
          && Fits(|StreamFold(w, Events(w, Complete(run.bytes))).1|, run.room))
  }

  /** The run answers completely. */
  predicate Succeeds(w: Wire, run: Run) {
    && run.ending == Closed
    && match run
       case Streamed(b, _, room) =>
         StreamVerdict(StreamRun(w, b, Closed).0) == None && Fits(|StreamRun(w, b, Closed).1|, room)
       case Buffered(b, _) => AccVerdict(AccFold(w, Events(w, Complete(b)))) == None
  }

  datatype Effect = Success | Timeout | NoEffect

  function EffectOf(w: Wire, run: Run): Effect {
    if Succeeds(w, run) then Success else if TimesOut(w, run) then Timeout else NoEffect
  }

  function Apply(effect: Effect, timeouts: nat): nat {
    match effect
    case Success => 0
    case Timeout => timeouts + 1
    case NoEffect => timeouts
  }

  lemma CountedReads(w: Wire, run: Run, timeouts: nat)
    ensures Counted(w, run, timeouts) == Apply(EffectOf(w, run), timeouts)
    ensures TimesOut(w, run) <==> EffectOf(w, run) == Timeout
    ensures TimesOut(w, run) ==> ErrorAfter(w, run, timeouts) == Some(TimeoutError(timeouts + 1))
  {
  }

  function Effects(w: Wire, runs: seq<Run>): (effects: seq<Effect>)
    ensures |effects| == |runs| && forall k :: 0 <= k < |runs| ==> effects[k] == EffectOf(w, runs[k])
  {
    seq(|runs|, k requires 0 <= k < |runs| => EffectOf(w, runs[k]))
  }

  function Streak(effects: seq<Effect>): nat {
    if effects == [] then 0 else Apply(effects[|effects| - 1], Streak(effects[..|effects| - 1]))
  }

  lemma {:induction false} CountIsStreak(w: Wire, runs: seq<Run>)
    ensures CountAfter(w, runs) == Streak(Effects(w, runs))
  {
    if runs != [] {
      var n := |runs| - 1;
      CountIsStreak(w, runs[..n]);
      CountedReads(w, runs[n], CountAfter(w, runs[..n]));
      assert Effects(w, runs)[..n] == Effects(w, runs[..n]);
    }
  }

  /** A timeout at position `a` with no success since. */
  ghost predicate Stands(effects: seq<Effect>, a: nat) {
    a < |effects| && effects[a] == Timeout && forall k :: a < k < |effects| ==> effects[k] != Success
  }

  ghost predicate Standing(effects: seq<Effect>) {
    exists a :: Stands(effects, a)
  }

  /** Two timeouts, with no success since the first. */
  ghost predicate TwoStanding(effects: seq<Effect>) {
    exists a, b :: Stands(effects, a) && Stands(effects, b) && a < b
  }

  lemma StandsStep(effects: seq<Effect>, last: Effect, a: nat)
    ensures Stands(effects + [last], a) <==>
            if a == |effects| then last == Timeout else Stands(effects, a) && last != Success
  {
    var all := effects + [last];
    assert forall k :: 0 <= k < |effects| ==> all[k] == effects[k];
    assert all[|effects|] == last;
  }

  lemma TwoStandingStep(effects: seq<Effect>, last: Effect)
    ensures Standing(effects + [last]) <==> last == Timeout || (last == NoEffect && Standing(effects))
    ensures TwoStanding(effects + [last]) <==>
            (last == Timeout && Standing(effects)) || (last == NoEffect && TwoStanding(effects))
  {
    forall a: nat
      ensures Stands(effects + [last], a) <==>
              if a == |effects| then last == Timeout else Stands(effects, a) && last != Success
    {
      StandsStep(effects, last, a);
    }
    if last == Timeout {
      assert Stands(effects + [last], |effects|);
      if a :| Stands(effects, a) {
        assert Stands(effects + [last], a);
      }
    }
  }

  lemma {:induction false} StreakMeans(effects: seq<Effect>)
    ensures Streak(effects) >= 1 <==> Standing(effects)
    ensures Streak(effects) >= 2 <==> TwoStanding(effects)
  {
    if effects != [] {
      var front, last := effects[..|effects| - 1], effects[|effects| - 1];
      Snoc(effects);
      StreakMeans(front);
      TwoStandingStep(front, last);
    }
  }

  const HINT := "Response timeout - try reducing context length (summarize earlier messages)"

  lemma WordedByCount(count: nat)
    ensures TimeoutError(count) == StatusError(429, HINT, 5) <==> count >= 3
  {
    assert |TimeoutError(1).msg| < |HINT|;
  }

  /** Main result: after any runs, a run that times out advises to shorten the context if and only if two runs before it
      timed out with no success since the first of them. Other failures neither count nor reset. */
  lemma HintFromThirdTimeout(w: Wire, runs: seq<Run>, run: Run)
    requires TimesOut(w, run)
    ensures ErrorAfter(w, run, CountAfter(w, runs)) == Some(StatusError(429, HINT, 5)) <==> TwoStanding(Effects(w, runs))
  {
    CountIsStreak(w, runs);
    CountedReads(w, run, CountAfter(w, runs));
    WordedByCount(CountAfter(w, runs) + 1);
    StreakMeans(Effects(w, runs));
  }
}
