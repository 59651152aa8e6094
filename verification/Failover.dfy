/** Trying the pool's members one after the other until one answers. */
module Failover {
  import opened Text
  import opened Lines
  import opened Protocol
  import opened StreamModel
  import opened Pool

  /** A piece of an error response. The payload counts even when the piece reports a read error. */
  datatype Frame = Frame(payload: Bytes, failed: bool) | ReadCancelled

  /** How one member fares. `live` says whether the request's context was still live afterwards. */
  datatype Attempt =
    | NoClient(error: Error)
    | SendFailed(error: Error, live: bool)
    | Refused(status: int, frames: seq<Frame>, live: bool)
    | Accepted(status: int, signals: seq<Signal>)

  predicate Success(status: int) {
    200 <= status < 300
  }

  predicate WellFormed(a: Attempt) {
    (a.Refused? ==> !Success(a.status)) && (a.Accepted? ==> Success(a.status))
  }

  predicate Retryable(status: int) {
    status == 401 || status == 429 || 500 <= status <= 599
  }

  predicate Retried(a: Attempt) {
    match a
    case NoClient(_) => true
    case SendFailed(_, live) => live
    case Refused(status, _, live) => Retryable(status) && live
    case Accepted(_, _) => false
  }

  const MAX_ERROR_BODY := 1024 * 1024

  /** All bytes of an error response, up to and including the piece that reports an error. */
  function ErrorBytes(frames: seq<Frame>): Bytes {
    if frames == [] || frames[0].ReadCancelled? then []
    else frames[0].payload + if frames[0].failed then [] else ErrorBytes(frames[1..])
  }

  function Capped(body: Bytes): Bytes {
    if |body| > MAX_ERROR_BODY then body[..MAX_ERROR_BODY] else body
  }

  lemma CappedBody(body: Bytes, rest: Bytes)
    ensures |body| >= MAX_ERROR_BODY ==> Capped(body + rest) == body[..MAX_ERROR_BODY]
  {
  }

  lemma CappedCut(body: Bytes, payload: Bytes, later: Bytes)
    requires |body| < MAX_ERROR_BODY < |body| + |payload|
    ensures Capped(body + (payload + later)) == body + payload[..MAX_ERROR_BODY - |body|]
  {
  }

  lemma ErrorBytesStep(frames: seq<Frame>, i: nat, body: Bytes)
    requires i < |frames| && frames[i].Frame?
    ensures ErrorBytes(frames[i..]) == frames[i].payload + if frames[i].failed then [] else ErrorBytes(frames[i + 1..])
    ensures body + ErrorBytes(frames[i..]) ==
            (body + frames[i].payload) + if frames[i].failed then [] else ErrorBytes(frames[i + 1..])
  {
    assert frames[i..][1..] == frames[i + 1..];
  }

  /** `readStreamErrorBody`: at most 1 MiB, independent of how the response was cut into pieces. */
  method ReadStreamErrorBody(frames: seq<Frame>) returns (body: Bytes)
    ensures body == Capped(ErrorBytes(frames))
    ensures |ErrorBytes(frames)| <= 0x10_0000 ==> body == ErrorBytes(frames)
    ensures |ErrorBytes(frames)| > 0x10_0000 ==> body == ErrorBytes(frames)[..0x10_0000]
  {
    body := [];
    var i := 0;
    while |body| < MAX_ERROR_BODY
      invariant 0 <= i <= |frames| && |body| <= MAX_ERROR_BODY
      invariant body + ErrorBytes(frames[i..]) == ErrorBytes(frames)
      decreases |frames| - i
    {
      if i == |frames| || frames[i].ReadCancelled? {
        assert body + [] == body;
        return;
      }
      ErrorBytesStep(frames, i, body);
      var frame := frames[i];
      var room := MAX_ERROR_BODY - |body|;
      if |frame.payload| > room {
        CappedCut(body, frame.payload, if frame.failed then [] else ErrorBytes(frames[i + 1..]));
        body := body + frame.payload[..room];
        return;
      }
      body := body + frame.payload;
      if frame.failed {
        assert body + [] == body;
        return;
      }
      i := i + 1;
    }
    CappedBody(body, ErrorBytes(frames[i..]));
  }

  /** The error that a failed attempt leaves behind; `describe` reads a message out of an error response. */
  function ErrorOf(describe: (int, Bytes) -> string, a: Attempt): Error
    requires !a.Accepted?
  {
    match a
    case NoClient(error) => error
    case SendFailed(error, _) => error
    case Refused(status, frames, _) =>
      StatusError(MappedStatus(status), describe(status, Capped(ErrorBytes(frames))), if status == 429 then 30 else 0)
  }

  /** The members that a run tries: a prefix of the order that ends at the first attempt which is not retried. */
  ghost predicate Tries(order: seq<nat>, world: nat -> Attempt, tried: seq<nat>) {
    && tried <= order && (order != [] ==> tried != [])
    && (forall k :: 0 <= k < |tried| - 1 ==> Retried(world(tried[k])))
    && (0 < |tried| < |order| ==> !Retried(world(tried[|tried| - 1])))
  }

  /** What a run over a non-empty order comes to: its last attempt, accepted or not. */
  function Settled(describe: (int, Bytes) -> string, last: Attempt): Result<seq<Signal>, Error> {
    if last.Accepted? then Ok(last.signals) else Err(ErrorOf(describe, last))
  }

  const ALL_FAILED := StatusError(502, "commandcode executor: all pool members failed", 0)

  /** The retry loop. It stops at the first success and at the first failure that must not be retried; if every
      member fails retryably it reports the last failure. */
  method TryMembers(describe: (int, Bytes) -> string, order: seq<nat>, world: nat -> Attempt)
    returns (r: Result<seq<Signal>, Error>, tried: seq<nat>)
    requires forall i :: i in order ==> WellFormed(world(i))
    ensures Tries(order, world, tried)
    ensures order != [] ==> r == Settled(describe, world(tried[|tried| - 1]))
    ensures order == [] ==> r == Err(StatusError(502, "commandcode executor: all pool members failed", 0))
  {
    var lastErr := None;
    tried := [];
    for n := 0 to |order|
      invariant tried == order[..n]
      invariant forall k :: 0 <= k < n ==> Retried(world(order[k]))
      invariant n == 0 ==> lastErr == None
      invariant n > 0 ==> !world(order[n - 1]).Accepted? && lastErr == Some(ErrorOf(describe, world(order[n - 1])))
    {
      var attempt := world(order[n]);
      tried := tried + [order[n]];
      match attempt {
        case NoClient(error) =>
          lastErr := Some(error);
        case SendFailed(error, live) =>
          lastErr := Some(error);
          if !live {
            return Err(error), tried;
          }
        case Refused(status, frames, live) =>
          var body := ReadStreamErrorBody(frames);
          var error := StatusError(MappedStatus(status), describe(status, body), if status == 429 then 30 else 0);
          lastErr := Some(error);
          if !(Retryable(status) && live) {
            return Err(error), tried;
          }
        case Accepted(_, signals) =>
          return Ok(signals), tried;
      }
    }
    if lastErr.Some? {
      return Err(lastErr.value), tried;
    }
    return Err(ALL_FAILED), tried;
  }

  // ---- Whole runs ----

  /** The order and the members' behaviour leave no choice in which members are tried. */
  lemma TriesIsUnique(order: seq<nat>, world: nat -> Attempt, a: seq<nat>, b: seq<nat>)
    requires Tries(order, world, a) && Tries(order, world, b)
    ensures a == b
  {
    assert a == order[..|a|] && b == order[..|b|];
  }

  lemma {:induction false} DistinctCounts(s: seq<nat>, m: nat)
    requires Distinct(s)
    ensures multiset(s)[m] <= 1
  {
    if s != [] {
      assert s == [s[0]] + s[1..];
      DistinctCounts(s[1..], m);
      assert forall k :: 1 <= k < |s| ==> s[0] != s[k];
      assert s[0] !in s[1..];
    }
  }

  lemma NoRepeats(s: seq<nat>, t: seq<nat>)
    requires multiset(s) == multiset(t) && Distinct(t)
    ensures Distinct(s)
  {
    forall i, j | 0 <= i < j < |s|
      ensures s[i] != s[j]
    {
      DistinctCounts(t, s[i]);
      assert s == s[..i] + [s[i]] + s[i + 1..j] + [s[j]] + s[j + 1..];
    }
  }

  lemma ListsAll(order: seq<nat>, n: nat)
    requires multiset(order) == multiset(Indices(n))
    ensures Distinct(order) && forall i: nat :: i in order <==> i < n
  {
    var all := Indices(n);
    NoRepeats(order, all);
    forall i: nat
      ensures i in order <==> i < n
    {
      assert i in order <==> i in multiset(order);
      assert i in all <==> i in multiset(all);
      assert i < n ==> all[i] == i;
    }
  }

  /** No member is tried twice, every attempt but the last failed and was retried, so nothing is sent after a success;
      and if every attempt is retried, every member is tried. */
  lemma PoolRun(weights: seq<int>, draws: seq<nat>, world: nat -> Attempt, tried: seq<nat>)
    requires ValidDraws(weights, Indices(|weights|), draws)
    requires Tries(OrderOf(weights, Indices(|weights|), draws), world, tried)
    ensures Distinct(tried) && forall i :: i in tried ==> i < |weights|
    ensures forall k :: 0 <= k < |tried| - 1 ==> Retried(world(tried[k])) && !world(tried[k]).Accepted?
    ensures weights != [] ==> tried != []
    ensures (forall i :: 0 <= i < |weights| ==> Retried(world(i))) ==> forall i: nat :: i < |weights| ==> i in tried
  {
    var order := OrderOf(weights, Indices(|weights|), draws);
    OrderIsPermutation(weights, Indices(|weights|), draws);
    ListsAll(order, |weights|);
    assert tried == order[..|tried|];
    assert weights != [] ==> 0 in order;
    forall i | i in tried
      ensures i < |weights|
    {
      assert i in order;
    }
    if forall i :: 0 <= i < |weights| ==> Retried(world(i)) {
      assert forall k :: 0 <= k < |order| ==> order[k] in order;
      assert |tried| == |order|;
      assert order[..|order|] == order;
    }
  }

  /** An attempt is followed by another exactly when it came to no connection, or failed while the request was still wanted
      and not with a final status: final are all but 401, 429 and the five hundreds. */
  lemma RetriedIff(a: Attempt)
    ensures Retried(a) <==>
            || a.NoClient?
            || (a.SendFailed? && a.live)
            || (a.Refused? && a.live && (a.status in {401, 429} || a.status / 100 == 5))
    ensures WellFormed(a) && a.Refused? ==> a.status / 100 != 2
    ensures WellFormed(a) && a.Accepted? ==> a.status / 100 == 2
  {
  }

  /** A client that retries by the same rule on the status it is shown repeats every request the plugin would have
      repeated, and others too: only 400, 404 and 422 look final. */
  lemma MappedStatusRetries(status: int)
    ensures Retryable(MappedStatus(status)) <==> status !in {400, 404, 422}
    ensures Retryable(status) ==> Retryable(MappedStatus(status))
    ensures !Success(MappedStatus(status))
  {
  }
}
