/** Rendezvous choice: the candidate with the greatest digest represents the device. */
module Fingerprint {
  import opened Lines
  import Lexicographic

  function ByteRank(): byte -> int {
    (x: byte) => x as int
  }

  /** `bytes.Compare(a, b) < 0`. */
  predicate Less(a: Bytes, b: Bytes) {
    Lexicographic.Precedes(ByteRank(), a, b)
  }

  /** The two agree before position k, where `a` ends or is lower. */
  predicate LowerAt(a: Bytes, b: Bytes, k: nat) {
    k <= |a| && k < |b| && a[..k] == b[..k] && (k == |a| || a[k] < b[k])
  }

  /** The first byte that differs decides, and a proper prefix is less. */
  lemma LessMeans(a: Bytes, b: Bytes)
    ensures Less(a, b) <==> exists k :: LowerAt(a, b, k)
  {
    Lexicographic.PrecedesMeans(ByteRank(), a, b);
    forall k: nat
      ensures Lexicographic.DecidedAt(ByteRank(), a, b, k) <==> LowerAt(a, b, k)
    {
    }
  }

  lemma LessTotal(a: Bytes, b: Bytes)
    ensures (if Less(a, b) then 1 else 0) + (if Less(b, a) then 1 else 0) + (if a == b then 1 else 0) == 1
  {
    Lexicographic.Total(ByteRank(), a, b);
  }

  /** Position `at` holds the greatest digest, and the first such. */
  ghost predicate FirstGreatest(scores: seq<Bytes>, at: nat) {
    && at < |scores|
    && (forall k :: 0 <= k < |scores| ==> !Less(scores[at], scores[k]))
    && (forall k :: 0 <= k < at ==> Less(scores[k], scores[at]))
  }

  function Scores(digest: string -> Bytes, items: seq<string>): seq<Bytes> {
    seq(|items|, k requires 0 <= k < |items| => digest(items[k]))
  }

  /** `pick`: best so far over the candidates; position 0 of an empty list. */
  method Pick(digest: string -> Bytes, items: seq<string>) returns (bestIdx: nat)
    ensures items == [] ==> bestIdx == 0
    ensures items != [] ==> FirstGreatest(Scores(digest, items), bestIdx)
  {
    bestIdx := 0;
    var bestScore: Bytes := [];
    var any := false;
    for idx := 0 to |items|
      invariant any == (idx > 0) && (if any then bestIdx < idx else bestIdx == 0)
      invariant any ==> bestScore == digest(items[bestIdx])
      invariant any ==> FirstGreatest(Scores(digest, items[..idx]), bestIdx)
    {
      var score := digest(items[idx]);
      ghost var before, after := Scores(digest, items[..idx]), Scores(digest, items[..idx + 1]);
      assert after == before + [score];
      if any {
        OneMore(before, bestIdx, score);
      } else {
        LessTotal(score, score);
      }
      if !any || Less(bestScore, score) {
        bestScore, bestIdx, any := score, idx, true;
      }
    }
    assert items[..|items|] == items;
  }

  lemma OneMore(scores: seq<Bytes>, at: nat, score: Bytes)
    requires FirstGreatest(scores, at)
    ensures FirstGreatest(scores + [score], if Less(scores[at], score) then |scores| else at)
  {
    LessTotal(score, score);
    if Less(scores[at], score) {
      forall k | 0 <= k < |scores|
        ensures Less(scores[k], score) && !Less(score, scores[k])
      {
        LessTotal(scores[k], scores[at]);
        LessTotal(scores[k], score);
        Lexicographic.Transitive(ByteRank(), scores[k], scores[at], score);
      }
    }
  }

  /** The rule determines the choice. */
  lemma FirstGreatestUnique(scores: seq<Bytes>, i: nat, j: nat)
    requires FirstGreatest(scores, i) && FirstGreatest(scores, j)
    ensures i == j
  {
    assert !Less(scores[i], scores[j]) && !Less(scores[j], scores[i]);
  }

  /** Removing a candidate that was not chosen keeps the chosen one. */
  lemma RemovalKeepsChoice(scores: seq<Bytes>, at: nat, gone: nat, now: nat)
    requires FirstGreatest(scores, at) && gone < |scores| && gone != at
    requires FirstGreatest(scores[..gone] + scores[gone + 1..], now)
    ensures now == if gone < at then at - 1 else at
  {
    var rest := scores[..gone] + scores[gone + 1..];
    var moved := if gone < at then at - 1 else at;
    assert forall k :: 0 <= k < |rest| ==> rest[k] == scores[if k < gone then k else k + 1];
    assert FirstGreatest(rest, moved);
    FirstGreatestUnique(rest, moved, now);
  }

  /** A new candidate at the end changes the choice only to itself, and only by a strictly greater digest. */
  lemma AppendingChangesOnlyToNew(scores: seq<Bytes>, at: nat, score: Bytes, now: nat)
    requires FirstGreatest(scores, at) && FirstGreatest(scores + [score], now)
    ensures now == if Less(scores[at], score) then |scores| else at
  {
    OneMore(scores, at, score);
    FirstGreatestUnique(scores + [score], now, if Less(scores[at], score) then |scores| else at);
  }

  /** With distinct digests the chosen item does not depend on the order of the list, nor on repetitions. */
  lemma ChoiceIgnoresOrder(digest: string -> Bytes, a: seq<string>, b: seq<string>, i: nat, j: nat)
    requires forall x, y :: x in a && y in a && digest(x) == digest(y) ==> x == y
    requires forall x :: x in a <==> x in b
    requires FirstGreatest(Scores(digest, a), i) && FirstGreatest(Scores(digest, b), j)
    ensures a[i] == b[j]
  {
    assert a[i] in a && b[j] in b;
    var k :| 0 <= k < |a| && a[k] == b[j];
    var m :| 0 <= m < |b| && b[m] == a[i];
    assert !Less(Scores(digest, a)[i], Scores(digest, a)[k]);
    assert !Less(Scores(digest, b)[j], Scores(digest, b)[m]);
    LessTotal(digest(a[i]), digest(b[j]));
  }
}
