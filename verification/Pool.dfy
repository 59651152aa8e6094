/** The weighted order in which a request tries the pool's members. */
module Pool {

  function NormalizedWeight(weight: int): nat {
    if weight <= 0 then 1 else weight
  }

  /** `remaining` with its element `at` deleted. */
  function RemoveAt(remaining: seq<nat>, at: nat): seq<nat>
    requires at < |remaining|
  {
    remaining[..at] + remaining[at + 1..]
  }

  lemma RemoveAtMultiset(remaining: seq<nat>, at: nat)
    requires at < |remaining|
    ensures multiset(remaining) == multiset(RemoveAt(remaining, at)) + multiset{remaining[at]}
  {
    assert remaining == remaining[..at] + [remaining[at]] + remaining[at + 1..];
  }

  predicate InRange(weights: seq<int>, remaining: seq<nat>) {
    forall i :: 0 <= i < |remaining| ==> remaining[i] < |weights|
  }

  function Total(weights: seq<int>, remaining: seq<nat>): nat
    requires InRange(weights, remaining)
  {
    if remaining == [] then 0 else NormalizedWeight(weights[remaining[0]]) + Total(weights, remaining[1..])
  }

  /** The position that a draw selects: each member owns as many consecutive draws as it weighs. */
  function Select(weights: seq<int>, remaining: seq<nat>, draw: nat): (at: nat)
    requires InRange(weights, remaining) && draw < Total(weights, remaining)
    ensures at < |remaining|
  {
    var own := NormalizedWeight(weights[remaining[0]]);
    if draw < own then 0 else 1 + Select(weights, remaining[1..], draw - own)
  }

  /** One draw a round, each below that round's total, as `rnd.Intn(total)` gives them. */
  ghost predicate ValidDraws(weights: seq<int>, remaining: seq<nat>, draws: seq<nat>)
    requires InRange(weights, remaining)
    decreases |remaining|
  {
    if remaining == [] then draws == []
    else
      && draws != [] && draws[0] < Total(weights, remaining)
      && ValidDraws(weights, RemoveAt(remaining, Select(weights, remaining, draws[0])), draws[1..])
  }

  ghost function OrderOf(weights: seq<int>, remaining: seq<nat>, draws: seq<nat>): seq<nat>
    requires InRange(weights, remaining) && ValidDraws(weights, remaining, draws)
    decreases |remaining|
  {
    if remaining == [] then []
    else
      var at := Select(weights, remaining, draws[0]);
      [remaining[at]] + OrderOf(weights, RemoveAt(remaining, at), draws[1..])
  }

  function Indices(n: nat): seq<nat> {
    seq(n, i => i)
  }

  lemma SelectStep(weights: seq<int>, remaining: seq<nat>, i: nat, draw: nat)
    requires InRange(weights, remaining) && i < |remaining| && draw < Total(weights, remaining[i..])
    ensures remaining[i..][1..] == remaining[i + 1..]
    ensures draw >= NormalizedWeight(weights[remaining[i]]) ==>
              Select(weights, remaining[i..], draw) ==
              1 + Select(weights, remaining[i + 1..], draw - NormalizedWeight(weights[remaining[i]]))
  {
    assert remaining[i..][1..] == remaining[i + 1..];
  }

  /** The sum over the remaining members. */
  method SumWeights(weights: seq<int>, remaining: seq<nat>) returns (total: nat)
    requires InRange(weights, remaining)
    ensures total == Total(weights, remaining)
  {
    total := 0;
    for i := 0 to |remaining|
      invariant total + Total(weights, remaining[i..]) == Total(weights, remaining)
    {
      assert remaining[i..][1..] == remaining[i + 1..];
      total := total + NormalizedWeight(weights[remaining[i]]);
    }
  }

  /** Counting a draw down along the remaining members. */
  method PickAt(weights: seq<int>, remaining: seq<nat>, draw: nat) returns (at: nat)
    requires InRange(weights, remaining) && draw < Total(weights, remaining)
    ensures at == Select(weights, remaining, draw)
  {
    var pick: int := draw;
    at := 0;
    var i := 0;
    assert remaining[0..] == remaining;
    while i < |remaining|
      invariant 0 <= i < |remaining| && at == 0 && 0 <= pick < Total(weights, remaining[i..])
      invariant i + Select(weights, remaining[i..], pick) == Select(weights, remaining, draw)
    {
      SelectStep(weights, remaining, i, pick);
      pick := pick - NormalizedWeight(weights[remaining[i]]);
      if pick < 0 {
        at := i;
        break;
      }
      i := i + 1;
    }
  }

  lemma RoundStep(weights: seq<int>, remaining: seq<nat>, draws: seq<nat>, round: nat)
    requires InRange(weights, remaining) && remaining != []
    requires round <= |draws| && ValidDraws(weights, remaining, draws[round..])
    ensures round < |draws| && draws[round] < Total(weights, remaining)
    ensures var at := Select(weights, remaining, draws[round]);
            && InRange(weights, RemoveAt(remaining, at)) && ValidDraws(weights, RemoveAt(remaining, at), draws[round + 1..])
            && OrderOf(weights, remaining, draws[round..]) ==
               [remaining[at]] + OrderOf(weights, RemoveAt(remaining, at), draws[round + 1..])
  {
    assert draws[round..][1..] == draws[round + 1..];
  }

  lemma Appended(out: seq<nat>, member: nat, rest: seq<nat>)
    ensures out + ([member] + rest) == out + [member] + rest
  {
  }

  /** `order`: repeated selection without replacement, deleting from `remaining` in place. */
  method Order(weights: seq<int>, draws: seq<nat>) returns (out: seq<nat>)
    requires ValidDraws(weights, Indices(|weights|), draws)
    ensures out == OrderOf(weights, Indices(|weights|), draws) && (weights != [] ==> out != [])
  {
    var remaining := Indices(|weights|);
    ghost var order := OrderOf(weights, remaining, draws);
    out := [];
    var round := 0;
    while remaining != []
      invariant InRange(weights, remaining)
      invariant round <= |draws| && ValidDraws(weights, remaining, draws[round..])
      invariant out + OrderOf(weights, remaining, draws[round..]) == order
      invariant weights != [] && out == [] ==> remaining != []
      decreases |remaining|
    {
      RoundStep(weights, remaining, draws, round);
      var total := SumWeights(weights, remaining);
      assert draws[round] < total;
      var at := PickAt(weights, remaining, draws[round]);
      Appended(out, remaining[at], OrderOf(weights, RemoveAt(remaining, at), draws[round + 1..]));
      out := out + [remaining[at]];
      remaining := remaining[..at] + remaining[at + 1..];
      round := round + 1;
    }
  }

  // ---- Permutation ----

  /** Every order visits each remaining member exactly once. */
  lemma {:induction false} OrderIsPermutation(weights: seq<int>, remaining: seq<nat>, draws: seq<nat>)
    requires InRange(weights, remaining) && ValidDraws(weights, remaining, draws)
    ensures multiset(OrderOf(weights, remaining, draws)) == multiset(remaining)
    decreases |remaining|
  {
    if remaining != [] {
      var at := Select(weights, remaining, draws[0]);
      OrderIsPermutation(weights, RemoveAt(remaining, at), draws[1..]);
      RemoveAtMultiset(remaining, at);
    }
  }

  // ---- Weights ----

  /** In a round, exactly as many of the possible draws select a member as that member weighs. */
  lemma {:induction false} SelectShare(weights: seq<int>, remaining: seq<nat>, at: nat)
    requires InRange(weights, remaining) && at < |remaining|
    ensures var below := Total(weights, remaining[..at]);
            var own := NormalizedWeight(weights[remaining[at]]);
            && below + own <= Total(weights, remaining)
            && (forall draw: nat | draw < Total(weights, remaining) ::
                  Select(weights, remaining, draw) == at <==> below <= draw < below + own)
  {
    var first := NormalizedWeight(weights[remaining[0]]);
    if at > 0 {
      SelectShare(weights, remaining[1..], at - 1);
      assert remaining[..at][1..] == remaining[1..][..at - 1];
      forall draw: nat | first <= draw < Total(weights, remaining)
        ensures Select(weights, remaining, draw) == 1 + Select(weights, remaining[1..], draw - first)
      {
      }
    }
  }

  /** The draws that select position `at`. */
  function Share(weights: seq<int>, remaining: seq<nat>, at: nat): set<nat>
    requires InRange(weights, remaining) && at < |remaining|
  {
    set draw: nat | draw < Total(weights, remaining) && Select(weights, remaining, draw) == at
  }

  lemma {:induction false} IntervalSize(s: set<nat>, low: nat, n: nat)
    requires forall d: nat :: d in s <==> low <= d < low + n
    ensures |s| == n
  {
    if n == 0 {
      assert s == {};
    } else {
      IntervalSize(s - {low + n - 1}, low, n - 1);
    }
  }

  lemma ShareIsWeight(weights: seq<int>, remaining: seq<nat>, at: nat)
    requires InRange(weights, remaining) && at < |remaining|
    ensures |Share(weights, remaining, at)| == NormalizedWeight(weights[remaining[at]])
  {
    SelectShare(weights, remaining, at);
    IntervalSize(Share(weights, remaining, at), Total(weights, remaining[..at]), NormalizedWeight(weights[remaining[at]]));
  }

  // ---- How many draw sequences give one order ----

  function Prepend(heads: set<nat>, tails: set<seq<nat>>): set<seq<nat>> {
    set d, t | d in heads && t in tails :: [d] + t
  }

  lemma InPrepend(heads: set<nat>, tails: set<seq<nat>>)
    ensures forall s :: s in Prepend(heads, tails) <==> s != [] && s[0] in heads && s[1..] in tails
  {
    forall s: seq<nat> | s in Prepend(heads, tails)
      ensures s != [] && s[0] in heads && s[1..] in tails
    {
      var d, t :| d in heads && t in tails && s == [d] + t;
      assert s[1..] == t;
    }
    forall s: seq<nat> | s != [] && s[0] in heads && s[1..] in tails
      ensures s in Prepend(heads, tails)
    {
      assert s == [s[0]] + s[1..];
    }
  }

  lemma PrependSplitHead(heads: set<nat>, tails: set<seq<nat>>, d: nat)
    requires d in heads
    ensures Prepend(heads, tails) == Prepend({d}, tails) + Prepend(heads - {d}, tails)
    ensures Prepend({d}, tails) !! Prepend(heads - {d}, tails)
  {
    InPrepend(heads, tails);
    InPrepend({d}, tails);
    InPrepend(heads - {d}, tails);
  }

  lemma PrependSplitTail(tails: set<seq<nat>>, d: nat, t: seq<nat>)
    requires t in tails
    ensures Prepend({d}, tails) == Prepend({d}, tails - {t}) + {[d] + t}
    ensures [d] + t !in Prepend({d}, tails - {t})
  {
    InPrepend({d}, tails);
    InPrepend({d}, tails - {t});
    assert ([d] + t)[1..] == t;
    forall s | s in Prepend({d}, tails)
      ensures s in Prepend({d}, tails - {t}) || s == [d] + t
    {
      assert s == [s[0]] + s[1..];
    }
  }

  lemma DisjointSize<T>(a: set<T>, b: set<T>)
    requires a !! b
    ensures |a + b| == |a| + |b|
  {
  }

  lemma {:induction false} PrependSize(heads: set<nat>, tails: set<seq<nat>>)
    ensures |Prepend(heads, tails)| == |heads| * |tails|
  {
    if heads == {} {
      assert Prepend(heads, tails) == {};
    } else {
      var d :| d in heads;
      PrependSize(heads - {d}, tails);
      PrependOneMore(heads, tails, d);
    }
  }

  lemma PrependOneMore(heads: set<nat>, tails: set<seq<nat>>, d: nat)
    requires d in heads
    requires |Prepend(heads - {d}, tails)| == |heads - {d}| * |tails|
    ensures |Prepend(heads, tails)| == |heads| * |tails|
  {
    var n, k := |heads - {d}|, |tails|;
    assert |heads| == 1 + n;
    PrependOne(d, tails);
    PrependSplitHead(heads, tails, d);
    DisjointSize(Prepend({d}, tails), Prepend(heads - {d}, tails));
    Distribute(n, k);
  }

  lemma Distribute(n: nat, k: nat)
    ensures (1 + n) * k == k + n * k
  {
  }

  lemma {:induction false} PrependOne(d: nat, tails: set<seq<nat>>)
    ensures |Prepend({d}, tails)| == |tails|
  {
    if tails == {} {
      assert Prepend({d}, tails) == {};
    } else {
      var t :| t in tails;
      PrependOne(d, tails - {t});
      PrependSplitTail(tails, d, t);
    }
  }

  predicate Distinct(s: seq<nat>) {
    forall i, j :: 0 <= i < j < |s| ==> s[i] != s[j]
  }

  function Position(remaining: seq<nat>, member: nat): (at: nat)
    requires member in remaining
    ensures at < |remaining| && remaining[at] == member
  {
    if remaining[0] == member then 0 else 1 + Position(remaining[1..], member)
  }

  ghost predicate IsArrangement(order: seq<nat>, remaining: seq<nat>) {
    Distinct(remaining) && multiset(order) == multiset(remaining)
  }

  lemma RemovalKeepsDistinct(remaining: seq<nat>, at: nat)
    requires Distinct(remaining) && at < |remaining|
    ensures Distinct(RemoveAt(remaining, at))
  {
  }

  lemma HeadIsRemaining(order: seq<nat>, remaining: seq<nat>)
    requires multiset(order) == multiset(remaining) && order != []
    ensures order[0] in remaining && multiset(order[1..]) == multiset(remaining) - multiset{order[0]}
  {
    assert order == [order[0]] + order[1..];
    assert order[0] in multiset(remaining);
  }

  lemma ArrangementTail(order: seq<nat>, remaining: seq<nat>)
    requires IsArrangement(order, remaining) && order != []
    ensures order[0] in remaining
    ensures IsArrangement(order[1..], RemoveAt(remaining, Position(remaining, order[0])))
  {
    HeadIsRemaining(order, remaining);
    var at := Position(remaining, order[0]);
    RemoveAtMultiset(remaining, at);
    RemovalKeepsDistinct(remaining, at);
  }

  /** All draw sequences that lead to `order`. */
  ghost function DrawsFor(weights: seq<int>, remaining: seq<nat>, order: seq<nat>): set<seq<nat>>
    requires InRange(weights, remaining) && IsArrangement(order, remaining)
    decreases |order|
  {
    if order == [] then {[]}
    else
      ArrangementTail(order, remaining);
      var at := Position(remaining, order[0]);
      Prepend(Share(weights, remaining, at), DrawsFor(weights, RemoveAt(remaining, at), order[1..]))
  }

  function Product(weights: seq<int>, order: seq<nat>): nat
    requires InRange(weights, order)
  {
    if order == [] then 1 else NormalizedWeight(weights[order[0]]) * Product(weights, order[1..])
  }

  lemma ArrangementInRange(weights: seq<int>, order: seq<nat>, remaining: seq<nat>)
    requires InRange(weights, remaining) && IsArrangement(order, remaining)
    ensures InRange(weights, order) && |order| == |remaining|
  {
    forall i | 0 <= i < |order|
      ensures order[i] < |weights|
    {
      assert order[i] in multiset(order);
      assert order[i] in remaining;
    }
    assert |multiset(order)| == |order| && |multiset(remaining)| == |remaining|;
  }

  lemma PositionUnique(remaining: seq<nat>, at: nat)
    requires Distinct(remaining) && at < |remaining|
    ensures Position(remaining, remaining[at]) == at
  {
  }

  /** `DrawsFor` misses no draw sequence and contains no other. */
  lemma {:induction false} DrawsForIsExact(weights: seq<int>, remaining: seq<nat>, order: seq<nat>, draws: seq<nat>)
    requires InRange(weights, remaining) && IsArrangement(order, remaining)
    ensures draws in DrawsFor(weights, remaining, order) <==>
            ValidDraws(weights, remaining, draws) && OrderOf(weights, remaining, draws) == order
    decreases |order|
  {
    ArrangementInRange(weights, order, remaining);
    if order != [] {
      ArrangementTail(order, remaining);
      var at := Position(remaining, order[0]);
      var tail := RemoveAt(remaining, at);
      var heads, tails := Share(weights, remaining, at), DrawsFor(weights, tail, order[1..]);
      assert order == [order[0]] + order[1..];
      InPrepend(heads, tails);
      if draws != [] {
        DrawsForIsExact(weights, tail, order[1..], draws[1..]);
        if draws[0] < Total(weights, remaining) {
          PositionUnique(remaining, Select(weights, remaining, draws[0]));
        }
      }
    }
  }

  /** Main result: the number of draw sequences that lead to an order is the product of the members' weights. */
  lemma {:induction false} OrdersWeighTheSame(weights: seq<int>, remaining: seq<nat>, order: seq<nat>)
    requires InRange(weights, remaining) && IsArrangement(order, remaining)
    ensures InRange(weights, order) && |DrawsFor(weights, remaining, order)| == Product(weights, order)
    decreases |order|
  {
    ArrangementInRange(weights, order, remaining);
    if order != [] {
      ArrangementTail(order, remaining);
      var at := Position(remaining, order[0]);
      var tails := DrawsFor(weights, RemoveAt(remaining, at), order[1..]);
      OrdersWeighTheSame(weights, RemoveAt(remaining, at), order[1..]);
      ShareIsWeight(weights, remaining, at);
      PrependSize(Share(weights, remaining, at), tails);
    }
  }

  // ---- How likely an order is ----

  lemma {:induction false} TotalRemoves(weights: seq<int>, remaining: seq<nat>, at: nat)
    requires InRange(weights, remaining) && at < |remaining|
    ensures InRange(weights, RemoveAt(remaining, at))
    ensures Total(weights, remaining) == NormalizedWeight(weights[remaining[at]]) + Total(weights, RemoveAt(remaining, at))
  {
    if at == 0 {
      assert RemoveAt(remaining, at) == remaining[1..];
    } else {
      TotalRemoves(weights, remaining[1..], at - 1);
      assert RemoveAt(remaining, at) == [remaining[0]] + RemoveAt(remaining[1..], at - 1);
    }
  }

  lemma {:induction false} TotalIgnoresOrder(weights: seq<int>, order: seq<nat>, remaining: seq<nat>)
    requires InRange(weights, order) && InRange(weights, remaining) && multiset(order) == multiset(remaining)
    ensures Total(weights, order) == Total(weights, remaining)
  {
    if order == [] {
      assert |multiset(remaining)| == 0;
    } else {
      HeadIsRemaining(order, remaining);
      var at := Position(remaining, order[0]);
      TotalRemoves(weights, remaining, at);
      RemoveAtMultiset(remaining, at);
      TotalIgnoresOrder(weights, order[1..], RemoveAt(remaining, at));
    }
  }

  function Times(a: nat, b: nat): (product: nat)
    ensures a > 0 && b > 0 ==> product > 0
  {
    a * b
  }

  /** A draw sequence is one in so many: in every round each of the possible draws is equally likely. */
  ghost function OneIn(weights: seq<int>, remaining: seq<nat>, draws: seq<nat>): nat
    requires InRange(weights, remaining) && ValidDraws(weights, remaining, draws)
    decreases |remaining|
  {
    if remaining == [] then 1
    else
      var left := RemoveAt(remaining, Select(weights, remaining, draws[0]));
      Times(Total(weights, remaining), OneIn(weights, left, draws[1..]))
  }

  /** What the members weigh together that are left before each round. */
  function LeftTotals(weights: seq<int>, order: seq<nat>): nat
    requires InRange(weights, order)
  {
    if order == [] then 1 else Times(Total(weights, order), LeftTotals(weights, order[1..]))
  }

  lemma ArrangedRound(weights: seq<int>, remaining: seq<nat>, order: seq<nat>, draws: seq<nat>)
    requires InRange(weights, remaining) && remaining != [] && IsArrangement(order, remaining)
    requires ValidDraws(weights, remaining, draws) && OrderOf(weights, remaining, draws) == order
    ensures var left := RemoveAt(remaining, Select(weights, remaining, draws[0]));
            && IsArrangement(order[1..], left) && ValidDraws(weights, left, draws[1..])
            && OrderOf(weights, left, draws[1..]) == order[1..]
  {
    var at := Select(weights, remaining, draws[0]);
    assert order == [remaining[at]] + OrderOf(weights, RemoveAt(remaining, at), draws[1..]);
    ArrangementTail(order, remaining);
    PositionUnique(remaining, at);
  }

  lemma LeftTotalsRound(weights: seq<int>, remaining: seq<nat>, order: seq<nat>)
    requires InRange(weights, remaining) && InRange(weights, order) && order != []
    requires multiset(order) == multiset(remaining)
    ensures LeftTotals(weights, order) == Times(Total(weights, remaining), LeftTotals(weights, order[1..]))
  {
    TotalIgnoresOrder(weights, order, remaining);
  }

  /** All draw sequences that lead to an order are equally likely. */
  lemma {:induction false} DrawsAreEven(weights: seq<int>, remaining: seq<nat>, order: seq<nat>, draws: seq<nat>)
    requires InRange(weights, remaining) && InRange(weights, order) && IsArrangement(order, remaining)
    requires ValidDraws(weights, remaining, draws) && OrderOf(weights, remaining, draws) == order
    ensures OneIn(weights, remaining, draws) == LeftTotals(weights, order)
    decreases |remaining|
  {
    if remaining == [] {
      assert order == [];
    } else {
      ArrangedRound(weights, remaining, order, draws);
      DrawsAreEven(weights, RemoveAt(remaining, Select(weights, remaining, draws[0])), order[1..], draws[1..]);
      LeftTotalsRound(weights, remaining, order);
    }
  }

  lemma {:induction false} LeftTotalsPositive(weights: seq<int>, order: seq<nat>)
    requires InRange(weights, order)
    ensures LeftTotals(weights, order) > 0
  {
    if order != [] {
      LeftTotalsPositive(weights, order[1..]);
    }
  }

  /** Main result: the chance of an order is, position by position, the member's weight in what it and all members after it
      weigh. `Product` many draw sequences lead to the order, and each of them is one in `LeftTotals`. */
  lemma OrderChance(weights: seq<int>, remaining: seq<nat>, order: seq<nat>)
    requires InRange(weights, remaining) && IsArrangement(order, remaining)
    ensures InRange(weights, order) && LeftTotals(weights, order) > 0
    ensures |DrawsFor(weights, remaining, order)| == Product(weights, order)
    ensures forall draws :: draws in DrawsFor(weights, remaining, order) ==>
              && ValidDraws(weights, remaining, draws)
              && OneIn(weights, remaining, draws) == LeftTotals(weights, order)
  {
    ArrangementInRange(weights, order, remaining);
    LeftTotalsPositive(weights, order);
    OrdersWeighTheSame(weights, remaining, order);
    forall draws | draws in DrawsFor(weights, remaining, order)
      ensures ValidDraws(weights, remaining, draws) && OneIn(weights, remaining, draws) == LeftTotals(weights, order)
    {
      DrawsForIsExact(weights, remaining, order, draws);
      DrawsAreEven(weights, remaining, order, draws);
    }
  }

  // ---- In the weights as they are configured ----

  /** What the configured weights count for: a positive one for itself, any other for one. */
  predicate CountFor(weights: seq<int>, counts: seq<nat>) {
    && |counts| == |weights|
    && forall i :: 0 <= i < |weights| ==> if weights[i] > 0 then counts[i] == weights[i] else counts[i] == 1
  }

  function Of(counts: seq<nat>, members: seq<nat>): seq<nat>
    requires forall k :: 0 <= k < |members| ==> members[k] < |counts|
  {
    seq(|members|, k requires 0 <= k < |members| => counts[members[k]])
  }

  function SumAll(numbers: seq<nat>): nat {
    if numbers == [] then 0 else numbers[0] + SumAll(numbers[1..])
  }

  function MultiplyAll(numbers: seq<nat>): nat {
    if numbers == [] then 1 else Times(numbers[0], MultiplyAll(numbers[1..]))
  }

  /** Before each round, the sum over the members that are left then. */
  function SumsLeft(counts: seq<nat>, order: seq<nat>): seq<nat>
    requires forall k :: 0 <= k < |order| ==> order[k] < |counts|
  {
    seq(|order|, k requires 0 <= k < |order| => SumAll(Of(counts, order[k..])))
  }

  /** Of the possible draws of a round, a member of positive weight is selected by as many as it weighs, and any other by
      one. */
  lemma ConfiguredShare(weights: seq<int>, remaining: seq<nat>, at: nat)
    requires InRange(weights, remaining) && at < |remaining|
    ensures weights[remaining[at]] > 0 ==> |Share(weights, remaining, at)| == weights[remaining[at]]
    ensures weights[remaining[at]] <= 0 ==> |Share(weights, remaining, at)| == 1
  {
    ShareIsWeight(weights, remaining, at);
  }

  /** A round has as many possible draws as the remaining members' weights add up to. */
  lemma {:induction false} ConfiguredTotal(weights: seq<int>, counts: seq<nat>, remaining: seq<nat>)
    requires CountFor(weights, counts) && InRange(weights, remaining)
    ensures Total(weights, remaining) == SumAll(Of(counts, remaining))
  {
    if remaining != [] {
      ConfiguredTotal(weights, counts, remaining[1..]);
      assert Of(counts, remaining)[1..] == Of(counts, remaining[1..]);
    }
  }

  lemma {:induction false} ConfiguredProduct(weights: seq<int>, counts: seq<nat>, order: seq<nat>)
    requires CountFor(weights, counts) && InRange(weights, order)
    ensures Product(weights, order) == MultiplyAll(Of(counts, order))
  {
    if order != [] {
      ConfiguredProduct(weights, counts, order[1..]);
      assert Of(counts, order)[1..] == Of(counts, order[1..]);
    }
  }

  lemma {:induction false} ConfiguredLeftTotals(weights: seq<int>, counts: seq<nat>, order: seq<nat>)
    requires CountFor(weights, counts) && InRange(weights, order)
    ensures LeftTotals(weights, order) == MultiplyAll(SumsLeft(counts, order))
  {
    if order != [] {
      ConfiguredLeftTotals(weights, counts, order[1..]);
      ConfiguredTotal(weights, counts, order);
      var sums := SumsLeft(counts, order);
      assert order[0..] == order;
      assert forall k :: 0 <= k < |order| - 1 ==> order[k + 1..] == order[1..][k..];
      assert sums[1..] == SumsLeft(counts, order[1..]);
    }
  }

  /** Main result, in configured weights: as many draw sequences lead to an order as the product of its members' weights,
      and each of them is one in the product of the sums of the weights that are left before each round. A weight that is
      not positive counts as one. */
  lemma ConfiguredChance(weights: seq<int>, counts: seq<nat>, remaining: seq<nat>, order: seq<nat>)
    requires CountFor(weights, counts) && InRange(weights, remaining) && IsArrangement(order, remaining)
    ensures (forall i :: 0 <= i < |weights| ==> weights[i] > 0) ==> counts == weights
    ensures forall k :: 0 <= k < |order| ==> order[k] < |counts|
    ensures |DrawsFor(weights, remaining, order)| == MultiplyAll(Of(counts, order))
    ensures forall draws :: draws in DrawsFor(weights, remaining, order) ==>
              && ValidDraws(weights, remaining, draws)
              && OneIn(weights, remaining, draws) == MultiplyAll(SumsLeft(counts, order))
  {
    OrderChance(weights, remaining, order);
    ConfiguredProduct(weights, counts, order);
    ConfiguredLeftTotals(weights, counts, order);
  }
}
