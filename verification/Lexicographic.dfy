/** Lexicographic order: the first difference decides, and a proper prefix comes first. */
module Lexicographic {

  predicate Precedes<T(==)>(rank: T -> int, a: seq<T>, b: seq<T>) {
    b != [] && (a == [] || rank(a[0]) < rank(b[0]) || (a[0] == b[0] && Precedes(rank, a[1..], b[1..])))
  }

  /** The lists agree before position k, where `a` ends or has the lower element. */
  predicate DecidedAt<T(==)>(rank: T -> int, a: seq<T>, b: seq<T>, k: nat) {
    k <= |a| && k < |b| && a[..k] == b[..k] && (k == |a| || rank(a[k]) < rank(b[k]))
  }

  lemma {:induction false} PrecedesAt<T>(rank: T -> int, a: seq<T>, b: seq<T>) returns (k: nat)
    requires Precedes(rank, a, b)
    ensures DecidedAt(rank, a, b, k)
  {
    k := 0;
    if a != [] && !(rank(a[0]) < rank(b[0])) {
      var m := PrecedesAt(rank, a[1..], b[1..]);
      k := m + 1;
      assert a[..k] == [a[0]] + a[1..][..m] && b[..k] == [b[0]] + b[1..][..m];
    }
  }

  lemma {:induction false} DecidedPrecedes<T>(rank: T -> int, a: seq<T>, b: seq<T>, k: nat)
    requires DecidedAt(rank, a, b, k)
    ensures Precedes(rank, a, b)
    decreases k
  {
    if k > 0 {
      assert a[0] == a[..k][0] == b[..k][0] == b[0];
      assert a[1..][..k - 1] == a[..k][1..] == b[..k][1..] == b[1..][..k - 1];
      DecidedPrecedes(rank, a[1..], b[1..], k - 1);
    }
  }

  lemma PrecedesMeans<T>(rank: T -> int, a: seq<T>, b: seq<T>)
    ensures Precedes(rank, a, b) <==> exists k :: DecidedAt(rank, a, b, k)
  {
    if Precedes(rank, a, b) {
      var k := PrecedesAt(rank, a, b);
    }
    if k :| DecidedAt(rank, a, b, k) {
      DecidedPrecedes(rank, a, b, k);
    }
  }

  ghost predicate Ranks<T(!new)>(rank: T -> int) {
    forall x, y :: rank(x) == rank(y) ==> x == y
  }

  lemma {:induction false} Total<T(!new)>(rank: T -> int, a: seq<T>, b: seq<T>)
    requires Ranks(rank)
    ensures (if Precedes(rank, a, b) then 1 else 0) + (if Precedes(rank, b, a) then 1 else 0) + (if a == b then 1 else 0)
            == 1
  {
    if a != [] && b != [] && a[0] == b[0] {
      Total(rank, a[1..], b[1..]);
      assert a == [a[0]] + a[1..] && b == [b[0]] + b[1..];
    }
  }

  lemma {:induction false} Transitive<T(!new)>(rank: T -> int, a: seq<T>, b: seq<T>, c: seq<T>)
    ensures Precedes(rank, a, b) && Precedes(rank, b, c) ==> Precedes(rank, a, c)
  {
    if a != [] && b != [] && c != [] && a[0] == b[0] == c[0] {
      Transitive(rank, a[1..], b[1..], c[1..]);
    }
  }
}
