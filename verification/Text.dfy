/** Strings as the plugin handles them: trimming, defaulting and joining. */
module Text {

  datatype Option<+T> = None | Some(value: T)

  datatype Result<+T, +E> = Ok(value: T) | Err(error: E)

  /** White space as `unicode.IsSpace` knows it, which `strings.TrimSpace` removes. */
  predicate IsSpace(c: char) {
    '\t' <= c <= '\r' || c == ' ' || c == '\U{85}' || c == '\U{A0}' || c == '\U{1680}' || '\U{2000}' <= c <= '\U{200A}'
    || c == '\U{2028}' || c == '\U{2029}' || c == '\U{202F}' || c == '\U{205F}' || c == '\U{3000}'
  }

  function TrimLeft(s: string): string {
    if s != "" && IsSpace(s[0]) then TrimLeft(s[1..]) else s
  }

  lemma {:induction false} TrimLeftGives(s: string, l: string)
    requires l == TrimLeft(s)
    ensures |l| <= |s| && l == s[|s| - |l|..]
    ensures forall i :: 0 <= i < |s| - |l| ==> IsSpace(s[i])
    ensures l != "" ==> !IsSpace(l[0])
  {
    if s != "" && IsSpace(s[0]) {
      TrimLeftGives(s[1..], l);
      assert s[1..][|s| - 1 - |l|..] == s[|s| - |l|..];
      assert forall i :: 1 <= i < |s| - |l| ==> s[i] == s[1..][i - 1];
    }
  }

  function TrimRight(s: string): string {
    if s != "" && IsSpace(s[|s| - 1]) then TrimRight(s[..|s| - 1]) else s
  }

  lemma {:induction false} TrimRightGives(l: string, t: string)
    requires t == TrimRight(l)
    ensures t <= l && forall i :: |t| <= i < |l| ==> IsSpace(l[i])
    ensures t != "" ==> !IsSpace(t[|t| - 1])
  {
    if l != "" && IsSpace(l[|l| - 1]) {
      TrimRightGives(l[..|l| - 1], t);
      assert forall i :: 0 <= i < |l| - 1 ==> l[..|l| - 1][i] == l[i];
    }
  }

  function TrimSpace(s: string): string {
    TrimRight(TrimLeft(s))
  }

  predicate Blank(s: string) {
    TrimSpace(s) == ""
  }

  /** The first argument that is not blank, untrimmed; empty if all are blank. */
  function FirstNonEmpty(values: seq<string>): string {
    if values == [] then "" else if !Blank(values[0]) then values[0] else FirstNonEmpty(values[1..])
  }

  lemma FirstOfTwo(a: string, b: string)
    ensures FirstNonEmpty([a, b]) == if !Blank(a) then a else if !Blank(b) then b else ""
  {
    assert [a, b][1..] == [b];
    assert [b][1..] == [];
    assert FirstNonEmpty([b]) == if !Blank(b) then b else FirstNonEmpty([]);
  }

  lemma FirstOfThree(a: string, b: string, c: string)
    requires !Blank(c)
    ensures FirstNonEmpty([a, b, c]) == if !Blank(a) then a else if !Blank(b) then b else c
  {
    assert [a, b, c][1..] == [b, c];
    FirstOfTwo(b, c);
  }

  /** If some argument is not blank, neither is the result. */
  lemma {:induction false} FirstNonEmptyFinds(values: seq<string>, k: nat)
    requires k < |values| && !Blank(values[k])
    ensures !Blank(FirstNonEmpty(values)) && FirstNonEmpty(values) != ""
  {
    if Blank(values[0]) {
      FirstNonEmptyFinds(values[1..], k - 1);
    }
  }

  function OrEmpty(text: Option<string>): string {
    match text case None => "" case Some(t) => t
  }

  predicate HasPrefix(s: string, prefix: string) {
    prefix <= s
  }

  function Concat(texts: seq<string>): string {
    if texts == [] then "" else texts[0] + Concat(texts[1..])
  }

  function Join(texts: seq<string>, sep: string): string {
    if texts == [] then "" else if |texts| == 1 then texts[0] else texts[0] + sep + Join(texts[1..], sep)
  }

  /** Every text but the last ends its line. */
  function EndLines(texts: seq<string>): seq<string> {
    seq(|texts|, i requires 0 <= i < |texts| => if i < |texts| - 1 then texts[i] + "\n" else texts[i])
  }

  lemma {:induction false} JoinEndsLines(texts: seq<string>)
    ensures Join(texts, "\n") == Concat(EndLines(texts))
  {
    if |texts| == 1 {
      var only := EndLines(texts);
      assert only == [texts[0]] && only[1..] == [];
    } else if |texts| > 1 {
      JoinEndsLines(texts[1..]);
      assert EndLines(texts)[1..] == EndLines(texts[1..]);
    }
  }

  /** What each element reads as, one after the other. */
  function FlatMap<A, B>(read: A -> seq<B>, s: seq<A>): seq<B> {
    if s == [] then [] else FlatMap(read, s[..|s| - 1]) + read(s[|s| - 1])
  }

  lemma FlatMapSnoc<A, B>(read: A -> seq<B>, s: seq<A>, last: A)
    ensures FlatMap(read, s + [last]) == FlatMap(read, s) + read(last)
  {
    assert (s + [last])[..|s|] == s;
  }

  lemma FlatMapOne<A, B>(read: A -> seq<B>, a: A)
    ensures FlatMap(read, [a]) == read(a)
  {
    FlatMapSnoc(read, [], a);
    assert [] + [a] == [a];
    assert [] + read(a) == read(a);
  }

  lemma {:induction false} FlatMapOfNothing<A, B>(read: A -> seq<B>, s: seq<A>)
    requires forall i :: 0 <= i < |s| ==> read(s[i]) == []
    ensures FlatMap(read, s) == []
  {
    if s != [] {
      FlatMapOfNothing(read, s[..|s| - 1]);
    }
  }

  lemma {:induction false} FlatMapAppend<A, B>(read: A -> seq<B>, s: seq<A>, t: seq<A>)
    ensures FlatMap(read, s + t) == FlatMap(read, s) + FlatMap(read, t)
  {
    if t == [] {
      assert s + t == s;
    } else {
      var front, last := t[..|t| - 1], t[|t| - 1];
      FlatMapAppend(read, s, front);
      assert s + t == s + front + [last] && t == front + [last];
      FlatMapSnoc(read, s + front, last);
      FlatMapSnoc(read, front, last);
      Regroup(FlatMap(read, s), FlatMap(read, front), read(last));
    }
  }

  /** What positions 0, ..., n - 1 give, one after the other. */
  function Gathered<T>(at: nat -> seq<T>, n: nat): seq<T> {
    if n == 0 then [] else Gathered(at, n - 1) + at(n - 1)
  }

  lemma {:induction false} Gathers<T>(so: nat -> seq<T>, at: nat -> seq<T>, n: nat)
    requires so(0) == [] && forall k: nat {:trigger at(k)} :: k < n ==> so(k + 1) == so(k) + at(k)
    ensures so(n) == Gathered(at, n)
  {
    if n > 0 {
      Gathers(so, at, n - 1);
      assert so((n - 1) + 1) == so(n - 1) + at(n - 1);
    }
  }

  lemma Snoc<T>(s: seq<T>)
    requires s != []
    ensures s == s[..|s| - 1] + [s[|s| - 1]]
  {
  }

  lemma Regroup<T>(a: seq<T>, b: seq<T>, c: seq<T>)
    ensures a + (b + c) == a + b + c
  {
  }

  /** A string is blank exactly when it holds nothing but white space. */
  lemma BlankIffAllSpaces(s: string)
    ensures Blank(s) <==> forall i :: 0 <= i < |s| ==> IsSpace(s[i])
  {
    var l := TrimLeft(s);
    var r := TrimRight(l);
    TrimLeftGives(s, l);
    TrimRightGives(l, r);
    if r != "" {
      assert l[0] == r[0] && l[0] == s[|s| - |l|];
    }
  }

  /** `t` is what lies between positions i and j, with nothing but white space around it and none at its own ends. */
  predicate TrimmedAt(s: string, i: nat, j: nat, t: string) {
    && i <= j <= |s| && t == s[i..j]
    && (forall k :: 0 <= k < i ==> IsSpace(s[k])) && (forall k :: j <= k < |s| ==> IsSpace(s[k]))
    && (i < j ==> !IsSpace(s[i]) && !IsSpace(s[j - 1]))
  }

  lemma TrimmedAtOnce(s: string, i: nat, j: nat, t: string, i': nat, j': nat, t': string)
    requires TrimmedAt(s, i, j, t) && TrimmedAt(s, i', j', t')
    ensures t == t'
  {
    if i < j && i' < j' {
      assert i == i' && j == j';
    }
  }

  lemma PrefixOfSuffix(s: string, l: string, t: string)
    requires |l| <= |s| && l == s[|s| - |l|..] && t <= l
    ensures var i := |s| - |l|;
            && t == s[i..i + |t|] && (forall k :: 0 <= k < |t| ==> s[i + k] == t[k] == l[k])
            && forall k :: i <= k < |s| ==> s[k] == l[k - i]
  {
  }

  lemma EndsTrimmed(s: string, l: string, t: string)
    requires |l| <= |s| && l == s[|s| - |l|..] && t <= l
    requires forall k :: 0 <= k < |s| - |l| ==> IsSpace(s[k])
    requires forall k :: |t| <= k < |l| ==> IsSpace(l[k])
    requires (l != "" ==> !IsSpace(l[0])) && (t != "" ==> !IsSpace(t[|t| - 1]))
    ensures TrimmedAt(s, |s| - |l|, |s| - |l| + |t|, t)
  {
    PrefixOfSuffix(s, l, t);
    SpacesBehind(s, l, |s| - |l|, |t|);
  }

  lemma TrimsAt(s: string, l: string, t: string)
    requires l == TrimLeft(s) && t == TrimRight(l)
    ensures exists i, j :: TrimmedAt(s, i, j, t)
  {
    TrimLeftGives(s, l);
    TrimRightGives(l, t);
    EndsTrimmed(s, l, t);
  }

  lemma TrimSpaceAt(s: string)
    ensures exists i, j :: TrimmedAt(s, i, j, TrimSpace(s))
  {
    TrimsAt(s, TrimLeft(s), TrimSpace(s));
  }

  lemma SpacesBehind(s: string, l: string, i: nat, n: nat)
    requires |s| == i + |l| && forall k :: i <= k < |s| ==> s[k] == l[k - i]
    requires n <= |l| && forall k :: n <= k < |l| ==> IsSpace(l[k])
    ensures forall k :: i + n <= k < |s| ==> IsSpace(s[k])
  {
    forall k | i + n <= k < |s|
      ensures IsSpace(s[k])
    {
      assert s[k] == l[k - i];
    }
  }

  /** Trimming leaves what is left without the white space at both ends. */
  lemma TrimSpaceMeans(s: string, t: string)
    ensures t == TrimSpace(s) <==> exists i, j :: TrimmedAt(s, i, j, t)
  {
    var trimmed := TrimSpace(s);
    TrimSpaceAt(s);
    var i, j :| TrimmedAt(s, i, j, trimmed);
    if i', j' :| TrimmedAt(s, i', j', t) {
      TrimmedAtOnce(s, i, j, trimmed, i', j', t);
    }
  }

  lemma SolidStart(s: string)
    requires s != "" && !IsSpace(s[0])
    ensures !Blank(s)
  {
    assert TrimLeft(s) == s;
    TrimRightGives(s, TrimRight(s));
  }

  /** Text that neither starts nor ends with white space is left alone. */
  lemma SolidText(s: string)
    requires s != "" && !IsSpace(s[0]) && !IsSpace(s[|s| - 1])
    ensures TrimSpace(s) == s
  {
    assert TrimLeft(s) == s && TrimRight(s) == s;
  }
}
