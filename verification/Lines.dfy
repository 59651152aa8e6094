/** Cutting newline-terminated lines out of a byte stream that arrives in arbitrary pieces. */
module Lines {
  import opened Text

  newtype byte = x: int | 0 <= x < 256

  type Bytes = seq<byte>

  const NEWLINE: byte := 10

  /** `bytes.Split(b, "\n")`: never empty, one piece more than there are newlines. */
  function Split(b: Bytes): (pieces: seq<Bytes>)
    ensures pieces != []
  {
    if b == [] then [[]]
    else
      var before, last := Split(b[..|b| - 1]), b[|b| - 1];
      if last == NEWLINE then before + [[]] else before[..|before| - 1] + [before[|before| - 1] + [last]]
  }

  /** The pieces that a newline closes. */
  function Complete(b: Bytes): seq<Bytes> {
    Split(b)[..|Split(b)| - 1]
  }

  /** What follows the last newline: the content of `pending` between two chunks. */
  function Tail(b: Bytes): Bytes {
    Split(b)[|Split(b)| - 1]
  }

  /** Lines written out again, each followed by its newline. */
  function Terminated(lines: seq<Bytes>): Bytes {
    if lines == [] then [] else Terminated(lines[..|lines| - 1]) + lines[|lines| - 1] + [NEWLINE]
  }

  /** How one more byte changes the pieces. */
  lemma SplitStep(b: Bytes, last: byte)
    ensures Complete(b + [last]) == if last == NEWLINE then Complete(b) + [Tail(b)] else Complete(b)
    ensures Tail(b + [last]) == if last == NEWLINE then [] else Tail(b) + [last]
  {
    assert (b + [last])[..|b|] == b;
  }

  lemma TerminatedStep(lines: seq<Bytes>, line: Bytes)
    ensures Terminated(lines + [line]) == Terminated(lines) + line + [NEWLINE]
  {
    assert (lines + [line])[..|lines|] == lines;
  }

  lemma RoundTripStep(b: Bytes, last: byte)
    requires Terminated(Complete(b)) + Tail(b) == b
    ensures Terminated(Complete(b + [last])) + Tail(b + [last]) == b + [last]
  {
    var lines, tail := Complete(b), Tail(b);
    SplitStep(b, last);
    if last == NEWLINE {
      TerminatedStep(lines, tail);
    } else {
      Regroup(Terminated(lines), tail, [last]);
    }
  }

  lemma {:induction false} PiecesHaveNoNewline(b: Bytes)
    ensures forall k :: 0 <= k < |Split(b)| ==> NEWLINE !in Split(b)[k]
  {
    if b != [] {
      PiecesHaveNoNewline(b[..|b| - 1]);
    }
  }

  lemma {:induction false} RoundTrip(b: Bytes)
    ensures Terminated(Complete(b)) + Tail(b) == b
  {
    if b != [] {
      var before, last := b[..|b| - 1], b[|b| - 1];
      RoundTrip(before);
      RoundTripStep(before, last);
      assert b == before + [last];
    }
  }

  /** Splitting loses no byte, and no piece contains a newline. */
  lemma SplitRoundTrip(b: Bytes)
    ensures Terminated(Complete(b)) + Tail(b) == b
    ensures forall k :: 0 <= k < |Split(b)| ==> ('\n' as byte) !in Split(b)[k]
  {
    RoundTrip(b);
    PiecesHaveNoNewline(b);
  }

  /** Splitting is the only way to read a byte string as lines: it recovers any lines and open tail
      from the bytes they make. */
  lemma {:induction false} SplitIsUnique(lines: seq<Bytes>, tail: Bytes)
    requires forall k :: 0 <= k < |lines| ==> NEWLINE !in lines[k]
    requires NEWLINE !in tail
    ensures Complete(Terminated(lines) + tail) == lines && Tail(Terminated(lines) + tail) == tail
    decreases |lines|, |tail|
  {
    var b := Terminated(lines) + tail;
    if tail != [] {
      var t, last := tail[..|tail| - 1], tail[|tail| - 1];
      SplitIsUnique(lines, t);
      assert tail == t + [last];
      Regroup(Terminated(lines), t, [last]);
      SplitStep(Terminated(lines) + t, last);
    } else if lines != [] {
      var front, last := lines[..|lines| - 1], lines[|lines| - 1];
      SplitIsUnique(front, last);
      assert lines == front + [last];
      TerminatedStep(front, last);
      SplitStep(Terminated(front) + last, NEWLINE);
      assert b == Terminated(lines);
    }
  }

  lemma {:induction false} TerminatedAppend(a: seq<Bytes>, b: seq<Bytes>)
    ensures Terminated(a + b) == Terminated(a) + Terminated(b)
  {
    if b == [] {
      assert a + b == a;
    } else {
      var front, last := b[..|b| - 1], b[|b| - 1];
      TerminatedAppend(a, front);
      assert a + b == a + front + [last] && b == front + [last];
      TerminatedStep(a + front, last);
      TerminatedStep(front, last);
      Regroup(Terminated(a), Terminated(front), last);
      Regroup(Terminated(a), Terminated(front) + last, [NEWLINE]);
    }
  }

  lemma Rejoin(received: Bytes, more: Bytes, front: Bytes, tail: Bytes, back: Bytes, newTail: Bytes)
    requires received == front + tail && tail + more == back + newTail
    ensures received + more == front + back + newTail
  {
    assert received + more == front + (tail + more);
  }

  lemma GrownStream(received: Bytes, more: Bytes, lines: seq<Bytes>, tail: Bytes, newLines: seq<Bytes>, newTail: Bytes)
    requires forall k :: 0 <= k < |lines| ==> NEWLINE !in lines[k]
    requires forall k :: 0 <= k < |newLines| ==> NEWLINE !in newLines[k]
    requires NEWLINE !in newTail
    requires received == Terminated(lines) + tail
    requires tail + more == Terminated(newLines) + newTail
    ensures Complete(received + more) == lines + newLines && Tail(received + more) == newTail
  {
    var all, front, back := lines + newLines, Terminated(lines), Terminated(newLines);
    assert received + more == Terminated(all) + newTail by {
      TerminatedAppend(lines, newLines);
      Rejoin(received, more, front, tail, back, newTail);
    }
    SplitIsUnique(all, newTail);
  }

  /** Splitting a stream after it has grown is the same as splitting only what was left over
      together with the new bytes. */
  lemma SplitResumes(received: Bytes, more: Bytes)
    ensures Complete(received + more) == Complete(received) + Complete(Tail(received) + more)
    ensures Tail(received + more) == Tail(Tail(received) + more)
  {
    var tail := Tail(received);
    SplitRoundTrip(received);
    SplitRoundTrip(tail + more);
    GrownStream(received, more, Complete(received), tail, Complete(tail + more), Tail(tail + more));
  }

  /** Without a newline there is nothing to cut. */
  lemma NoNewlineNoSplit(b: Bytes)
    requires NEWLINE !in b
    ensures Complete(b) == [] && Tail(b) == b
  {
    SplitIsUnique([], b);
    assert Terminated([]) + b == b;
  }
}
