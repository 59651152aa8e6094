/** The client's vocabulary of finish reasons. */
module FinishReasons {
  import opened Text

  function LowerCase(lower: char -> char, s: string): string {
    seq(|s|, i requires 0 <= i < |s| => lower(s[i]))
  }

  /** `head`, then at most one separator, then `error`. */
  predicate IsErrorOf(r: string, head: string) {
    HasPrefix(r, head) &&
    (r[|head|..] == "error" ||
     (|r| == |head| + 6 && r[|head|] in "-_\t\n\U{0C}\r " && r[|head| + 1..] == "error"))
  }

  /** The vocabulary of finish reasons, on lower-cased trimmed text. */
  function Canonical(r: string): string {
    if r == "" then "stop"
    else if r in ["tool-calls", "tool_calls", "tool_use"] then "tool_calls"
    else if r in ["length", "max_tokens", "max_output_tokens", "model_context_window_exceeded"] then "length"
    else if IsErrorOf(r, "network") || IsErrorOf(r, "connection") || IsErrorOf(r, "upstream") then "upstream_error"
    else r
  }

  function MapFinishReason(lower: char -> char, reason: string): string {
    Canonical(LowerCase(lower, TrimSpace(reason)))
  }

  const HEADS := ["network", "connection", "upstream"]
  const SEPARATORS := ["", "-", "_", "\t", "\n", "\U{0C}", "\r", " "]

  lemma IsErrorOfMeans(r: string, head: string)
    ensures IsErrorOf(r, head) <==> exists sep :: sep in SEPARATORS && r == head + sep + "error"
  {
    if HasPrefix(r, head) {
      var rest := r[|head|..];
      assert r == head + rest;
      if rest == "error" {
        assert "" in SEPARATORS && r == head + "" + "error";
      } else if IsErrorOf(r, head) {
        var sep := rest[..1];
        assert rest == sep + rest[1..] && rest[1..] == r[|head| + 1..];
        assert sep == [r[|head|]];
        assert sep in SEPARATORS;
        assert r == head + sep + "error";
      }
    }
    forall sep | sep in SEPARATORS && r == head + sep + "error"
      ensures IsErrorOf(r, head)
    {
      assert r[|head|..] == sep + "error";
      if sep != "" {
        assert r[|head| + 1..] == "error" && r[|head|] == sep[0];
      }
    }
  }

  predicate NamesFailure(r: string) {
    exists head, sep :: head in HEADS && sep in SEPARATORS && r == head + sep + "error"
  }

  lemma NamesFailureIff(r: string)
    ensures NamesFailure(r) <==> IsErrorOf(r, HEADS[0]) || IsErrorOf(r, HEADS[1]) || IsErrorOf(r, HEADS[2])
  {
    forall head | head in HEADS
      ensures IsErrorOf(r, head) <==> exists sep :: sep in SEPARATORS && r == head + sep + "error"
    {
      IsErrorOfMeans(r, head);
    }
    assert HEADS[0] in HEADS && HEADS[1] in HEADS && HEADS[2] in HEADS;
  }

  lemma FailureEnds(r: string, head: string)
    requires IsErrorOf(r, head)
    ensures r != "" && r[|r| - 1] == 'r'
  {
  }

  /** No other alias ends like a failure. */
  lemma EndsDiffer(r: string)
    requires r != "" && r[|r| - 1] == 'r'
    ensures r !in ["tool-calls", "tool_calls", "tool_use"]
    ensures r !in ["length", "max_tokens", "max_output_tokens", "model_context_window_exceeded"]
  {
  }

  /** Exactly the spelled-out failures are upstream errors. */
  lemma UpstreamErrorIff(r: string)
    ensures Canonical(r) == "upstream_error" <==> NamesFailure(r)
  {
    NamesFailureIff(r);
    if head :| head in HEADS && IsErrorOf(r, head) {
      FailureEnds(r, head);
      EndsDiffer(r);
    }
  }

  /** Which texts each word of the vocabulary stands for; every other text stands for itself. */
  lemma CanonicalIff(r: string)
    ensures Canonical(r) == "stop" <==> r == "" || r == "stop"
    ensures Canonical(r) == "tool_calls" <==> r == "tool-calls" || r == "tool_calls" || r == "tool_use"
    ensures Canonical(r) == "length" <==>
            r == "length" || r == "max_tokens" || r == "max_output_tokens" || r == "model_context_window_exceeded"
    ensures Canonical(r) == r || Canonical(r) in OWN_WORDS
  {
    if head :| head in HEADS && IsErrorOf(r, head) {
      FailureEnds(r, head);
      EndsDiffer(r);
    }
  }

  const OWN_WORDS := ["stop", "tool_calls", "length", "upstream_error"]

  lemma OwnWordsAreCanonical(m: string)
    requires m in OWN_WORDS
    ensures Canonical(m) == m
  {
    assert IsErrorOf("upstream_error", "upstream") by {
      assert "upstream_error" == "upstream" + "_" + "error";
    }
  }

  lemma CanonicalIdempotent(r: string)
    ensures Canonical(r) != "" && Canonical(Canonical(r)) == Canonical(r)
    ensures Canonical(r) == r || Canonical(r) in OWN_WORDS
  {
    if Canonical(r) != r {
      OwnWordsAreCanonical(Canonical(r));
    }
  }

  /** Trimmed at both ends and unchanged by lower-casing. */
  ghost predicate Settled(lower: char -> char, m: string) {
    (m != "" ==> !IsSpace(m[0]) && !IsSpace(m[|m| - 1])) && forall i :: 0 <= i < |m| ==> lower(m[i]) == m[i]
  }

  lemma SettledIsFixed(lower: char -> char, m: string)
    requires Settled(lower, m)
    ensures LowerCase(lower, TrimSpace(m)) == m
  {
    assert TrimLeft(m) == m && TrimRight(m) == m;
  }

  /** What a lower-casing table must keep: lowered characters, and white space. */
  ghost predicate Lowers(lower: char -> char) {
    && (forall c {:trigger lower(lower(c))} :: lower(lower(c)) == lower(c))
    && (forall c {:trigger IsSpace(lower(c))} :: IsSpace(lower(c)) <==> IsSpace(c))
  }

  /** A trimmed text starts and ends with something else than white space. */
  lemma TrimmedIsSolid(s: string)
    ensures var t := TrimSpace(s); t != "" ==> !IsSpace(t[0]) && !IsSpace(t[|t| - 1])
  {
    TrimSpaceAt(s);
  }

  lemma LoweringSettles(lower: char -> char, reason: string)
    requires Lowers(lower)
    ensures Settled(lower, LowerCase(lower, TrimSpace(reason)))
  {
    var t := TrimSpace(reason);
    TrimmedIsSolid(reason);
    var m := LowerCase(lower, t);
    if m != "" {
      assert m[0] == lower(t[0]) && m[|m| - 1] == lower(t[|t| - 1]);
    }
    forall i | 0 <= i < |m|
      ensures lower(m[i]) == m[i]
    {
      assert m[i] == lower(t[i]);
    }
  }

  lemma OwnWordsAreSettled(lower: char -> char, m: string)
    requires forall c :: c == '_' || 'a' <= c <= 'z' ==> lower(c) == c
    requires m in OWN_WORDS
    ensures Settled(lower, m)
  {
    assert forall i :: 0 <= i < |m| ==> m[i] == '_' || 'a' <= m[i] <= 'z';
  }

  /** A finish reason is never empty, and mapping a mapped reason changes nothing. */
  lemma MapFinishReasonIdempotent(lower: char -> char, reason: string)
    requires Lowers(lower)
    requires forall c :: c == '_' || 'a' <= c <= 'z' ==> lower(c) == c
    ensures MapFinishReason(lower, reason) != ""
    ensures MapFinishReason(lower, MapFinishReason(lower, reason)) == MapFinishReason(lower, reason)
  {
    var r := LowerCase(lower, TrimSpace(reason));
    var m := Canonical(r);
    CanonicalIdempotent(r);
    assert Settled(lower, m) by {
      if m in OWN_WORDS {
        OwnWordsAreSettled(lower, m);
      } else {
        LoweringSettles(lower, reason);
      }
    }
    SettledIsFixed(lower, m);
  }
}
