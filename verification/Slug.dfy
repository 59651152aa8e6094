/** The project slug: the words of a path joined by dashes. */
module Slug {
  import opened Text

  predicate IsWordChar(c: char) {
    'a' <= c <= 'z' || '0' <= c <= '9'
  }

  /** Lower-casing, as far as it leads to a letter a-z or a digit: besides A-Z that are the Kelvin sign and the capital I
      with a dot. Every other character is a separator whatever its lower case is. */
  function Lower(c: char): char {
    if 'A' <= c <= 'Z' then 'a' + (c - 'A')
    else if c == '\U{212A}' then 'k'
    else if c == '\U{0130}' then 'i'
    else c
  }

  predicate Separates(c: char) {
    !IsWordChar(Lower(c))
  }

  /** The maximal runs of word characters, lower-cased. */
  function Words(path: string): seq<string> {
    if path == "" then []
    else
      var front, c := path[..|path| - 1], path[|path| - 1];
      var before := Words(front);
      if Separates(c) then before
      else if front != "" && !Separates(front[|front| - 1]) && before != [] then
        Extended(before, Lower(c))
      else before + [[Lower(c)]]
  }

  function Dashed(words: seq<string>): string {
    if words == [] then ""
    else if |words| == 1 then words[0]
    else Dashed(words[..|words| - 1]) + "-" + words[|words| - 1]
  }

  /** What the slug should be. */
  function Slug(path: string): string {
    if Words(path) == [] then "root" else Dashed(Words(path))
  }

  predicate IsWord(w: string) {
    w != "" && forall i :: 0 <= i < |w| ==> IsWordChar(w[i])
  }

  predicate AreWords(words: seq<string>) {
    forall i :: 0 <= i < |words| ==> IsWord(words[i])
  }

  lemma WordsStep(front: string, c: char)
    ensures Words(front + [c]) ==
            if Separates(c) then Words(front)
            else if front != "" && !Separates(front[|front| - 1]) && Words(front) != [] then
              Extended(Words(front), Lower(c))
            else Words(front) + [[Lower(c)]]
  {
    assert (front + [c])[..|front|] == front;
  }

  lemma ExtendedAreWords(words: seq<string>, c: char)
    requires AreWords(words) && words != [] && IsWordChar(c)
    ensures AreWords(Extended(words, c))
  {
  }

  lemma {:induction false} WordsAreWords(path: string)
    ensures AreWords(Words(path))
    ensures path != "" && !Separates(path[|path| - 1]) ==> Words(path) != []
  {
    if path != "" {
      var front, c := path[..|path| - 1], path[|path| - 1];
      WordsAreWords(front);
      if Words(front) != [] && !Separates(c) {
        ExtendedAreWords(Words(front), Lower(c));
      }
    }
  }

  lemma {:induction false} DashedEnds(words: seq<string>)
    requires AreWords(words) && words != []
    ensures var d := Dashed(words); d != "" && IsWordChar(d[0]) && IsWordChar(d[|d| - 1])
  {
    if |words| > 1 {
      DashedEnds(words[..|words| - 1]);
    }
  }

  lemma DashedAppend(words: seq<string>, w: string)
    ensures Dashed(words + [w]) == if words == [] then w else Dashed(words) + "-" + w
  {
    assert (words + [w])[..|words|] == words;
  }

  /** `words` with one more character at the end of the last word. */
  function Extended(words: seq<string>, c: char): seq<string>
    requires words != []
  {
    words[..|words| - 1] + [words[|words| - 1] + [c]]
  }

  lemma DashedExtended(words: seq<string>, c: char)
    requires words != []
    ensures Dashed(Extended(words, c)) == Dashed(words) + [c]
  {
    var front, last, longer := words[..|words| - 1], words[|words| - 1], Extended(words, c);
    assert longer[..|longer| - 1] == front && longer[|longer| - 1] == last + [c] && |longer| == |words|;
    if |words| > 1 {
      Regroup(Dashed(front) + "-", last, [c]);
    }
  }

  /** The builder's content before trimming: a leading dash if the path starts with a separator, a trailing one if it ends
      with one. */
  function Raw(path: string): string {
    var words := Words(path);
    (if path != "" && Separates(path[0]) then "-" else "") + Dashed(words) +
    (if words != [] && Separates(path[|path| - 1]) then "-" else "")
  }

  lemma RawSeparator(front: string, c: char)
    requires Separates(c)
    ensures Raw(front + [c]) == if front == "" || !Separates(front[|front| - 1]) then Raw(front) + "-" else Raw(front)
  {
    WordsStep(front, c);
    WordsAreWords(front);
    if front != "" && Words(front) == [] {
      AllSeparate(front);
    }
  }

  lemma OneMoreChar(lead: string, words: seq<string>, k: char)
    ensures words != [] ==> lead + Dashed(Extended(words, k)) + "" == lead + Dashed(words) + "" + [k]
    ensures words != [] ==> lead + Dashed(words + [[k]]) + "" == lead + Dashed(words) + "-" + [k]
    ensures words == [] ==> lead + Dashed(words + [[k]]) + "" == lead + Dashed(words) + "" + [k]
  {
    DashedAppend(words, [k]);
    if words == [] {
      assert lead + [k] + "" == lead + "" + "" + [k];
    } else {
      DashedExtended(words, k);
      assert lead + (Dashed(words) + "-" + [k]) + "" == lead + Dashed(words) + "-" + [k];
    }
  }

  lemma RawWordChar(front: string, c: char)
    requires !Separates(c)
    ensures Raw(front + [c]) == Raw(front) + [Lower(c)]
  {
    WordsStep(front, c);
    WordsAreWords(front);
    OneMoreChar(if front != "" && Separates(front[0]) then "-" else "", Words(front), Lower(c));
    if Words(front) == [] {
      AllSeparate(front);
    }
  }

  lemma RawStep(path: string, n: nat)
    requires n < |path|
    ensures var front, c := path[..n], path[n];
            Raw(path[..n + 1]) ==
            if !Separates(c) then Raw(front) + [Lower(c)]
            else if n == 0 || !Separates(path[n - 1]) then Raw(front) + "-"
            else Raw(front)
  {
    assert path[..n + 1] == path[..n] + [path[n]];
    if Separates(path[n]) {
      RawSeparator(path[..n], path[n]);
    } else {
      RawWordChar(path[..n], path[n]);
    }
  }

  lemma {:induction false} AllSeparate(path: string)
    requires Words(path) == []
    ensures forall i :: 0 <= i < |path| ==> Separates(path[i])
  {
    if path != "" {
      AllSeparate(path[..|path| - 1]);
    }
  }

  /** `strings.Trim(s, "-")`. */
  function TrimDashes(s: string): string {
    if s != "" && s[0] == '-' then TrimDashes(s[1..])
    else if s != "" && s[|s| - 1] == '-' then TrimDashes(s[..|s| - 1])
    else s
  }

  lemma TrimTrailing(d: string)
    requires d != "" && d[0] != '-' && d[|d| - 1] != '-'
    ensures TrimDashes(d) == d && TrimDashes(d + "-") == d
  {
    assert (d + "-")[..|d|] == d;
  }

  lemma TrimLeading(s: string)
    ensures TrimDashes("-" + s) == TrimDashes(s)
  {
    assert ("-" + s)[1..] == s;
  }

  lemma TrimAround(d: string, lead: bool, trail: bool)
    requires d != "" && d[0] != '-' && d[|d| - 1] != '-'
    ensures TrimDashes((if lead then "-" else "") + d + (if trail then "-" else "")) == d
  {
    TrimTrailing(d);
    if lead && trail {
      assert "-" + d + "-" == "-" + (d + "-");
      TrimLeading(d + "-");
    } else if lead {
      assert "-" + d + "" == "-" + d;
      TrimLeading(d);
    } else if trail {
      assert "" + d + "-" == d + "-";
    } else {
      assert "" + d + "" == d;
    }
  }

  lemma TrimOfRaw(path: string)
    ensures TrimDashes(Raw(path)) == Dashed(Words(path))
  {
    var words := Words(path);
    WordsAreWords(path);
    if words == [] {
      assert Raw(path) == "" || (Raw(path) == "-" && "-"[1..] == "");
    } else {
      DashedEnds(words);
      TrimAround(Dashed(words), path != "" && Separates(path[0]), Separates(path[|path| - 1]));
    }
  }

  /** `slugifyProjectPath`. */
  method SlugifyProjectPath(path: string) returns (slug: string)
    ensures slug == Slug(path)
  {
    var b := "";
    var lastDash := false;
    for n := 0 to |path|
      invariant b == Raw(path[..n])
      invariant lastDash == (n > 0 && Separates(path[n - 1]))
    {
      RawStep(path, n);
      var r := Lower(path[n]);
      if IsWordChar(r) {
        b := b + [r];
        lastDash := false;
        continue;
      }
      if !lastDash {
        b := b + "-";
        lastDash := true;
      }
    }
    assert path[..|path|] == path;
    TrimOfRaw(path);
    WordsAreWords(path);
    var out := TrimDashes(b);
    if out == "" {
      if Words(path) != [] {
        DashedEnds(Words(path));
      }
      return "root";
    }
    return out;
  }

  // ---- Properties ----

  /** A well-formed slug: non-empty, over a-z, 0-9 and dash, without a leading, trailing or doubled dash. */
  predicate WellFormed(s: string) {
    && s != "" && s[0] != '-' && s[|s| - 1] != '-'
    && (forall i :: 0 <= i < |s| ==> IsWordChar(s[i]) || s[i] == '-')
    && (forall i :: 0 <= i < |s| - 1 ==> !(s[i] == '-' && s[i + 1] == '-'))
  }

  lemma {:induction false} DashedIsWellFormed(words: seq<string>)
    requires AreWords(words) && words != []
    ensures WellFormed(Dashed(words))
  {
    if |words| > 1 {
      var front, last := Dashed(words[..|words| - 1]), words[|words| - 1];
      DashedIsWellFormed(words[..|words| - 1]);
      var s := front + "-" + last;
      forall i | 0 <= i < |s| - 1
        ensures !(s[i] == '-' && s[i + 1] == '-')
      {
        if i < |front| - 1 {
          assert s[i] == front[i] && s[i + 1] == front[i + 1];
        } else if i > |front| {
          assert s[i] == last[i - |front| - 1];
        } else if i == |front| {
          assert s[i + 1] == last[0];
        }
      }
    }
  }

  lemma OwnChar(c: char)
    requires IsWordChar(c)
    ensures Lower(c) == c && !Separates(c)
  {
  }

  lemma WordStarts(before: string, c: char)
    requires IsWordChar(c) && (before == "" || Separates(before[|before| - 1]))
    ensures Words(before + [c]) == Words(before) + [[c]]
  {
    OwnChar(c);
    WordsStep(before, c);
  }

  lemma WordGoesOn(before: string, shorter: string, c: char)
    requires IsWord(shorter) && IsWordChar(c)
    requires Words(before + shorter) == Words(before) + [shorter]
    ensures Words(before + (shorter + [c])) == Words(before) + [shorter + [c]]
  {
    var last := shorter[|shorter| - 1];
    assert (before + shorter)[|before + shorter| - 1] == last;
    OwnChar(last);
    OwnChar(c);
    Regroup(before, shorter, [c]);
    WordsStep(before + shorter, c);
    ExtendLast(Words(before), shorter, c);
  }

  lemma {:induction false} WordsOfWord(before: string, w: string)
    requires IsWord(w) && (before == "" || Separates(before[|before| - 1]))
    ensures Words(before + w) == Words(before) + [w]
  {
    var shorter, c := w[..|w| - 1], w[|w| - 1];
    Snoc(w);
    if shorter == "" {
      WordStarts(before, c);
      assert [c] == w;
    } else {
      WordsOfWord(before, shorter);
      WordGoesOn(before, shorter, c);
    }
  }

  lemma ExtendLast(words: seq<string>, w: string, c: char)
    ensures Extended(words + [w], c) == words + [w + [c]]
  {
  }

  lemma WordsOfOne(w: string)
    requires IsWord(w)
    ensures Words(w) == [w]
  {
    WordsOfWord("", w);
    assert "" + w == w;
  }

  lemma WordsAfterDash(s: string, w: string)
    requires IsWord(w)
    ensures Words(s + "-" + w) == Words(s) + [w]
  {
    WordsStep(s, '-');
    WordsOfWord(s + "-", w);
  }

  /** Reading the words back out of a slug gives the words it was made of. */
  lemma {:induction false} WordsOfDashed(words: seq<string>)
    requires AreWords(words)
    ensures Words(Dashed(words)) == words
  {
    if words != [] {
      var front, last := words[..|words| - 1], words[|words| - 1];
      assert words == front + [last];
      WordsOfDashed(front);
      DashedAppend(front, last);
      if front == [] {
        WordsOfOne(last);
      } else {
        WordsAfterDash(Dashed(front), last);
      }
    }
  }

  /** Main result: every slug is well formed, and slugifying a slug changes nothing. */
  lemma SlugIsStable(path: string)
    ensures WellFormed(Slug(path)) && Slug(Slug(path)) == Slug(path)
  {
    WordsAreWords(path);
    if Words(path) == [] {
      WordsOfDashed(["root"]);
      DashedIsWellFormed(["root"]);
    } else {
      WordsOfDashed(Words(path));
      DashedIsWellFormed(Words(path));
    }
  }

  /** Paths with the same words have the same slug, and otherwise different ones; only the empty list of words and the
      single word `root` share theirs. */
  lemma SlugTellsWords(a: string, b: string)
    ensures Slug(a) == Slug(b) <==>
            Words(a) == Words(b) || (Words(a) == [] && Words(b) == ["root"]) || (Words(b) == [] && Words(a) == ["root"])
  {
    WordsAreWords(a);
    WordsAreWords(b);
    SameDashedSameWords(Words(a), Words(b));
    SameDashedSameWords(Words(a), ["root"]);
    SameDashedSameWords(Words(b), ["root"]);
  }

  /** A word is made of ASCII letters of either case and digits, and of the two other characters whose lower case is one. */
  lemma WordCharsIff(c: char)
    ensures !Separates(c) <==>
            'a' <= c <= 'z' || 'A' <= c <= 'Z' || '0' <= c <= '9' || c == '\U{212A}' || c == '\U{0130}'
  {
  }

  /** The same character, or the two cases of one letter. */
  predicate SameLetter(c: char, d: char) {
    c == d || ('A' <= c <= 'Z' && d == c + ' ') || ('A' <= d <= 'Z' && c == d + ' ')
  }

  lemma SameLetterSameLower(c: char, d: char)
    requires SameLetter(c, d)
    ensures Lower(c) == Lower(d)
  {
  }

  lemma {:induction false} CaseKeepsWords(a: string, b: string)
    requires |a| == |b| && forall k :: 0 <= k < |a| ==> SameLetter(a[k], b[k])
    ensures Words(a) == Words(b)
  {
    if a != "" {
      var n := |a| - 1;
      CaseKeepsWords(a[..n], b[..n]);
      SameLetterSameLower(a[n], b[n]);
      if n > 0 {
        SameLetterSameLower(a[n - 1], b[n - 1]);
      }
    }
  }

  /** Paths that differ only in the case of ASCII letters share a slug. */
  lemma SlugIgnoresCase(a: string, b: string)
    requires |a| == |b| && forall k :: 0 <= k < |a| ==> SameLetter(a[k], b[k])
    ensures Slug(a) == Slug(b)
  {
    CaseKeepsWords(a, b);
  }

  lemma SameDashedSameWords(v: seq<string>, w: seq<string>)
    requires AreWords(v) && AreWords(w)
    ensures Dashed(v) == Dashed(w) <==> v == w
  {
    WordsOfDashed(v);
    WordsOfDashed(w);
  }
}
