/**
 * The few pieces of `java.lang.String` and `java.util.regex` the customer core
 * relies on, restated over `seq<char>` with ASCII-only case mapping and ONE
 * whitespace predicate:
 *   - `Trim`       ~ `String.trim()`
 *   - `HasText`    ~ Spring's `StringUtils.hasText`
 *   - `Lower`      ~ `String.toLowerCase()`, `UpperChar` ~ `Character.toUpperCase`
 *   - `Words`      ~ `Pattern.compile("\\s+").splitAsStream(..)` followed by
 *                    `.filter(t -> !t.isEmpty())`
 *   - `Join`       ~ `Collectors.joining(" ")`
 */
module Text {

  /** Whitespace: the regex class `\s`, that is space, tab, LF, VT, FF and CR. */
  predicate IsSpace(c: char) { c == ' ' || '\t' <= c <= '\r' }

  predicate IsDigit(c: char) { '0' <= c <= '9' }
  predicate IsUpper(c: char) { 'A' <= c <= 'Z' }
  predicate IsLower(c: char) { 'a' <= c <= 'z' }
  predicate IsLetter(c: char) { IsUpper(c) || IsLower(c) }

  function LowerChar(c: char): (d: char)
    ensures !IsUpper(d)
    ensures IsSpace(d) == IsSpace(c)
    ensures !IsUpper(c) ==> d == c
  {
    if IsUpper(c) then (c as int + 32) as char else c
  }

  function UpperChar(c: char): (d: char)
    ensures !IsLower(d)
    ensures IsSpace(d) == IsSpace(c)
    ensures LowerChar(d) == LowerChar(c)
  {
    if IsLower(c) then (c as int - 32) as char else c
  }

  /** No upper-case letter anywhere: what `Lower` produces. */
  predicate NoUpper(s: string) { forall i :: 0 <= i < |s| ==> !IsUpper(s[i]) }

  function Lower(s: string): (r: string)
    ensures |r| == |s|
    ensures forall i :: 0 <= i < |s| ==> r[i] == LowerChar(s[i])
  {
    seq(|s|, i requires 0 <= i < |s| => LowerChar(s[i]))
  }

  lemma LowerConcat(a: string, b: string)
    ensures Lower(a + b) == Lower(a) + Lower(b)
  {
    assert forall i :: 0 <= i < |a + b| ==> Lower(a + b)[i] == (Lower(a) + Lower(b))[i];
  }

  lemma LowerOfNoUpper(s: string)
    requires NoUpper(s)
    ensures Lower(s) == s
  {
    assert forall i :: 0 <= i < |s| ==> Lower(s)[i] == s[i];
  }

  lemma LowerIdempotent(s: string)
    ensures NoUpper(Lower(s))
    ensures Lower(Lower(s)) == Lower(s)
  {
    LowerOfNoUpper(Lower(s));
  }

  /** Lower-case every string of a list. */
  function LowerAll(ws: seq<string>): (r: seq<string>)
    ensures |r| == |ws|
    ensures forall i :: 0 <= i < |ws| ==> r[i] == Lower(ws[i])
  {
    seq(|ws|, i requires 0 <= i < |ws| => Lower(ws[i]))
  }

  // ---------------------------------------------------------------- trimming

  function TrimStart(s: string): (r: string)
    ensures |r| <= |s| && r == s[|s| - |r|..]
    ensures r == [] || !IsSpace(r[0])
    ensures forall i :: 0 <= i < |s| - |r| ==> IsSpace(s[i])
  {
    if s != [] && IsSpace(s[0]) then TrimStart(s[1..]) else s
  }

  function TrimEnd(s: string): (r: string)
    ensures |r| <= |s| && r == s[..|r|]
    ensures r == [] || !IsSpace(r[|r| - 1])
    ensures forall i :: |r| <= i < |s| ==> IsSpace(s[i])
  {
    if s != [] && IsSpace(s[|s| - 1]) then TrimEnd(s[..|s| - 1]) else s
  }

  /** `String.trim()`: drops the whitespace at both ends. */
  function Trim(s: string): string
  {
    TrimEnd(TrimStart(s))
  }

  /** Neither end is whitespace. */
  predicate Trimmed(s: string) { s == [] || (!IsSpace(s[0]) && !IsSpace(s[|s| - 1])) }

  lemma TrimFacts(s: string)
    ensures Trimmed(Trim(s))
    ensures |Trim(s)| <= |s|
    ensures Trimmed(s) ==> Trim(s) == s
  {
    var t := TrimStart(s);
    var r := TrimEnd(t);
    if r != [] {
      assert r[0] == t[0];
    }
  }

  /** One space on either side of a trimmed, non-empty text is trimmed away. */
  /** A text with no whitespace at either end has text and is its own trim. */
  lemma TrimmedWord(s: string)
    requires s != [] && !IsSpace(s[0]) && !IsSpace(s[|s| - 1])
    ensures HasText(s) && Trim(s) == s
  {
    TrimFacts(s);
  }

  lemma TrimPadded(s: string)
    requires s != [] && Trimmed(s)
    ensures Trim([' '] + s + [' ']) == s
  {
    var p := [' '] + s + [' '];
    assert p[1..] == s + [' '];
    assert TrimStart(p) == TrimStart(s + [' ']) == s + [' '];
    assert (s + [' '])[..|s|] == s;
    assert TrimEnd(s + [' ']) == TrimEnd(s) == s;
  }

  lemma TrimIdempotent(s: string)
    ensures Trim(Trim(s)) == Trim(s)
  {
    TrimFacts(s);
    TrimFacts(Trim(s));
  }

  /** `StringUtils.hasText`: some character is not whitespace. */
  predicate HasText(s: string) { exists i :: 0 <= i < |s| && !IsSpace(s[i]) }

  lemma HasTextIffTrimNonEmpty(s: string)
    ensures HasText(s) <==> Trim(s) != []
  {
    var t := TrimStart(s);
    if t != [] {
      assert s[|s| - |t|] == t[0];
      assert TrimEnd(t) != [];
    }
  }

  /** Lower-casing commutes with trimming, because it keeps whitespace where it is. */
  lemma LowerKeepsTrimmed(s: string)
    requires Trimmed(s)
    ensures Trimmed(Lower(s))
  {
  }

  // ---------------------------------------------------------- words and join

  /** A token of a whitespace split: non-empty and free of whitespace. */
  predicate IsWord(w: string) { |w| > 0 && forall i :: 0 <= i < |w| ==> !IsSpace(w[i]) }

  predicate AllWords(ws: seq<string>) { forall i :: 0 <= i < |ws| ==> IsWord(ws[i]) }

  /** Length of the leading run of non-whitespace characters. */
  function Span(s: string): (n: nat)
    ensures n <= |s|
    ensures forall i :: 0 <= i < n ==> !IsSpace(s[i])
    ensures n < |s| ==> IsSpace(s[n])
  {
    if s == [] || IsSpace(s[0]) then 0 else 1 + Span(s[1..])
  }

  /** The maximal runs of non-whitespace characters of `s`, in order. */
  function Words(s: string): (ws: seq<string>)
    ensures AllWords(ws)
    decreases |s|
  {
    if s == [] then []
    else if IsSpace(s[0]) then Words(s[1..])
    else
      var n := Span(s);
      [s[..n]] + Words(s[n..])
  }

  /** The words separated by single spaces. */
  function Join(ws: seq<string>): string
  {
    if |ws| == 0 then []
    else if |ws| == 1 then ws[0]
    else ws[0] + " " + Join(ws[1..])
  }

  lemma {:induction false} SpanOfWordThenBreak(a: string, b: string)
    requires forall i :: 0 <= i < |a| ==> !IsSpace(a[i])
    requires b == [] || IsSpace(b[0])
    ensures Span(a + b) == |a|
  {
    if a != [] {
      assert (a + b)[1..] == a[1..] + b;
      SpanOfWordThenBreak(a[1..], b);
    }
  }

  /** A word followed by whitespace (or nothing) splits off as the first word. */
  lemma WordsOfWordThen(w: string, b: string)
    requires IsWord(w) && (b == [] || IsSpace(b[0]))
    ensures Words(w + b) == [w] + Words(b)
  {
    SpanOfWordThenBreak(w, b);
    assert (w + b)[..|w|] == w && (w + b)[|w|..] == b;
  }

  lemma {:induction false} WordsSkipBlank(g: string, b: string)
    requires forall i :: 0 <= i < |g| ==> IsSpace(g[i])
    ensures Words(g + b) == Words(b)
  {
    if g != [] {
      assert (g + b)[1..] == g[1..] + b;
      WordsSkipBlank(g[1..], b);
    } else {
      assert g + b == b;
    }
  }

  /** Two words with a run of whitespace between them. */
  lemma WordsOfTwo(a: string, g: string, b: string)
    requires IsWord(a) && IsWord(b) && g != []
    requires forall i :: 0 <= i < |g| ==> IsSpace(g[i])
    ensures Words(a + g + b) == [a, b]
  {
    assert a + g + b == a + (g + b);
    WordsOfWordThen(a, g + b);
    WordsSkipBlank(g, b);
    WordsOfWordThen(b, []);
    assert b + [] == b;
  }

  lemma TrimOfWordGapWord(a: string, g: string, b: string)
    requires IsWord(a) && IsWord(b)
    ensures Trim(a + g + b) == a + g + b
  {
    var t := a + g + b;
    assert t[0] == a[0];
    assert t[|t| - 1] == b[|b| - 1];
    TrimFacts(t);
  }

  lemma JoinTwo(a: string, b: string)
    ensures Join([a, b]) == a + " " + b
  {
    assert [a, b][1..] == [b];
  }

  lemma {:induction false} WordsOfJoin(ws: seq<string>)
    requires AllWords(ws)
    ensures Words(Join(ws)) == ws
  {
    if |ws| == 1 {
      var w := ws[0];
      assert w + [] == w;
      SpanOfWordThenBreak(w, []);
      assert w[..|w|] == w && w[|w|..] == [];
    } else if |ws| > 1 {
      var w, rest := ws[0], Join(ws[1..]);
      var s := Join(ws);
      assert s == w + (" " + rest);
      SpanOfWordThenBreak(w, " " + rest);
      assert s[..|w|] == w;
      assert s[|w|..] == " " + rest;
      assert (" " + rest)[1..] == rest;
      WordsOfJoin(ws[1..]);
    }
  }

  lemma {:induction false} JoinEnds(ws: seq<string>)
    requires AllWords(ws) && |ws| > 0
    ensures |Join(ws)| > 0 && !IsSpace(Join(ws)[0]) && !IsSpace(Join(ws)[|Join(ws)| - 1])
  {
    if |ws| > 1 {
      JoinEnds(ws[1..]);
    }
  }

  /**
   * No whitespace at either end, no two whitespace characters side by side, and
   * every whitespace character a plain space.
   */
  predicate SingleSpaced(r: string)
  {
    forall i :: 0 <= i < |r| && IsSpace(r[i]) ==>
      r[i] == ' ' && 0 < i < |r| - 1 && !IsSpace(r[i - 1]) && !IsSpace(r[i + 1])
  }

  lemma {:induction false} JoinSingleSpaced(ws: seq<string>)
    requires AllWords(ws)
    ensures SingleSpaced(Join(ws))
    ensures Trimmed(Join(ws))
  {
    if |ws| > 1 {
      var w, rest := ws[0], Join(ws[1..]);
      JoinSingleSpaced(ws[1..]);
      JoinEnds(ws[1..]);
      var s := Join(ws);
      assert s == w + " " + rest;
      forall i | 0 <= i < |s| && IsSpace(s[i])
        ensures s[i] == ' ' && 0 < i < |s| - 1 && !IsSpace(s[i - 1]) && !IsSpace(s[i + 1])
      {
        if i > |w| {
          var j := i - |w| - 1;
          assert s[i] == rest[j];
          assert s[i - 1] == rest[j - 1] && s[i + 1] == rest[j + 1];
        }
      }
    } else if |ws| == 1 {
      JoinEnds(ws);
    }
  }

  lemma {:induction false} WordsFromNoUpper(s: string)
    requires NoUpper(s)
    ensures forall i :: 0 <= i < |Words(s)| ==> NoUpper(Words(s)[i])
    decreases |s|
  {
    if s != [] {
      if IsSpace(s[0]) {
        WordsFromNoUpper(s[1..]);
      } else {
        WordsFromNoUpper(s[Span(s)..]);
      }
    }
  }

  // --------------------------------------------------- non-whitespace content

  /** The characters of `s` that are not whitespace, in order. */
  function Letters(s: string): string
  {
    if s == [] then [] else (if IsSpace(s[0]) then [] else [s[0]]) + Letters(s[1..])
  }

  function Concat(ws: seq<string>): string
  {
    if ws == [] then [] else ws[0] + Concat(ws[1..])
  }

  lemma {:induction false} LettersConcat(a: string, b: string)
    ensures Letters(a + b) == Letters(a) + Letters(b)
  {
    if a != [] {
      assert (a + b)[1..] == a[1..] + b;
      LettersConcat(a[1..], b);
    } else {
      assert a + b == b;
    }
  }

  lemma {:induction false} LettersOfSpaceFree(a: string)
    requires forall i :: 0 <= i < |a| ==> !IsSpace(a[i])
    ensures Letters(a) == a
  {
    if a != [] {
      LettersOfSpaceFree(a[1..]);
    }
  }

  lemma {:induction false} LettersOfBlank(a: string)
    requires forall i :: 0 <= i < |a| ==> IsSpace(a[i])
    ensures Letters(a) == []
  {
    if a != [] {
      LettersOfBlank(a[1..]);
    }
  }

  lemma {:induction false} LettersOfJoin(ws: seq<string>)
    requires AllWords(ws)
    ensures Letters(Join(ws)) == Concat(ws)
  {
    if |ws| == 1 {
      LettersOfSpaceFree(ws[0]);
      assert Concat(ws) == ws[0] + Concat([]);
    } else if |ws| > 1 {
      var w, rest := ws[0], Join(ws[1..]);
      LettersConcat(w + " ", rest);
      LettersConcat(w, " ");
      LettersOfSpaceFree(w);
      assert Letters(" ") == [] + Letters([]);
      LettersOfJoin(ws[1..]);
    }
  }

  lemma {:induction false} ConcatOfWords(s: string)
    ensures Concat(Words(s)) == Letters(s)
    decreases |s|
  {
    if s != [] {
      if IsSpace(s[0]) {
        ConcatOfWords(s[1..]);
      } else {
        var n := Span(s);
        assert s == s[..n] + s[n..];
        LettersConcat(s[..n], s[n..]);
        LettersOfSpaceFree(s[..n]);
        ConcatOfWords(s[n..]);
      }
    }
  }

  lemma {:induction false} LettersTrimStart(s: string)
    ensures Letters(TrimStart(s)) == Letters(s)
  {
    if s != [] && IsSpace(s[0]) {
      LettersTrimStart(s[1..]);
    }
  }

  lemma {:induction false} LettersTrimEnd(s: string)
    ensures Letters(TrimEnd(s)) == Letters(s)
  {
    if s != [] && IsSpace(s[|s| - 1]) {
      var p, last := s[..|s| - 1], [s[|s| - 1]];
      assert s == p + last;
      LettersConcat(p, last);
      assert Letters(last) == [] + Letters([]);
      LettersTrimEnd(p);
    }
  }

  lemma TrimKeepsLetters(s: string)
    ensures Letters(Trim(s)) == Letters(s)
  {
    LettersTrimStart(s);
    LettersTrimEnd(TrimStart(s));
  }

  // ------------------------------------------------- case against the others

  lemma {:induction false} LowerTrimStart(s: string)
    ensures TrimStart(Lower(s)) == Lower(TrimStart(s))
  {
    if s != [] && IsSpace(s[0]) {
      assert Lower(s)[1..] == Lower(s[1..]);
      LowerTrimStart(s[1..]);
    }
  }

  lemma {:induction false} LowerTrimEnd(s: string)
    ensures TrimEnd(Lower(s)) == Lower(TrimEnd(s))
  {
    if s != [] && IsSpace(s[|s| - 1]) {
      assert Lower(s)[..|s| - 1] == Lower(s[..|s| - 1]);
      LowerTrimEnd(s[..|s| - 1]);
    }
  }

  /** Trimming and lower-casing commute. */
  lemma LowerTrim(s: string)
    ensures Trim(Lower(s)) == Lower(Trim(s))
  {
    LowerTrimStart(s);
    LowerTrimEnd(TrimStart(s));
  }

  /** Lower-casing a joined list lower-cases each of its parts. */
  lemma {:induction false} LowerJoin(ws: seq<string>)
    ensures Lower(Join(ws)) == Join(LowerAll(ws))
  {
    if |ws| > 1 {
      LowerConcat(ws[0] + " ", Join(ws[1..]));
      LowerConcat(ws[0], " ");
      assert Lower(" ") == " ";
      assert LowerAll(ws)[1..] == LowerAll(ws[1..]);
      LowerJoin(ws[1..]);
    }
  }
}
