/** White space, words and the join of words, as the Go chunker and the Python
    OCR worker see them. */
module Words {

  /** Go's `unicode.IsSpace`: the Unicode White_Space property. */
  predicate IsSpace(c: char) {
    var n := c as int;
    || 0x09 <= n <= 0x0D || n == 0x20 || n == 0x85 || n == 0xA0 || n == 0x1680
    || 0x2000 <= n <= 0x200A || n == 0x2028 || n == 0x2029 || n == 0x202F
    || n == 0x205F || n == 0x3000
  }

  /** Python's `str.isspace` for one character: the four ASCII separators
      0x1C..0x1F count as well. */
  predicate PyIsSpace(c: char) {
    IsSpace(c) || 0x1C <= c as int <= 0x1F
  }

  function TrimLeft(s: string, space: char -> bool): (r: string)
    ensures |r| <= |s|
    ensures r != "" ==> !space(r[0])
  {
    if s != "" && space(s[0]) then TrimLeft(s[1..], space) else s
  }

  function TrimRight(s: string, space: char -> bool): (r: string)
    ensures |r| <= |s|
    ensures r != "" ==> !space(r[|r| - 1])
  {
    if s != "" && space(s[|s| - 1]) then TrimRight(s[..|s| - 1], space) else s
  }

  /** Go's `strings.TrimSpace`. */
  function TrimSpace(s: string): string {
    TrimRight(TrimLeft(s, IsSpace), IsSpace)
  }

  /** Python's `str.strip()`. */
  function PyStrip(s: string): string {
    TrimRight(TrimLeft(s, PyIsSpace), PyIsSpace)
  }

  /** The OCR worker's acceptance test: `text and text.strip()`. */
  predicate Accepted(s: string) {
    PyStrip(s) != ""
  }

  /** Length of the longest prefix without white space. */
  function WordEnd(s: string): (k: nat)
    ensures k <= |s|
    ensures forall i | 0 <= i < k :: !IsSpace(s[i])
    ensures k < |s| ==> IsSpace(s[k])
  {
    if s == "" || IsSpace(s[0]) then 0 else 1 + WordEnd(s[1..])
  }

  /** The chunker's `splitWords`: maximal runs of non-space characters. */
  function SplitWords(s: string): seq<string>
    decreases |s|
  {
    if s == "" then []
    else if IsSpace(s[0]) then SplitWords(s[1..])
    else [s[..WordEnd(s)]] + SplitWords(s[WordEnd(s)..])
  }

  /** The chunker's `ApproxTokenCount`. */
  function ApproxTokenCount(s: string): nat {
    |SplitWords(s)|
  }

  /** Go's `strings.Join(words, " ")`. */
  function Join(words: seq<string>): string {
    if words == [] then ""
    else if |words| == 1 then words[0]
    else words[0] + " " + Join(words[1..])
  }

  /** A non-empty word without white space. */
  predicate IsWord(w: string) {
    w != "" && forall i | 0 <= i < |w| :: !IsSpace(w[i])
  }

  ghost predicate AllWords(words: seq<string>) {
    forall i | 0 <= i < |words| :: IsWord(words[i])
  }

  /** The characters of `s` that are not white space, in order. */
  function Ink(s: string): string {
    if s == "" then "" else (if IsSpace(s[0]) then "" else [s[0]]) + Ink(s[1..])
  }

  function Concat(words: seq<string>): string {
    if words == [] then "" else words[0] + Concat(words[1..])
  }

  // ---------------------------------------------------------------- splitting

  lemma {:induction false} SplitWordsGivesWords(s: string)
    ensures AllWords(SplitWords(s))
    decreases |s|
  {
    if s == "" {
    } else if IsSpace(s[0]) {
      SplitWordsGivesWords(s[1..]);
    } else {
      SplitWordsGivesWords(s[WordEnd(s)..]);
    }
  }

  lemma {:induction false} InkOfWord(w: string, rest: string)
    requires forall i | 0 <= i < |w| :: !IsSpace(w[i])
    ensures Ink(w + rest) == w + Ink(rest)
  {
    if w == "" {
      assert w + rest == rest;
    } else {
      assert (w + rest)[1..] == w[1..] + rest;
      InkOfWord(w[1..], rest);
    }
  }

  /** Nothing but white space is dropped: the words spell the text's ink. */
  lemma {:induction false} SplitWordsKeepsInk(s: string)
    ensures Concat(SplitWords(s)) == Ink(s)
    decreases |s|
  {
    if s == "" {
    } else if IsSpace(s[0]) {
      SplitWordsKeepsInk(s[1..]);
    } else {
      var k := WordEnd(s);
      SplitWordsKeepsInk(s[k..]);
      assert s == s[..k] + s[k..];
      InkOfWord(s[..k], s[k..]);
    }
  }

  lemma {:induction false} WordEndStops(w: string, rest: string)
    requires forall i | 0 <= i < |w| :: !IsSpace(w[i])
    requires rest != "" ==> IsSpace(rest[0])
    ensures WordEnd(w + rest) == |w|
  {
    if w == "" {
      assert w + rest == rest;
    } else {
      assert (w + rest)[1..] == w[1..] + rest;
      WordEndStops(w[1..], rest);
    }
  }

  lemma SplitWordsPrepend(w: string, rest: string)
    requires IsWord(w)
    requires rest != "" ==> IsSpace(rest[0])
    ensures SplitWords(w + rest) == [w] + SplitWords(rest)
  {
    WordEndStops(w, rest);
    assert (w + rest)[..|w|] == w;
    assert (w + rest)[|w|..] == rest;
  }

  /** Tokenise after join is the identity on words. */
  lemma {:induction false} SplitWordsOfJoin(words: seq<string>)
    requires AllWords(words)
    ensures SplitWords(Join(words)) == words
  {
    if words == [] {
    } else if |words| == 1 {
      SplitWordsPrepend(words[0], "");
      assert words[0] + "" == words[0];
    } else {
      var tail := words[1..];
      SplitWordsOfJoin(tail);
      assert SplitWords(" " + Join(tail)) == SplitWords(Join(tail)) by {
        assert (" " + Join(tail))[1..] == Join(tail);
      }
      SplitWordsPrepend(words[0], " " + Join(tail));
      assert words[0] + " " + Join(tail) == words[0] + (" " + Join(tail));
    }
  }

  /** Words and the spaces between them fit in the text: 2n - 1 <= |s|. */
  lemma {:induction false} WordCountBound(s: string)
    ensures SplitWords(s) != [] ==> 2 * |SplitWords(s)| - 1 <= |s|
    decreases |s|
  {
    if s == "" {
    } else if IsSpace(s[0]) {
      WordCountBound(s[1..]);
    } else {
      var rest := s[WordEnd(s)..];
      assert WordEnd(s) >= 1;
      if rest != "" {
        WordCountBound(rest[1..]);
      }
    }
  }

  // ----------------------------------------------------------------- trimming

  lemma {:induction false} SplitWordsTrimLeft(s: string)
    ensures SplitWords(TrimLeft(s, IsSpace)) == SplitWords(s)
  {
    if s != "" && IsSpace(s[0]) {
      SplitWordsTrimLeft(s[1..]);
    }
  }

  lemma {:induction false} SplitWordsDropLastSpace(s: string)
    requires s != "" && IsSpace(s[|s| - 1])
    ensures SplitWords(s[..|s| - 1]) == SplitWords(s)
    decreases |s|
  {
    var cut := s[..|s| - 1];
    if IsSpace(s[0]) {
      if |s| > 1 {
        SplitWordsDropLastSpace(s[1..]);
        assert s[1..][..|s| - 2] == cut[1..];
      }
    } else {
      var k := WordEnd(s);
      var rest := s[k..];
      assert k < |s|;
      assert cut == s[..k] + rest[..|rest| - 1];
      assert s == s[..k] + rest;
      assert IsWord(s[..k]);
      SplitWordsPrepend(s[..k], rest[..|rest| - 1]);
      SplitWordsDropLastSpace(rest);
    }
  }

  lemma {:induction false} SplitWordsTrimRight(s: string)
    ensures SplitWords(TrimRight(s, IsSpace)) == SplitWords(s)
    decreases |s|
  {
    if s != "" && IsSpace(s[|s| - 1]) {
      SplitWordsTrimRight(s[..|s| - 1]);
      SplitWordsDropLastSpace(s);
    }
  }

  lemma SplitWordsTrimSpace(s: string)
    ensures SplitWords(TrimSpace(s)) == SplitWords(s)
  {
    SplitWordsTrimRight(TrimLeft(s, IsSpace));
    SplitWordsTrimLeft(s);
  }

  /** A text has no word exactly when trimming empties it. */
  lemma {:induction false} NoWordsIffBlank(s: string)
    ensures SplitWords(s) == [] <==> forall i | 0 <= i < |s| :: IsSpace(s[i])
    decreases |s|
  {
    if s == "" {
    } else if IsSpace(s[0]) {
      NoWordsIffBlank(s[1..]);
      assert forall i | 0 < i < |s| :: s[i] == s[1..][i - 1];
    }
  }

  lemma {:induction false} TrimLeftKeeps(s: string, space: char -> bool, i: nat)
    requires i < |s| && !space(s[i])
    ensures TrimLeft(s, space) != ""
  {
    if space(s[0]) {
      TrimLeftKeeps(s[1..], space, i - 1);
    }
  }

  lemma {:induction false} TrimLeftKeepsInk(s: string, space: char -> bool)
    requires TrimLeft(s, space) != ""
    ensures exists i | 0 <= i < |s| :: !space(s[i])
  {
    if space(s[0]) {
      TrimLeftKeepsInk(s[1..], space);
      var i :| 0 <= i < |s[1..]| && !space(s[1..][i]);
      assert !space(s[i + 1]);
    } else {
      assert !space(s[0]);
    }
  }

  /** Text the Python worker accepts holds at least one Go word, because every
      Go space is a Python space. */
  lemma AcceptedHasWord(s: string)
    requires Accepted(s)
    ensures SplitWords(s) != []
    ensures TrimSpace(s) != ""
  {
    var l := TrimLeft(s, PyIsSpace);
    TrimLeftKeepsInk(s, PyIsSpace);
    var i :| 0 <= i < |s| && !PyIsSpace(s[i]);
    assert !IsSpace(s[i]);
    NoWordsIffBlank(s);
    SplitWordsTrimSpace(s);
  }

  // ---------------------------------------------------- the same, by code points

  /** The code points at which the chunker cuts: Unicode's White_Space property. */
  const SPACES: set<int> := {
    0x0009, 0x000A, 0x000B, 0x000C, 0x000D, 0x0020, 0x0085, 0x00A0, 0x1680,
    0x2000, 0x2001, 0x2002, 0x2003, 0x2004, 0x2005, 0x2006, 0x2007, 0x2008, 0x2009, 0x200A,
    0x2028, 0x2029, 0x202F, 0x205F, 0x3000
  }

  /** The code points that Python's `strip` removes: those, and the four separators. */
  const STRIPPED: set<int> := SPACES + {0x001C, 0x001D, 0x001E, 0x001F}

  lemma SpacesListed(c: char)
    ensures IsSpace(c) <==> c as int in SPACES
    ensures PyIsSpace(c) <==> c as int in STRIPPED
  {
  }

  lemma SplitWordsSkipsSpace(s: string)
    requires s != "" && IsSpace(s[0])
    ensures SplitWords(s) == SplitWords(s[1..])
  {
  }

  lemma {:induction false} SpaceCuts(a: string, c: char, b: string)
    requires IsSpace(c)
    ensures SplitWords(a + [c] + b) == SplitWords(a) + SplitWords(b)
    decreases |a|
  {
    hide SplitWords, IsSpace;
    if a == "" {
      assert (a + [c] + b)[1..] == b;
      SplitWordsSkipsSpace(a + [c] + b);
      assert SplitWords(a) == [] by { NoWords(); }
    } else if IsSpace(a[0]) {
      assert (a + [c] + b)[1..] == a[1..] + [c] + b;
      SplitWordsSkipsSpace(a + [c] + b);
      SplitWordsSkipsSpace(a);
      SpaceCuts(a[1..], c, b);
    } else {
      var w, rest := a[..WordEnd(a)], a[WordEnd(a)..];
      FirstWord(a);
      assert a == w + rest;
      Regroup(w, rest, c, b);
      SplitWordsPrepend(w, rest + [c] + b);
      SplitWordsPrepend(w, rest);
      SpaceCuts(rest, c, b);
    }
  }

  lemma NoWords()
    ensures SplitWords("") == []
  {
  }

  lemma FirstWord(a: string)
    requires a != "" && !IsSpace(a[0])
    ensures WordEnd(a) > 0 && IsWord(a[..WordEnd(a)])
  {
  }

  lemma Regroup(w: string, rest: string, c: char, b: string)
    ensures w + rest + [c] + b == w + (rest + [c] + b)
  {
  }

  /** Each of the listed characters separates what stands before it from what stands
      after it, wherever it stands. */
  lemma SpaceSeparates(a: string, c: char, b: string)
    requires c as int in SPACES
    ensures SplitWords(a + [c] + b) == SplitWords(a) + SplitWords(b)
  {
    hide SplitWords;
    SpacesListed(c);
    SpaceCuts(a, c, b);
  }

  /** No other character separates anything. */
  lemma UnspacedIsOneWord(s: string)
    requires s != "" && forall i | 0 <= i < |s| :: s[i] as int !in SPACES
    ensures SplitWords(s) == [s]
  {
    forall i | 0 <= i < |s| ensures !IsSpace(s[i]) {
      SpacesListed(s[i]);
    }
    SplitWordsPrepend(s, "");
    assert s + "" == s;
  }

  /** A text is refused exactly when each of its characters is one of those that
      `strip` removes. */
  lemma RefusedExactly(s: string)
    ensures !Accepted(s) <==> forall i | 0 <= i < |s| :: s[i] as int in STRIPPED
  {
    var l := TrimLeft(s, PyIsSpace);
    if Accepted(s) {
      TrimLeftKeepsInk(s, PyIsSpace);
      var i :| 0 <= i < |s| && !PyIsSpace(s[i]);
      SpacesListed(s[i]);
    } else if i :| 0 <= i < |s| && s[i] as int !in STRIPPED {
      SpacesListed(s[i]);
      TrimLeftKeeps(s, PyIsSpace, i);
      TrimRightKeeps(l, PyIsSpace);
    }
  }

  lemma {:induction false} TrimRightKeeps(s: string, space: char -> bool)
    requires s != "" && !space(s[0])
    ensures TrimRight(s, space) != ""
    decreases |s|
  {
    if space(s[|s| - 1]) {
      TrimRightKeeps(s[..|s| - 1], space);
    }
  }

  /** Joined words stand in their order with one space between neighbours. */
  lemma {:induction false} JoinConcat(a: seq<string>, b: seq<string>)
    ensures a != [] && b != [] ==> Join(a + b) == Join(a) + [' '] + Join(b)
    ensures forall w: string :: Join([w]) == w
    ensures Join([]) == ""
  {
    if |a| == 1 && b != [] {
      assert (a + b)[1..] == b;
    } else if a != [] && b != [] {
      assert (a + b)[1..] == a[1..] + b;
      JoinConcat(a[1..], b);
    }
  }
}
