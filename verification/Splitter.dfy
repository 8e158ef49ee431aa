/** The chunker's overlapping word-window splitter: what it returns, the loop
    that computes it in 64-bit arithmetic, and what the chunks guarantee. */
module Splitter {
  import opened Words
  import opened Windows

  const MAX_INT64: int := 0x7FFF_FFFF_FFFF_FFFF
  newtype int64 = x: int | -MAX_INT64 - 1 <= x <= MAX_INT64

  // ------------------------------------------------------- normalised settings

  function Size(size: int): (r: int)
    ensures r > 0
  {
    if size <= 0 then 800 else size
  }

  /** Out-of-range overlaps fall back to an eighth of the window, so the step is
      positive whatever the environment variables say. */
  function Overlap(size: int, overlap: int): (r: int)
    ensures 0 <= r < Size(size)
  {
    if overlap < 0 || overlap >= Size(size) then Size(size) / 8 else overlap
  }

  function Stride(size: int, overlap: int): (r: int)
    ensures 0 < r <= Size(size)
  {
    Size(size) - Overlap(size, overlap)
  }

  // ------------------------------------------------------------------ the chunks

  /** The words of each chunk under raw settings `size` and `overlap`. */
  function PieceWords(text: string, size: int, overlap: int): seq<seq<string>> {
    AllWindows(SplitWords(text), Size(size), Stride(size, overlap))
  }

  function JoinAll(windows: seq<seq<string>>): (r: seq<string>)
    ensures |r| == |windows|
    ensures forall i | 0 <= i < |r| :: r[i] == Join(windows[i])
  {
    seq(|windows|, i requires 0 <= i < |windows| => Join(windows[i]))
  }

  /** The chunks of a text. */
  function Pieces(text: string, size: int, overlap: int): seq<string> {
    JoinAll(PieceWords(text, size, overlap))
  }

  /** The chunk says the words from `from` on, `size` of them or as many as are left. */
  predicate Says(words: seq<string>, size: int, from: int, chunk: string)
    requires size > 0
  {
    && 0 <= from < |words|
    && var own := words[from..if from + size < |words| then from + size else |words|];
       chunk == Join(own) && SplitWords(chunk) == own
  }

  /** The later chunk starts with the last `overlap` words of a full chunk before it,
      and has a word of its own. */
  predicate Overlapping(size: int, overlap: int, one: string, next: string)
    requires 0 <= overlap < size
  {
    && |SplitWords(one)| == size && |SplitWords(next)| > overlap
    && SplitWords(one)[size - overlap..] == SplitWords(next)[..overlap]
  }

  /** The chunks are the windows of `size` words that start every `size - overlap`
      words, as far as the text goes: every chunk but the last has `size` words, and
      neighbours share `overlap` of them. */
  ghost predicate AsAsked(text: string, size: int, overlap: int, chunks: seq<string>)
    requires 0 <= overlap < size
  {
    var n, step := |SplitWords(text)|, size - overlap;
    && |chunks| == (if n == 0 then 0 else if n <= size then 1 else 1 + (n - size + step - 1) / step)
    && (forall i | 0 <= i < |chunks| :: Says(SplitWords(text), size, i * step, chunks[i]))
    && (forall i | 0 <= i < |chunks| - 1 :: Overlapping(size, overlap, chunks[i], chunks[i + 1]))
  }

  /** What the settings ask for: a size that is not positive means 800, and an overlap
      out of range an eighth of the size. */
  ghost predicate AsConfigured(text: string, size: int, overlap: int, chunks: seq<string>) {
    && (0 <= overlap < size ==> AsAsked(text, size, overlap, chunks))
    && (size > 0 && (overlap < 0 || overlap >= size) ==> AsAsked(text, size, size / 8, chunks))
    && (size <= 0 && 0 <= overlap < 800 ==> AsAsked(text, 800, overlap, chunks))
    && (size <= 0 && (overlap < 0 || overlap >= 800) ==> AsAsked(text, 800, 100, chunks))
  }

  /** `Split`: the moving-window loop. Every sum is a 64-bit sum, so its
      verification shows that none of them can overflow, and that the branch for
      a non-positive step is never taken. */
  method Split(text: string, rawSize: int64, rawOverlap: int64) returns (chunks: seq<string>)
    requires |text| <= MAX_INT64
    ensures chunks == Pieces(text, rawSize as int, rawOverlap as int)
    ensures AsConfigured(text, rawSize as int, rawOverlap as int, chunks)
  {
    hide AsConfigured;
    PiecesAsConfigured(text, rawSize as int, rawOverlap as int);
    SplitWordsTrimSpace(text);
    WordCountBound(text);
    var trimmed := TrimSpace(text);
    if trimmed == "" {
      return [];
    }
    var size, overlap := rawSize, rawOverlap;
    if size <= 0 {
      size := 800;
    }
    if overlap < 0 || overlap >= size {
      overlap := size / 8;
    }
    var words := SplitWords(trimmed);
    if |words| == 0 {
      return [];
    }
    chunks := SlideWindows(words, size, overlap);
  }

  /** The loop of `Split`, on the words and the normalised settings. */
  method SlideWindows(words: seq<string>, size: int64, overlap: int64) returns (chunks: seq<string>)
    requires words != [] && 0 <= overlap < size
    requires 2 * |words| - 1 <= MAX_INT64
    ensures chunks == JoinAll(AllWindows(words, size as int, (size - overlap) as int))
  {
    var n := |words| as int64;
    chunks := [];
    var step := size - overlap;
    if step <= 0 {
      assert false;
    }
    ghost var all := AllWindows(words, size as int, step as int);
    ghost var i: nat := 0;
    var start: int64 := 0;
    while start < n
      invariant i < |all| && 0 <= start < n && start as int == From(step as int, i)
      invariant start > 0 ==> size < n
      invariant chunks == JoinAll(all[..i])
      decreases n as int - start as int
    {
      WindowBounds(n as int, size as int, step as int, i);
      var end := start + size;
      if end > n {
        end := n;
      }
      chunks := chunks + [Join(words[start as int..end as int])];
      assert words[start as int..end as int] == all[i];
      assert chunks == JoinAll(all[..i + 1]);
      if end == n {
        assert all[..i + 1] == all;
        return;
      }
      start := start + step;
      i := i + 1;
      WindowBounds(n as int, size as int, step as int, i);
    }
    assert false;
  }

  // -------------------------------------------------- what the chunks guarantee

  /** The words of every chunk, by tokenising it again. */
  function Tokenised(chunks: seq<string>): (r: seq<seq<string>>)
    ensures |r| == |chunks|
    ensures forall i | 0 <= i < |r| :: r[i] == SplitWords(chunks[i])
  {
    seq(|chunks|, i requires 0 <= i < |chunks| => SplitWords(chunks[i]))
  }

  /** Tokenising the stored chunks gives back exactly the windows of the text. */
  lemma PiecesTokenise(text: string, size: int, overlap: int)
    ensures Tokenised(Pieces(text, size, overlap)) == PieceWords(text, size, overlap)
  {
    var windows := PieceWords(text, size, overlap);
    SplitWordsGivesWords(text);
    forall i | 0 <= i < |windows| ensures SplitWords(Join(windows[i])) == windows[i] {
      SplitWordsOfJoin(windows[i]);
    }
  }

  /** Shape of the stored chunks, read from their own text: `ApproxTokenCount` is
      the window length, only the last chunk may be short, neighbours share
      exactly `overlap` words and every later chunk has a word of its own. */
  lemma PieceShape(text: string, size: int, overlap: int, i: nat)
    requires i < |Pieces(text, size, overlap)|
    ensures var p := Pieces(text, size, overlap);
            && 0 < ApproxTokenCount(p[i]) <= Size(size)
            && (i < |p| - 1 ==> ApproxTokenCount(p[i]) == Size(size))
            && (i > 0 ==>
                  && ApproxTokenCount(p[i]) > Overlap(size, overlap)
                  && ApproxTokenCount(p[i - 1]) == Size(size)
                  && SplitWords(p[i - 1])[Stride(size, overlap)..] == SplitWords(p[i])[..Overlap(size, overlap)])
  {
    var words := SplitWords(text);
    PiecesTokenise(text, size, overlap);
    var tokens := Tokenised(Pieces(text, size, overlap));
    WindowShape(words, Size(size), Stride(size, overlap), i);
    assert SplitWords(Pieces(text, size, overlap)[i]) == tokens[i];
    if i > 0 {
      WindowShape(words, Size(size), Stride(size, overlap), i - 1);
      assert SplitWords(Pieces(text, size, overlap)[i - 1]) == tokens[i - 1];
    }
  }

  lemma PieceIsWindow(text: string, size: int, overlap: int, i: nat)
    requires i < |Pieces(text, size, overlap)|
    ensures i < Count(|SplitWords(text)|, Size(size), Stride(size, overlap))
    ensures Pieces(text, size, overlap)[i] == Join(Window(SplitWords(text), Size(size), Stride(size, overlap), i))
    ensures SplitWords(Pieces(text, size, overlap)[i])
            == Window(SplitWords(text), Size(size), Stride(size, overlap), i)
  {
    hide SplitWords, Join, Size, Stride, Window, Count;
    PiecesTokenise(text, size, overlap);
    assert Tokenised(Pieces(text, size, overlap))[i] == SplitWords(Pieces(text, size, overlap)[i]);
  }

  lemma PieceSays(text: string, size: int, overlap: int, i: nat)
    requires i < |Pieces(text, size, overlap)|
    ensures Says(SplitWords(text), Size(size), i * Stride(size, overlap), Pieces(text, size, overlap)[i])
  {
    hide SplitWords, Join, Size, Stride, Window, Pieces, Count;
    PieceIsWindow(text, size, overlap, i);
    WindowPlaced(SplitWords(text), Size(size), Stride(size, overlap), i);
  }

  lemma PiecesAsAsked(text: string, size: int, overlap: int)
    ensures AsAsked(text, Size(size), Overlap(size, overlap), Pieces(text, size, overlap))
  {
    hide SplitWords, Join, Pieces, Size, Overlap, Says;
    var p := Pieces(text, size, overlap);
    PieceCount(text, size, overlap);
    forall i: nat | i < |p| ensures Says(SplitWords(text), Size(size), i * Stride(size, overlap), p[i]) {
      PieceSays(text, size, overlap, i);
    }
    forall i: nat | i < |p| - 1 ensures Overlapping(Size(size), Overlap(size, overlap), p[i], p[i + 1]) {
      PieceShape(text, size, overlap, i + 1);
    }
  }

  /** The chunks are what the settings ask for, whatever the settings are. */
  lemma PiecesAsConfigured(text: string, size: int, overlap: int)
    ensures AsConfigured(text, size, overlap, Pieces(text, size, overlap))
  {
    hide AsAsked, Pieces;
    PiecesAsAsked(text, size, overlap);
  }

  /** The chunks together say the text, word for word: drop from every later
      chunk the words it shares with the one before. */
  lemma PiecesReassemble(text: string, size: int, overlap: int)
    ensures Reassemble(Tokenised(Pieces(text, size, overlap)), Overlap(size, overlap)) == SplitWords(text)
  {
    hide SplitWords, AllWindows, JoinAll, Tokenised, Reassemble;
    PiecesTokenise(text, size, overlap);
    ReassembleAll(SplitWords(text), Size(size), Stride(size, overlap));
  }

  /** The stored token counts add up to the words of the text plus one overlap
      for every boundary between chunks. */
  lemma PieceTokenTotal(text: string, size: int, overlap: int)
    ensures var p := Pieces(text, size, overlap);
            TotalLength(Tokenised(p))
            == |SplitWords(text)| + (if p == [] then 0 else Overlap(size, overlap) * (|p| - 1))
  {
    PiecesTokenise(text, size, overlap);
    TotalLengthAll(SplitWords(text), Size(size), Stride(size, overlap), Overlap(size, overlap));
  }

  /** How many chunks a text of `n` words has. */
  lemma PieceCount(text: string, size: int, overlap: int)
    ensures var n, s, t := |SplitWords(text)|, Size(size), Stride(size, overlap);
            |Pieces(text, size, overlap)|
            == if n == 0 then 0 else if n <= s then 1 else 1 + (n - s + t - 1) / t
  {
    CountClosed(|SplitWords(text)|, Size(size), Stride(size, overlap));
  }

  /** Some chunk contains the phrase of `len` words that starts at word `a`. */
  ghost predicate Found(text: string, size: int, overlap: int, a: nat, len: nat) {
    Covered(|SplitWords(text)|, Size(size), Stride(size, overlap), a, len)
  }

  /** A found phrase really is a stretch of some chunk's own words. */
  lemma FoundMeans(text: string, size: int, overlap: int, a: nat, len: nat) returns (i: nat, j: nat)
    requires a + len <= |SplitWords(text)| && Found(text, size, overlap, a, len)
    ensures i < |Pieces(text, size, overlap)|
    ensures var w := SplitWords(Pieces(text, size, overlap)[i]);
            j + len <= |w| && w[j..j + len] == SplitWords(text)[a..a + len]
  {
    var n, s, t := |SplitWords(text)|, Size(size), Stride(size, overlap);
    i :| i < Count(n, s, t) && Holds(n, s, t, i, a, len);
    PiecesTokenise(text, size, overlap);
    WindowBounds(n, s, t, i);
    var w := SplitWords(Pieces(text, size, overlap)[i]);
    assert w == Tokenised(Pieces(text, size, overlap))[i] == Window(SplitWords(text), s, t, i);
    j := a - From(t, i);
    SliceOfSlice(SplitWords(text), From(t, i), To(n, s, t, i), j, j + len);
  }

  /** Every phrase of `len` words is found whole in some chunk, wherever it
      starts, exactly when it has at most `overlap + 1` words, or one chunk holds
      the whole text, or the text has no phrase that long. */
  lemma PhraseContainment(text: string, size: int, overlap: int, len: nat)
    ensures (forall a: nat :: a < |SplitWords(text)| && a + len <= |SplitWords(text)| ==>
                                Found(text, size, overlap, a, len))
            <==> (|| len <= Overlap(size, overlap) + 1
                  || |SplitWords(text)| <= Size(size)
                  || len > |SplitWords(text)|)
  {
    var n := |SplitWords(text)|;
    Containment(n, Size(size), Stride(size, overlap), len);
    assert forall a: nat ::
        Found(text, size, overlap, a, len) <==> Covered(n, Size(size), Stride(size, overlap), a, len);
  }

  /** Only the words matter: trimming the text, or collapsing every run of white
      space to one space, changes no chunk. */
  lemma SplitIgnoresSpacing(text: string, size: int, overlap: int)
    ensures Pieces(TrimSpace(text), size, overlap) == Pieces(text, size, overlap)
    ensures Pieces(Join(SplitWords(text)), size, overlap) == Pieces(text, size, overlap)
  {
    SplitWordsTrimSpace(text);
    SplitWordsGivesWords(text);
    SplitWordsOfJoin(SplitWords(text));
  }

  /** Text the OCR worker accepts always gives at least one chunk. */
  lemma AcceptedHasPieces(text: string, size: int, overlap: int)
    requires Accepted(text)
    ensures Pieces(text, size, overlap) != []
  {
    AcceptedHasWord(text);
  }
}
