/** The sliding-window chunker of the summarizer (`_chunk_text`): a text no
    longer than the window is one chunk; a longer one is cut into windows of
    `size` characters whose starts are `step = max(1, size - overlap)` apart. */
module Chunker {
  import opened Text

  // ---------------------------------------------------------------------
  // Python slicing

  /** How Python normalises a slice bound `i` for a sequence of length `n`:
      a negative bound counts from the end, and the result is clamped to
      `0..n`. */
  function ClampIndex(i: int, n: nat): (r: nat)
    ensures r <= n
    ensures 0 <= i <= n ==> r == i
  {
    if i < 0 then (if i + n < 0 then 0 else i + n)
    else if i > n then n
    else i
  }

  /** Python's `s[i:j]`. */
  function PySlice(s: string, i: int, j: int): string {
    var a, b := ClampIndex(i, |s|), ClampIndex(j, |s|);
    if a < b then s[a..b] else []
  }

  function Min(a: int, b: int): int {
    if a <= b then a else b
  }

  // ---------------------------------------------------------------------
  // Ceiling division

  /** The number of window starts `0, d, 2d, ...` below `n`. */
  function CeilDiv(n: nat, d: int): nat
    requires d >= 1
  {
    (n + d - 1) / d
  }

  lemma MulLeft(a: int, b: int, d: int)
    requires a <= b && d >= 0
    ensures a * d <= b * d
  {
    assert (b - a) * d >= 0;
  }

  /** `CeilDiv(n, d)` windows reach the end of the text and the last one starts
      before it. */
  lemma CeilDivBounds(n: nat, d: int)
    requires d >= 1
    ensures CeilDiv(n, d) * d >= n
    ensures CeilDiv(n, d) >= 1 ==> (CeilDiv(n, d) - 1) * d < n
    ensures n > 0 ==> CeilDiv(n, d) >= 1
  {
    var m := CeilDiv(n, d);
    var r := (n + d - 1) % d;
    assert n + d - 1 == m * d + r;
    assert (m - 1) * d == m * d - d;
  }

  /** The only count of windows that reaches the end with its last window
      starting before the end is `CeilDiv(n, d)`. */
  lemma CeilDivUnique(n: nat, d: int, j: nat)
    requires d >= 1
    requires j * d >= n
    requires j == 0 || (j - 1) * d < n
    ensures j == CeilDiv(n, d)
  {
    var m := CeilDiv(n, d);
    CeilDivBounds(n, d);
    if j < m {
      MulLeft(j, m - 1, d);
    } else if j > m {
      MulLeft(m, j - 1, d);
    }
  }

  /** Every window start below the count lies inside the text. */
  lemma StartInside(n: nat, d: int, k: nat)
    requires d >= 1 && k < CeilDiv(n, d)
    ensures k * d < n
  {
    CeilDivBounds(n, d);
    MulLeft(k, CeilDiv(n, d) - 1, d);
  }

  // ---------------------------------------------------------------------
  // The chunker

  /** `max(1, size - overlap)`. */
  function Step(size: int, overlap: int): (step: int)
    ensures step >= 1
    ensures size - overlap >= 1 ==> step == size - overlap
  {
    if size - overlap > 1 then size - overlap else 1
  }

  /** The windows the chunker's loop takes from position `i` on: one window
      of `size` characters at `i`, then the windows from `i + step`, until
      `i` reaches the end of the text. */
  function Windows(text: string, size: int, step: int, i: nat): seq<string>
    requires step >= 1
    decreases |text| - i
  {
    if i >= |text| then [] else [PySlice(text, i, i + size)] + Windows(text, size, step, i + step)
  }

  /** The chunks of `_chunk_text`: the whole text when it fits in one
      window, otherwise the windows from position 0. */
  function Chunks(text: string, size: int, overlap: int): seq<string> {
    if |text| <= size then [text] else Windows(text, size, Step(size, overlap), 0)
  }

  /** `_chunk_text(text, size, overlap)`. */
  method ChunkText(text: string, size: int, overlap: int) returns (out: seq<string>)
    ensures out == Chunks(text, size, overlap)
  {
    if |text| <= size {
      return [text];
    }
    out := [];
    var i := 0;
    var step := Step(size, overlap);
    while i < |text|
      invariant out + Windows(text, size, step, i) == Windows(text, size, step, 0)
      decreases |text| - i
    {
      assert Windows(text, size, step, i) == [PySlice(text, i, i + size)] + Windows(text, size, step, i + step);
      out := out + [PySlice(text, i, i + size)];
      i := i + step;
    }
    assert out + [] == out;
  }

  /** The window at the `k`-th start. */
  function WindowAt(text: string, size: int, step: int, k: nat): string {
    PySlice(text, k * step, k * step + size)
  }

  /** The windows from the `j`-th start to the `n`-th. */
  function WindowRange(text: string, size: int, step: int, j: nat, n: nat): (r: seq<string>)
    requires j <= n
    ensures |r| == n - j
    ensures forall k :: 0 <= k < n - j ==> r[k] == WindowAt(text, size, step, j + k)
  {
    seq(n - j, k requires 0 <= k < n - j => WindowAt(text, size, step, j + k))
  }

  /** A range of windows is its first window followed by the rest. */
  lemma WindowRangeCons(text: string, size: int, step: int, j: nat, n: nat)
    requires j < n
    ensures WindowRange(text, size, step, j, n) == [WindowAt(text, size, step, j)] + WindowRange(text, size, step, j + 1, n)
  {
    var r, rest := WindowRange(text, size, step, j, n), WindowRange(text, size, step, j + 1, n);
    forall k | 0 < k < n - j
      ensures r[k] == rest[k - 1]
    {
      assert j + 1 + (k - 1) == j + k;
    }
  }

  /** The windows from the `j`-th start on, in closed form: window `k` of
      them starts at `(j+k)*step`. */
  lemma {:induction false} WindowsFrom(text: string, size: int, step: int, j: nat)
    requires step >= 1 && j <= CeilDiv(|text|, step)
    ensures Windows(text, size, step, j * step) == WindowRange(text, size, step, j, CeilDiv(|text|, step))
    decreases CeilDiv(|text|, step) - j
  {
    var n, count := |text|, CeilDiv(|text|, step);
    CeilDivBounds(n, step);
    if j == count {
      MulLeft(count, j, step);
    } else {
      StartInside(n, step, j);
      assert (j + 1) * step == j * step + step;
      WindowsFrom(text, size, step, j + 1);
      WindowRangeCons(text, size, step, j, count);
    }
  }

  /** A longer text's chunks in closed form: chunk `k` of the
      `ceil(len/step)` chunks is `text[k*step : k*step+size]`. */
  lemma ChunksClosedForm(text: string, size: int, overlap: int)
    requires |text| > size
    ensures var step := Step(size, overlap);
      Chunks(text, size, overlap) == WindowRange(text, size, step, 0, CeilDiv(|text|, step))
  {
    WindowsFrom(text, size, Step(size, overlap), 0);
  }

  // ---------------------------------------------------------------------
  // Properties

  /** A text that fits in one window is returned whole, even when empty. */
  lemma ShortTextOneChunk(text: string, size: int, overlap: int)
    requires |text| <= size
    ensures Chunks(text, size, overlap) == [text]
    ensures text == [] ==> Chunks(text, size, overlap) == [""]
  {
  }

  /** Chunk `k` of a long text, as a plain substring of one to `size`
      characters. */
  lemma ChunkAt(text: string, size: int, overlap: int, k: nat)
    requires size >= 1 && |text| > size
    requires k < |Chunks(text, size, overlap)|
    ensures var step := Step(size, overlap);
      && k * step < |text|
      && Chunks(text, size, overlap)[k] == text[k * step .. Min(k * step + size, |text|)]
      && 1 <= |Chunks(text, size, overlap)[k]| <= size
  {
    ChunksClosedForm(text, size, overlap);
    StartInside(|text|, Step(size, overlap), k);
  }

  /** A longer text with a window of at least one character gives
      `ceil(len/step)` chunks; chunk `k` is the plain substring starting at
      `k*step` and ending after `size` characters or at the end of the text,
      so every chunk is non-empty and at most `size` long. */
  lemma LongTextChunks(text: string, size: int, overlap: int)
    requires size >= 1 && |text| > size
    ensures var step, cs := Step(size, overlap), Chunks(text, size, overlap);
      && |cs| == CeilDiv(|text|, step)
      && forall k :: 0 <= k < |cs| ==>
           && k * step < |text|
           && cs[k] == text[k * step .. Min(k * step + size, |text|)]
           && 1 <= |cs[k]| <= size
  {
    var step, cs := Step(size, overlap), Chunks(text, size, overlap);
    ChunksClosedForm(text, size, overlap);
    forall k | 0 <= k < |cs|
      ensures k * step < |text|
      ensures cs[k] == text[k * step .. Min(k * step + size, |text|)]
      ensures 1 <= |cs[k]| <= size
    {
      ChunkAt(text, size, overlap, k);
    }
  }

  /** With a non-negative overlap the last chunk starts before the end of the
      text and ends exactly at it. */
  lemma LastChunkEndsText(text: string, size: int, overlap: int)
    requires size >= 1 && overlap >= 0 && |text| > size
    ensures var step, cs := Step(size, overlap), Chunks(text, size, overlap);
      && |cs| >= 1
      && (|cs| - 1) * step < |text|
      && cs[|cs| - 1] == text[(|cs| - 1) * step..]
  {
    var step, cs := Step(size, overlap), Chunks(text, size, overlap);
    ChunksClosedForm(text, size, overlap);
    CeilDivBounds(|text|, step);
    var m := |cs|;
    ChunkAt(text, size, overlap, m - 1);
    assert (m - 1) * step + step == m * step;
  }

  /** The first `step` characters of a chunk (the whole chunk when shorter). */
  function Heads(chunks: seq<string>, step: nat): (r: seq<string>)
    ensures |r| == |chunks|
  {
    seq(|chunks|, k requires 0 <= k < |chunks| => chunks[k][..Min(step, |chunks[k]|)])
  }

  /** The head of chunk `k` is the `k`-th stretch of `step` characters. */
  lemma HeadAt(text: string, size: int, overlap: int, k: nat)
    requires size >= 1 && overlap >= 0 && |text| > size
    requires k < |Chunks(text, size, overlap)|
    ensures var step := Step(size, overlap);
      && k * step < |text|
      && Heads(Chunks(text, size, overlap), step)[k] == text[k * step .. Min(k * step + step, |text|)]
  {
    ChunkAt(text, size, overlap, k);
  }

  lemma PrefixJoin(s: string, a: nat, b: nat)
    requires a <= b <= |s|
    ensures s[..a] + s[a..b] == s[..b]
  {
  }

  lemma ConcatSnoc(ps: seq<string>, k: nat)
    requires k < |ps|
    ensures Concat(ps[..k + 1]) == Concat(ps[..k]) + ps[k]
  {
    assert ps[..k + 1][..k] == ps[..k];
  }

  /** With a window of at least one character and a non-negative overlap, the
      overlap removed from a multi-chunk result puts the text back together:
      concatenating the first `step` characters of every chunk gives `text`. */
  lemma {:induction false} HeadsReconstruct(text: string, size: int, overlap: int)
    requires size >= 1 && overlap >= 0 && |text| > size
    ensures Concat(Heads(Chunks(text, size, overlap), Step(size, overlap))) == text
  {
    var step, cs := Step(size, overlap), Chunks(text, size, overlap);
    var n := |text|;
    var hs := Heads(cs, step);
    var k := 0;
    while k < |cs|
      invariant 0 <= k <= |cs|
      invariant Concat(hs[..k]) == text[..Min(k * step, n)]
    {
      var start := k * step;
      HeadAt(text, size, overlap, k);
      var end := Min(start + step, n);
      ConcatSnoc(hs, k);
      assert (k + 1) * step == start + step;
      assert 0 <= start <= end <= n;
      PrefixJoin(text, start, end);
      k := k + 1;
    }
    ChunksClosedForm(text, size, overlap);
    CeilDivBounds(n, step);
    assert hs[..k] == hs;
  }

  /** Without overlap the chunks are consecutive: their plain concatenation is
      the text, for texts of any length. */
  lemma NoOverlapConcat(text: string, size: int)
    requires size >= 1
    ensures Concat(Chunks(text, size, 0)) == text
  {
    var cs := Chunks(text, size, 0);
    if |text| <= size {
      assert Concat(cs) == Concat([]) + text;
    } else {
      var step := Step(size, 0);
      assert step == size;
      forall k | 0 <= k < |cs|
        ensures Heads(cs, step)[k] == cs[k]
      {
        ChunkAt(text, size, 0, k);
      }
      assert Heads(cs, step) == cs;
      HeadsReconstruct(text, size, 0);
    }
  }
}
