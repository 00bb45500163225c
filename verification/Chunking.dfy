/** Overlap windows for long chunks, and what normalising a list of chunks keeps. */
module Chunking {
  import opened Options
  import opened Texts
  import opened Paragraphs
  import opened PdfDocument
  import opened PdfParser

  datatype Config = Config(size: nat, overlap: nat) {
    predicate Valid() {
      0 < size && overlap < size
    }

    /** How far the next window starts after the previous one. */
    function Step(): int {
      size - overlap
    }
  }

  /** The constructor refuses sizes that are not positive and overlaps that leave no progress. */
  function MakeConfig(size: int, overlap: int): (config: Option<Config>)
    ensures config.Some? <==> 0 <= overlap < size
    ensures config.Some? ==> config.value.Valid() && config.value.size == size && config.value.overlap == overlap
  {
    if size <= 0 then None
    else if overlap < 0 || overlap >= size then None
    else Some(Config(size, overlap))
  }

  // ---------------------------------------------------------------- windows

  /** The windows of a text, as ranges, from `start` on. */
  function Windows(c: Config, n: nat, start: nat): (ws: seq<Range>)
    requires c.Valid() && start < n
    ensures |ws| > 0 && ws[0].start == start
    ensures forall k | 0 <= k < |ws| :: start <= ws[k].start < ws[k].end <= n
    decreases n - start
  {
    var end := if start + c.size < n then start + c.size else n;
    if end == n then [Range(start, n)]
    else [Range(start, end)] + Windows(c, n, start + c.Step())
  }

  lemma NextMultiple(k: int, step: int)
    ensures (k - 1) * step + step == k * step && 0 * step == 0
  {
  }

  /** Window `k` starts `k` steps further and is cut at the end of the text. */
  lemma {:induction false} WindowAt(c: Config, n: nat, start: nat, k: nat)
    requires c.Valid() && start < n && k < |Windows(c, n, start)|
    ensures var w := Windows(c, n, start)[k];
            && w.start == start + k * c.Step()
            && w.end == (if w.start + c.size < n then w.start + c.size else n)
            && (k < |Windows(c, n, start)| - 1 <==> w.end < n)
    decreases k
  {
    NextMultiple(k, c.Step());
    if k > 0 {
      WindowAt(c, n, start + c.Step(), k - 1);
      assert Windows(c, n, start)[k] == Windows(c, n, start + c.Step())[k - 1];
    }
  }

  /** The least number of steps that cover `d` more characters. */
  function CeilDiv(d: int, step: int): int
    requires step > 0
  {
    (d + step - 1) / step
  }

  lemma Monotone(a: int, b: int, step: int)
    requires step > 0
    ensures a <= b ==> a * step <= b * step
  {
    if a <= b {
      assert (b - a) * step >= 0;
    }
  }

  lemma CeilDivBounds(d: int, step: int, k: int)
    requires step > 0 && d <= k * step && (k - 1) * step < d
    ensures CeilDiv(d, step) == k
  {
    var q := (d + step - 1) / step;
    assert q * step <= d + step - 1 < q * step + step;
    Monotone(q + 1, k, step);
    Monotone(k + 1, q, step);
  }

  /** A long text is cut into exactly one window and one more for each step that is still needed. */
  lemma WindowCount(c: Config, n: nat)
    requires c.Valid() && c.size < n
    ensures |Windows(c, n, 0)| == 1 + CeilDiv(n - c.size, c.Step())
  {
    var last := |Windows(c, n, 0)| - 1;
    WindowAt(c, n, 0, last);
    WindowAt(c, n, 0, 0);
    WindowAt(c, n, 0, last - 1);
    CeilDivBounds(n - c.size, c.Step(), last);
  }

  /** Windows from the start of the text, each overlapping the one before by `overlap`. */
  predicate Linked(c: Config, text: string, ws: seq<Range>) {
    && AllInBounds(text, ws)
    && (ws != [] ==> ws[0].start == 0)
    && forall k: nat | k + 1 < |ws| :: Overlaps(c, ws, k)
  }

  predicate Overlaps(c: Config, ws: seq<Range>, k: nat)
    requires k + 1 < |ws|
  {
    ws[k + 1].start + c.overlap == ws[k].end < ws[k + 1].end
  }

  lemma ShorterIsLinked(c: Config, text: string, ws: seq<Range>)
    requires Linked(c, text, ws) && 1 < |ws|
    ensures Linked(c, text, ws[..|ws| - 1])
  {
    var fewer := ws[..|ws| - 1];
    forall k: nat | k + 1 < |fewer| ensures Overlaps(c, fewer, k) {
      assert Overlaps(c, ws, k);
    }
  }

  /** The first window, then each later one without the characters it repeats. */
  function Reassembled(c: Config, text: string, ws: seq<Range>): string
    requires Linked(c, text, ws)
  {
    if |ws| == 0 then ""
    else if |ws| == 1 then text[ws[0].start..ws[0].end]
    else
      var last := ws[|ws| - 1];
      assert Overlaps(c, ws, |ws| - 2);
      ShorterIsLinked(c, text, ws);
      Reassembled(c, text, ws[..|ws| - 1]) + text[last.start..last.end][c.overlap..]
  }

  /** Each later window overlaps the one before by exactly `overlap` and adds at least one character. */
  lemma WindowsOverlap(c: Config, n: nat, k: nat)
    requires c.Valid() && 0 < n && k + 1 < |Windows(c, n, 0)|
    ensures Overlaps(c, Windows(c, n, 0), k)
  {
    WindowAt(c, n, 0, k);
    WindowAt(c, n, 0, k + 1);
    NextMultiple(k + 1, c.Step());
  }

  lemma AddsTail(text: string, start: nat, end: nat, overlap: nat)
    requires start + overlap <= end <= |text|
    ensures text[..start + overlap] + text[start..end][overlap..] == text[..end]
  {
    assert text[start..end][overlap..] == text[start + overlap..end];
  }

  lemma {:induction false} LinkedReassembles(c: Config, text: string, ws: seq<Range>)
    requires Linked(c, text, ws) && 0 < |ws|
    ensures Reassembled(c, text, ws) == text[..ws[|ws| - 1].end]
    decreases |ws|
  {
    if |ws| > 1 {
      var last := ws[|ws| - 1];
      ShorterIsLinked(c, text, ws);
      assert Overlaps(c, ws, |ws| - 2);
      LinkedReassembles(c, text, ws[..|ws| - 1]);
      AddsTail(text, last.start, last.end, c.overlap);
    }
  }

  lemma WindowsAreLinked(c: Config, text: string)
    requires c.Valid() && 0 < |text|
    ensures Linked(c, text, Windows(c, |text|, 0))
  {
    forall k: nat | k + 1 < |Windows(c, |text|, 0)| ensures Overlaps(c, Windows(c, |text|, 0), k) {
      WindowsOverlap(c, |text|, k);
    }
  }

  /** Putting the windows of a text together again gives the text. */
  lemma WindowsReassemble(c: Config, text: string)
    requires c.Valid() && 0 < |text|
    ensures Linked(c, text, Windows(c, |text|, 0)) && Reassembled(c, text, Windows(c, |text|, 0)) == text
  {
    WindowsAreLinked(c, text);
    LinkedReassembles(c, text, Windows(c, |text|, 0));
    WindowAt(c, |text|, 0, |Windows(c, |text|, 0)| - 1);
    assert text[..|text|] == text;
  }

  // ---------------------------------------------------------------- normalising

  /** `int(metadata.get("char_start", 0))` and the parent index with its default. */
  function SourceStart(chunk: Chunk): int {
    chunk.metadata.charStart.GetOr(0)
  }

  function ParentIndex(chunk: Chunk): nat {
    chunk.metadata.parent.GetOr(chunk.index)
  }

  /** A short chunk keeps its text and gets its offsets filled in. */
  function Kept(chunk: Chunk, index: nat): Chunk {
    var start := SourceStart(chunk);
    Chunk(chunk.text,
          chunk.metadata.(parent := Some(ParentIndex(chunk)), charStart := Some(start),
                          charEnd := Some(start + |chunk.text|), charCount := Some(|chunk.text|)),
          index)
  }

  function WindowChunk(chunk: Chunk, w: Range, k: nat, index: nat): Chunk
    requires InBounds(chunk.text, w)
  {
    var start := SourceStart(chunk);
    Chunk(chunk.text[w.start..w.end],
          chunk.metadata.(parent := Some(ParentIndex(chunk)), charStart := Some(start + w.start),
                          charEnd := Some(start + w.end), charCount := Some(w.end - w.start), window := Some(k)),
          index)
  }

  /** The pieces of one chunk, numbered from `index` on. */
  function Normalized(c: Config, chunk: Chunk, index: nat): (pieces: seq<Chunk>)
    requires c.Valid()
    ensures |pieces| > 0
  {
    if |chunk.text| <= c.size then [Kept(chunk, index)]
    else
      var ws := Windows(c, |chunk.text|, 0);
      seq(|ws|, k requires 0 <= k < |ws| => WindowChunk(chunk, ws[k], k, index + k))
  }

  function NormalizeAll(c: Config, chunks: seq<Chunk>): seq<Chunk>
    requires c.Valid()
  {
    if chunks == [] then []
    else
      var before := NormalizeAll(c, chunks[..|chunks| - 1]);
      before + Normalized(c, chunks[|chunks| - 1], |before|)
  }

  /** The windows from `start` on, when those before it are done. */
  lemma NextWindow(c: Config, n: nat, all: seq<Range>, k: nat, start: nat)
    requires c.Valid() && start < n && k < |all| && all[k..] == Windows(c, n, start)
    ensures var end := if start + c.size < n then start + c.size else n;
            && all[k] == Range(start, end)
            && (end == n ==> k + 1 == |all|)
            && (end < n ==> k + 1 < |all| && start + c.Step() < n && all[k + 1..] == Windows(c, n, start + c.Step()))
  {
    assert all[k] == all[k..][0];
    assert all[k + 1..] == all[k..][1..];
  }

  method SplitWithOverlap(c: Config, chunk: Chunk, startIndex: nat) returns (windows: seq<Chunk>)
    requires c.Valid() && c.size < |chunk.text|
    ensures windows == Normalized(c, chunk, startIndex)
  {
    windows := [];
    var step := c.size - c.overlap;
    var start := 0;
    var n := |chunk.text|;
    ghost var all, target := Windows(c, n, 0), Normalized(c, chunk, startIndex);
    while start < n
      invariant 0 <= start < n && |windows| < |all| == |target|
      invariant all[|windows|..] == Windows(c, n, start)
      invariant windows == target[..|windows|]
      decreases n - start
    {
      NextWindow(c, n, all, |windows|, start);
      var end := if start + c.size < n then start + c.size else n;
      var window := WindowChunk(chunk, Range(start, end), |windows|, startIndex + |windows|);
      assert target[|windows|] == window;
      windows := windows + [window];
      if end == n {
        break;
      }
      start := start + step;
    }
  }

  method Normalize(c: Config, chunks: seq<Chunk>) returns (normalized: seq<Chunk>)
    requires c.Valid()
    ensures normalized == NormalizeAll(c, chunks)
    ensures IsMadeOfPieces(c, chunks, normalized)
  {
    normalized := [];
    for i := 0 to |chunks|
      invariant normalized == NormalizeAll(c, chunks[..i])
    {
      var chunk := chunks[i];
      assert chunks[..i + 1][..i] == chunks[..i];
      if |chunk.text| <= c.size {
        normalized := normalized + [Kept(chunk, |normalized|)];
      } else {
        var windows := SplitWithOverlap(c, chunk, |normalized|);
        normalized := normalized + windows;
      }
    }
    assert chunks[..|chunks|] == chunks;
    NormalizeMakesPieces(c, chunks);
  }

  // ---------------------------------------------------------------- what normalising keeps

  /** Numbered in order, no longer than a window, and with offsets that match the text. */
  predicate IsNormal(c: Config, chunk: Chunk, index: nat) {
    && chunk.index == index
    && |chunk.text| <= c.size
    && chunk.metadata.parent.Some?
    && chunk.metadata.charStart.Some?
    && chunk.metadata.charEnd == Some(chunk.metadata.charStart.value + |chunk.text|)
    && chunk.metadata.charCount == Some(|chunk.text|)
  }

  predicate AllNormal(c: Config, chunks: seq<Chunk>) {
    forall i | 0 <= i < |chunks| :: IsNormal(c, chunks[i], i)
  }

  lemma PiecesAreNormal(c: Config, chunk: Chunk, index: nat)
    requires c.Valid()
    ensures var ps := Normalized(c, chunk, index); forall k | 0 <= k < |ps| :: IsNormal(c, ps[k], index + k)
  {
    var ps := Normalized(c, chunk, index);
    forall k | 0 <= k < |ps| ensures IsNormal(c, ps[k], index + k) {
      if c.size < |chunk.text| {
        WindowAt(c, |chunk.text|, 0, k);
      }
    }
  }

  lemma {:induction false} NormalizeNumbers(c: Config, chunks: seq<Chunk>)
    requires c.Valid()
    ensures AllNormal(c, NormalizeAll(c, chunks))
  {
    if chunks != [] {
      var before := NormalizeAll(c, chunks[..|chunks| - 1]);
      NormalizeNumbers(c, chunks[..|chunks| - 1]);
      PiecesAreNormal(c, chunks[|chunks| - 1], |before|);
    }
  }

  lemma NormalIsKept(c: Config, chunk: Chunk, index: nat)
    requires c.Valid() && IsNormal(c, chunk, index)
    ensures Normalized(c, chunk, index) == [chunk]
  {
    assert Kept(chunk, index) == chunk;
  }

  lemma PrefixIsNormal(c: Config, chunks: seq<Chunk>, n: nat)
    requires AllNormal(c, chunks) && n < |chunks|
    ensures AllNormal(c, chunks[..n]) && IsNormal(c, chunks[n], n) && chunks[..n] + [chunks[n]] == chunks[..n + 1]
  {
  }

  lemma {:induction false} NormalStays(c: Config, chunks: seq<Chunk>, n: nat)
    requires c.Valid() && AllNormal(c, chunks) && n <= |chunks|
    ensures NormalizeAll(c, chunks[..n]) == chunks[..n]
  {
    if n > 0 {
      NormalStays(c, chunks, n - 1);
      PrefixIsNormal(c, chunks, n - 1);
      NormalIsKept(c, chunks[n - 1], n - 1);
      assert chunks[..n][..n - 1] == chunks[..n - 1];
    }
  }

  /** Normalising again changes neither texts nor ranges. */
  lemma NormalizeIsIdempotent(c: Config, chunks: seq<Chunk>)
    requires c.Valid()
    ensures NormalizeAll(c, NormalizeAll(c, chunks)) == NormalizeAll(c, chunks)
  {
    NormalizeNumbers(c, chunks);
    var normal := NormalizeAll(c, chunks);
    NormalStays(c, normal, |normal|);
    assert normal[..|normal|] == normal;
  }

  // ---------------------------------------------------------------- what becomes of each chunk

  /** How many pieces a chunk is cut into. */
  function PieceCount(c: Config, chunk: Chunk): nat
    requires c.Valid()
  {
    if |chunk.text| <= c.size then 1
    else
      assert CeilDiv(|chunk.text| - c.size, c.Step()) >= 0;
      1 + CeilDiv(|chunk.text| - c.size, c.Step())
  }

  /** The pieces of the first `j` chunks. */
  function PiecesBefore(c: Config, chunks: seq<Chunk>, j: nat): nat
    requires c.Valid() && j <= |chunks|
  {
    if j == 0 then 0 else PiecesBefore(c, chunks, j - 1) + PieceCount(c, chunks[j - 1])
  }

  /**
   Piece `k` of a chunk: a short chunk as it is, or the window that starts `k` steps into a
   long one, with the page, section and parent of the chunk and offsets from its start.
   */
  predicate IsPiece(c: Config, chunk: Chunk, k: nat, index: nat, piece: Chunk)
    requires c.Valid() && k < PieceCount(c, chunk)
  {
    var n := |chunk.text|;
    var from := if n <= c.size then 0 else k * c.Step();
    var to := if from + c.size < n then from + c.size else n;
    var start := chunk.metadata.charStart.GetOr(0);
    && 0 <= from <= to <= n
    && piece == Chunk(chunk.text[from..to],
                      chunk.metadata.(parent := Some(chunk.metadata.parent.GetOr(chunk.index)),
                                      charStart := Some(start + from), charEnd := Some(start + to),
                                      charCount := Some(to - from),
                                      window := if n <= c.size then chunk.metadata.window else Some(k)),
                      index)
  }

  predicate PieceAt(c: Config, chunk: Chunk, first: nat, k: nat, normalized: seq<Chunk>)
    requires c.Valid() && k < PieceCount(c, chunk)
  {
    first + k < |normalized| && IsPiece(c, chunk, k, first + k, normalized[first + k])
  }

  /** The pieces of a chunk stand side by side from `first` on. */
  predicate PiecesStand(c: Config, chunk: Chunk, first: nat, normalized: seq<Chunk>)
    requires c.Valid()
  {
    forall k: nat | k < PieceCount(c, chunk) :: PieceAt(c, chunk, first, k, normalized)
  }

  lemma WindowIsPiece(c: Config, chunk: Chunk, k: nat, index: nat)
    requires c.Valid() && c.size < |chunk.text|
    requires k < |Windows(c, |chunk.text|, 0)| == PieceCount(c, chunk)
    ensures IsPiece(c, chunk, k, index, WindowChunk(chunk, Windows(c, |chunk.text|, 0)[k], k, index))
  {
    WindowAt(c, |chunk.text|, 0, k);
  }

  lemma PiecesOfChunk(c: Config, chunk: Chunk, index: nat)
    requires c.Valid()
    ensures |Normalized(c, chunk, index)| == PieceCount(c, chunk)
    ensures forall k: nat | k < PieceCount(c, chunk) :: IsPiece(c, chunk, k, index + k, Normalized(c, chunk, index)[k])
  {
    if c.size < |chunk.text| {
      WindowCount(c, |chunk.text|);
      forall k: nat | k < PieceCount(c, chunk)
        ensures IsPiece(c, chunk, k, index + k, Normalized(c, chunk, index)[k])
      {
        WindowIsPiece(c, chunk, k, index + k);
      }
    } else {
      assert chunk.text[0..|chunk.text|] == chunk.text;
    }
  }

  lemma {:induction false} SamePiecesBefore(c: Config, chunks: seq<Chunk>, n: nat, j: nat)
    requires c.Valid() && j <= n <= |chunks|
    ensures PiecesBefore(c, chunks[..n], j) == PiecesBefore(c, chunks, j)
  {
    if j > 0 {
      SamePiecesBefore(c, chunks, n, j - 1);
      assert chunks[..n][j - 1] == chunks[j - 1];
    }
  }

  lemma PiecesStillStand(c: Config, chunk: Chunk, first: nat, before: seq<Chunk>, more: seq<Chunk>)
    requires c.Valid() && PiecesStand(c, chunk, first, before)
    ensures PiecesStand(c, chunk, first, before + more)
  {
    forall k: nat | k < PieceCount(c, chunk) ensures PieceAt(c, chunk, first, k, before + more) {
      assert PieceAt(c, chunk, first, k, before);
    }
  }

  lemma NewPiecesStand(c: Config, chunk: Chunk, before: seq<Chunk>)
    requires c.Valid()
    ensures PiecesStand(c, chunk, |before|, before + Normalized(c, chunk, |before|))
  {
    PiecesOfChunk(c, chunk, |before|);
    var more := Normalized(c, chunk, |before|);
    forall k: nat | k < PieceCount(c, chunk) ensures PieceAt(c, chunk, |before|, k, before + more) {
      assert (before + more)[|before| + k] == more[k];
    }
  }

  /** The pieces of each chunk stand in its place, and there is nothing else. */
  predicate IsMadeOfPieces(c: Config, chunks: seq<Chunk>, normalized: seq<Chunk>)
    requires c.Valid()
  {
    && |normalized| == PiecesBefore(c, chunks, |chunks|)
    && forall j | 0 <= j < |chunks| :: PiecesStand(c, chunks[j], PiecesBefore(c, chunks, j), normalized)
  }

  lemma EarlierPiecesStand(c: Config, chunks: seq<Chunk>, n: nat, j: nat, before: seq<Chunk>, more: seq<Chunk>)
    requires c.Valid() && j < n <= |chunks| && IsMadeOfPieces(c, chunks[..n], before)
    ensures PiecesStand(c, chunks[j], PiecesBefore(c, chunks, j), before + more)
  {
    assert chunks[..n][j] == chunks[j];
    SamePiecesBefore(c, chunks, n, j);
    PiecesStillStand(c, chunks[j], PiecesBefore(c, chunks, j), before, more);
  }

  lemma LastPiecesStand(c: Config, chunks: seq<Chunk>, n: nat, before: seq<Chunk>)
    requires c.Valid() && n + 1 == |chunks| && IsMadeOfPieces(c, chunks[..n], before)
    ensures var all := before + Normalized(c, chunks[n], |before|);
            |all| == PiecesBefore(c, chunks, n + 1) && PiecesStand(c, chunks[n], PiecesBefore(c, chunks, n), all)
  {
    SamePiecesBefore(c, chunks, n, n);
    PiecesOfChunk(c, chunks[n], |before|);
    NewPiecesStand(c, chunks[n], before);
  }

  lemma OneMoreChunk(c: Config, chunks: seq<Chunk>, n: nat, before: seq<Chunk>)
    requires c.Valid() && n + 1 == |chunks| && IsMadeOfPieces(c, chunks[..n], before)
    ensures IsMadeOfPieces(c, chunks, before + Normalized(c, chunks[n], |before|))
  {
    var more := Normalized(c, chunks[n], |before|);
    LastPiecesStand(c, chunks, n, before);
    forall j | 0 <= j < |chunks| ensures PiecesStand(c, chunks[j], PiecesBefore(c, chunks, j), before + more) {
      if j < n {
        EarlierPiecesStand(c, chunks, n, j, before, more);
      }
    }
  }

  lemma {:induction false} NormalizeMakesPieces(c: Config, chunks: seq<Chunk>)
    requires c.Valid()
    ensures IsMadeOfPieces(c, chunks, NormalizeAll(c, chunks))
  {
    if chunks != [] {
      var n := |chunks| - 1;
      NormalizeMakesPieces(c, chunks[..n]);
      OneMoreChunk(c, chunks, n, NormalizeAll(c, chunks[..n]));
    }
  }

  // ---------------------------------------------------------------- exact, covering and in order

  /** The pieces of an exact chunk are exact. */
  lemma PiecesAreExact(c: Config, d: string, chunk: Chunk, index: nat)
    requires c.Valid() && ChunkIsExact(d, chunk)
    ensures var ps := Normalized(c, chunk, index); forall k | 0 <= k < |ps| :: ChunkIsExact(d, ps[k])
  {
    var ps := Normalized(c, chunk, index);
    if c.size < |chunk.text| {
      var ws := Windows(c, |chunk.text|, 0);
      forall k | 0 <= k < |ps| ensures ChunkIsExact(d, ps[k]) {
        SliceOfSlice(d, chunk.metadata.charStart.value, chunk.metadata.charEnd.value, ws[k].start, ws[k].end);
      }
    }
  }

  lemma {:induction false} NormalizedIsExact(c: Config, d: string, chunks: seq<Chunk>)
    requires c.Valid() && forall i | 0 <= i < |chunks| :: ChunkIsExact(d, chunks[i])
    ensures forall i | 0 <= i < |NormalizeAll(c, chunks)| :: ChunkIsExact(d, NormalizeAll(c, chunks)[i])
  {
    if chunks != [] {
      var n := |chunks| - 1;
      NormalizedIsExact(c, d, chunks[..n]);
      PiecesAreExact(c, d, chunks[n], |NormalizeAll(c, chunks[..n])|);
    }
  }

  /** Every character of a window cut lies in some window. */
  lemma {:induction false} WindowsCover(c: Config, n: nat, start: nat, k: nat) returns (i: nat)
    requires c.Valid() && start <= k < n
    ensures i < |Windows(c, n, start)| && Holds(Windows(c, n, start)[i], k)
    decreases n - start
  {
    i := 0;
    if start + c.size <= k {
      i := WindowsCover(c, n, start + c.Step(), k);
      i := i + 1;
    }
  }

  predicate SomewhereWithin(chunks: seq<Chunk>, k: nat) {
    exists i | 0 <= i < |chunks| :: Within(chunks[i], k)
  }

  lemma PieceCovers(c: Config, chunk: Chunk, index: nat, k: nat)
    requires c.Valid() && Within(chunk, k)
    requires chunk.metadata.charEnd.value == chunk.metadata.charStart.value + |chunk.text|
    requires 0 <= chunk.metadata.charStart.value
    ensures SomewhereWithin(Normalized(c, chunk, index), k)
  {
    var ps := Normalized(c, chunk, index);
    if |chunk.text| <= c.size {
      assert Within(ps[0], k);
    } else {
      var i := WindowsCover(c, |chunk.text|, 0, k - chunk.metadata.charStart.value);
      assert Within(ps[i], k);
    }
  }

  /** Normalising drops no character of an exact chunk. */
  lemma {:induction false} NormalizeCovers(c: Config, d: string, chunks: seq<Chunk>, k: nat)
    requires c.Valid() && forall i | 0 <= i < |chunks| :: ChunkIsExact(d, chunks[i])
    requires SomewhereWithin(chunks, k)
    ensures SomewhereWithin(NormalizeAll(c, chunks), k)
  {
    var n := |chunks| - 1;
    var before, last := NormalizeAll(c, chunks[..n]), Normalized(c, chunks[n], |NormalizeAll(c, chunks[..n])|);
    if Within(chunks[n], k) {
      PieceCovers(c, chunks[n], |before|, k);
      var i :| 0 <= i < |last| && Within(last[i], k);
      assert (before + last)[|before| + i] == last[i];
    } else {
      var i :| 0 <= i < |chunks| && Within(chunks[i], k);
      assert Within(chunks[..n][i], k);
      NormalizeCovers(c, d, chunks[..n], k);
      var j :| 0 <= j < |before| && Within(before[j], k);
      assert (before + last)[j] == before[j];
    }
  }

  function StartOf(chunk: Chunk): int {
    chunk.metadata.charStart.GetOr(0)
  }

  predicate StartsIncrease(chunks: seq<Chunk>) {
    forall i, j | 0 <= i < j < |chunks| :: StartOf(chunks[i]) < StartOf(chunks[j])
  }

  /** The pieces of a chunk start in order, inside the chunk. */
  lemma PiecesInOrder(c: Config, chunk: Chunk, index: nat)
    requires c.Valid() && SpansText(chunk)
    ensures var ps := Normalized(c, chunk, index);
            && StartsIncrease(ps)
            && forall k | 0 <= k < |ps| ::
                 chunk.metadata.charStart.value <= StartOf(ps[k]) < chunk.metadata.charEnd.value
  {
    var ps := Normalized(c, chunk, index);
    if c.size < |chunk.text| {
      forall i: nat, j: nat | i < j < |ps| ensures StartOf(ps[i]) < StartOf(ps[j]) {
        WindowAt(c, |chunk.text|, 0, i);
        WindowAt(c, |chunk.text|, 0, j);
        Monotone(i + 1, j, c.Step());
        NextMultiple(i + 1, c.Step());
      }
    }
  }

  /** Chunks in sequence are normalised in order: each piece starts after the one before. */
  lemma {:induction false} NormalizeKeepsOrder(c: Config, chunks: seq<Chunk>)
    requires c.Valid() && InSequence(chunks)
    ensures StartsIncrease(NormalizeAll(c, chunks))
    ensures forall i | 0 <= i < |NormalizeAll(c, chunks)| ::
              chunks != [] && StartOf(NormalizeAll(c, chunks)[i]) < chunks[|chunks| - 1].metadata.charEnd.value
  {
    if chunks != [] {
      var n := |chunks| - 1;
      NormalizeKeepsOrder(c, chunks[..n]);
      PiecesInOrder(c, chunks[n], |NormalizeAll(c, chunks[..n])|);
      assert SpansText(chunks[n]);
    }
  }

  // ---------------------------------------------------------------- parsing and normalising a PDF

  /**
   From the pages of a PDF to the normalised chunks: every chunk is the text between its
   offsets in the joined page texts, chunks start in order, and with a blank separator
   every visible character of the document is in some chunk.
   */
  lemma NormalizedPdfIsExact(c: Config, pages: seq<string>, chunks: seq<Chunk>, separator: char)
    requires c.Valid() && IsParsed(chunks, PdfPieces(pages), HeadingOf)
    ensures var d, normal := PdfDocumentText(pages, separator), NormalizeAll(c, chunks);
            && (forall i | 0 <= i < |normal| :: ChunkIsExact(d, normal[i]))
            && StartsIncrease(normal)
            && (IsSpace(separator) ==> forall k | 0 <= k < |d| && !IsSpace(d[k]) :: SomewhereWithin(normal, k))
  {
    var d := PdfDocumentText(pages, separator);
    ParsedPdfIsExact(pages, chunks, separator);
    NormalizedIsExact(c, d, chunks);
    NormalizeKeepsOrder(c, chunks);
    if IsSpace(separator) {
      forall k | 0 <= k < |d| && !IsSpace(d[k]) ensures SomewhereWithin(NormalizeAll(c, chunks), k) {
        NormalizeCovers(c, d, chunks, k);
      }
    }
  }

  /** The pipeline of the worker: parse the pages, then normalise. */
  method ParseAndNormalize(c: Config, pages: seq<string>) returns (chunks: seq<Chunk>)
    requires c.Valid()
    ensures AllNormal(c, chunks) && StartsIncrease(chunks)
    ensures forall i | 0 <= i < |chunks| :: ChunkIsExact(PdfDocumentText(pages, '\n'), chunks[i])
    ensures var d := PdfDocumentText(pages, '\n');
            forall k | 0 <= k < |d| && !IsSpace(d[k]) :: SomewhereWithin(chunks, k)
  {
    var parsed := ParsePdf(pages);
    chunks := Normalize(c, parsed);
    NormalizeNumbers(c, parsed);
    NormalizedPdfIsExact(c, pages, parsed, '\n');
  }
}
