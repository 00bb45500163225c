/**
 Chunks of a document of several pages, for any paragraphs of the pages that lose nothing
 and any rule for recognising headings. Offsets are positions in the page texts joined by
 one separator character.
 */
module PdfDocument {
  import opened Options
  import opened Texts
  import opened Paragraphs

  datatype Heading = Heading(title: string, level: nat)

  /** The metadata entries that offsets and numbering depend on; an absent entry is None. */
  datatype Metadata = Metadata(
    page: Option<nat>,
    section: Option<Heading>,
    parent: Option<nat>,
    charStart: Option<int>,
    charEnd: Option<int>,
    charCount: Option<nat>,
    window: Option<nat>)

  datatype Chunk = Chunk(text: string, metadata: Metadata, index: nat)

  type HeadingRule = string -> Option<Heading>

  /** The first `n` page texts, joined by one separator. */
  function Document(texts: seq<string>, n: nat, separator: char): string
    requires n <= |texts|
  {
    if n == 0 then ""
    else if n == 1 then texts[0]
    else Document(texts, n - 1, separator) + [separator] + texts[n - 1]
  }

  /** Where page `n` starts in the document. */
  function Offset(texts: seq<string>, n: nat): nat
    requires n <= |texts|
  {
    if n == 0 then 0 else Offset(texts, n - 1) + |texts[n - 1]| + 1
  }

  /** A paragraph of a page, in document coordinates. */
  datatype Piece = Piece(page: nat, text: string, start: nat, end: nat)

  function Place(p: Paragraph, page: nat, offset: nat): Piece {
    Piece(page, p.text, offset + p.start, offset + p.end)
  }

  function PagePieces(ps: seq<Paragraph>, page: nat, offset: nat): (pieces: seq<Piece>)
    ensures |pieces| == |ps|
    ensures forall i | 0 <= i < |ps| :: pieces[i] == Place(ps[i], page, offset)
  {
    seq(|ps|, i requires 0 <= i < |ps| => Place(ps[i], page, offset))
  }

  function Pieces(texts: seq<string>, paged: seq<seq<Paragraph>>, n: nat): seq<Piece>
    requires n <= |texts| == |paged|
  {
    if n == 0 then []
    else Pieces(texts, paged, n - 1) + PagePieces(paged[n - 1], n - 1, Offset(texts, n - 1))
  }

  /** The heading of the piece itself, or else the one carried forward. */
  function SectionAt(pieces: seq<Piece>, i: nat, heading: HeadingRule): Option<Heading>
    requires i < |pieces|
  {
    var own := heading(pieces[i].text);
    if own.Some? then own else if i == 0 then None else SectionAt(pieces, i - 1, heading)
  }

  function LastSection(pieces: seq<Piece>, heading: HeadingRule): Option<Heading> {
    if pieces == [] then None else SectionAt(pieces, |pieces| - 1, heading)
  }

  function ChunkOf(p: Piece, i: nat, section: Option<Heading>): Chunk {
    Chunk(p.text, Metadata(Some(p.page + 1), section, Some(i), Some(p.start), Some(p.end), Some(|p.text|), None), i)
  }

  predicate IsParsed(chunks: seq<Chunk>, pieces: seq<Piece>, heading: HeadingRule) {
    && |chunks| == |pieces|
    && forall i | 0 <= i < |chunks| :: chunks[i] == ChunkOf(pieces[i], i, SectionAt(pieces, i, heading))
  }

  /** The chunks of some pieces, and the section in force after them. */
  predicate ParsedSoFar(chunks: seq<Chunk>, section: Option<Heading>, pieces: seq<Piece>, heading: HeadingRule) {
    IsParsed(chunks, pieces, heading) && section == LastSection(pieces, heading)
  }

  /** The section in force is the nearest heading at or before the piece, if there is one. */
  lemma {:induction false} NearestHeading(pieces: seq<Piece>, i: nat, heading: HeadingRule)
    requires i < |pieces|
    ensures match SectionAt(pieces, i, heading)
            case None => forall k | 0 <= k <= i :: heading(pieces[k].text).None?
            case Some(h) => exists k | 0 <= k <= i ::
                              && heading(pieces[k].text) == Some(h)
                              && forall j | k < j <= i :: heading(pieces[j].text).None?
  {
    if heading(pieces[i].text).None? && i > 0 {
      NearestHeading(pieces, i - 1, heading);
    }
  }

  // ---------------------------------------------------------------- one chunk after the other

  lemma {:induction false} SectionsPersist(pieces: seq<Piece>, piece: Piece, i: nat, heading: HeadingRule)
    requires i < |pieces|
    ensures SectionAt(pieces + [piece], i, heading) == SectionAt(pieces, i, heading)
  {
    if i > 0 {
      SectionsPersist(pieces, piece, i - 1, heading);
    }
  }

  /** The section of the next chunk is its own heading or the current one. */
  lemma NextChunk(chunks: seq<Chunk>, pieces: seq<Piece>, piece: Piece, section: Option<Heading>, heading: HeadingRule)
    requires ParsedSoFar(chunks, section, pieces, heading)
    ensures var next := if heading(piece.text).Some? then heading(piece.text) else section;
            ParsedSoFar(chunks + [ChunkOf(piece, |chunks|, next)], next, pieces + [piece], heading)
  {
    forall i | 0 <= i < |pieces|
      ensures SectionAt(pieces + [piece], i, heading) == SectionAt(pieces, i, heading)
    {
      SectionsPersist(pieces, piece, i, heading);
    }
  }

  method AppendPage(before: seq<Chunk>, ghost pieces: seq<Piece>, paragraphs: seq<Paragraph>, page: nat, offset: nat,
                    section: Option<Heading>, heading: HeadingRule)
    returns (chunks: seq<Chunk>, current: Option<Heading>)
    requires ParsedSoFar(before, section, pieces, heading)
    ensures ParsedSoFar(chunks, current, pieces + PagePieces(paragraphs, page, offset), heading)
  {
    chunks, current := before, section;
    ghost var added := PagePieces(paragraphs, page, offset);
    assert pieces + added[..0] == pieces;
    for k := 0 to |paragraphs|
      invariant ParsedSoFar(chunks, current, pieces + added[..k], heading)
    {
      var p := paragraphs[k];
      NextChunk(chunks, pieces + added[..k], Place(p, page, offset), current, heading);
      assert pieces + added[..k + 1] == pieces + added[..k] + [Place(p, page, offset)];
      var own := heading(p.text);
      if own.Some? {
        current := own;
      }
      var metadata := Metadata(Some(page + 1), current, Some(|chunks|), Some(offset + p.start), Some(offset + p.end),
                               Some(|p.text|), None);
      chunks := chunks + [Chunk(p.text, metadata, |chunks|)];
    }
    assert added[..|paragraphs|] == added;
  }

  // ---------------------------------------------------------------- exact offsets

  /** The page sits in the document where its offset says. */
  lemma {:induction false} PageInDocument(texts: seq<string>, n: nat, i: nat, separator: char)
    requires i < n <= |texts|
    ensures var d := Document(texts, n, separator);
            && Offset(texts, n) == |d| + 1
            && Offset(texts, i) + |texts[i]| <= |d|
            && d[Offset(texts, i)..Offset(texts, i) + |texts[i]|] == texts[i]
  {
    if n > 1 {
      var before := Document(texts, n - 1, separator);
      if i < n - 1 {
        PageInDocument(texts, n - 1, i, separator);
        assert Document(texts, n, separator)[..|before|] == before;
      } else {
        PageInDocument(texts, n - 1, n - 2, separator);
      }
    }
  }

  function PlacesOf(pieces: seq<Piece>): (rs: seq<Range>)
    ensures |rs| == |pieces|
    ensures forall k | 0 <= k < |rs| :: rs[k] == Range(pieces[k].start, pieces[k].end)
  {
    seq(|pieces|, k requires 0 <= k < |pieces| => Range(pieces[k].start, pieces[k].end))
  }

  function RangesOf(ps: seq<Paragraph>): (rs: seq<Range>)
    ensures |rs| == |ps|
    ensures forall k | 0 <= k < |rs| :: rs[k] == Range(ps[k].start, ps[k].end)
  {
    seq(|ps|, k requires 0 <= k < |ps| => Range(ps[k].start, ps[k].end))
  }

  /** The paragraphs of each page are exact and skip only whitespace. */
  predicate LosesNothing(texts: seq<string>, paged: seq<seq<Paragraph>>) {
    |texts| == |paged| && forall n | 0 <= n < |texts| :: PageOk(texts[n], paged[n])
  }

  predicate PageOk(text: string, ps: seq<Paragraph>) {
    Exact(text, ps) && Tiles(text, RangesOf(ps), 0, |text|)
  }

  predicate PieceIsExact(document: string, p: Piece) {
    p.start < p.end <= |document| && document[p.start..p.end] == p.text
  }

  predicate AllExact(document: string, pieces: seq<Piece>) {
    forall k | 0 <= k < |pieces| :: PieceIsExact(document, pieces[k])
  }

  lemma PlacedIsExact(d: string, offset: nat, text: string, p: Paragraph, page: nat)
    requires offset + |text| <= |d| && d[offset..offset + |text|] == text
    requires p.start < p.end <= |text| && text[p.start..p.end] == p.text
    ensures PieceIsExact(d, Place(p, page, offset))
  {
    SliceOfSlice(d, offset, offset + |text|, p.start, p.end);
  }

  lemma PageIsExact(texts: seq<string>, n: nat, i: nat, ps: seq<Paragraph>, separator: char)
    requires i < n <= |texts| && Exact(texts[i], ps)
    ensures AllExact(Document(texts, n, separator), PagePieces(ps, i, Offset(texts, i)))
  {
    PageInDocument(texts, n, i, separator);
    forall k | 0 <= k < |ps|
      ensures PieceIsExact(Document(texts, n, separator), PagePieces(ps, i, Offset(texts, i))[k])
    {
      PlacedIsExact(Document(texts, n, separator), Offset(texts, i), texts[i], ps[k], i);
    }
  }

  lemma AllExactAppend(document: string, a: seq<Piece>, b: seq<Piece>)
    requires AllExact(document, a) && AllExact(document, b)
    ensures AllExact(document, a + b)
  {
  }

  lemma {:induction false} PiecesAreExact(texts: seq<string>, paged: seq<seq<Paragraph>>, n: nat, m: nat,
                                          separator: char)
    requires m <= n <= |texts| && LosesNothing(texts, paged)
    ensures AllExact(Document(texts, n, separator), Pieces(texts, paged, m))
  {
    if m > 0 {
      var before, page := Pieces(texts, paged, m - 1), PagePieces(paged[m - 1], m - 1, Offset(texts, m - 1));
      PiecesAreExact(texts, paged, n, m - 1, separator);
      assert PageOk(texts[m - 1], paged[m - 1]);
      PageIsExact(texts, n, m - 1, paged[m - 1], separator);
      AllExactAppend(Document(texts, n, separator), before, page);
      assert Pieces(texts, paged, m) == before + page;
    }
  }

  /** The piece lies in the page whose number it carries. */
  predicate InPage(texts: seq<string>, n: nat, p: Piece) {
    p.page < n <= |texts| && Offset(texts, p.page) <= p.start && p.end <= Offset(texts, p.page) + |texts[p.page]|
  }

  predicate AllInPages(texts: seq<string>, n: nat, pieces: seq<Piece>) {
    forall k | 0 <= k < |pieces| :: InPage(texts, n, pieces[k])
  }

  lemma AllInPagesAppend(texts: seq<string>, n: nat, a: seq<Piece>, b: seq<Piece>)
    requires n < |texts| && AllInPages(texts, n, a) && AllInPages(texts, n + 1, b)
    ensures AllInPages(texts, n + 1, a + b)
  {
    forall k | 0 <= k < |a + b| ensures InPage(texts, n + 1, (a + b)[k]) {
      if k < |a| {
        assert InPage(texts, n, a[k]);
      } else {
        assert InPage(texts, n + 1, b[k - |a|]);
      }
    }
  }

  lemma PageLiesInPage(texts: seq<string>, n: nat, ps: seq<Paragraph>)
    requires n < |texts| && Exact(texts[n], ps)
    ensures AllInPages(texts, n + 1, PagePieces(ps, n, Offset(texts, n)))
  {
  }

  lemma NextPageInPages(texts: seq<string>, n: nat, before: seq<Piece>, ps: seq<Paragraph>)
    requires n < |texts| && AllInPages(texts, n, before) && Exact(texts[n], ps)
    ensures AllInPages(texts, n + 1, before + PagePieces(ps, n, Offset(texts, n)))
  {
    PageLiesInPage(texts, n, ps);
    AllInPagesAppend(texts, n, before, PagePieces(ps, n, Offset(texts, n)));
  }

  lemma {:induction false} PiecesLieInPages(texts: seq<string>, paged: seq<seq<Paragraph>>, n: nat)
    requires n <= |texts| && LosesNothing(texts, paged)
    ensures AllInPages(texts, n, Pieces(texts, paged, n))
  {
    if n > 0 {
      PiecesLieInPages(texts, paged, n - 1);
      assert Exact(texts[n - 1], paged[n - 1]) by {
        assert PageOk(texts[n - 1], paged[n - 1]);
      }
      NextPageInPages(texts, n - 1, Pieces(texts, paged, n - 1), paged[n - 1]);
    }
  }

  // ---------------------------------------------------------------- nothing of the document is lost

  lemma PlacesAppend(a: seq<Piece>, b: seq<Piece>)
    ensures PlacesOf(a + b) == PlacesOf(a) + PlacesOf(b)
  {
  }

  lemma PlacesAreShifted(ps: seq<Paragraph>, page: nat, offset: nat)
    ensures var rs, moved := RangesOf(ps), PlacesOf(PagePieces(ps, page, offset));
            |moved| == |rs| && forall k | 0 <= k < |rs| :: moved[k] == Shift(rs[k], offset)
  {
  }

  lemma PlacedTiles(d: string, offset: nat, text: string, ps: seq<Paragraph>, page: nat)
    requires offset + |text| <= |d| && d[offset..offset + |text|] == text
    requires Tiles(text, RangesOf(ps), 0, |text|)
    ensures Tiles(d, PlacesOf(PagePieces(ps, page, offset)), offset, offset + |text|)
  {
    PlacesAreShifted(ps, page, offset);
    ShiftedTiles(d, offset, text, RangesOf(ps), PlacesOf(PagePieces(ps, page, offset)));
  }

  lemma PageTiles(texts: seq<string>, n: nat, ps: seq<Paragraph>, separator: char)
    requires n < |texts| && Tiles(texts[n], RangesOf(ps), 0, |texts[n]|)
    ensures var d, offset := Document(texts, n + 1, separator), Offset(texts, n);
            offset + |texts[n]| == |d| && Tiles(d, PlacesOf(PagePieces(ps, n, offset)), offset, |d|)
  {
    PageInDocument(texts, n + 1, n, separator);
    PlacedTiles(Document(texts, n + 1, separator), Offset(texts, n), texts[n], ps, n);
  }

  /** With a blank separator the pieces tile the whole document, page breaks included. */
  lemma {:induction false} PiecesTile(texts: seq<string>, paged: seq<seq<Paragraph>>, n: nat, separator: char)
    requires n <= |texts| && IsSpace(separator) && LosesNothing(texts, paged)
    ensures Tiles(Document(texts, n, separator), PlacesOf(Pieces(texts, paged, n)), 0, |Document(texts, n, separator)|)
  {
    if n > 0 {
      var ps, offset := paged[n - 1], Offset(texts, n - 1);
      PiecesTile(texts, paged, n - 1, separator);
      PageTiles(texts, n - 1, ps, separator);
      PlacesAppend(Pieces(texts, paged, n - 1), PagePieces(ps, n - 1, offset));
      NextPageTiles(texts, n, PlacesOf(Pieces(texts, paged, n - 1)), PlacesOf(PagePieces(ps, n - 1, offset)), separator);
    }
  }

  /** A page after the first follows what came before and one separator. */
  lemma DocumentPrefix(texts: seq<string>, n: nat, separator: char)
    requires 1 < n <= |texts|
    ensures var d, before := Document(texts, n, separator), Document(texts, n - 1, separator);
            Offset(texts, n - 1) == |before| + 1 <= |d| && d[0..|before|] == before && d[|before|] == separator
  {
    PageInDocument(texts, n - 1, n - 2, separator);
  }

  lemma NextPageTiles(texts: seq<string>, n: nat, earlier: seq<Range>, added: seq<Range>, separator: char)
    requires 0 < n <= |texts| && IsSpace(separator)
    requires Tiles(Document(texts, n - 1, separator), earlier, 0, |Document(texts, n - 1, separator)|)
    requires Offset(texts, n - 1) <= |Document(texts, n, separator)|
    requires Tiles(Document(texts, n, separator), added, Offset(texts, n - 1), |Document(texts, n, separator)|)
    ensures Tiles(Document(texts, n, separator), earlier + added, 0, |Document(texts, n, separator)|)
  {
    var d, before := Document(texts, n, separator), Document(texts, n - 1, separator);
    if n == 1 {
      assert earlier == [];
      assert earlier + added == added;
    } else {
      DocumentPrefix(texts, n, separator);
      JoinTiles(d, before, earlier, added);
    }
  }

  lemma JoinTiles(d: string, before: string, earlier: seq<Range>, added: seq<Range>)
    requires |before| < |d| && d[0..|before|] == before && IsSpace(d[|before|])
    requires Tiles(before, earlier, 0, |before|) && Tiles(d, added, |before| + 1, |d|)
    ensures Tiles(d, earlier + added, 0, |d|)
  {
    TilesShift(d, 0, before, earlier, earlier, 0, |before|);
    TilesWiden(d, added, |before|, |before| + 1, |d|, |d|);
    TilesAppend(d, earlier, added, 0, |before|, |d|);
  }

  // ---------------------------------------------------------------- what that means for the chunks

  /** The chunk is the text between its offsets. */
  predicate ChunkIsExact(document: string, c: Chunk) {
    && c.metadata.charStart.Some? && c.metadata.charEnd.Some?
    && 0 <= c.metadata.charStart.value <= c.metadata.charEnd.value <= |document|
    && document[c.metadata.charStart.value..c.metadata.charEnd.value] == c.text
  }

  predicate Within(c: Chunk, k: nat) {
    && c.metadata.charStart.Some? && c.metadata.charEnd.Some?
    && c.metadata.charStart.value <= k < c.metadata.charEnd.value
  }

  lemma ParsedIsExact(texts: seq<string>, paged: seq<seq<Paragraph>>, chunks: seq<Chunk>, heading: HeadingRule,
                      separator: char)
    requires LosesNothing(texts, paged) && IsParsed(chunks, Pieces(texts, paged, |texts|), heading)
    ensures forall i | 0 <= i < |chunks| :: ChunkIsExact(Document(texts, |texts|, separator), chunks[i])
  {
    PiecesAreExact(texts, paged, |texts|, |texts|, separator);
    forall i | 0 <= i < |chunks| ensures ChunkIsExact(Document(texts, |texts|, separator), chunks[i]) {
      assert PieceIsExact(Document(texts, |texts|, separator), Pieces(texts, paged, |texts|)[i]);
    }
  }

  /** Every visible character of the document is in a chunk, and no character is in two. */
  ghost predicate CoversDocument(document: string, chunks: seq<Chunk>) {
    && (forall k | 0 <= k < |document| && !IsSpace(document[k]) :: exists i | 0 <= i < |chunks| :: Within(chunks[i], k))
    && (forall i, j, k: nat | 0 <= i < j < |chunks| :: !(Within(chunks[i], k) && Within(chunks[j], k)))
  }

  lemma TiledChunksCover(document: string, chunks: seq<Chunk>, pieces: seq<Piece>)
    requires Tiles(document, PlacesOf(pieces), 0, |document|) && |chunks| == |pieces|
    requires forall i | 0 <= i < |chunks| ::
               chunks[i].metadata.charStart == Some(pieces[i].start) && chunks[i].metadata.charEnd == Some(pieces[i].end)
    ensures CoversDocument(document, chunks)
  {
    TilesInOrder(document, PlacesOf(pieces), 0, |document|);
    forall k | 0 <= k < |document| && !IsSpace(document[k])
      ensures exists i | 0 <= i < |chunks| :: Within(chunks[i], k)
    {
      var i :| 0 <= i < |pieces| && Holds(PlacesOf(pieces)[i], k);
      assert Within(chunks[i], k);
    }
    forall i, j, k: nat | 0 <= i < j < |chunks| ensures !(Within(chunks[i], k) && Within(chunks[j], k)) {
      assert PlacesOf(pieces)[i].end <= PlacesOf(pieces)[j].start;
    }
  }

  lemma ParsedCovers(texts: seq<string>, paged: seq<seq<Paragraph>>, chunks: seq<Chunk>, heading: HeadingRule,
                     separator: char)
    requires LosesNothing(texts, paged) && IsParsed(chunks, Pieces(texts, paged, |texts|), heading) && IsSpace(separator)
    ensures CoversDocument(Document(texts, |texts|, separator), chunks)
  {
    PiecesTile(texts, paged, |texts|, separator);
    TiledChunksCover(Document(texts, |texts|, separator), chunks, Pieces(texts, paged, |texts|));
  }

  /** Not empty, with offsets that span the text. */
  predicate SpansText(c: Chunk) {
    && 0 < |c.text|
    && c.metadata.charStart.Some?
    && c.metadata.charEnd == Some(c.metadata.charStart.value + |c.text|)
  }

  /** One after the other, without overlap. */
  predicate InSequence(chunks: seq<Chunk>) {
    && (forall i | 0 <= i < |chunks| :: SpansText(chunks[i]))
    && forall i, j | 0 <= i < j < |chunks| :: chunks[i].metadata.charEnd.value <= chunks[j].metadata.charStart.value
  }

  lemma ExactSpans(document: string, c: Chunk)
    requires ChunkIsExact(document, c) && c.metadata.charStart.value < c.metadata.charEnd.value
    ensures SpansText(c)
  {
  }

  lemma TiledInSequence(document: string, chunks: seq<Chunk>, pieces: seq<Piece>)
    requires Tiles(document, PlacesOf(pieces), 0, |document|) && |chunks| == |pieces|
    requires forall i | 0 <= i < |chunks| ::
               && chunks[i].metadata.charStart == Some(pieces[i].start)
               && chunks[i].metadata.charEnd == Some(pieces[i].end)
               && ChunkIsExact(document, chunks[i])
    ensures InSequence(chunks)
  {
    TilesInOrder(document, PlacesOf(pieces), 0, |document|);
    forall i, j | 0 <= i < j < |chunks| ensures chunks[i].metadata.charEnd.value <= chunks[j].metadata.charStart.value {
      assert PlacesOf(pieces)[i].end <= PlacesOf(pieces)[j].start;
    }
    forall i | 0 <= i < |chunks| ensures SpansText(chunks[i]) {
      assert PlacesOf(pieces)[i].start < PlacesOf(pieces)[i].end;
      ExactSpans(document, chunks[i]);
    }
  }

  lemma ParsedInSequence(texts: seq<string>, paged: seq<seq<Paragraph>>, chunks: seq<Chunk>, heading: HeadingRule)
    requires LosesNothing(texts, paged) && IsParsed(chunks, Pieces(texts, paged, |texts|), heading)
    ensures InSequence(chunks)
  {
    ParsedIsExact(texts, paged, chunks, heading, '\n');
    PiecesTile(texts, paged, |texts|, '\n');
    TiledInSequence(Document(texts, |texts|, '\n'), chunks, Pieces(texts, paged, |texts|));
  }
}
