/** The PDF part of the parser: cleaned page texts, split into paragraphs, become numbered chunks. */
module PdfParser {
  import opened Options
  import opened Texts
  import opened Paragraphs
  import opened PdfDocument

  // ---------------------------------------------------------------- headings

  const ORDINAL_MARK: char := '\U{7B2C}'
  const CHAPTER_MARK: char := '\U{7AE0}'
  const SECTION_MARK: char := '\U{8282}'

  /** The ordinal mark, at least one character, and then the mark somewhere in the line. */
  predicate IsHeading(line: string, mark: char) {
    |line| > 0 && line[0] == ORDINAL_MARK && exists k | 2 <= k < |line| :: line[k] == mark
  }

  function HeadingOf(text: string): Option<Heading> {
    var lines := SplitLines(text);
    var first := if lines == [] then "" else Strip(lines[0]);
    if IsHeading(first, CHAPTER_MARK) then Some(Heading(first, 1))
    else if IsHeading(first, SECTION_MARK) then Some(Heading(first, 2))
    else None
  }

  /** On the first line the first visible character is the ordinal mark, and one further on is the other mark. */
  predicate Opens(text: string, mark: char, i: nat, k: nat) {
    i + 2 <= k < |text| && AllSpace(text, 0, i) && text[i] == ORDINAL_MARK && text[k] == mark && NoBreakIn(text, 0, k)
  }

  predicate IsMarked(text: string, mark: char) {
    exists i, k | 0 <= i < |text| && 0 <= k < |text| :: Opens(text, mark, i, k)
  }

  lemma MarksStay(text: string, mark: char, i: nat, k: nat)
    requires Opens(text, mark, i, k) && !IsSpace(mark)
    ensures var r := Trim(text, 0, LineEnd(text, 0)); r.start == i && k < r.end
  {
    var e := LineEnd(text, 0);
    assert k < e by {
      assert !IsBreak(text[k]);
    }
    assert !IsSpace(text[i]);
  }

  lemma MarkedIff(text: string, mark: char)
    requires !IsSpace(mark)
    ensures var r := Trim(text, 0, LineEnd(text, 0));
            IsHeading(text[r.start..r.end], mark) <==> IsMarked(text, mark)
  {
    var r := Trim(text, 0, LineEnd(text, 0));
    var line := text[r.start..r.end];
    if IsMarked(text, mark) {
      var i, k :| 0 <= i < |text| && 0 <= k < |text| && Opens(text, mark, i, k);
      MarksStay(text, mark, i, k);
      assert line[k - r.start] == mark;
    }
    if IsHeading(line, mark) {
      var k :| 2 <= k < |line| && line[k] == mark;
      LineEndIsFirst(text, 0);
      assert Opens(text, mark, r.start, r.start + k);
    }
  }

  /** What makes a heading, by position: the level is that of the chapter mark if there is one. */
  lemma HeadingIff(text: string)
    ensures var r, h := Trim(text, 0, LineEnd(text, 0)), HeadingOf(text);
            && (h.None? <==> !IsMarked(text, CHAPTER_MARK) && !IsMarked(text, SECTION_MARK))
            && (h.Some? ==> h.value == Heading(text[r.start..r.end], if IsMarked(text, CHAPTER_MARK) then 1 else 2))
  {
    if text != "" {
      MarkedIff(text, CHAPTER_MARK);
      MarkedIff(text, SECTION_MARK);
      TrimOfSlice(text, 0, LineEnd(text, 0));
      assert LineSpans(text, 0)[0] == Range(0, LineEnd(text, 0));
    }
  }

  // ---------------------------------------------------------------- pages

  /** NUL separators between text runs are not document text. */
  function Clean(page: string): string {
    if page == "" then ""
    else if page[0] == '\0' then Clean(page[1..])
    else [page[0]] + Clean(page[1..])
  }

  /** The NULs among the first `n` characters. */
  function Nuls(page: string, n: nat): nat
    requires n <= |page|
  {
    if n == 0 then 0 else Nuls(page, n - 1) + (if page[n - 1] == '\0' then 1 else 0)
  }

  lemma {:induction false} NulsOfTail(page: string, n: nat)
    requires 0 < n <= |page|
    ensures Nuls(page, n) == (if page[0] == '\0' then 1 else 0) + Nuls(page[1..], n - 1)
    ensures Nuls(page, n) <= n
  {
    if n > 1 {
      NulsOfTail(page, n - 1);
    }
  }

  lemma {:induction false} CleanKeepsRest(page: string, k: nat)
    requires k < |page| && page[k] != '\0'
    ensures 0 <= k - Nuls(page, k) < |Clean(page)| && Clean(page)[k - Nuls(page, k)] == page[k]
  {
    if k > 0 {
      CleanKeepsRest(page[1..], k - 1);
      NulsOfTail(page, k);
    }
  }

  lemma {:induction false} CleanLength(page: string)
    ensures |Clean(page)| == |page| - Nuls(page, |page|)
  {
    if page != "" {
      CleanLength(page[1..]);
      NulsOfTail(page, |page|);
    }
  }

  /** Cleaning drops the NULs and nothing else: every other character moves up by the NULs before it. */
  lemma CleanDropsNuls(page: string)
    ensures |Clean(page)| == |page| - Nuls(page, |page|)
    ensures forall k | 0 <= k < |page| && page[k] != '\0' ::
              0 <= k - Nuls(page, k) < |Clean(page)| && Clean(page)[k - Nuls(page, k)] == page[k]
  {
    CleanLength(page);
    forall k | 0 <= k < |page| && page[k] != '\0'
      ensures 0 <= k - Nuls(page, k) < |Clean(page)| && Clean(page)[k - Nuls(page, k)] == page[k]
    {
      CleanKeepsRest(page, k);
    }
  }

  function CleanPages(pages: seq<string>): (texts: seq<string>)
    ensures |texts| == |pages| && forall n | 0 <= n < |pages| :: texts[n] == Clean(pages[n])
  {
    seq(|pages|, n requires 0 <= n < |pages| => Clean(pages[n]))
  }

  function ParagraphsOf(text: string): seq<Paragraph> {
    Extract(text, Ranges(text, 0))
  }

  function PagedParagraphs(texts: seq<string>): (paged: seq<seq<Paragraph>>)
    ensures |paged| == |texts| && forall n | 0 <= n < |texts| :: paged[n] == ParagraphsOf(texts[n])
  {
    seq(|texts|, n requires 0 <= n < |texts| => ParagraphsOf(texts[n]))
  }

  lemma ExtractedRanges(text: string, ranges: seq<Range>)
    ensures RangesOf(Extract(text, ranges)) == ranges
  {
    ExtractAt(text, ranges);
  }

  lemma PageLosesNothing(text: string)
    ensures PageOk(text, ParagraphsOf(text))
  {
    Lossless(text);
    RangesTile(text, 0);
    ExtractedRanges(text, Ranges(text, 0));
  }

  lemma PagesLoseNothing(texts: seq<string>)
    ensures LosesNothing(texts, PagedParagraphs(texts))
  {
    forall n | 0 <= n < |texts| ensures PageOk(texts[n], PagedParagraphs(texts)[n]) {
      PageLosesNothing(texts[n]);
    }
  }

  /** Skipping a blank page skips no paragraph. */
  lemma BlankPage(text: string)
    requires Strip(text) == ""
    ensures ParagraphsOf(text) == []
  {
    RangesTile(text, 0);
    assert AllSpace(text, 0, |text|);
  }

  /** The pieces of all pages, in document coordinates. */
  function PdfPieces(pages: seq<string>): seq<Piece> {
    var texts := CleanPages(pages);
    Pieces(texts, PagedParagraphs(texts), |texts|)
  }

  function PdfDocumentText(pages: seq<string>, separator: char): string {
    Document(CleanPages(pages), |pages|, separator)
  }

  /** Chunks of one more page; a blank page adds none. */
  method AddPage(before: seq<Chunk>, ghost pieces: seq<Piece>, text: string, n: nat, offset: nat,
                 section: Option<Heading>, heading: HeadingRule)
    returns (chunks: seq<Chunk>, current: Option<Heading>)
    requires ParsedSoFar(before, section, pieces, heading)
    ensures ParsedSoFar(chunks, current, pieces + PagePieces(ParagraphsOf(text), n, offset), heading)
  {
    if Strip(text) == "" {
      BlankPage(text);
      assert pieces + [] == pieces;
      return before, section;
    }
    var paragraphs := SplitIntoParagraphRanges(text);
    chunks, current := AppendPage(before, pieces, paragraphs, n, offset, section, heading);
  }

  lemma NextPage(texts: seq<string>, n: nat)
    requires n < |texts|
    ensures var paged := PagedParagraphs(texts);
            Pieces(texts, paged, n + 1)
            == Pieces(texts, paged, n) + PagePieces(ParagraphsOf(texts[n]), n, Offset(texts, n))
  {
  }

  method ParsePages(texts: seq<string>, heading: HeadingRule) returns (chunks: seq<Chunk>)
    ensures IsParsed(chunks, Pieces(texts, PagedParagraphs(texts), |texts|), heading)
  {
    chunks := [];
    var documentOffset := 0;
    var section := None;
    for n := 0 to |texts|
      invariant documentOffset == Offset(texts, n)
      invariant ParsedSoFar(chunks, section, Pieces(texts, PagedParagraphs(texts), n), heading)
    {
      NextPage(texts, n);
      ghost var done := Pieces(texts, PagedParagraphs(texts), n);
      chunks, section := AddPage(chunks, done, texts[n], n, documentOffset, section, heading);
      documentOffset := documentOffset + |texts[n]| + 1;
    }
  }

  method ParsePdf(pages: seq<string>) returns (chunks: seq<Chunk>)
    ensures IsParsed(chunks, PdfPieces(pages), HeadingOf)
    ensures forall i | 0 <= i < |chunks| :: SaysWhere(CleanPages(pages), chunks, i, HeadingOf)
  {
    chunks := ParsePages(CleanPages(pages), HeadingOf);
    forall i | 0 <= i < |chunks| ensures SaysWhere(CleanPages(pages), chunks, i, HeadingOf) {
      ParsedPdfSaysWhere(pages, chunks, i);
    }
  }

  /**
   Every chunk of a parsed PDF is the text between its offsets, in the page texts joined by
   any separator; with a blank one every visible character is in exactly one chunk.
   */
  lemma ParsedPdfIsExact(pages: seq<string>, chunks: seq<Chunk>, separator: char)
    requires IsParsed(chunks, PdfPieces(pages), HeadingOf)
    ensures forall i | 0 <= i < |chunks| :: ChunkIsExact(PdfDocumentText(pages, separator), chunks[i])
    ensures IsSpace(separator) ==> CoversDocument(PdfDocumentText(pages, separator), chunks)
    ensures InSequence(chunks)
  {
    var texts := CleanPages(pages);
    PagesLoseNothing(texts);
    ParsedIsExact(texts, PagedParagraphs(texts), chunks, HeadingOf, separator);
    ParsedInSequence(texts, PagedParagraphs(texts), chunks, HeadingOf);
    if IsSpace(separator) {
      ParsedCovers(texts, PagedParagraphs(texts), chunks, HeadingOf, separator);
    }
  }

  // ---------------------------------------------------------------- where a chunk comes from

  /** The page number is that of the page the offsets lie in. */
  predicate OnItsPage(texts: seq<string>, metadata: Metadata) {
    && metadata.page.Some? && 1 <= metadata.page.value <= |texts|
    && metadata.charStart.Some? && metadata.charEnd.Some?
    && Offset(texts, metadata.page.value - 1) <= metadata.charStart.value
    && metadata.charEnd.value <= Offset(texts, metadata.page.value - 1) + |texts[metadata.page.value - 1]|
  }

  /** The section is the nearest heading among the chunks up to this one. */
  predicate UnderItsHeading(chunks: seq<Chunk>, i: nat, heading: HeadingRule)
    requires i < |chunks|
  {
    match chunks[i].metadata.section
    case None => forall k | 0 <= k <= i :: heading(chunks[k].text).None?
    case Some(h) => exists k | 0 <= k <= i ::
                      && heading(chunks[k].text) == Some(h)
                      && forall j | k < j <= i :: heading(chunks[j].text).None?
  }

  /** Chunks count from zero and say their length, their page and their section. */
  predicate SaysWhere(texts: seq<string>, chunks: seq<Chunk>, i: nat, heading: HeadingRule)
    requires i < |chunks|
  {
    && chunks[i].index == i
    && chunks[i].metadata.parent == Some(i)
    && chunks[i].metadata.charCount == Some(|chunks[i].text|)
    && OnItsPage(texts, chunks[i].metadata)
    && UnderItsHeading(chunks, i, heading)
  }

  lemma FindsItsHeading(chunks: seq<Chunk>, pieces: seq<Piece>, i: nat, heading: HeadingRule)
    requires IsParsed(chunks, pieces, heading) && i < |chunks|
    ensures UnderItsHeading(chunks, i, heading)
  {
    NearestHeading(pieces, i, heading);
    forall k | 0 <= k <= i ensures heading(chunks[k].text) == heading(pieces[k].text) {
    }
    if chunks[i].metadata.section.Some? {
      var k :| 0 <= k <= i && heading(pieces[k].text) == chunks[i].metadata.section
               && forall j | k < j <= i :: heading(pieces[j].text).None?;
      assert heading(chunks[k].text) == chunks[i].metadata.section;
    }
  }

  lemma ParsedPdfSaysWhere(pages: seq<string>, chunks: seq<Chunk>, i: nat)
    requires IsParsed(chunks, PdfPieces(pages), HeadingOf) && i < |chunks|
    ensures SaysWhere(CleanPages(pages), chunks, i, HeadingOf)
  {
    var texts := CleanPages(pages);
    PagesLoseNothing(texts);
    PiecesLieInPages(texts, PagedParagraphs(texts), |texts|);
    assert InPage(texts, |texts|, PdfPieces(pages)[i]);
    FindsItsHeading(chunks, PdfPieces(pages), i, HeadingOf);
  }
}
