/**
 Splitting a page into paragraphs with exact source offsets. The code searches for each
 line again with `find`; the specification works on true positions, and the two agree.
 */
module Paragraphs {
  import opened Texts

  const MAX_PARAGRAPH: nat := 500

  // ---------------------------------------------------------------- the block pattern

  function AfterLastNewline(s: string, lo: nat, hi: nat): (n: nat)
    requires lo <= hi <= |s|
    ensures lo <= n <= hi && (lo < n ==> s[n - 1] == '\n')
    decreases hi - lo
  {
    if lo < hi && s[hi - 1] != '\n' then AfterLastNewline(s, lo, hi - 1) else hi
  }

  /** Where the longest match of a newline, whitespace and a newline at `e` ends; `e` if there is none. */
  function SeparatorEnd(s: string, e: nat): (n: nat)
    requires e <= |s|
    ensures e <= n <= |s| && AllSpace(s, e, n)
  {
    if e == |s| || s[e] != '\n' then e
    else
      var n := AfterLastNewline(s, e + 1, SkipSpaces(s, e + 1, |s|));
      if n == e + 1 then e else n
  }

  predicate Separates(s: string, e: nat) {
    e < |s| && e < SeparatorEnd(s, e)
  }

  /** The end of the shortest text from `i` on that a separator or the end of the text follows. */
  function BlockEnd(s: string, i: nat): (e: nat)
    requires i <= |s|
    ensures i <= e <= |s| && (e < |s| ==> Separates(s, e))
    decreases |s| - i
  {
    if i == |s| || Separates(s, i) then i else BlockEnd(s, i + 1)
  }

  // ---------------------------------------------------------------- paragraphs by position

  function Shift(r: Range, d: nat): Range {
    Range(d + r.start, d + r.end)
  }

  /** The trimmed lines that are not blank, moved by `d`. */
  function LineRanges(t: string, spans: seq<Range>, d: nat): seq<Range>
    requires AllInBounds(t, spans)
  {
    if spans == [] then []
    else
      var r := Trim(t, spans[0].start, spans[0].end);
      var rest := LineRanges(t, spans[1..], d);
      if r.start == r.end then rest else [Shift(r, d)] + rest
  }

  /** A block is one paragraph, or one per line when it is too long. */
  function BlockRanges(s: string, lo: nat, hi: nat): seq<Range>
    requires lo <= hi <= |s|
  {
    var r := Trim(s, lo, hi);
    var t := s[r.start..r.end];
    if |t| == 0 then []
    else if |t| <= MAX_PARAGRAPH then [r]
    else
      LineSpansInBounds(t, 0);
      LineRanges(t, LineSpans(t, 0), r.start)
  }

  function Ranges(s: string, i: nat): seq<Range>
    requires i <= |s|
    decreases |s| - i
  {
    var e := BlockEnd(s, i);
    BlockRanges(s, i, e) + if e == |s| then [] else Ranges(s, SeparatorEnd(s, e))
  }

  datatype Paragraph = Paragraph(text: string, start: nat, end: nat)

  function At(s: string, r: Range): Paragraph {
    Paragraph(if InBounds(s, r) then s[r.start..r.end] else "", r.start, r.end)
  }

  function Extract(s: string, ranges: seq<Range>): (ps: seq<Paragraph>)
    ensures |ps| == |ranges|
  {
    if ranges == [] then []
    else Extract(s, ranges[..|ranges| - 1]) + [At(s, ranges[|ranges| - 1])]
  }

  // ---------------------------------------------------------------- nothing is lost

  /** The ranges lie in order in s[lo..hi], start and end with a visible character, and skip only whitespace. */
  predicate Tiles(s: string, ranges: seq<Range>, lo: nat, hi: nat)
    requires lo <= hi <= |s|
  {
    if ranges == [] then AllSpace(s, lo, hi)
    else
      && lo <= ranges[0].start < ranges[0].end <= hi
      && AllSpace(s, lo, ranges[0].start)
      && !IsSpace(s[ranges[0].start]) && !IsSpace(s[ranges[0].end - 1])
      && Tiles(s, ranges[1..], ranges[0].end, hi)
  }

  lemma {:induction false} TilesAppend(s: string, a: seq<Range>, b: seq<Range>, lo: nat, mid: nat, hi: nat)
    requires lo <= mid <= hi <= |s| && Tiles(s, a, lo, mid) && Tiles(s, b, mid, hi)
    ensures Tiles(s, a + b, lo, hi)
    decreases |a|
  {
    if a == [] {
      assert a + b == b;
      if b != [] {
        assert AllSpace(s, lo, b[0].start);
      }
    } else {
      TilesAppend(s, a[1..], b, a[0].end, mid, hi);
      assert (a + b)[1..] == a[1..] + b;
    }
  }

  /** Tiles of a slice, moved to where the slice starts. */
  lemma {:induction false} TilesShift(s: string, d: nat, t: string, ranges: seq<Range>, moved: seq<Range>,
                                      lo: nat, hi: nat)
    requires d + |t| <= |s| && s[d..d + |t|] == t && lo <= hi <= |t|
    requires |moved| == |ranges| && forall k | 0 <= k < |ranges| :: moved[k] == Shift(ranges[k], d)
    requires Tiles(t, ranges, lo, hi)
    ensures Tiles(s, moved, d + lo, d + hi)
    decreases |ranges|
  {
    assert forall k | 0 <= k < |t| :: t[k] == s[d + k];
    if ranges == [] {
      assert forall k | d + lo <= k < d + hi :: s[k] == t[k - d];
    } else {
      assert forall k | d + lo <= k < d + ranges[0].start :: s[k] == t[k - d];
      TilesShift(s, d, t, ranges[1..], moved[1..], ranges[0].end, hi);
    }
  }

  /** The line at `i`, stripped to `r` and left out when blank, goes before what tiles the text from `n` on. */
  lemma NextLineTiles(t: string, i: nat, r: Range, n: nat, rest: seq<Range>)
    requires i <= r.start <= r.end <= n <= |t| && AllSpace(t, i, r.start) && AllSpace(t, r.end, n)
    requires r.start < r.end ==> !IsSpace(t[r.start]) && !IsSpace(t[r.end - 1])
    requires Tiles(t, rest, n, |t|)
    ensures Tiles(t, if r.start == r.end then rest else [Shift(r, 0)] + rest, i, |t|)
  {
    var lo := if r.start == r.end then i else r.end;
    assert Tiles(t, [], lo, n);
    TilesAppend(t, [], rest, lo, n, |t|);
    assert [] + rest == rest && ([Shift(r, 0)] + rest)[1..] == rest;
  }

  lemma {:induction false} LineRangesTile(t: string, spans: seq<Range>, i: nat)
    requires i <= |t| && spans == LineSpans(t, i) && AllInBounds(t, spans)
    ensures Tiles(t, LineRanges(t, spans, 0), i, |t|)
    decreases |t| - i
  {
    if i < |t| {
      var e := LineEnd(t, i);
      var n := AfterBreak(t, e);
      assert spans[1..] == LineSpans(t, n);
      LineRangesTile(t, spans[1..], n);
      assert AllSpace(t, Trim(t, i, e).end, n);
      NextLineTiles(t, i, Trim(t, i, e), n, LineRanges(t, spans[1..], 0));
    }
  }

  lemma {:induction false} LineRangesShift(t: string, spans: seq<Range>, d: nat)
    requires AllInBounds(t, spans)
    ensures |LineRanges(t, spans, d)| == |LineRanges(t, spans, 0)|
    ensures forall k | 0 <= k < |LineRanges(t, spans, 0)| ::
              LineRanges(t, spans, d)[k] == Shift(LineRanges(t, spans, 0)[k], d)
  {
    if spans != [] {
      LineRangesShift(t, spans[1..], d);
    }
  }

  lemma ShiftedTiles(d: string, offset: nat, text: string, ranges: seq<Range>, moved: seq<Range>)
    requires offset + |text| <= |d| && d[offset..offset + |text|] == text && Tiles(text, ranges, 0, |text|)
    requires |moved| == |ranges| && forall k | 0 <= k < |ranges| :: moved[k] == Shift(ranges[k], offset)
    ensures Tiles(d, moved, offset, offset + |text|)
  {
    TilesShift(d, offset, text, ranges, moved, 0, |text|);
  }

  lemma LinesTile(s: string, lo: nat, hi: nat)
    requires lo <= hi <= |s| && AllInBounds(s[lo..hi], LineSpans(s[lo..hi], 0))
    ensures Tiles(s, LineRanges(s[lo..hi], LineSpans(s[lo..hi], 0), lo), lo, hi)
  {
    var t := s[lo..hi];
    var spans := LineSpans(t, 0);
    LineRangesTile(t, spans, 0);
    LineRangesShift(t, spans, lo);
    ShiftedTiles(s, lo, t, LineRanges(t, spans, 0), LineRanges(t, spans, lo));
  }

  /** Whitespace around a tiled stretch. */
  lemma TilesWiden(s: string, ranges: seq<Range>, lo: nat, a: nat, b: nat, hi: nat)
    requires lo <= a <= b <= hi <= |s| && Tiles(s, ranges, a, b)
    requires AllSpace(s, lo, a) && AllSpace(s, b, hi)
    ensures Tiles(s, ranges, lo, hi)
  {
    TilesAppend(s, [], ranges, lo, a, b);
    TilesAppend(s, ranges, [], lo, b, hi);
    assert [] + ranges == ranges && ranges + [] == ranges;
  }

  lemma BlockTiles(s: string, lo: nat, hi: nat)
    requires lo <= hi <= |s|
    ensures Tiles(s, BlockRanges(s, lo, hi), lo, hi)
  {
    var r := Trim(s, lo, hi);
    if MAX_PARAGRAPH < r.end - r.start {
      LineSpansInBounds(s[r.start..r.end], 0);
      LinesTile(s, r.start, r.end);
    } else if r.start < r.end {
      assert Tiles(s, [], r.end, r.end);
      assert Tiles(s, [r], r.start, r.end);
    }
    TilesWiden(s, BlockRanges(s, lo, hi), lo, r.start, r.end, hi);
  }

  lemma {:induction false} RangesTile(s: string, i: nat)
    requires i <= |s|
    ensures Tiles(s, Ranges(s, i), i, |s|)
    decreases |s| - i
  {
    var e := BlockEnd(s, i);
    BlockTiles(s, i, e);
    if e < |s| {
      var n := SeparatorEnd(s, e);
      RangesTile(s, n);
      TilesAppend(s, [], Ranges(s, n), e, n, |s|);
      assert [] + Ranges(s, n) == Ranges(s, n);
      TilesAppend(s, BlockRanges(s, i, e), Ranges(s, n), i, e, |s|);
    } else {
      assert BlockRanges(s, i, e) + [] == BlockRanges(s, i, e);
    }
  }

  predicate Holds(r: Range, k: nat) {
    r.start <= k < r.end
  }

  /** What tiling means: ordered, disjoint, not empty, and each visible character in a range. */
  lemma {:induction false} TilesInOrder(s: string, ranges: seq<Range>, lo: nat, hi: nat)
    requires lo <= hi <= |s| && Tiles(s, ranges, lo, hi)
    ensures forall i | 0 <= i < |ranges| :: lo <= ranges[i].start < ranges[i].end <= hi
    ensures forall i, j | 0 <= i < j < |ranges| :: ranges[i].end <= ranges[j].start
    ensures forall k | lo <= k < hi && !IsSpace(s[k]) :: exists i | 0 <= i < |ranges| :: Holds(ranges[i], k)
    decreases |ranges|
  {
    if ranges != [] {
      TilesInOrder(s, ranges[1..], ranges[0].end, hi);
      forall k | lo <= k < hi && !IsSpace(s[k]) ensures exists i | 0 <= i < |ranges| :: Holds(ranges[i], k) {
        if k < ranges[0].end {
          assert Holds(ranges[0], k);
        } else {
          var i :| 0 <= i < |ranges| - 1 && Holds(ranges[1..][i], k);
          assert Holds(ranges[i + 1], k);
        }
      }
    }
  }

  /** The text of each paragraph is what its offsets say. */
  predicate Exact(s: string, ps: seq<Paragraph>) {
    forall i | 0 <= i < |ps| :: ps[i].start < ps[i].end <= |s| && s[ps[i].start..ps[i].end] == ps[i].text
  }

  predicate InOrder(ps: seq<Paragraph>) {
    forall i, j | 0 <= i < j < |ps| :: ps[i].end <= ps[j].start
  }

  predicate CoversVisible(s: string, ps: seq<Paragraph>) {
    forall k | 0 <= k < |s| && !IsSpace(s[k]) :: exists i | 0 <= i < |ps| :: ps[i].start <= k < ps[i].end
  }

  lemma {:induction false} ExtractedAt(s: string, ranges: seq<Range>, i: nat)
    requires i < |ranges|
    ensures Extract(s, ranges)[i] == At(s, ranges[i])
  {
    if i < |ranges| - 1 {
      ExtractedAt(s, ranges[..|ranges| - 1], i);
    }
  }

  lemma ExtractAt(s: string, ranges: seq<Range>)
    ensures forall i | 0 <= i < |ranges| :: Extract(s, ranges)[i] == At(s, ranges[i])
  {
    forall i | 0 <= i < |ranges| ensures Extract(s, ranges)[i] == At(s, ranges[i]) {
      ExtractedAt(s, ranges, i);
    }
  }

  lemma OrderedParagraphs(s: string, ranges: seq<Range>)
    requires forall i | 0 <= i < |ranges| :: ranges[i].start < ranges[i].end <= |s|
    requires forall i, j | 0 <= i < j < |ranges| :: ranges[i].end <= ranges[j].start
    requires forall k | 0 <= k < |s| && !IsSpace(s[k]) :: exists i | 0 <= i < |ranges| :: Holds(ranges[i], k)
    ensures var ps := Extract(s, ranges); Exact(s, ps) && InOrder(ps) && CoversVisible(s, ps)
  {
    var ps := Extract(s, ranges);
    ExtractAt(s, ranges);
    forall k | 0 <= k < |s| && !IsSpace(s[k]) ensures exists i | 0 <= i < |ps| :: ps[i].start <= k < ps[i].end {
      var i :| 0 <= i < |ranges| && Holds(ranges[i], k);
      assert InBounds(s, ranges[i]);
      assert ps[i].start <= k < ps[i].end;
    }
  }

  /**
   Splitting is lossless: paragraphs are exact, in order and disjoint, and every visible
   character lies in one of them.
   */
  lemma Lossless(s: string)
    ensures var ps := Extract(s, Ranges(s, 0)); Exact(s, ps) && InOrder(ps) && CoversVisible(s, ps)
  {
    RangesTile(s, 0);
    TilesInOrder(s, Ranges(s, 0), 0, |s|);
    OrderedParagraphs(s, Ranges(s, 0));
  }

  // ---------------------------------------------------------------- paragraphs are not merged

  predicate NoSeparatorIn(s: string, lo: nat, hi: nat) {
    forall e | lo <= e < hi :: !Separates(s, e)
  }

  predicate NoBreakIn(s: string, lo: nat, hi: nat)
    requires lo <= hi <= |s|
  {
    forall k | lo <= k < hi :: !IsBreak(s[k])
  }

  /** No blank line inside, and no line break either once the paragraph is too long. */
  predicate OneParagraph(s: string, r: Range) {
    && InBounds(s, r)
    && NoSeparatorIn(s, r.start, r.end)
    && (MAX_PARAGRAPH < r.end - r.start ==> NoBreakIn(s, r.start, r.end))
  }

  lemma {:induction false} BlockEndIsFirst(s: string, i: nat)
    requires i <= |s|
    ensures NoSeparatorIn(s, i, BlockEnd(s, i))
    decreases |s| - i
  {
    if i < |s| && !Separates(s, i) {
      BlockEndIsFirst(s, i + 1);
    }
  }

  lemma {:induction false} LineEndIsFirst(s: string, i: nat)
    requires i <= |s|
    ensures NoBreakIn(s, i, LineEnd(s, i))
    decreases |s| - i
  {
    if i < |s| && !IsBreak(s[i]) {
      LineEndIsFirst(s, i + 1);
    }
  }

  predicate InOneLine(s: string, r: Range) {
    InBounds(s, r) && NoBreakIn(s, r.start, r.end)
  }

  predicate AllInOneLine(s: string, rs: seq<Range>) {
    forall k | 0 <= k < |rs| :: InOneLine(s, rs[k])
  }

  lemma {:induction false} LineRangesHaveNoBreak(t: string, spans: seq<Range>, i: nat)
    requires i <= |t| && spans == LineSpans(t, i) && AllInBounds(t, spans)
    ensures AllInOneLine(t, LineRanges(t, spans, 0))
    decreases |t| - i
  {
    if i < |t| {
      var e := LineEnd(t, i);
      LineEndIsFirst(t, i);
      assert spans[1..] == LineSpans(t, AfterBreak(t, e));
      LineRangesHaveNoBreak(t, spans[1..], AfterBreak(t, e));
    }
  }

  lemma LinesHaveNoBreak(s: string, lo: nat, hi: nat)
    requires lo <= hi <= |s| && AllInBounds(s[lo..hi], LineSpans(s[lo..hi], 0))
    ensures AllInOneLine(s, LineRanges(s[lo..hi], LineSpans(s[lo..hi], 0), lo))
  {
    var t := s[lo..hi];
    var spans := LineSpans(t, 0);
    LineRangesHaveNoBreak(t, spans, 0);
    LineRangesShift(t, spans, lo);
    var here, rs := LineRanges(t, spans, 0), LineRanges(t, spans, lo);
    forall k | 0 <= k < |rs| ensures InOneLine(s, rs[k]) {
      assert rs[k] == Shift(here[k], lo) && InOneLine(t, here[k]);
      forall x | rs[k].start <= x < rs[k].end ensures !IsBreak(s[x]) {
        assert s[x] == t[x - lo];
      }
    }
  }

  lemma BlockParagraphs(s: string, lo: nat, hi: nat)
    requires lo <= hi <= |s| && NoSeparatorIn(s, lo, hi)
    ensures forall k | 0 <= k < |BlockRanges(s, lo, hi)| :: OneParagraph(s, BlockRanges(s, lo, hi)[k])
  {
    var r, rs := Trim(s, lo, hi), BlockRanges(s, lo, hi);
    BlockTiles(s, lo, hi);
    TilesInOrder(s, rs, lo, hi);
    if MAX_PARAGRAPH < r.end - r.start {
      LineSpansInBounds(s[r.start..r.end], 0);
      LinesHaveNoBreak(s, r.start, r.end);
      assert rs == LineRanges(s[r.start..r.end], LineSpans(s[r.start..r.end], 0), r.start);
    }
    forall k | 0 <= k < |rs| ensures OneParagraph(s, rs[k]) {
      assert lo <= rs[k].start && rs[k].end <= hi;
      assert MAX_PARAGRAPH < r.end - r.start ==> InOneLine(s, rs[k]);
    }
  }

  /** Every paragraph lies inside one block of the page, and a long one inside one line. */
  lemma {:induction false} ParagraphsAreNotMerged(s: string, i: nat)
    requires i <= |s|
    ensures forall k | 0 <= k < |Ranges(s, i)| :: OneParagraph(s, Ranges(s, i)[k])
    decreases |s| - i
  {
    var e := BlockEnd(s, i);
    BlockEndIsFirst(s, i);
    BlockParagraphs(s, i, e);
    if e < |s| {
      ParagraphsAreNotMerged(s, SeparatorEnd(s, e));
    }
  }

  // ---------------------------------------------------------------- and not split more than that

  /** A newline, only whitespace, and another newline, from `e` on. */
  predicate BlankLineAt(s: string, e: nat) {
    e < |s| && s[e] == '\n' && exists n | e < n < |s| :: s[n] == '\n' && AllSpace(s, e, n)
  }

  predicate NoBlankLineIn(s: string, lo: nat, hi: nat) {
    forall e | lo <= e < hi :: !BlankLineAt(s, e)
  }

  lemma {:induction false} LastNewlineIsLast(s: string, lo: nat, hi: nat, k: nat)
    requires lo <= k < hi <= |s| && s[k] == '\n'
    ensures k < AfterLastNewline(s, lo, hi)
    decreases hi - lo
  {
    if s[hi - 1] != '\n' {
      LastNewlineIsLast(s, lo, hi - 1, k);
    }
  }

  /** The pattern matches a separator exactly where a blank line starts. */
  lemma SeparatesIff(s: string, e: nat)
    ensures Separates(s, e) <==> BlankLineAt(s, e)
  {
    if e < |s| && s[e] == '\n' {
      var a := SkipSpaces(s, e + 1, |s|);
      var n := AfterLastNewline(s, e + 1, a);
      if e + 1 < n {
        assert s[n - 1] == '\n' && AllSpace(s, e, n - 1);
      }
      if BlankLineAt(s, e) {
        var k :| e < k < |s| && s[k] == '\n' && AllSpace(s, e, k);
        assert k < a;
        LastNewlineIsLast(s, e + 1, a, k);
      }
    }
  }

  /** From a visible character to a visible one, with no blank line inside and one before any other. */
  predicate IsBlock(s: string, lo: nat, hi: nat) {
    && lo < hi <= |s| && !IsSpace(s[lo]) && !IsSpace(s[hi - 1]) && NoBlankLineIn(s, lo, hi)
    && (forall k: nat | k < lo && !IsSpace(s[k]) :: !NoBlankLineIn(s, k, lo))
    && (forall k: nat | hi <= k < |s| && !IsSpace(s[k]) :: !NoBlankLineIn(s, hi, k))
  }

  /** One range holds both characters. */
  predicate Together(ranges: seq<Range>, a: nat, b: nat) {
    exists i | 0 <= i < |ranges| :: Holds(ranges[i], a) && Holds(ranges[i], b)
  }

  lemma TogetherBehind(first: Range, rest: seq<Range>, a: nat, b: nat)
    requires Together(rest, a, b)
    ensures Together([first] + rest, a, b)
  {
    var k :| 0 <= k < |rest| && Holds(rest[k], a) && Holds(rest[k], b);
    assert ([first] + rest)[k + 1] == rest[k];
  }

  lemma TogetherInFront(first: Range, rest: seq<Range>, a: nat, b: nat)
    requires Holds(first, a) && Holds(first, b)
    ensures Together([first] + rest, a, b)
  {
    assert ([first] + rest)[0] == first;
  }

  /** Two visible characters of one line lie in the range of that line. */
  lemma {:induction false} LineHolds(t: string, spans: seq<Range>, i: nat, a: nat, b: nat)
    requires i <= a <= b < |t| && !IsSpace(t[a]) && !IsSpace(t[b]) && NoBreakIn(t, a, b)
    requires spans == LineSpans(t, i) && AllInBounds(t, spans)
    ensures Together(LineRanges(t, spans, 0), a, b)
    decreases |t| - i
  {
    var e := LineEnd(t, i);
    var r := Trim(t, i, e);
    var rest := LineRanges(t, spans[1..], 0);
    assert spans[1..] == LineSpans(t, AfterBreak(t, e));
    if a < e {
      assert b < e;
      TogetherInFront(Shift(r, 0), rest, a, b);
    } else {
      assert AfterBreak(t, e) <= a;
      LineHolds(t, spans[1..], AfterBreak(t, e), a, b);
      TogetherBehind(Shift(r, 0), rest, a, b);
    }
  }

  lemma ShiftedTogether(here: seq<Range>, there: seq<Range>, d: nat, a: nat, b: nat)
    requires |here| == |there| && forall k | 0 <= k < |here| :: there[k] == Shift(here[k], d)
    requires Together(here, a, b)
    ensures Together(there, d + a, d + b)
  {
    var k :| 0 <= k < |here| && Holds(here[k], a) && Holds(here[k], b);
    assert Holds(there[k], d + a) && Holds(there[k], d + b);
  }

  lemma NoBreakInSlice(s: string, lo: nat, hi: nat, a: nat, b: nat)
    requires lo + a <= lo + b < hi <= |s| && NoBreakIn(s, lo + a, lo + b)
    ensures NoBreakIn(s[lo..hi], a, b)
  {
    forall k | a <= k < b ensures !IsBreak(s[lo..hi][k]) {
      assert s[lo..hi][k] == s[lo + k];
    }
  }

  lemma LineStaysTogether(s: string, lo: nat, hi: nat, a: nat, b: nat)
    requires lo + a <= lo + b < hi <= |s| && !IsSpace(s[lo + a]) && !IsSpace(s[lo + b]) && NoBreakIn(s, lo + a, lo + b)
    requires AllInBounds(s[lo..hi], LineSpans(s[lo..hi], 0))
    ensures Together(LineRanges(s[lo..hi], LineSpans(s[lo..hi], 0), lo), lo + a, lo + b)
  {
    var t := s[lo..hi];
    var spans := LineSpans(t, 0);
    NoBreakInSlice(s, lo, hi, a, b);
    LineHolds(t, spans, 0, a, b);
    LineRangesShift(t, spans, lo);
    ShiftedTogether(LineRanges(t, spans, 0), LineRanges(t, spans, lo), lo, a, b);
  }

  lemma BreakSetsApart(s: string, rs: seq<Range>, a: nat, b: nat)
    requires AllInOneLine(s, rs) && a <= b <= |s| && !NoBreakIn(s, a, b)
    ensures !Together(rs, a, b)
  {
    forall k | 0 <= k < |rs| ensures !(Holds(rs[k], a) && Holds(rs[k], b)) {
      assert InOneLine(s, rs[k]);
    }
  }

  lemma LinesTogether(s: string, lo: nat, hi: nat, a: nat, b: nat)
    requires lo <= a <= b < hi <= |s| && !IsSpace(s[a]) && !IsSpace(s[b])
    requires AllInBounds(s[lo..hi], LineSpans(s[lo..hi], 0))
    ensures Together(LineRanges(s[lo..hi], LineSpans(s[lo..hi], 0), lo), a, b) <==> NoBreakIn(s, a, b)
  {
    if NoBreakIn(s, a, b) {
      LineStaysTogether(s, lo, hi, a - lo, b - lo);
    } else {
      LinesHaveNoBreak(s, lo, hi);
      BreakSetsApart(s, LineRanges(s[lo..hi], LineSpans(s[lo..hi], 0), lo), a, b);
    }
  }

  lemma BlockTogether(s: string, lo: nat, hi: nat, a: nat, b: nat)
    requires lo <= a <= b < hi <= |s| && !IsSpace(s[a]) && !IsSpace(s[b])
    ensures Together(BlockRanges(s, lo, hi), a, b)
            <==> Trim(s, lo, hi).end - Trim(s, lo, hi).start <= 500 || NoBreakIn(s, a, b)
  {
    var r := Trim(s, lo, hi);
    assert r.start <= a && b < r.end;
    if r.end - r.start <= 500 {
      assert BlockRanges(s, lo, hi) == [r];
      assert Holds(BlockRanges(s, lo, hi)[0], a) && Holds(BlockRanges(s, lo, hi)[0], b);
    } else {
      LineSpansInBounds(s[r.start..r.end], 0);
      LinesTogether(s, r.start, r.end, a, b);
    }
  }

  /** The text starts at `i`, or a separator ends there. */
  predicate StartsBlock(s: string, i: nat)
    requires i <= |s|
  {
    i == 0 || exists e | 0 <= e < i :: BlankLineAt(s, e) && AllSpace(s, e, i)
  }

  lemma TrimmedIsBlock(s: string, i: nat, a: nat)
    requires i <= a < |s| && a < BlockEnd(s, i) && !IsSpace(s[a]) && StartsBlock(s, i)
    ensures var r := Trim(s, i, BlockEnd(s, i)); IsBlock(s, r.start, r.end) && r.start <= a < r.end
  {
    var e := BlockEnd(s, i);
    var r := Trim(s, i, e);
    BlockEndIsFirst(s, i);
    forall k: nat | r.start <= k < r.end ensures !BlankLineAt(s, k) {
      SeparatesIff(s, k);
    }
    forall k: nat | k < r.start && !IsSpace(s[k]) ensures !NoBlankLineIn(s, k, r.start) {
      var first :| 0 <= first < i && BlankLineAt(s, first) && AllSpace(s, first, i);
      assert k <= first < r.start;
    }
    forall k: nat | r.end <= k < |s| && !IsSpace(s[k]) ensures !NoBlankLineIn(s, r.end, k) {
      SeparatesIff(s, e);
      assert r.end <= e < k;
    }
  }

  lemma TogetherInFirst(s: string, first: seq<Range>, rest: seq<Range>, a: nat, b: nat)
    requires forall k | 0 <= k < |rest| :: a < rest[k].start
    ensures Together(first + rest, a, b) <==> Together(first, a, b)
  {
    if Together(first, a, b) {
      var i :| 0 <= i < |first| && Holds(first[i], a) && Holds(first[i], b);
      assert (first + rest)[i] == first[i];
    }
  }

  lemma TogetherInRest(s: string, first: seq<Range>, rest: seq<Range>, a: nat, b: nat)
    requires forall k | 0 <= k < |first| :: first[k].end <= a
    ensures Together(first + rest, a, b) <==> Together(rest, a, b)
  {
    if Together(rest, a, b) {
      var i :| 0 <= i < |rest| && Holds(rest[i], a) && Holds(rest[i], b);
      assert (first + rest)[|first| + i] == rest[i];
    }
  }

  lemma FirstBlockTogether(s: string, i: nat, a: nat, b: nat)
    requires i <= a <= b < |s| && b < BlockEnd(s, i) && !IsSpace(s[a]) && !IsSpace(s[b])
    ensures Together(Ranges(s, i), a, b) <==> Together(BlockRanges(s, i, BlockEnd(s, i)), a, b)
  {
    var e := BlockEnd(s, i);
    if e < |s| {
      var rest := Ranges(s, SeparatorEnd(s, e));
      RangesTile(s, SeparatorEnd(s, e));
      TilesInOrder(s, rest, SeparatorEnd(s, e), |s|);
      TogetherInFirst(s, BlockRanges(s, i, e), rest, a, b);
    } else {
      TogetherInFirst(s, BlockRanges(s, i, e), [], a, b);
    }
  }

  lemma LaterBlockTogether(s: string, i: nat, a: nat, b: nat)
    requires i <= a <= b < |s| && BlockEnd(s, i) <= a && !IsSpace(s[a])
    ensures SeparatorEnd(s, BlockEnd(s, i)) <= a
    ensures Together(Ranges(s, i), a, b) <==> Together(Ranges(s, SeparatorEnd(s, BlockEnd(s, i))), a, b)
  {
    var e := BlockEnd(s, i);
    BlockTiles(s, i, e);
    TilesInOrder(s, BlockRanges(s, i, e), i, e);
    TogetherInRest(s, BlockRanges(s, i, e), Ranges(s, SeparatorEnd(s, e)), a, b);
  }

  lemma {:induction false} TogetherFrom(s: string, i: nat, a: nat, b: nat) returns (lo: nat, hi: nat)
    requires i <= a <= b < |s| && !IsSpace(s[a]) && !IsSpace(s[b]) && NoBlankLineIn(s, a, b)
    requires StartsBlock(s, i)
    ensures IsBlock(s, lo, hi) && lo <= a && b < hi
    ensures Together(Ranges(s, i), a, b) <==> hi - lo <= 500 || NoBreakIn(s, a, b)
    decreases |s| - i
  {
    var e := BlockEnd(s, i);
    if e < |s| {
      SeparatesIff(s, e);
    }
    if a < e {
      assert b < e;
      TrimmedIsBlock(s, i, a);
      BlockTogether(s, i, e, a, b);
      FirstBlockTogether(s, i, a, b);
      lo, hi := Trim(s, i, e).start, Trim(s, i, e).end;
    } else {
      LaterBlockTogether(s, i, a, b);
      lo, hi := TogetherFrom(s, SeparatorEnd(s, e), a, b);
    }
  }

  lemma BlockIsUnique(s: string, lo: nat, hi: nat, lo2: nat, hi2: nat, a: nat)
    requires IsBlock(s, lo, hi) && IsBlock(s, lo2, hi2) && lo <= a < hi && lo2 <= a < hi2
    ensures lo == lo2 && hi == hi2
  {
  }

  /**
   Two visible characters of one block of the page lie in one paragraph exactly when the
   block has at most 500 characters or no line break lies between them.
   */
  lemma ParagraphsAreNotSplit(s: string, lo: nat, hi: nat, a: nat, b: nat)
    requires IsBlock(s, lo, hi) && lo <= a <= b < hi && !IsSpace(s[a]) && !IsSpace(s[b])
    ensures Together(Ranges(s, 0), a, b) <==> hi - lo <= 500 || NoBreakIn(s, a, b)
  {
    var from, to := TogetherFrom(s, 0, a, b);
    BlockIsUnique(s, lo, hi, from, to, a);
  }

  predicate InOneParagraph(ps: seq<Paragraph>, a: nat, b: nat) {
    exists i | 0 <= i < |ps| :: ps[i].start <= a && b < ps[i].end
  }

  predicate SplitsAt(s: string, ps: seq<Paragraph>, lo: nat, hi: nat, a: nat, b: nat) {
    lo <= a <= b < hi <= |s| && IsBlock(s, lo, hi) && !IsSpace(s[a]) && !IsSpace(s[b]) ==>
      (InOneParagraph(ps, a, b) <==> hi - lo <= 500 || NoBreakIn(s, a, b))
  }

  /** The same of the paragraphs themselves. */
  ghost predicate SplitsAtBlocks(s: string, ps: seq<Paragraph>) {
    forall lo: nat, hi: nat, a: nat, b: nat :: SplitsAt(s, ps, lo, hi, a, b)
  }

  lemma ExtractedTogether(s: string, rs: seq<Range>, a: nat, b: nat)
    requires a <= b
    ensures InOneParagraph(Extract(s, rs), a, b) <==> Together(rs, a, b)
  {
    var ps := Extract(s, rs);
    ExtractAt(s, rs);
    if Together(rs, a, b) {
      var i :| 0 <= i < |rs| && Holds(rs[i], a) && Holds(rs[i], b);
      assert ps[i].start <= a && b < ps[i].end;
    }
    if i :| 0 <= i < |ps| && ps[i].start <= a && b < ps[i].end {
      assert Holds(rs[i], a) && Holds(rs[i], b);
    }
  }

  lemma ParagraphsSplitAt(s: string, lo: nat, hi: nat, a: nat, b: nat)
    ensures SplitsAt(s, Extract(s, Ranges(s, 0)), lo, hi, a, b)
  {
    if lo <= a <= b < hi <= |s| && IsBlock(s, lo, hi) && !IsSpace(s[a]) && !IsSpace(s[b]) {
      ParagraphsAreNotSplit(s, lo, hi, a, b);
      ExtractedTogether(s, Ranges(s, 0), a, b);
    }
  }

  lemma ParagraphsSplitAtBlocks(s: string)
    ensures SplitsAtBlocks(s, Extract(s, Ranges(s, 0)))
  {
    forall lo: nat, hi: nat, a: nat, b: nat ensures SplitsAt(s, Extract(s, Ranges(s, 0)), lo, hi, a, b) {
      ParagraphsSplitAt(s, lo, hi, a, b);
    }
  }

  /** Every visible character lies in a block. */
  lemma BlockAround(s: string, a: nat) returns (lo: nat, hi: nat)
    requires a < |s| && !IsSpace(s[a])
    ensures IsBlock(s, lo, hi) && lo <= a < hi
  {
    lo, hi := TogetherFrom(s, 0, a, a);
  }

  // ---------------------------------------------------------------- the code

  /** The next visible line is where `find` first meets it, because only whitespace lies between. */
  lemma FindHitsLine(t: string, r: Range, cursor: nat)
    requires cursor <= r.start < r.end <= |t| && AllSpace(t, cursor, r.start) && !IsSpace(t[r.start])
    ensures Find(t, t[r.start..r.end], cursor) == r.start
  {
    var line := t[r.start..r.end];
    var i := Find(t, line, cursor);
    assert OccursAt(t, line, r.start);
    assert t[i] == line[0] by {
      assert t[i..i + |line|][0] == line[0];
    }
  }

  lemma Reassociate<T>(a: seq<T>, b: seq<T>, c: seq<T>)
    ensures a + (b + c) == (a + b) + c && (a + b) + [] == a + b
  {
  }

  lemma ExtractOne(s: string, p: seq<Range>, r: Range)
    ensures Extract(s, p + [r]) == Extract(s, p) + [At(s, r)]
  {
    assert (p + [r])[..|p|] == p;
  }

  lemma {:induction false} ExtractAppend(s: string, p: seq<Range>, q: seq<Range>)
    ensures Extract(s, p + q) == Extract(s, p) + Extract(s, q)
  {
    if q == [] {
      assert p + q == p && Extract(s, p) + [] == Extract(s, p);
    } else {
      var front, last := q[..|q| - 1], q[|q| - 1];
      ExtractAppend(s, p, front);
      AppendLast(s, p, front, last);
      assert q == front + [last];
    }
  }

  lemma AppendLast(s: string, p: seq<Range>, front: seq<Range>, last: Range)
    requires Extract(s, p + front) == Extract(s, p) + Extract(s, front)
    ensures Extract(s, p + (front + [last])) == Extract(s, p) + Extract(s, front + [last])
  {
    Reassociate(p, front, [last]);
    ExtractOne(s, p + front, last);
    ExtractOne(s, front, last);
    Reassociate(Extract(s, p), Extract(s, front), [At(s, last)]);
  }

  /** One more line, found at `r` of the stripped block s[lo..hi]. */
  lemma LineAt(s: string, lo: nat, hi: nat, r: Range)
    requires lo <= hi <= |s| && r.start <= r.end <= hi - lo
    ensures At(s, Shift(r, lo)) == Paragraph(s[lo..hi][r.start..r.end], lo + r.start, lo + r.end)
  {
    SliceOfSlice(s, lo, hi, r.start, r.end);
  }

  /** The lines from `at` on are left, and what was found before them and they together are `all`. */
  predicate Walked(t: string, start: nat, spans: seq<Range>, at: nat, found: seq<Range>, all: seq<Range>) {
    && at <= |t| && spans == LineSpans(t, at) && AllInBounds(t, spans)
    && all == found + LineRanges(t, spans, start)
  }

  /** Handling one more line: what was found before, this line if it is visible, and the rest. */
  lemma NextLine(t: string, start: nat, spans: seq<Range>, at: nat, found: seq<Range>, all: seq<Range>)
    requires at < |t| && Walked(t, start, spans, at, found, all)
    ensures var e := LineEnd(t, at);
            var r := Trim(t, at, e);
            && spans != [] && spans[0] == Range(at, e)
            && Walked(t, start, spans[1..], AfterBreak(t, e),
                      if r.start == r.end then found else found + [Shift(r, start)], all)
  {
    var r := Trim(t, at, LineEnd(t, at));
    assert spans[1..] == LineSpans(t, AfterBreak(t, LineEnd(t, at)));
    Reassociate(found, [Shift(r, start)], LineRanges(t, spans[1..], start));
  }

  /** One more line of the stripped block s[start..end], found from the cursor on, and the cursor after it. */
  method FindLine(s: string, start: nat, end: nat, stripped: string, line: string, cursor: nat, ghost r: Range)
    returns (next: Paragraph, after: nat)
    requires start <= end <= |s| && stripped == s[start..end]
    requires cursor <= r.start < r.end <= |stripped| && AllSpace(stripped, cursor, r.start)
    requires !IsSpace(stripped[r.start]) && line == stripped[r.start..r.end]
    ensures next == At(s, Shift(r, start)) && after == r.end
  {
    FindHitsLine(stripped, r, cursor);
    LineAt(s, start, end, r);
    var localStart := Find(stripped, line, cursor);
    var localEnd := localStart + |line|;
    next := Paragraph(line, start + localStart, start + localEnd);
    after := localEnd;
  }

  /** The lines of s[start..end], found again one by one in the stripped block. */
  method SplitLongBlock(s: string, start: nat, end: nat) returns (lines: seq<Paragraph>)
    requires start <= end <= |s|
    ensures AllInBounds(s[start..end], LineSpans(s[start..end], 0))
    ensures lines == Extract(s, LineRanges(s[start..end], LineSpans(s[start..end], 0), start))
  {
    var stripped := s[start..end];
    LineSpansInBounds(stripped, 0);
    ghost var spans := LineSpans(stripped, 0);
    ghost var all := LineRanges(stripped, spans, start);
    ghost var at: nat := 0;
    ghost var found: seq<Range> := [];
    var texts := Texts.SplitLines(stripped);
    lines := [];
    var cursor: nat := 0;
    for k := 0 to |texts|
      invariant Walked(stripped, start, spans[k..], at, found, all)
      invariant cursor <= at && AllSpace(stripped, cursor, at)
      invariant lines == Extract(s, found)
    {
      ghost var r := Trim(stripped, at, LineEnd(stripped, at));
      NextLine(stripped, start, spans[k..], at, found, all);
      assert texts[k] == stripped[at..LineEnd(stripped, at)];
      TrimOfSlice(stripped, at, LineEnd(stripped, at));
      assert spans[k..][1..] == spans[k + 1..];
      var line := Strip(texts[k]);
      if line != "" {
        var next;
        next, cursor := FindLine(s, start, end, stripped, line, cursor, r);
        ExtractOne(s, found, Shift(r, start));
        found := found + [Shift(r, start)];
        lines := lines + [next];
      }
      at := AfterBreak(stripped, LineEnd(stripped, at));
    }
    assert spans[|texts|..] == [] && found + [] == found;
  }

  method SplitBlock(s: string, lo: nat, hi: nat) returns (block: seq<Paragraph>)
    requires lo <= hi <= |s|
    ensures block == Extract(s, BlockRanges(s, lo, hi))
  {
    var raw := s[lo..hi];
    TrimOfSlice(s, lo, hi);
    var stripped := Strip(raw);
    var start := lo + |raw| - |LStrip(raw)|;
    var end := start + |stripped|;
    assert Trim(s, lo, hi) == Range(start, end);
    if stripped == "" {
      assert BlockRanges(s, lo, hi) == [];
      block := [];
    } else if |stripped| <= MAX_PARAGRAPH {
      assert BlockRanges(s, lo, hi) == [Range(start, end)];
      block := [Paragraph(stripped, start, end)];
    } else {
      block := SplitLongBlock(s, start, end);
    }
  }

  /** The ranges from `position` on are those of the next block and then those after the separator. */
  lemma NextBlock(s: string, position: nat, before: seq<Range>, all: seq<Range>)
    requires position <= |s| && all == before + Ranges(s, position)
    ensures var e := BlockEnd(s, position);
            var now := before + BlockRanges(s, position, e);
            if e == |s| then all == now else all == now + Ranges(s, SeparatorEnd(s, e))
  {
    var e := BlockEnd(s, position);
    var block := BlockRanges(s, position, e);
    var rest := if e == |s| then [] else Ranges(s, SeparatorEnd(s, e));
    assert Ranges(s, position) == block + rest;
    Reassociate(before, block, rest);
  }

  method SplitIntoParagraphRanges(text: string) returns (paragraphs: seq<Paragraph>)
    ensures paragraphs == Extract(text, Ranges(text, 0))
    ensures Exact(text, paragraphs) && InOrder(paragraphs) && CoversVisible(text, paragraphs)
    ensures SplitsAtBlocks(text, paragraphs)
  {
    Lossless(text);
    ParagraphsSplitAtBlocks(text);
    paragraphs := [];
    var position := 0;
    ghost var all, found: seq<Range> := Ranges(text, 0), [];
    while true
      invariant position <= |text|
      invariant all == found + Ranges(text, position)
      invariant paragraphs == Extract(text, found)
      decreases |text| - position
    {
      var end := BlockEnd(text, position);
      var block := SplitBlock(text, position, end);
      NextBlock(text, position, found, all);
      ExtractAppend(text, found, BlockRanges(text, position, end));
      found := found + BlockRanges(text, position, end);
      paragraphs := paragraphs + block;
      if end == |text| {
        break;
      }
      position := SeparatorEnd(text, end);
    }
  }
}
