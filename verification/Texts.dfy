/** The string operations of Python that the parser relies on, over positions in a text. */
module Texts {
  /** `str.isspace` for one character, which is also what `\s` matches. */
  predicate IsSpace(c: char) {
    var n := c as int;
    || 0x09 <= n <= 0x0D || 0x1C <= n <= 0x20 || n == 0x85 || n == 0xA0 || n == 0x1680
    || 0x2000 <= n <= 0x200A || n == 0x2028 || n == 0x2029 || n == 0x202F || n == 0x205F || n == 0x3000
  }

  /** The characters at which `str.splitlines` breaks. */
  predicate IsBreak(c: char) {
    var n := c as int;
    0x0A <= n <= 0x0D || 0x1C <= n <= 0x1E || n == 0x85 || n == 0x2028 || n == 0x2029
  }

  datatype Range = Range(start: nat, end: nat)

  predicate AllSpace(s: string, lo: nat, hi: nat)
    requires lo <= hi <= |s|
  {
    forall k | lo <= k < hi :: IsSpace(s[k])
  }

  /** Where the leading whitespace of s[lo..hi] ends. */
  function SkipSpaces(s: string, lo: nat, hi: nat): (a: nat)
    requires lo <= hi <= |s|
    ensures lo <= a <= hi && AllSpace(s, lo, a) && (a < hi ==> !IsSpace(s[a]))
    decreases hi - lo
  {
    if lo < hi && IsSpace(s[lo]) then SkipSpaces(s, lo + 1, hi) else lo
  }

  /** Where the trailing whitespace of s[lo..hi] starts. */
  function TrimEnd(s: string, lo: nat, hi: nat): (b: nat)
    requires lo <= hi <= |s|
    ensures lo <= b <= hi && AllSpace(s, b, hi) && (lo < b ==> !IsSpace(s[b - 1]))
    decreases hi - lo
  {
    if lo < hi && IsSpace(s[hi - 1]) then TrimEnd(s, lo, hi - 1) else hi
  }

  /** What is left of s[lo..hi] without whitespace at either end. */
  function Trim(s: string, lo: nat, hi: nat): (r: Range)
    requires lo <= hi <= |s|
    ensures lo <= r.start <= r.end <= hi
    ensures AllSpace(s, lo, r.start) && AllSpace(s, r.end, hi)
    ensures r.start < r.end ==> !IsSpace(s[r.start]) && !IsSpace(s[r.end - 1])
  {
    var a := SkipSpaces(s, lo, hi);
    Range(a, TrimEnd(s, a, hi))
  }

  function Strip(s: string): string {
    var r := Trim(s, 0, |s|);
    s[r.start..r.end]
  }

  function LStrip(s: string): string {
    s[SkipSpaces(s, 0, |s|)..]
  }

  lemma {:induction false} SkipOfSlice(s: string, lo: nat, a: nat, hi: nat)
    requires lo <= a <= hi <= |s|
    ensures SkipSpaces(s[lo..hi], a - lo, hi - lo) == SkipSpaces(s, a, hi) - lo
    decreases hi - a
  {
    if a < hi && IsSpace(s[a]) {
      SkipOfSlice(s, lo, a + 1, hi);
    }
  }

  lemma {:induction false} TrimEndOfSlice(s: string, lo: nat, a: nat, b: nat, hi: nat)
    requires lo <= a <= b <= hi <= |s|
    ensures TrimEnd(s[lo..hi], a - lo, b - lo) == TrimEnd(s, a, b) - lo
    decreases b - a
  {
    if a < b && IsSpace(s[b - 1]) {
      TrimEndOfSlice(s, lo, a, b - 1, hi);
    }
  }

  lemma PlacesOfSlice(s: string, lo: nat, hi: nat)
    requires lo <= hi <= |s|
    ensures Trim(s[lo..hi], 0, hi - lo) == Range(Trim(s, lo, hi).start - lo, Trim(s, lo, hi).end - lo)
  {
    SkipOfSlice(s, lo, lo, hi);
    TrimEndOfSlice(s, lo, SkipSpaces(s, lo, hi), hi, hi);
  }

  lemma SliceOfSlice(s: string, lo: nat, hi: nat, a: nat, b: nat)
    requires lo <= hi <= |s| && a <= b <= hi - lo
    ensures s[lo..hi][a..b] == s[lo + a..lo + b]
  {
    var t, u := s[lo..hi][a..b], s[lo + a..lo + b];
    forall k | 0 <= k < b - a ensures t[k] == u[k] {
      assert t[k] == s[lo..hi][a + k] && u[k] == s[lo + a + k];
    }
  }

  /** Trimming a slice by itself finds the same characters as trimming it in place. */
  lemma TrimOfSlice(s: string, lo: nat, hi: nat)
    requires lo <= hi <= |s|
    ensures var t, r := s[lo..hi], Trim(s, lo, hi);
            && Strip(t) == s[r.start..r.end]
            && lo + |t| - |LStrip(t)| == r.start
  {
    PlacesOfSlice(s, lo, hi);
    SliceOfSlice(s, lo, hi, Trim(s, lo, hi).start - lo, Trim(s, lo, hi).end - lo);
  }

  /** The end of the line that starts at `i`. */
  function LineEnd(s: string, i: nat): (e: nat)
    requires i <= |s|
    ensures i <= e <= |s| && (e < |s| ==> IsBreak(s[e]))
    decreases |s| - i
  {
    if i < |s| && !IsBreak(s[i]) then LineEnd(s, i + 1) else i
  }

  /** Past the line break at `e`, which may be a carriage return and a newline. */
  function AfterBreak(s: string, e: nat): (n: nat)
    requires e <= |s|
    ensures e <= n <= |s| && (e < |s| ==> e < n)
    ensures e < |s| && IsBreak(s[e]) ==> AllSpace(s, e, n)
  {
    if e == |s| then e
    else if s[e] == '\r' && e + 1 < |s| && s[e + 1] == '\n' then e + 2
    else e + 1
  }

  function LineSpans(s: string, i: nat): seq<Range>
    requires i <= |s|
    decreases |s| - i
  {
    if i == |s| then []
    else
      var e := LineEnd(s, i);
      [Range(i, e)] + LineSpans(s, AfterBreak(s, e))
  }

  predicate InBounds(s: string, r: Range) {
    r.start <= r.end <= |s|
  }

  predicate AllInBounds(s: string, spans: seq<Range>) {
    forall k | 0 <= k < |spans| :: InBounds(s, spans[k])
  }

  lemma {:induction false} LineSpansInBounds(s: string, i: nat)
    requires i <= |s|
    ensures AllInBounds(s, LineSpans(s, i))
    decreases |s| - i
  {
    if i < |s| {
      LineSpansInBounds(s, AfterBreak(s, LineEnd(s, i)));
    }
  }

  function SplitLines(s: string): (lines: seq<string>)
    ensures |lines| == |LineSpans(s, 0)|
    ensures forall k | 0 <= k < |lines| ::
              InBounds(s, LineSpans(s, 0)[k]) && lines[k] == s[LineSpans(s, 0)[k].start..LineSpans(s, 0)[k].end]
  {
    LineSpansInBounds(s, 0);
    var spans := LineSpans(s, 0);
    seq(|spans|, k requires 0 <= k < |spans| => s[spans[k].start..spans[k].end])
  }

  predicate OccursAt(s: string, t: string, i: int) {
    0 <= i <= |s| - |t| && s[i..i + |t|] == t
  }

  /** `str.find` from a position on: the first occurrence, or -1. */
  function Find(s: string, t: string, from: nat): (i: int)
    ensures i == -1 || (from <= i && OccursAt(s, t, i))
    ensures forall k | from <= k && OccursAt(s, t, k) :: from <= i <= k
    decreases |s| - from
  {
    if from + |t| > |s| then -1
    else if s[from..from + |t|] == t then from
    else Find(s, t, from + 1)
  }
}
