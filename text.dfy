/**
 * The pieces of Python's `str` behaviour that the retrieval layer relies on:
 * `isspace`, `strip`, substring containment `p in s`, `split`, `join`,
 * `splitlines`, ASCII `lower`/`upper` and the decimal rendering of an `int`.
 */
module Text {
  import opened Wrappers

  // ---------------------------------------------------------------------------
  // Character classes
  // ---------------------------------------------------------------------------

  /** The characters for which Python's `str.isspace()` holds; `str.strip()` removes exactly these. */
  predicate IsSpace(c: char) {
    var n := c as int;
    (9 <= n <= 13) || (0x1c <= n <= 0x20) || n == 0x85 || n == 0xa0 || n == 0x1680
    || (0x2000 <= n <= 0x200a) || n == 0x2028 || n == 0x2029 || n == 0x202f
    || n == 0x205f || n == 0x3000
  }

  /** The characters at which Python's `str.splitlines()` ends a line (`\r\n` counts once). */
  predicate IsLineBreak(c: char) {
    var n := c as int;
    n == 0x0a || n == 0x0b || n == 0x0c || n == 0x0d || n == 0x1c || n == 0x1d
    || n == 0x1e || n == 0x85 || n == 0x2028 || n == 0x2029
  }

  predicate NoLineBreak(s: string) {
    forall i :: 0 <= i < |s| ==> !IsLineBreak(s[i])
  }

  function LowerChar(c: char): char {
    if 'A' <= c <= 'Z' then (c as int - 'A' as int + 'a' as int) as char else c
  }

  function UpperChar(c: char): char {
    if 'a' <= c <= 'z' then (c as int - 'a' as int + 'A' as int) as char else c
  }

  /** Python's `s.lower()`, on ASCII letters. */
  function Lower(s: string): (r: string)
    ensures |r| == |s|
    ensures forall i :: 0 <= i < |s| ==> r[i] == LowerChar(s[i])
  {
    seq(|s|, i requires 0 <= i < |s| => LowerChar(s[i]))
  }

  /** Python's `s.upper()`, on ASCII letters. */
  function Upper(s: string): string {
    seq(|s|, i requires 0 <= i < |s| => UpperChar(s[i]))
  }

  // ---------------------------------------------------------------------------
  // Substrings
  // ---------------------------------------------------------------------------

  predicate OccursAt(pattern: string, s: string, i: int) {
    0 <= i && i + |pattern| <= |s| && s[i..i + |pattern|] == pattern
  }

  /**
   * Python's `pattern in s`: `pattern` is a contiguous substring of `s`, that
   * is, some index holds an occurrence (see the contract of IndexOf).
   */
  predicate Occurs(pattern: string, s: string) {
    IndexOf(pattern, s, 0).Some?
  }

  lemma SliceOfSlice(s: string, lo: int, hi: int, a: int, b: int)
    requires 0 <= lo <= hi <= |s| && 0 <= a <= b <= hi - lo
    ensures s[lo..hi][a..b] == s[lo + a..lo + b]
  {
    assert forall t :: 0 <= t < b - a ==> s[lo..hi][a..b][t] == s[lo + a + t];
  }

  /** The first index at or after `from` where `pattern` occurs in `s` (see IndexOfFirst). */
  function IndexOf(pattern: string, s: string, from: nat): (r: Option<nat>)
    ensures r.Some? ==> from <= r.value && OccursAt(pattern, s, r.value)
    decreases |s| - from
  {
    if from + |pattern| > |s| then None
    else if s[from..from + |pattern|] == pattern then Some(from)
    else IndexOf(pattern, s, from + 1)
  }

  /** IndexOf finds the first occurrence: there is none between `from` and it, and none at all when it finds nothing. */
  lemma {:induction false} IndexOfFirst(pattern: string, s: string, from: nat)
    ensures var r := IndexOf(pattern, s, from);
            (r.Some? ==> forall j :: from <= j < r.value ==> !OccursAt(pattern, s, j))
            && (r.None? ==> forall j :: from <= j ==> !OccursAt(pattern, s, j))
    decreases |s| - from
  {
    if from + |pattern| <= |s| && s[from..from + |pattern|] != pattern {
      IndexOfFirst(pattern, s, from + 1);
    }
  }

  /** `in` is transitive: a pattern inside a string that occurs in `s` occurs in `s`. */
  lemma OccursTransitive(a: string, b: string, c: string)
    requires Occurs(a, b) && Occurs(b, c)
    ensures Occurs(a, c)
  {
    var i := IndexOf(a, b, 0).value;
    var j := IndexOf(b, c, 0).value;
    SliceOfSlice(c, j, j + |b|, i, i + |a|);
    OccursAtOccurs(a, c, j + i);
  }

  /** An occurrence at any index makes `pattern in s` true. */
  lemma OccursAtOccurs(pattern: string, s: string, i: int)
    requires OccursAt(pattern, s, i)
    ensures Occurs(pattern, s)
  {
    IndexOfFirst(pattern, s, 0);
  }

  // ---------------------------------------------------------------------------
  // split and join
  // ---------------------------------------------------------------------------

  /**
   * Python's `s.split(sep)` for a non-empty separator, from index `from` on:
   * the pieces between the non-overlapping occurrences of `sep`, found left to
   * right.
   */
  function SplitFrom(s: string, sep: string, from: nat): (parts: seq<string>)
    requires sep != "" && from <= |s|
    ensures |parts| >= 1
    decreases |s| - from
  {
    match IndexOf(sep, s, from)
    case None => [s[from..]]
    case Some(i) => [s[from..i]] + SplitFrom(s, sep, i + |sep|)
  }

  /** Python's `s.split(sep)` for a non-empty separator. */
  function Split(s: string, sep: string): (parts: seq<string>)
    requires sep != ""
    ensures |parts| >= 1
  {
    SplitFrom(s, sep, 0)
  }

  /** A slice of a string without line breaks has none either. */
  lemma NoLineBreakSlice(s: string, lo: int, hi: int)
    requires 0 <= lo <= hi <= |s| && NoLineBreak(s)
    ensures NoLineBreak(s[lo..hi])
  {
    assert forall i :: 0 <= i < hi - lo ==> s[lo..hi][i] == s[lo + i];
  }

  /** The text between `from` and the next occurrence of `pattern` does not contain `pattern`. */
  lemma NoOccurrenceBeforeFirst(pattern: string, s: string, from: nat, i: nat)
    requires pattern != "" && from <= i <= |s| && IndexOf(pattern, s, from) == Some(i)
    ensures !Occurs(pattern, s[from..i])
  {
    IndexOfFirst(pattern, s, from);
    forall j | 0 <= j && j + |pattern| <= i - from
      ensures !OccursAt(pattern, s[from..i], j)
    {
      SliceOfSlice(s, from, i, j, j + |pattern|);
      assert !OccursAt(pattern, s, from + j);
    }
  }

  /** The text after `from` does not contain `pattern` when IndexOf finds nothing there. */
  lemma NoOccurrenceAfter(pattern: string, s: string, from: nat)
    requires from <= |s| && IndexOf(pattern, s, from).None?
    ensures !Occurs(pattern, s[from..])
  {
    IndexOfFirst(pattern, s, from);
    forall j | 0 <= j && j + |pattern| <= |s| - from
      ensures !OccursAt(pattern, s[from..], j)
    {
      SliceOfSlice(s, from, |s|, j, j + |pattern|);
      assert !OccursAt(pattern, s, from + j);
    }
  }

  /** A piece free of the separator, and of line breaks when `lines` holds. */
  ghost predicate PieceFree(p: string, sep: string, lines: bool) {
    !Occurs(sep, p) && (lines ==> NoLineBreak(p))
  }

  /** Every piece is free of the separator, and of line breaks when `lines` holds. */
  ghost predicate PiecesFree(parts: seq<string>, sep: string, lines: bool) {
    forall k :: 0 <= k < |parts| ==> PieceFree(parts[k], sep, lines)
  }

  lemma PiecesFreeCons(p: string, parts: seq<string>, sep: string, lines: bool)
    requires PieceFree(p, sep, lines) && PiecesFree(parts, sep, lines)
    ensures PiecesFree([p] + parts, sep, lines)
  {
    assert forall k :: 1 <= k < |[p] + parts| ==> ([p] + parts)[k] == parts[k - 1];
  }

  /** The piece a split takes from `from` up to the next separator, or to the end. */
  lemma FirstPieceFree(s: string, sep: string, from: nat, to: nat)
    requires sep != "" && from <= to <= |s|
    requires IndexOf(sep, s, from) == Some(to) || (IndexOf(sep, s, from).None? && to == |s|)
    ensures PieceFree(s[from..to], sep, NoLineBreak(s))
  {
    if IndexOf(sep, s, from).None? {
      NoOccurrenceAfter(sep, s, from);
      assert s[from..] == s[from..to];
    } else {
      NoOccurrenceBeforeFirst(sep, s, from, to);
    }
    if NoLineBreak(s) {
      NoLineBreakSlice(s, from, to);
    }
  }

  /** One step of SplitFrom: the piece before the next separator, then the split of what follows it. */
  lemma SplitFromStep(s: string, sep: string, from: nat)
    requires sep != "" && from <= |s|
    ensures IndexOf(sep, s, from).None? ==> SplitFrom(s, sep, from) == [s[from..|s|]] + []
    ensures IndexOf(sep, s, from).Some? ==>
              var i := IndexOf(sep, s, from).value;
              SplitFrom(s, sep, from) == [s[from..i]] + SplitFrom(s, sep, i + |sep|)
  {
    assert s[from..] == s[from..|s|];
  }

  lemma {:induction false} SplitFromPieces(s: string, sep: string, from: nat)
    requires sep != "" && from <= |s|
    ensures PiecesFree(SplitFrom(s, sep, from), sep, NoLineBreak(s))
    decreases |s| - from
  {
    SplitFromStep(s, sep, from);
    var r := IndexOf(sep, s, from);
    if r.None? {
      FirstPieceFree(s, sep, from, |s|);
      PiecesFreeCons(s[from..|s|], [], sep, NoLineBreak(s));
    } else {
      var i := r.value;
      FirstPieceFree(s, sep, from, i);
      SplitFromPieces(s, sep, i + |sep|);
      PiecesFreeCons(s[from..i], SplitFrom(s, sep, i + |sep|), sep, NoLineBreak(s));
    }
  }

  /** No piece of a split contains the separator, and pieces of a line hold no line break. */
  lemma SplitPieces(s: string, sep: string)
    requires sep != ""
    ensures forall k :: 0 <= k < |Split(s, sep)| ==> !Occurs(sep, Split(s, sep)[k])
    ensures NoLineBreak(s) ==> forall k :: 0 <= k < |Split(s, sep)| ==> NoLineBreak(Split(s, sep)[k])
  {
    SplitFromPieces(s, sep, 0);
  }

  /** Python's `sep.join(parts)`. */
  function Join(parts: seq<string>, sep: string): string {
    if |parts| == 0 then ""
    else if |parts| == 1 then parts[0]
    else parts[0] + sep + Join(parts[1..], sep)
  }

  function TotalLength(parts: seq<string>): nat {
    if |parts| == 0 then 0 else |parts[0]| + TotalLength(parts[1..])
  }

  /** Joining n >= 1 parts inserts exactly n - 1 separators. */
  lemma {:induction false} JoinLength(parts: seq<string>, sep: string)
    requires |parts| >= 1
    ensures |Join(parts, sep)| == TotalLength(parts) + (|parts| - 1) * |sep|
  {
    if |parts| > 1 {
      JoinLength(parts[1..], sep);
    }
  }

  // ---------------------------------------------------------------------------
  // strip
  // ---------------------------------------------------------------------------

  /** The index of the first non-whitespace character at or after `i`, or |s|. */
  function StripStart(s: string, i: nat): (lo: nat)
    requires i <= |s|
    ensures i <= lo <= |s|
    ensures lo < |s| ==> !IsSpace(s[lo])
    ensures forall j :: i <= j < lo ==> IsSpace(s[j])
    decreases |s| - i
  {
    if i < |s| && IsSpace(s[i]) then StripStart(s, i + 1) else i
  }

  /** The end of `s[lo..j]` once the whitespace at its end is removed. */
  function StripEnd(s: string, lo: nat, j: nat): (hi: nat)
    requires lo <= j <= |s|
    ensures lo <= hi <= j
    ensures hi > lo ==> !IsSpace(s[hi - 1])
    ensures forall k :: hi <= k < j ==> IsSpace(s[k])
    decreases j
  {
    if j > lo && IsSpace(s[j - 1]) then StripEnd(s, lo, j - 1) else j
  }

  /**
   * Python's `s.strip()`: the slice of `s` left after removing whitespace at both
   * ends; it neither starts nor ends with whitespace, and only whitespace was
   * removed before and after it.
   */
  function Strip(s: string): (r: string)
    ensures r == "" || (!IsSpace(r[0]) && !IsSpace(r[|r| - 1]))
    ensures var lo := StripStart(s, 0); lo + |r| <= |s| && r == s[lo..lo + |r|]
    ensures var lo := StripStart(s, 0);
            (forall k :: 0 <= k < lo ==> IsSpace(s[k])) && (forall k :: lo + |r| <= k < |s| ==> IsSpace(s[k]))
  {
    var lo := StripStart(s, 0);
    s[lo..StripEnd(s, lo, |s|)]
  }

  /** A string without whitespace at either end is left alone by `strip`. */
  lemma StripTrimmed(s: string)
    requires s == "" || (!IsSpace(s[0]) && !IsSpace(s[|s| - 1]))
    ensures Strip(s) == s
  {
  }

  // ---------------------------------------------------------------------------
  // splitlines
  // ---------------------------------------------------------------------------

  /** The first index at or after `from` holding a line break, or |s| if there is none. */
  function FirstLineBreak(s: string, from: nat): (i: nat)
    requires from <= |s|
    ensures from <= i <= |s|
    ensures i < |s| ==> IsLineBreak(s[i])
    ensures forall j :: from <= j < i ==> !IsLineBreak(s[j])
    decreases |s| - from
  {
    if from == |s| || IsLineBreak(s[from]) then from else FirstLineBreak(s, from + 1)
  }

  /**
   * Python's `s.splitlines()`: the lines of `s` without their terminators; a
   * terminator at the very end does not open an empty last line.
   */
  function SplitLines(s: string): (lines: seq<string>)
    ensures forall k :: 0 <= k < |lines| ==> NoLineBreak(lines[k])
    decreases |s|
  {
    if s == "" then []
    else
      var i := FirstLineBreak(s, 0);
      if i == |s| then [s]
      else
        var next := if s[i] == '\r' && i + 1 < |s| && s[i + 1] == '\n' then i + 2 else i + 1;
        [s[..i]] + SplitLines(s[next..])
  }

  /** A line without breaks followed by "\n" is split off as the first line. */
  lemma SplitLinesCons(first: string, rest: string)
    requires NoLineBreak(first)
    ensures SplitLines(first + "\n" + rest) == [first] + SplitLines(rest)
  {
    var s := first + "\n" + rest;
    assert forall j :: 0 <= j < |first| ==> s[j] == first[j];
    assert s[|first|] == '\n';
    assert FirstLineBreak(s, 0) == |first|;
    assert s[..|first|] == first;
    assert s[|first| + 1..] == rest;
  }

  /**
   * Joining non-empty lines without line breaks by "\n" and splitting the result
   * into lines gives the lines back.
   */
  lemma {:induction false} SplitLinesOfJoin(lines: seq<string>)
    requires forall k :: 0 <= k < |lines| ==> lines[k] != "" && NoLineBreak(lines[k])
    ensures SplitLines(Join(lines, "\n")) == lines
  {
    if |lines| == 1 {
      assert FirstLineBreak(lines[0], 0) == |lines[0]|;
    } else if |lines| > 1 {
      var rest := lines[1..];
      assert forall k :: 0 <= k < |rest| ==> rest[k] == lines[k + 1];
      SplitLinesOfJoin(rest);
      SplitLinesCons(lines[0], Join(rest, "\n"));
      assert lines == [lines[0]] + rest;
    }
  }

  // ---------------------------------------------------------------------------
  // Decimal rendering
  // ---------------------------------------------------------------------------

  function DigitChar(d: nat): char
    requires d < 10
  {
    ('0' as int + d) as char
  }

  predicate AllDigits(s: string) {
    forall i :: 0 <= i < |s| ==> '0' <= s[i] <= '9'
  }

  /** Python's `str(n)` (and an f-string field) for a non-negative integer: no leading zero except for 0 itself. */
  function DecimalString(n: nat): (s: string)
    ensures |s| >= 1
    ensures AllDigits(s)
    ensures s[0] == '0' ==> n == 0
  {
    if n < 10 then [DigitChar(n)] else DecimalString(n / 10) + [DigitChar(n % 10)]
  }

  /** The value of a string of decimal digits. */
  function DecimalValue(s: string): nat
    requires AllDigits(s)
  {
    if s == [] then 0
    else
      DecimalValue(s[..|s| - 1]) * 10 + (s[|s| - 1] as int - '0' as int)
  }

  /** Reading back the decimal rendering of `n` gives `n`. */
  lemma {:induction false} DecimalRoundTrip(n: nat)
    ensures DecimalValue(DecimalString(n)) == n
  {
    if n >= 10 {
      var s := DecimalString(n);
      assert s[..|s| - 1] == DecimalString(n / 10);
      DecimalRoundTrip(n / 10);
    }
  }
}
