/**
 * String operations the application relies on, with the JavaScript meaning:
 * `String.prototype.trim`, the regular-expression class `\s` (both use the
 * same set of white-space and line-terminator characters), substring search,
 * and the line structure of text built by appending `"...\n"` pieces.
 */
module Text {
  import opened Wrappers

  /** White space as ECMAScript defines it for `trim` and `\s`:
      WhiteSpace (TAB, VT, FF, SP, NBSP, ZWNBSP, the Zs category) and LineTerminator (LF, CR, LS, PS). */
  predicate IsSpace(c: char) {
    || c == ' '
    || ('\t' <= c <= '\r')
    || c == '\U{00A0}' || c == '\U{1680}'
    || ('\U{2000}' <= c <= '\U{200A}')
    || c == '\U{2028}' || c == '\U{2029}' || c == '\U{202F}' || c == '\U{205F}'
    || c == '\U{3000}' || c == '\U{FEFF}'
  }

  predicate AllSpace(s: string) {
    forall k :: 0 <= k < |s| ==> IsSpace(s[k])
  }

  /** The first index at or after `i` that does not hold white space, or the end of `s`. */
  function SkipSpace(s: string, i: nat): (j: nat)
    requires i <= |s|
    decreases |s| - i
    ensures i <= j <= |s|
    ensures forall k :: i <= k < j ==> IsSpace(s[k])
    ensures j < |s| ==> !IsSpace(s[j])
  {
    if i < |s| && IsSpace(s[i]) then SkipSpace(s, i + 1) else i
  }

  /** The index just past the last character in `s[lo..j]` that is not white space, or `lo`. */
  function SkipSpaceBack(s: string, lo: nat, j: nat): (i: nat)
    requires lo <= j <= |s|
    decreases j - lo
    ensures lo <= i <= j
    ensures forall k :: i <= k < j ==> IsSpace(s[k])
    ensures i > lo ==> !IsSpace(s[i - 1])
  {
    if j > lo && IsSpace(s[j - 1]) then SkipSpaceBack(s, lo, j - 1) else j
  }

  /** Where the trimmed text starts inside the original. */
  function TrimOffset(s: string): nat
    ensures TrimOffset(s) <= |s|
  {
    SkipSpace(s, 0)
  }

  /** `s.trim()`: the middle of `s` between two runs of white space, with no white space at either end. */
  function Trim(s: string): (r: string)
    ensures TrimOffset(s) + |r| <= |s|
    ensures s[TrimOffset(s)..TrimOffset(s) + |r|] == r
    ensures AllSpace(s[..TrimOffset(s)]) && AllSpace(s[TrimOffset(s) + |r|..])
    ensures r != [] ==> !IsSpace(r[0]) && !IsSpace(r[|r| - 1])
  {
    s[TrimOffset(s)..SkipSpaceBack(s, TrimOffset(s), |s|)]
  }

  /** Trimming gives the empty string exactly for text that is all white space. */
  lemma TrimEmptyIffBlank(s: string)
    ensures Trim(s) == [] <==> AllSpace(s)
  {
    var i := TrimOffset(s);
    if Trim(s) == [] {
      assert SkipSpaceBack(s, i, |s|) == i;
      assert forall k :: 0 <= k < |s| ==> k < i || IsSpace(s[k]);
    }
  }

  /** `pat` occurs in `s` starting at index `i`. */
  predicate OccursAt(s: string, pat: string, i: int) {
    0 <= i && i + |pat| <= |s| && s[i..i + |pat|] == pat
  }

  predicate StartsWith(s: string, prefix: string) {
    |prefix| <= |s| && s[..|prefix|] == prefix
  }

  predicate EndsWith(s: string, suffix: string) {
    |suffix| <= |s| && s[|s| - |suffix|..] == suffix
  }

  predicate Contains(s: string, pat: string) {
    exists i :: 0 <= i <= |s| && OccursAt(s, pat, i)
  }

  /** `s.indexOf(pat, from)`: the first occurrence of `pat` at or after `from`, if any. */
  function IndexFrom(s: string, pat: string, from: nat): (r: Option<nat>)
    decreases |s| - from
    ensures r.Some? ==> from <= r.value && OccursAt(s, pat, r.value)
    ensures r.Some? ==> forall j :: from <= j < r.value ==> !OccursAt(s, pat, j)
    ensures r.None? ==> forall j :: from <= j ==> !OccursAt(s, pat, j)
  {
    if from + |pat| > |s| then None
    else if s[from..from + |pat|] == pat then Some(from)
    else IndexFrom(s, pat, from + 1)
  }

  /** An occurrence with none before it, from `from` on, is the one `indexOf` finds. */
  lemma IndexFromFirst(s: string, pat: string, from: nat, p: nat)
    requires from <= p && OccursAt(s, pat, p)
    requires forall j :: from <= j < p ==> !OccursAt(s, pat, j)
    ensures IndexFrom(s, pat, from) == Some(p)
  {
  }

  /** An occurrence inside a slice is an occurrence in the whole text, shifted by the slice's start. */
  lemma OccursInSlice(s: string, pat: string, i: nat, j: nat, k: int)
    requires i <= j <= |s|
    ensures OccursAt(s[i..j], pat, k) ==> OccursAt(s, pat, i + k) && i + k + |pat| <= j
  {
    if OccursAt(s[i..j], pat, k) {
      forall m | 0 <= m < |pat| ensures s[i + k + m] == pat[m] {
        assert s[i..j][k..k + |pat|][m] == pat[m];
      }
      assert s[i + k..i + k + |pat|] == pat;
    }
  }

  /** A slice of text without occurrences of a non-empty pattern has none either. */
  lemma NoOccurrenceInSlice(s: string, pat: string, i: nat, j: nat)
    requires i <= j <= |s| && |pat| > 0
    requires forall m :: i <= m < j ==> !OccursAt(s, pat, m)
    ensures forall k :: !OccursAt(s[i..j], pat, k)
  {
    forall k ensures !OccursAt(s[i..j], pat, k) {
      OccursInSlice(s, pat, i, j, k);
    }
  }

  /** Trimming cannot create an occurrence of a pattern the text lacks. */
  lemma NoOccurrenceInTrim(s: string, pat: string)
    requires |pat| > 0
    requires forall m :: !OccursAt(s, pat, m)
    ensures !Contains(Trim(s), pat)
  {
    var k := TrimOffset(s);
    var body := Trim(s);
    NoOccurrenceInSlice(s, pat, k, k + |body|);
  }

  /** Trimming text padded with white space on both sides gives back the text, when it has no white space at its ends. */
  lemma TrimPadded(lead: string, body: string, trail: string)
    requires AllSpace(lead) && AllSpace(trail)
    requires body != [] ==> !IsSpace(body[0]) && !IsSpace(body[|body| - 1])
    ensures Trim(lead + body + trail) == body
  {
    var s := lead + body + trail;
    var e := |lead| + |body|;
    assert forall k :: 0 <= k < |lead| ==> s[k] == lead[k];
    assert forall k :: e <= k < |s| ==> s[k] == trail[k - e];
    if body == [] {
      assert SkipSpace(s, 0) == |s|;
    } else {
      assert s[|lead|] == body[0] && s[e - 1] == body[|body| - 1];
      assert SkipSpace(s, 0) == |lead|;
      assert SkipSpaceBack(s, |lead|, |s|) == e;
      assert s[|lead|..e] == body;
    }
  }

  // ---------------------------------------------------------------------
  // Lines: text assembled by appending "line\n" pieces, and read back.

  predicate NoNewline(s: string) {
    '\n' !in s
  }

  /** Every entry is a single line. */
  predicate WholeLines(lines: seq<string>) {
    forall i :: 0 <= i < |lines| ==> NoNewline(lines[i])
  }

  lemma WholeLinesAppend(a: seq<string>, b: seq<string>)
    requires WholeLines(a) && WholeLines(b)
    ensures WholeLines(a + b)
  {
    forall i | 0 <= i < |a + b| ensures NoNewline((a + b)[i]) {
      if i >= |a| { assert (a + b)[i] == b[i - |a|]; }
    }
  }

  /** Every line followed by a line feed, in order (the shape `prompt += `...\n`` builds). */
  function JoinLines(lines: seq<string>): string {
    if lines == [] then "" else lines[0] + "\n" + JoinLines(lines[1..])
  }

  /** Joined lines followed by a fixed text open with the first line and its line feed and close with that text. */
  lemma JoinedBounds(lines: seq<string>, tail: string)
    requires lines != []
    ensures StartsWith(JoinLines(lines) + tail, lines[0] + "\n")
    ensures EndsWith(JoinLines(lines) + tail, tail)
  {
    var head := lines[0] + "\n";
    var s := JoinLines(lines) + tail;
    assert s == head + (JoinLines(lines[1..]) + tail);
    assert s[..|head|] == head;
    assert s[|s| - |tail|..] == tail;
  }

  /** The index of the first line feed in `s`, or `|s|` when there is none. */
  function LineEnd(s: string): (k: nat)
    ensures k <= |s| && (k < |s| ==> s[k] == '\n')
    ensures forall j :: 0 <= j < k ==> s[j] != '\n'
  {
    if s == [] || s[0] == '\n' then 0 else 1 + LineEnd(s[1..])
  }

  /** Splits text into lines at each line feed; a final line feed does not open an empty last line. */
  function SplitLines(s: string): seq<string>
    decreases |s|
  {
    if s == [] then []
    else
      var k := LineEnd(s);
      if k == |s| then [s] else [s[..k]] + SplitLines(s[k + 1..])
  }

  lemma LineEndOfLine(a: string, b: string)
    requires NoNewline(a)
    ensures LineEnd(a + "\n" + b) == |a|
  {
    var s := a + "\n" + b;
    assert s[|a|] == '\n';
    assert forall j :: 0 <= j < |a| ==> s[j] == a[j];
  }

  /** Reading back text built from whole lines yields those lines, followed by the lines of what comes after. */
  lemma SeqConsAssoc<T>(xs: seq<T>, ys: seq<T>)
    requires xs != []
    ensures [xs[0]] + (xs[1..] + ys) == xs + ys
  {
    assert xs == [xs[0]] + xs[1..];
  }

  /** Reading back one line followed by a line feed. */
  lemma SplitLinesCons(a: string, tail: string)
    requires NoNewline(a)
    ensures SplitLines(a + "\n" + tail) == [a] + SplitLines(tail)
  {
    var s := a + "\n" + tail;
    LineEndOfLine(a, tail);
    assert s[..|a|] == a;
    assert s[|a| + 1..] == tail;
  }

  lemma {:induction false} SplitJoinLines(lines: seq<string>, rest: string)
    requires WholeLines(lines)
    ensures SplitLines(JoinLines(lines) + rest) == lines + SplitLines(rest)
  {
    if lines == [] {
      assert JoinLines(lines) + rest == rest;
      assert lines + SplitLines(rest) == SplitLines(rest);
    } else {
      var a, more := lines[0], lines[1..];
      var tail := JoinLines(more) + rest;
      assert JoinLines(lines) == a + "\n" + JoinLines(more);
      assert JoinLines(lines) + rest == a + "\n" + tail;
      SplitLinesCons(a, tail);
      assert WholeLines(more) by {
        forall i | 0 <= i < |more| ensures NoNewline(more[i]) { assert more[i] == lines[i + 1]; }
      }
      SplitJoinLines(more, rest);
      calc {
        SplitLines(JoinLines(lines) + rest);
        SplitLines(a + "\n" + tail);
        [a] + SplitLines(tail);
        [a] + (more + SplitLines(rest));
        { SeqConsAssoc(lines, SplitLines(rest)); }
        lines + SplitLines(rest);
      }
    }
  }

  /** Reading back text made only of whole lines gives exactly those lines. */
  lemma SplitJoinLinesExactly(lines: seq<string>)
    requires WholeLines(lines)
    ensures SplitLines(JoinLines(lines)) == lines
  {
    SplitJoinLines(lines, "");
    assert JoinLines(lines) + "" == JoinLines(lines);
  }

  // ---------------------------------------------------------------------
  // Decimal rendering of a natural number, as `${n}` produces it.

  function Digit(d: nat): (c: char)
    requires d < 10
    ensures '0' <= c <= '9' && c as int - '0' as int == d
  {
    (('0' as int) + d) as char
  }

  function Decimal(n: nat): (r: string)
    ensures |r| >= 1 && forall k :: 0 <= k < |r| ==> '0' <= r[k] <= '9'
  {
    if n < 10 then [Digit(n)] else Decimal(n / 10) + [Digit(n % 10)]
  }

  /** The value of a string of decimal digits. */
  function DecimalValue(s: string): int {
    if s == [] then 0 else 10 * DecimalValue(s[..|s| - 1]) + (s[|s| - 1] as int - '0' as int)
  }

  lemma {:induction false} DecimalRoundTrip(n: nat)
    ensures DecimalValue(Decimal(n)) == n
  {
    var r := Decimal(n);
    if n >= 10 {
      DecimalRoundTrip(n / 10);
      assert r[..|r| - 1] == Decimal(n / 10);
    }
  }

  lemma DecimalHasNoNewline(n: nat)
    ensures NoNewline(Decimal(n))
  {
    var r := Decimal(n);
    assert forall k :: 0 <= k < |r| ==> r[k] != '\n';
  }
}
