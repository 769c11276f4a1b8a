/**
 * The string primitives the Python code leans on, written out over `seq<char>`:
 * `lower`/`upper` (ASCII letters only), `split()`, `strip()`, `count`,
 * `''.join`, `str(n)` and the lexicographic `<` on strings.
 */
module Text {

  // ---------------------------------------------------------------------------
  // Case mapping (ASCII letters only)

  predicate IsUpperAscii(c: char) { 'A' <= c <= 'Z' }
  predicate IsLowerAscii(c: char) { 'a' <= c <= 'z' }

  function LowerChar(c: char): (r: char)
    ensures !IsUpperAscii(r)
    ensures IsUpperAscii(c) ==> r as int == c as int + 32
    ensures !IsUpperAscii(c) ==> r == c
  {
    if IsUpperAscii(c) then (c as int + 32) as char else c
  }

  function UpperChar(c: char): (r: char)
    ensures !IsLowerAscii(r)
    ensures IsLowerAscii(c) ==> r as int == c as int - 32
    ensures !IsLowerAscii(c) ==> r == c
  {
    if IsLowerAscii(c) then (c as int - 32) as char else c
  }

  /** `s.lower()`: the same length, every ASCII capital replaced by its small letter. */
  function Lower(s: string): (r: string)
    ensures |r| == |s|
    ensures forall i :: 0 <= i < |s| ==> r[i] == LowerChar(s[i])
  {
    seq(|s|, i requires 0 <= i < |s| => LowerChar(s[i]))
  }

  /** `s.upper()` on ASCII letters. */
  function Upper(s: string): (r: string)
    ensures |r| == |s|
    ensures forall i :: 0 <= i < |s| ==> r[i] == UpperChar(s[i])
  {
    seq(|s|, i requires 0 <= i < |s| => UpperChar(s[i]))
  }

  // ---------------------------------------------------------------------------
  // Whitespace, split() and strip()

  /** The characters Python's `str.isspace` accepts. */
  predicate IsSpace(c: char) {
    var n := c as int;
    n == 0x20 || 0x09 <= n <= 0x0d || 0x1c <= n <= 0x1f || n == 0x85 || n == 0xa0
    || n == 0x1680 || 0x2000 <= n <= 0x200a || n == 0x2028 || n == 0x2029
    || n == 0x202f || n == 0x205f || n == 0x3000
  }

  /** Length of the run of non-space characters that `s` starts with. */
  function NonSpaceRun(s: string): (n: nat)
    ensures n <= |s|
    ensures forall j :: 0 <= j < n ==> !IsSpace(s[j])
    ensures n == |s| || IsSpace(s[n])
  {
    if s == [] || IsSpace(s[0]) then 0 else 1 + NonSpaceRun(s[1..])
  }

  /** `s.split()`: the maximal runs of non-space characters, left to right. */
  function Words(s: string): (ws: seq<string>)
    ensures forall k :: 0 <= k < |ws| ==> ws[k] != []
    ensures forall k, j :: 0 <= k < |ws| && 0 <= j < |ws[k]| ==> !IsSpace(ws[k][j])
    decreases |s|
  {
    if s == [] then []
    else if IsSpace(s[0]) then Words(s[1..])
    else
      var n := NonSpaceRun(s);
      [s[..n]] + Words(s[n..])
  }

  /** The non-space characters of `s`, in order. */
  function NonSpaces(s: string): string
  {
    if s == [] then [] else (if IsSpace(s[0]) then [] else [s[0]]) + NonSpaces(s[1..])
  }

  /** A run of `n` non-space characters at the front of `s` passes into `NonSpaces` whole. */
  lemma {:induction false} NonSpacesRun(s: string, n: nat)
    requires n <= |s|
    requires forall j :: 0 <= j < n ==> !IsSpace(s[j])
    ensures NonSpaces(s) == s[..n] + NonSpaces(s[n..])
    decreases n
  {
    if n > 0 {
      NonSpacesRun(s[1..], n - 1);
      assert s[1..][n - 1..] == s[n..];
      assert [s[0]] + s[1..][..n - 1] == s[..n];
    }
  }

  /** `''.join(s.split())`: the words, run together, are exactly the non-space characters of `s`. */
  lemma {:induction false} WordsConcat(s: string)
    ensures Concat(Words(s)) == NonSpaces(s)
    decreases |s|
  {
    if s != [] {
      if IsSpace(s[0]) {
        WordsConcat(s[1..]);
      } else {
        var n := NonSpaceRun(s);
        var rest := Words(s[n..]);
        WordsConcat(s[n..]);
        NonSpacesRun(s, n);
        assert ([s[..n]] + rest)[1..] == rest;
      }
    }
  }

  /** Index `i` is where a word of `s` begins: a non-space at the start or after whitespace. */
  predicate IsWordStart(s: string, i: int)
    requires 0 <= i < |s|
  {
    !IsSpace(s[i]) && (i == 0 || IsSpace(s[i - 1]))
  }

  /** The number of indices `i` in `[lo, |s|)` at which a word begins. */
  function WordStartsFrom(s: string, lo: nat): nat
    decreases |s| - lo
  {
    if lo >= |s| then 0 else (if IsWordStart(s, lo) then 1 else 0) + WordStartsFrom(s, lo + 1)
  }

  /** Inside a run of non-space characters no word begins. */
  lemma {:induction false} NoStartsInRun(s: string, lo: nat, hi: nat)
    requires lo < hi <= |s|
    requires forall j :: lo <= j < hi ==> !IsSpace(s[j])
    ensures WordStartsFrom(s, lo + 1) == WordStartsFrom(s, hi)
    decreases hi - lo
  {
    if lo + 1 < hi {
      assert !IsWordStart(s, lo + 1);
      NoStartsInRun(s, lo + 1, hi);
    }
  }

  lemma {:induction false} WordsCountFrom(s: string, lo: nat)
    requires lo <= |s|
    requires lo == 0 || lo == |s| || IsSpace(s[lo - 1]) || IsSpace(s[lo])
    ensures |Words(s[lo..])| == WordStartsFrom(s, lo)
    decreases |s| - lo
  {
    if lo < |s| {
      var t := s[lo..];
      if IsSpace(s[lo]) {
        assert t[1..] == s[lo + 1..];
        WordsCountFrom(s, lo + 1);
      } else {
        var n := NonSpaceRun(t);
        assert t[n..] == s[lo + n..];
        assert IsWordStart(s, lo);
        forall j | lo <= j < lo + n ensures !IsSpace(s[j]) {
          assert s[j] == t[j - lo];
        }
        NoStartsInRun(s, lo, lo + n);
        if lo + n < |s| {
          assert s[lo + n] == t[n];
        }
        WordsCountFrom(s, lo + n);
      }
    }
  }

  /** `len(s.split())` is the number of indices at which a word begins. */
  lemma WordsCount(s: string)
    ensures |Words(s)| == WordStartsFrom(s, 0)
  {
    assert s[0..] == s;
    WordsCountFrom(s, 0);
  }

  /** Number of leading whitespace characters. */
  function LeadingSpaces(s: string): (k: nat)
    ensures k <= |s|
    ensures forall j :: 0 <= j < k ==> IsSpace(s[j])
    ensures k < |s| ==> !IsSpace(s[k])
  {
    if s != [] && IsSpace(s[0]) then 1 + LeadingSpaces(s[1..]) else 0
  }

  /** Number of trailing whitespace characters. */
  function TrailingSpaces(s: string): (k: nat)
    ensures k <= |s|
    ensures forall j :: |s| - k <= j < |s| ==> IsSpace(s[j])
    ensures k < |s| ==> !IsSpace(s[|s| - k - 1])
  {
    if s != [] && IsSpace(s[|s| - 1]) then 1 + TrailingSpaces(s[..|s| - 1]) else 0
  }

  /** `s.strip()`: `s` without its leading and trailing whitespace. */
  function Strip(s: string): (r: string)
    ensures LeadingSpaces(s) + |r| <= |s|
    ensures r == s[LeadingSpaces(s)..LeadingSpaces(s) + |r|]
  {
    var t := s[LeadingSpaces(s)..];
    t[..|t| - TrailingSpaces(t)]
  }

  /** `strip()` removes whitespace only, and only as much as there is at either end. */
  lemma StripRemovesOnlySpaces(s: string)
    ensures var r, k := Strip(s), LeadingSpaces(s);
      && (r != [] ==> !IsSpace(r[0]) && !IsSpace(r[|r| - 1]))
      && (forall j :: 0 <= j < k ==> IsSpace(s[j]))
      && (forall j :: k + |r| <= j < |s| ==> IsSpace(s[j]))
  {
    StripEnds(s);
    StripDropsTrailing(s);
  }

  /** The stripped text neither starts nor ends with whitespace. */
  lemma StripEnds(s: string)
    ensures var r := Strip(s); r != [] ==> !IsSpace(r[0]) && !IsSpace(r[|r| - 1])
  {
    var k := LeadingSpaces(s);
    var t := s[k..];
    var m := TrailingSpaces(t);
    var r := Strip(s);
    assert r == t[..|t| - m];
    if r != [] {
      assert r[0] == s[k];
      assert r[|r| - 1] == t[|t| - m - 1];
    }
  }

  /** Everything after the stripped text is whitespace. */
  lemma StripDropsTrailing(s: string)
    ensures forall j :: LeadingSpaces(s) + |Strip(s)| <= j < |s| ==> IsSpace(s[j])
  {
    var k := LeadingSpaces(s);
    var t := s[k..];
    var m := TrailingSpaces(t);
    assert Strip(s) == t[..|t| - m];
    forall j | k + |Strip(s)| <= j < |s| ensures IsSpace(s[j]) {
      assert s[j] == t[j - k];
    }
  }

  // ---------------------------------------------------------------------------
  // str.count

  predicate OccursAt(w: string, s: string, i: int) {
    0 <= i <= |s| - |w| && s[i..i + |w|] == w
  }

  ghost predicate IsSubstring(w: string, s: string) {
    exists i :: OccursAt(w, s, i)
  }

  /** Non-overlapping occurrences of a non-empty `w`, scanning left to right. */
  function CountNonEmpty(s: string, w: string): (n: nat)
    requires w != []
    ensures n <= |s|
    decreases |s|
  {
    if |s| < |w| then 0
    else if s[..|w|] == w then 1 + CountNonEmpty(s[|w|..], w)
    else CountNonEmpty(s[1..], w)
  }

  lemma {:induction false} CountedIsSubstring(s: string, w: string)
    requires w != [] && CountNonEmpty(s, w) > 0
    ensures IsSubstring(w, s)
    decreases |s|
  {
    if s[..|w|] == w {
      assert OccursAt(w, s, 0);
    } else {
      CountedIsSubstring(s[1..], w);
      var i :| OccursAt(w, s[1..], i);
      forall k | 0 <= k < |w| ensures s[1 + i..1 + i + |w|][k] == w[k] {
        assert s[1..][i..i + |w|][k] == w[k];
      }
      assert OccursAt(w, s, i + 1);
    }
  }

  /** `s.count(w)`; Python counts `len(s) + 1` occurrences of the empty string. */
  function CountOccurrences(s: string, w: string): (n: nat)
    ensures w != [] && n > 0 ==> IsSubstring(w, s)
  {
    if w == [] then |s| + 1
    else
      var n := CountNonEmpty(s, w);
      if n > 0 then CountedIsSubstring(s, w); n else n
  }

  lemma {:induction false} SubstringIsCounted(s: string, w: string, i: int)
    requires w != [] && OccursAt(w, s, i)
    ensures CountNonEmpty(s, w) > 0
    decreases i
  {
    if s[..|w|] != w {
      assert i != 0;
      assert s[1..][i - 1..i - 1 + |w|] == s[i..i + |w|];
      SubstringIsCounted(s[1..], w, i - 1);
    }
  }

  /** A non-empty word is counted at least once exactly when it occurs in the text. */
  lemma CountOccurrencesIff(s: string, w: string)
    requires w != []
    ensures CountOccurrences(s, w) > 0 <==> IsSubstring(w, s)
  {
    if IsSubstring(w, s) {
      var i :| OccursAt(w, s, i);
      SubstringIsCounted(s, w, i);
    }
  }

  lemma {:induction false} CountNonEmptyBound(s: string, w: string)
    requires w != []
    ensures CountNonEmpty(s, w) * |w| <= |s|
    decreases |s|
  {
    if |s| >= |w| {
      if s[..|w|] == w {
        var c := CountNonEmpty(s[|w|..], w);
        CountNonEmptyBound(s[|w|..], w);
        assert (1 + c) * |w| == |w| + c * |w|;
      } else {
        CountNonEmptyBound(s[1..], w);
      }
    }
  }

  /** The occurrences `count` finds do not overlap: together they fit in the text. */
  lemma CountOccurrencesBound(s: string, w: string)
    requires w != []
    ensures CountOccurrences(s, w) * |w| <= |s|
  {
    CountNonEmptyBound(s, w);
  }

  // ---------------------------------------------------------------------------
  // Joining

  /** `''.join(parts)`. */
  function Concat(parts: seq<string>): (r: string)
    ensures parts == [] ==> r == []
  {
    if parts == [] then [] else parts[0] + Concat(parts[1..])
  }

  lemma {:induction false} ConcatAppend(a: seq<string>, b: seq<string>)
    ensures Concat(a + b) == Concat(a) + Concat(b)
    decreases |a|
  {
    if a == [] {
      assert a + b == b;
    } else {
      assert (a + b)[1..] == a[1..] + b;
      ConcatAppend(a[1..], b);
    }
  }

  lemma ConcatOne(s: string)
    ensures Concat([s]) == s
  {
    assert [s][1..] == [];
  }

  /** `sep.join(parts)`. */
  function Join(parts: seq<string>, sep: string): (r: string)
    ensures parts == [] ==> r == []
    ensures |parts| == 1 ==> r == parts[0]
  {
    if |parts| == 0 then [] else if |parts| == 1 then parts[0] else parts[0] + sep + Join(parts[1..], sep)
  }

  // ---------------------------------------------------------------------------
  // str(n)

  function DigitChar(d: nat): (c: char)
    requires d < 10
    ensures '0' <= c <= '9'
  {
    ('0' as int + d) as char
  }

  /** Decimal rendering of a natural number, as `str(n)` / an f-string prints it. */
  function NatToString(n: nat): (r: string)
    ensures r != []
    ensures forall k :: 0 <= k < |r| ==> '0' <= r[k] <= '9'
  {
    if n < 10 then [DigitChar(n)] else NatToString(n / 10) + [DigitChar(n % 10)]
  }

  /** The number a string of decimal digits denotes, most significant digit first. */
  function DigitsValue(s: string): nat
    requires forall k :: 0 <= k < |s| ==> '0' <= s[k] <= '9'
  {
    if s == [] then 0 else 10 * DigitsValue(s[..|s| - 1]) + (s[|s| - 1] as int - '0' as int)
  }

  /**
   * `str(n)` is the decimal numeral of `n`: it denotes `n` and has no leading
   * zero, so different numbers print differently.
   */
  lemma {:induction false} NatToStringValue(n: nat)
    ensures DigitsValue(NatToString(n)) == n
    ensures NatToString(n)[0] == '0' ==> n == 0
    decreases n
  {
    if n >= 10 {
      var r := NatToString(n);
      NatToStringValue(n / 10);
      assert r[..|r| - 1] == NatToString(n / 10);
    }
  }

  lemma NatToStringInjective(n: nat, m: nat)
    ensures NatToString(n) == NatToString(m) <==> n == m
  {
    NatToStringValue(n);
    NatToStringValue(m);
  }

  // ---------------------------------------------------------------------------
  // Python's string ordering: lexicographic by code point, a proper prefix first

  predicate StrLt(a: string, b: string)
    decreases |a|
  {
    if a == [] then b != []
    else if b == [] then false
    else if a[0] != b[0] then a[0] < b[0]
    else StrLt(a[1..], b[1..])
  }

  lemma {:induction false} StrLtIrreflexive(a: string)
    ensures !StrLt(a, a)
    decreases |a|
  {
    if a != [] {
      StrLtIrreflexive(a[1..]);
    }
  }

  lemma {:induction false} StrLtTransitive(a: string, b: string, c: string)
    requires StrLt(a, b) && StrLt(b, c)
    ensures StrLt(a, c)
    decreases |a|
  {
    if a != [] && b != [] && c != [] && a[0] == b[0] && b[0] == c[0] {
      StrLtTransitive(a[1..], b[1..], c[1..]);
    }
  }

  lemma {:induction false} StrLtTotal(a: string, b: string)
    requires a != b
    ensures StrLt(a, b) || StrLt(b, a)
    decreases |a|
  {
    if a != [] && b != [] && a[0] == b[0] {
      assert a == [a[0]] + a[1..] && b == [b[0]] + b[1..];
      StrLtTotal(a[1..], b[1..]);
    }
  }
}
