/**
 * The fuzzy matcher of the retrieval machinery: an fzf-style subsequence
 * scorer, sliding-window span finding, sentence-aligned snippets, ranked
 * message search and index-window expansion around a message id.
 *
 * Each operation the code performs with loops is a method proved equal to a
 * specification function; the properties the matcher promises are lemmas
 * about those functions. Scores are exact rationals (`real`).
 */
module FuzzySearch {
  import opened Common
  import opened Text
  import opened Sorting

  // ---------------------------------------------------------------------------
  // Subsequences and the greedy leftmost embedding

  /** `e` places `p` into `t`: strictly increasing positions of `t` holding `p`'s characters in order. */
  predicate Embeds(e: seq<int>, p: string, t: string) {
    && |e| == |p|
    && (forall k :: 0 <= k < |e| ==> 0 <= e[k] < |t| && t[e[k]] == p[k])
    && (forall i, j :: 0 <= i < j < |e| ==> e[i] < e[j])
  }

  /** `p` is an ordered (not necessarily contiguous) subsequence of `t`. */
  ghost predicate IsSubsequence(p: string, t: string) {
    exists e :: Embeds(e, p, t)
  }

  /**
   * The positions the matcher's scan records: walk `t` from `ti`, taking each
   * character that equals the next unmatched character of `p`.
   */
  function Greedy(p: string, t: string, ti: nat): (m: seq<nat>)
    requires ti <= |t|
    ensures |m| <= |p|
    ensures |m| < |p| ==> |m| <= |t| - ti
    decreases |t| - ti
  {
    if p == [] || ti == |t| then []
    else if p[0] == t[ti] then [ti] + Greedy(p[1..], t, ti + 1)
    else Greedy(p, t, ti + 1)
  }

  /** The recorded positions lie in `t` from `ti` on and hold `p`'s characters. */
  lemma {:induction false} GreedyInText(p: string, t: string, ti: nat)
    requires ti <= |t|
    ensures var m := Greedy(p, t, ti);
      forall k :: 0 <= k < |m| ==> ti <= m[k] < |t| && t[m[k]] == p[k]
    decreases |t| - ti
  {
    if p != [] && ti < |t| {
      if p[0] == t[ti] {
        GreedyInText(p[1..], t, ti + 1);
      } else {
        GreedyInText(p, t, ti + 1);
      }
    }
  }

  /** The recorded positions lie in `t`, increase strictly, and hold `p`'s characters. */
  lemma {:induction false} GreedyPositions(p: string, t: string, ti: nat)
    requires ti <= |t|
    ensures var m := Greedy(p, t, ti);
      && (forall k :: 0 <= k < |m| ==> ti <= m[k] < |t| && t[m[k]] == p[k])
      && (forall i, j :: 0 <= i < j < |m| ==> m[i] < m[j])
    decreases |t| - ti
  {
    GreedyInText(p, t, ti);
    if p != [] && ti < |t| {
      if p[0] == t[ti] {
        GreedyPositions(p[1..], t, ti + 1);
      } else {
        GreedyPositions(p, t, ti + 1);
      }
    }
  }

  /** A full greedy scan is an embedding. */
  lemma GreedySound(p: string, t: string, ti: nat)
    requires ti <= |t| && |Greedy(p, t, ti)| == |p|
    ensures Embeds(Greedy(p, t, ti), p, t)
  {
    GreedyPositions(p, t, ti);
  }

  /** The greedy scan finds every character of `p` whenever some embedding above `ti` exists. */
  lemma {:induction false} GreedyComplete(p: string, t: string, ti: nat, e: seq<int>)
    requires ti <= |t| && Embeds(e, p, t)
    requires forall k :: 0 <= k < |e| ==> ti <= e[k]
    ensures |Greedy(p, t, ti)| == |p|
    decreases |t| - ti
  {
    if p != [] {
      assert ti <= e[0] < |t|;
      if p[0] == t[ti] {
        var e' := e[1..];
        assert Embeds(e', p[1..], t);
        forall k | 0 <= k < |e'| ensures ti + 1 <= e'[k] {
          assert e[0] < e[k + 1];
        }
        GreedyComplete(p[1..], t, ti + 1, e');
      } else {
        assert e[0] != ti;
        forall k | 0 <= k < |e| ensures ti + 1 <= e[k] {
          if k > 0 {
            assert e[0] < e[k];
          }
        }
        GreedyComplete(p, t, ti + 1, e);
      }
    }
  }

  /** The greedy scan matches all of `p` exactly when `p` is a subsequence of `t`. */
  lemma GreedyFullIff(p: string, t: string)
    ensures |Greedy(p, t, 0)| == |p| <==> IsSubsequence(p, t)
  {
    if |Greedy(p, t, 0)| == |p| {
      GreedySound(p, t, 0);
    }
    if IsSubsequence(p, t) {
      var e :| Embeds(e, p, t);
      GreedyComplete(p, t, 0, e);
    }
  }

  /** An embedding into a slice of `t` is, shifted, an embedding into `t`. */
  lemma SubsequenceOfSlice(p: string, t: string, lo: int, hi: int)
    requires 0 <= lo <= hi <= |t| && IsSubsequence(p, t[lo..hi])
    ensures IsSubsequence(p, t)
  {
    var e :| Embeds(e, p, t[lo..hi]);
    var e' := seq(|e|, k requires 0 <= k < |e| => e[k] + lo);
    assert Embeds(e', p, t);
  }

  // ---------------------------------------------------------------------------
  // The score

  /** Characters after which a match counts as starting a word. */
  predicate IsSeparator(c: char) {
    c == ' ' || c == '\t' || c == '\n' || c == '_' || c == '-'
  }

  /** Number of matched positions that directly follow the previous one. */
  function Contiguity(m: seq<nat>): (c: nat)
    ensures m != [] ==> c <= |m| - 1
  {
    if |m| <= 1 then 0
    else Contiguity(m[..|m| - 1]) + (if m[|m| - 1] == m[|m| - 2] + 1 then 1 else 0)
  }

  /** Number of matched positions at the start of the text or right after a separator. */
  function Boundaries(m: seq<nat>, t: string): (b: nat)
    requires forall k :: 0 <= k < |m| ==> m[k] < |t|
    ensures b <= |m|
  {
    if m == [] then 0
    else
      var pos := m[|m| - 1];
      Boundaries(m[..|m| - 1], t) + (if pos == 0 || IsSeparator(t[pos - 1]) then 1 else 0)
  }

  function MinReal(a: real, b: real): real {
    if a <= b then a else b
  }

  function MaxReal(a: real, b: real): real {
    if a >= b then a else b
  }

  /**
   * The weighted sum for a full greedy match `m` of a non-empty lowered
   * pattern of length `n` in the lowered text `t`, capped at 1.
   */
  function Combine(m: seq<nat>, n: nat, t: string): real
    requires 0 < n == |m| && forall k :: 0 <= k < |m| ==> m[k] < |t|
  {
    var base := |m| as real / n as real;
    var early := MaxReal(0.0, 1.0 - m[0] as real / |t| as real);
    var total := base * 0.5
      + (Contiguity(m) as real / n as real) * 0.3
      + (Boundaries(m, t) as real / n as real) * 0.1
      + early * 0.1;
    MinReal(total, 1.0)
  }

  /** The score of `pattern` against `text`, both lowered: 0 unless every character matched. */
  function Score(pattern: string, text: string): real {
    var p, t := Lower(pattern), Lower(text);
    var m := Greedy(p, t, 0);
    if |m| < |p| || m == [] then 0.0
    else GreedyInText(p, t, 0); Combine(m, |p|, t)
  }

  /** The weighted sum stays within its bounds whatever the counts, given their ranges. */
  lemma WeightedSumBounds(nr: real, c: real, b: real, early: real)
    requires nr >= 1.0 && 0.0 <= c <= nr - 1.0 && 0.0 <= b <= nr && 0.0 < early <= 1.0
    ensures 0.5 < (nr / nr) * 0.5 + (c / nr) * 0.3 + (b / nr) * 0.1 + early * 0.1 <= 1.0 - 0.3 / nr
  {
    assert nr / nr == 1.0;
    var inv := 1.0 / nr;
    assert inv > 0.0 && nr * inv == 1.0;
    assert c / nr <= 1.0 - inv by {
      assert c / nr == c * inv;
      assert (nr - 1.0 - c) * inv >= 0.0;
      assert (nr - 1.0 - c) * inv == 1.0 - inv - c * inv;
    }
    assert b / nr <= 1.0 by {
      assert b / nr == b * (1.0 / nr);
    }
    assert 0.0 <= c / nr && 0.0 <= b / nr;
  }

  lemma CombineBounds(m: seq<nat>, n: nat, t: string)
    requires 0 < n == |m| && forall k :: 0 <= k < |m| ==> m[k] < |t|
    ensures 0.5 < Combine(m, n, t) <= 1.0 - 0.3 / n as real
  {
    var nr, c, b := n as real, Contiguity(m) as real, Boundaries(m, t) as real;
    var ratio := m[0] as real / |t| as real;
    RatioBelowOne(m[0], |t|);
    var early := 1.0 - ratio;
    assert MaxReal(0.0, early) == early;
    WeightedSumBounds(nr, c, b, early);
    var total := (nr / nr) * 0.5 + (c / nr) * 0.3 + (b / nr) * 0.1 + early * 0.1;
    assert Combine(m, n, t) == MinReal(total, 1.0);
  }

  /** A fraction of naturals below its denominator lies in [0, 1). */
  lemma RatioBelowOne(a: nat, d: nat)
    requires a < d
    ensures 0.0 <= a as real / d as real < 1.0
  {
    var ratio := a as real / d as real;
    assert ratio * d as real == a as real;
  }

  /** Zero exactly when the lowered pattern is empty or not a subsequence of the lowered text. */
  lemma ScoreZeroIff(pattern: string, text: string)
    ensures Score(pattern, text) == 0.0
        <==> Lower(pattern) == [] || !IsSubsequence(Lower(pattern), Lower(text))
  {
    var p, t := Lower(pattern), Lower(text);
    GreedyFullIff(p, t);
    var m := Greedy(p, t, 0);
    if |m| == |p| && m != [] {
      GreedyPositions(p, t, 0);
      CombineBounds(m, |p|, t);
    }
  }

  /** A non-empty subsequence scores above one half and at most 1 - 0.3/len(pattern), so never 1. */
  lemma ScoreRange(pattern: string, text: string)
    ensures 0.0 <= Score(pattern, text) <= 1.0
    ensures pattern != [] && IsSubsequence(Lower(pattern), Lower(text)) ==>
      0.5 < Score(pattern, text) <= 1.0 - 0.3 / |pattern| as real
  {
    var p, t := Lower(pattern), Lower(text);
    GreedyFullIff(p, t);
    var m := Greedy(p, t, 0);
    if |m| == |p| && m != [] {
      GreedyPositions(p, t, 0);
      CombineBounds(m, |p|, t);
    }
  }

  /** Every character of the lowered pattern is found, in order, in the lowered text. */
  predicate FullMatch(pattern: string, text: string) {
    var p := Lower(pattern);
    p != [] && |Greedy(p, Lower(text), 0)| == |p|
  }

  /** The score passes one half exactly on a full match. */
  lemma ScoreAboveHalfIff(pattern: string, text: string)
    ensures Score(pattern, text) > 0.5 <==> FullMatch(pattern, text)
  {
    var p, t := Lower(pattern), Lower(text);
    var m := Greedy(p, t, 0);
    if |m| == |p| && m != [] {
      GreedyPositions(p, t, 0);
      CombineBounds(m, |p|, t);
    }
  }

  /** On a full match the recorded positions are the greedy leftmost embedding. */
  lemma FullMatchPositions(pattern: string, text: string)
    requires var p, t := Lower(pattern), Lower(text); |Greedy(p, t, 0)| == |p|
    ensures var p, t := Lower(pattern), Lower(text); Embeds(Greedy(p, t, 0), p, t)
  {
    GreedySound(Lower(pattern), Lower(text), 0);
  }

  /** The contiguity counting loop of the scorer. */
  method CountContiguous(matches: seq<nat>) returns (contiguity: nat)
    ensures contiguity == Contiguity(matches)
  {
    contiguity := 0;
    if matches == [] {
      return;
    }
    for i := 1 to |matches|
      invariant contiguity == Contiguity(matches[..i])
    {
      assert matches[..i + 1][..i] == matches[..i];
      if matches[i] == matches[i - 1] + 1 {
        contiguity := contiguity + 1;
      }
    }
    assert matches[..|matches|] == matches;
  }

  /** The word-boundary counting loop of the scorer. */
  method CountBoundaries(matches: seq<nat>, t: string) returns (boundary: nat)
    requires forall k :: 0 <= k < |matches| ==> matches[k] < |t|
    ensures boundary == Boundaries(matches, t)
  {
    boundary := 0;
    for i := 0 to |matches|
      invariant boundary == Boundaries(matches[..i], t)
    {
      assert matches[..i + 1][..i] == matches[..i];
      var pos := matches[i];
      if pos == 0 || IsSeparator(t[pos - 1]) {
        boundary := boundary + 1;
      }
    }
    assert matches[..|matches|] == matches;
  }

  /** The scanning loop of the scorer: advance through `t`, recording each character of `p` found in order. */
  method ScanMatches(p: string, t: string) returns (matches: seq<nat>, pi: nat)
    ensures matches == Greedy(p, t, 0) && pi == |matches|
  {
    var ti := 0;
    pi := 0;
    matches := [];
    assert p[0..] == p;
    while pi < |p| && ti < |t|
      invariant 0 <= pi <= |p| && 0 <= ti <= |t| && |matches| == pi
      invariant matches + Greedy(p[pi..], t, ti) == Greedy(p, t, 0)
      decreases |t| - ti
    {
      ghost var rest := p[pi..];
      assert rest != [] && rest[0] == p[pi] && rest[1..] == p[pi + 1..];
      if p[pi] == t[ti] {
        assert Greedy(rest, t, ti) == [ti] + Greedy(p[pi + 1..], t, ti + 1);
        assert matches + Greedy(rest, t, ti) == (matches + [ti]) + Greedy(p[pi + 1..], t, ti + 1);
        matches := matches + [ti];
        pi := pi + 1;
      } else {
        assert Greedy(rest, t, ti) == Greedy(rest, t, ti + 1);
      }
      ti := ti + 1;
    }
  }

  /** `fuzzy_match_score`: the scan loop, then the two bonus counting loops. */
  method FuzzyMatchScore(pattern: string, text: string) returns (score: real)
    ensures score == Score(pattern, text)
  {
    var p := Lower(pattern);
    var t := Lower(text);
    var matches, pi := ScanMatches(p, t);
    if pi < |p| {
      return 0.0;
    }
    if matches == [] {
      return 0.0;
    }
    GreedyPositions(p, t, 0);
    var contiguity := CountContiguous(matches);
    var boundary := CountBoundaries(matches, t);
    var n := |p| as real;
    var early := MaxReal(0.0, 1.0 - matches[0] as real / |t| as real);
    var total := (|matches| as real / n) * 0.5
      + (contiguity as real / n) * 0.3
      + (boundary as real / n) * 0.1
      + early * 0.1;
    score := MinReal(total, 1.0);
  }

  // ---------------------------------------------------------------------------
  // Sliding-window span finding

  /** `max(len(pattern), 3)`: the width of the windows the span finder slides. */
  function WindowSize(pl: string): (ws: nat)
    ensures ws >= 3 && ws >= |pl|
  {
    if |pl| >= 3 then |pl| else 3
  }

  /** Number of window offsets tried: `range(len(text) - window_size + 1)`. */
  function Offsets(tl: string, ws: nat): (n: nat)
    ensures n > 0 ==> n + ws - 1 == |tl|
    ensures n == 0 <==> |tl| < ws
  {
    if |tl| >= ws then |tl| - ws + 1 else 0
  }

  /**
   * What the offset `i` contributes: when the window `tl[i:i + ws + 10]`
   * scores above 0.5 (a full match, by `ScoreAboveHalfIff`) and the greedy
   * re-walk of the window matches the whole pattern, its first and
   * one-past-last positions, as positions of the whole text.
   */
  function SpanAt(pl: string, tl: string, i: nat, ws: nat): (r: Option<(int, int)>)
    requires i <= |tl|
    ensures r.Some? ==> ValidSpan(r.value, pl, tl)
  {
    var w := PySlice(tl, i, i + ws + 10);
    if FullMatch(pl, w) then
      var g := Greedy(pl, w, 0);
      if |g| == |pl| then
        WindowAtValid(pl, tl, i, ws);
        Some((i + g[0], i + g[|g| - 1] + 1))
      else None
    else None
  }

  /** The spans contributed by the offsets below `i`, in offset order. */
  function SpansBelow(pl: string, tl: string, ws: nat, i: nat): seq<(int, int)>
    requires i <= Offsets(tl, ws)
  {
    if i == 0 then []
    else
      var sp := SpanAt(pl, tl, i - 1, ws);
      SpansBelow(pl, tl, ws, i - 1) + (if sp.Some? then [sp.value] else [])
  }

  /** `find_match_positions(pattern, text)`. */
  function MatchSpans(pattern: string, text: string): seq<(int, int)> {
    var pl, tl := Lower(pattern), Lower(text);
    var ws := WindowSize(pl);
    SpansBelow(pl, tl, ws, Offsets(tl, ws))
  }

  /**
   * A reported span `(s, e)`: inside the text, non-empty, holding the lowered
   * pattern as a subsequence, and starting and ending on a matched character.
   */
  ghost predicate ValidSpan(sp: (int, int), pl: string, tl: string) {
    && 0 <= sp.0 < sp.1 <= |tl|
    && pl != []
    && IsSubsequence(pl, tl[sp.0..sp.1])
    && tl[sp.0] == pl[0] && tl[sp.1 - 1] == pl[|pl| - 1]
  }

  /** An embedding into the window `tl[i..hi]`, read as positions of `tl`, gives a valid span. */
  lemma WindowSpanValid(pl: string, tl: string, i: nat, hi: nat, g: seq<int>)
    requires i <= hi <= |tl| && pl != [] && Embeds(g, pl, tl[i..hi])
    ensures ValidSpan((i + g[0], i + g[|g| - 1] + 1), pl, tl)
  {
    var s, e := i + g[0], i + g[|g| - 1] + 1;
    assert g[0] <= g[|g| - 1];
    var e' := seq(|g|, k requires 0 <= k < |g| => g[k] - g[0]);
    forall k | 0 <= k < |g| ensures 0 <= e'[k] < e - s && tl[s..e][e'[k]] == pl[k] {
      assert g[0] <= g[k] <= g[|g| - 1];
      assert tl[s..e][e'[k]] == tl[i + g[k]] == tl[i..hi][g[k]];
    }
    assert Embeds(e', pl, tl[s..e]);
    assert tl[s] == tl[i..hi][g[0]] && tl[e - 1] == tl[i..hi][g[|g| - 1]];
  }

  /** The full greedy match in the window `w == tl[i..hi]` gives a valid span. */
  lemma GreedySpanValid(pl: string, tl: string, i: nat, hi: nat, w: string, g: seq<nat>)
    requires i <= hi <= |tl| && w == tl[i..hi]
    requires g == Greedy(pl, w, 0) && pl != [] && |g| == |pl|
    ensures ValidSpan((i + g[0], i + g[|g| - 1] + 1), pl, tl)
  {
    GreedySound(pl, w, 0);
    WindowSpanValid(pl, tl, i, hi, g);
  }

  /** The same for the window `tl[i:i + ws + 10]` that the offset `i` scores. */
  lemma WindowAtValid(pl: string, tl: string, i: nat, ws: nat)
    requires i <= |tl|
    requires var g := Greedy(pl, PySlice(tl, i, i + ws + 10), 0); pl != [] && |g| == |pl|
    ensures var g := Greedy(pl, PySlice(tl, i, i + ws + 10), 0);
      ValidSpan((i + g[0], i + g[|g| - 1] + 1), pl, tl)
  {
    var w := PySlice(tl, i, i + ws + 10);
    var hi := SliceBound(i + ws + 10, |tl|);
    assert SliceBound(i, |tl|) == i <= hi;
    GreedySpanValid(pl, tl, i, hi, w, Greedy(pl, w, 0));
  }

  /** Appending the span of one more offset keeps every span valid. */
  lemma ValidAppend(before: seq<(int, int)>, sp: Option<(int, int)>, all: seq<(int, int)>, pl: string, tl: string)
    requires all == before + (if sp.Some? then [sp.value] else [])
    requires forall x :: x in before ==> ValidSpan(x, pl, tl)
    requires sp.Some? ==> ValidSpan(sp.value, pl, tl)
    ensures forall x :: x in all ==> ValidSpan(x, pl, tl)
  {
  }

  lemma {:induction false} SpansBelowValid(pl: string, tl: string, ws: nat, i: nat)
    requires i <= Offsets(tl, ws)
    ensures forall sp :: sp in SpansBelow(pl, tl, ws, i) ==> ValidSpan(sp, pl, tl)
  {
    if i > 0 {
      SpansBelowValid(pl, tl, ws, i - 1);
      ValidAppend(SpansBelow(pl, tl, ws, i - 1), SpanAt(pl, tl, i - 1, ws), SpansBelow(pl, tl, ws, i), pl, tl);
    }
  }

  /**
   * Every span lies inside the text, is non-empty, and contains the lowered
   * pattern as a subsequence; there are none when the text is shorter than
   * the window.
   */
  lemma MatchSpansValid(pattern: string, text: string)
    ensures forall sp :: sp in MatchSpans(pattern, text) ==>
      ValidSpan(sp, Lower(pattern), Lower(text))
    ensures |text| < WindowSize(Lower(pattern)) ==> MatchSpans(pattern, text) == []
  {
    var pl, tl := Lower(pattern), Lower(text);
    SpansBelowValid(pl, tl, WindowSize(pl), Offsets(tl, WindowSize(pl)));
  }

  /** Any span implies that the lowered pattern occurs as a subsequence of the whole lowered text. */
  lemma SpanImpliesSubsequence(pattern: string, text: string)
    requires MatchSpans(pattern, text) != []
    ensures pattern != [] && IsSubsequence(Lower(pattern), Lower(text))
    ensures Score(pattern, text) > 0.5
  {
    var sp := MatchSpans(pattern, text)[0];
    MatchSpansValid(pattern, text);
    assert ValidSpan(sp, Lower(pattern), Lower(text));
    SubsequenceOfSlice(Lower(pattern), Lower(text), sp.0, sp.1);
    ScoreRange(pattern, text);
  }

  /** The re-walk of a window: the greedy positions, shifted by the window's offset. */
  method WalkWindow(pl: string, w: string, offset: nat) returns (positions: seq<int>, pIdx: nat)
    ensures pIdx == |positions| == |Greedy(pl, w, 0)|
    ensures forall k :: 0 <= k < |positions| ==> positions[k] == offset + Greedy(pl, w, 0)[k]
  {
    positions := [];
    pIdx := 0;
    ghost var found: seq<nat> := [];
    assert pl[0..] == pl;
    for wIdx := 0 to |w|
      invariant pIdx <= |pl| && |positions| == pIdx == |found|
      invariant found + Greedy(pl[pIdx..], w, wIdx) == Greedy(pl, w, 0)
      invariant forall k :: 0 <= k < |positions| ==> positions[k] == offset + found[k]
    {
      if pIdx < |pl| && w[wIdx] == pl[pIdx] {
        ghost var rest := pl[pIdx..];
        assert rest[0] == pl[pIdx] && rest[1..] == pl[pIdx + 1..];
        assert Greedy(rest, w, wIdx) == [wIdx] + Greedy(pl[pIdx + 1..], w, wIdx + 1);
        assert found + Greedy(rest, w, wIdx) == (found + [wIdx]) + Greedy(pl[pIdx + 1..], w, wIdx + 1);
        positions := positions + [offset + wIdx];
        found := found + [wIdx];
        pIdx := pIdx + 1;
      } else if pIdx < |pl| {
        ghost var rest := pl[pIdx..];
        assert rest[0] == pl[pIdx];
        assert Greedy(rest, w, wIdx) == Greedy(rest, w, wIdx + 1);
      } else {
        assert pl[pIdx..] == [];
      }
    }
  }

  /** One step of the span finder: score the window at offset `i` and, above 0.5, re-walk it. */
  method ProbeWindow(pl: string, tl: string, i: nat, ws: nat) returns (sp: Option<(int, int)>)
    requires i <= |tl|
    ensures sp == SpanAt(pl, tl, i, ws)
  {
    var window := PySlice(tl, i, i + ws + 10);
    var score := FuzzyMatchScore(pl, window);
    ScoreAboveHalfIff(pl, window);
    sp := None;
    if score > 0.5 {
      var positions, pIdx := WalkWindow(pl, window, i);
      if pIdx == |pl| {
        sp := Some((positions[0], positions[|positions| - 1] + 1));
      }
    }
  }

  /** One pass of the span finder's loop: probe offset `i` and append its span, if any. */
  method CollectWindow(pl: string, tl: string, i: nat, ws: nat, spans: seq<(int, int)>)
    returns (next: seq<(int, int)>)
    requires i < Offsets(tl, ws) && spans == SpansBelow(pl, tl, ws, i)
    ensures next == SpansBelow(pl, tl, ws, i + 1)
  {
    var sp := ProbeWindow(pl, tl, i, ws);
    next := spans;
    if sp.Some? {
      next := spans + [sp.value];
    }
  }

  /** `find_match_positions`: slide the window over the lowered text, collecting spans. */
  method FindMatchPositions(pattern: string, text: string) returns (spans: seq<(int, int)>)
    ensures spans == MatchSpans(pattern, text)
  {
    var pl := Lower(pattern);
    var tl := Lower(text);
    spans := [];
    var ws := WindowSize(pl);
    for i := 0 to Offsets(tl, ws)
      invariant spans == SpansBelow(pl, tl, ws, i)
    {
      spans := CollectWindow(pl, tl, i, ws, spans);
    }
  }

  // ---------------------------------------------------------------------------
  // Sentence-aligned snippets

  /** The characters of the sentence-end pattern `[.!?]+`. */
  predicate IsSentenceEnd(c: char) {
    c == '.' || c == '!' || c == '?'
  }

  /** Length of the prefix of `s` without sentence-end characters. */
  function PlainRun(s: string): (n: nat)
    ensures n <= |s|
    ensures n < |s| ==> IsSentenceEnd(s[n])
  {
    if s == [] || IsSentenceEnd(s[0]) then 0 else 1 + PlainRun(s[1..])
  }

  /** Length of the prefix of `s` made of sentence-end characters. */
  function EndRun(s: string): (n: nat)
    ensures n <= |s|
    ensures s != [] && IsSentenceEnd(s[0]) ==> n >= 1
  {
    if s != [] && IsSentenceEnd(s[0]) then 1 + EndRun(s[1..]) else 0
  }

  /** The plain run holds no sentence-end character. */
  lemma {:induction false} PlainRunPlain(s: string)
    ensures forall j :: 0 <= j < PlainRun(s) ==> !IsSentenceEnd(s[j])
    decreases |s|
  {
    if s != [] && !IsSentenceEnd(s[0]) {
      PlainRunPlain(s[1..]);
      forall j | 1 <= j < PlainRun(s)
        ensures !IsSentenceEnd(s[j])
      {
        assert s[j] == s[1..][j - 1];
      }
    }
  }

  /** The end run is maximal: all sentence ends, and none right after it. */
  lemma {:induction false} EndRunMaximal(s: string)
    ensures forall j :: 0 <= j < EndRun(s) ==> IsSentenceEnd(s[j])
    ensures EndRun(s) < |s| ==> !IsSentenceEnd(s[EndRun(s)])
    decreases |s|
  {
    if s != [] && IsSentenceEnd(s[0]) {
      EndRunMaximal(s[1..]);
      forall j | 1 <= j < EndRun(s)
        ensures IsSentenceEnd(s[j])
      {
        assert s[j] == s[1..][j - 1];
      }
      if EndRun(s) < |s| {
        assert s[EndRun(s)] == s[1..][EndRun(s[1..])];
      }
    }
  }

  /**
   * `re.split(r'([.!?]+)', s)`: the text between maximal runs of sentence-end
   * characters at even indices, the runs themselves (kept by the capturing
   * group) at odd indices.
   */
  function SplitSentences(s: string): (parts: seq<string>)
    ensures |parts| % 2 == 1
    decreases |s|
  {
    var j := PlainRun(s);
    if j == |s| then [s]
    else
      var t := s[j..];
      assert t[0] == s[j];
      var r := EndRun(t);
      [s[..j], t[..r]] + SplitSentences(t[r..])
  }

  /** A piece of text with no sentence-end character. */
  predicate PlainPiece(x: string) {
    forall j :: 0 <= j < |x| ==> !IsSentenceEnd(x[j])
  }

  /** A non-empty run of sentence-end characters. */
  predicate EndPiece(x: string) {
    x != [] && forall j :: 0 <= j < |x| ==> IsSentenceEnd(x[j])
  }

  /** Plain text at even indices, runs of sentence ends at odd ones. */
  predicate Alternates(parts: seq<string>) {
    forall k :: 0 <= k < |parts| ==>
      (k % 2 == 0 ==> PlainPiece(parts[k])) && (k % 2 == 1 ==> EndPiece(parts[k]))
  }

  lemma AlternatesCons(a: string, b: string, rest: seq<string>)
    requires PlainPiece(a) && EndPiece(b) && Alternates(rest)
    ensures Alternates([a, b] + rest)
  {
    var parts := [a, b] + rest;
    forall k | 2 <= k < |parts|
      ensures (k % 2 == 0 ==> PlainPiece(parts[k])) && (k % 2 == 1 ==> EndPiece(parts[k]))
    {
      assert parts[k] == rest[k - 2];
      assert (k - 2) % 2 == k % 2;
    }
  }

  /** The pieces of the split alternate between plain text and non-empty runs of sentence ends. */
  lemma {:induction false} SplitSentencesShape(s: string)
    ensures Alternates(SplitSentences(s))
    decreases |s|
  {
    var j := PlainRun(s);
    PlainRunPlain(s);
    if j < |s| {
      var t := s[j..];
      assert t[0] == s[j];
      var r := EndRun(t);
      EndRunMaximal(t);
      SplitSentencesShape(t[r..]);
      AlternatesCons(s[..j], t[..r], SplitSentences(t[r..]));
    }
  }

  /** The pieces `s[..i]` and `s[i..k]` followed by pieces that concatenate to `s[k..]` concatenate to `s`. */
  lemma ConcatTwo(s: string, i: nat, k: nat, rest: seq<string>)
    requires i <= k <= |s| && Concat(rest) == s[k..]
    ensures Concat([s[..i], s[i..k]] + rest) == s
  {
    var parts := [s[..i], s[i..k]] + rest;
    assert parts[1..] == [s[i..k]] + rest;
    assert ([s[i..k]] + rest)[1..] == rest;
    assert s == s[..i] + s[i..k] + s[k..];
  }

  /** Splitting loses nothing: the pieces concatenate back to the text. */
  lemma {:induction false} SplitSentencesConcat(s: string)
    ensures Concat(SplitSentences(s)) == s
    decreases |s|
  {
    var j := PlainRun(s);
    if j == |s| {
      ConcatOne(s);
    } else {
      var t := s[j..];
      assert t[0] == s[j];
      var r := EndRun(t);
      var rest := SplitSentences(t[r..]);
      assert SplitSentences(s) == [s[..j], t[..r]] + rest;
      SplitSentencesConcat(t[r..]);
      assert t[..r] == s[j..j + r] && t[r..] == s[j + r..];
      ConcatTwo(s, j, j + r, rest);
    }
  }

  /** Glue each text piece to the sentence-end run after it; a final piece stands alone. */
  function PairUp(parts: seq<string>): (full: seq<string>)
    ensures |full| == (|parts| + 1) / 2
  {
    if |parts| == 0 then []
    else if |parts| == 1 then [parts[0]]
    else [parts[0] + parts[1]] + PairUp(parts[2..])
  }

  lemma {:induction false} PairUpConcat(parts: seq<string>)
    ensures Concat(PairUp(parts)) == Concat(parts)
  {
    if |parts| >= 2 {
      PairUpConcat(parts[2..]);
      assert parts[1..][1..] == parts[2..];
    }
  }

  /** `full_sentences`: the sentences with their closing punctuation. */
  function Sentences(content: string): seq<string> {
    PairUp(SplitSentences(content))
  }

  /** There is always at least one sentence, and the sentences concatenate back to the content. */
  lemma SentencesConcat(content: string)
    ensures |Sentences(content)| >= 1
    ensures Concat(Sentences(content)) == content
  {
    PairUpConcat(SplitSentences(content));
    SplitSentencesConcat(content);
  }

  /**
   * The sentence search from index `i`, where `cc` characters precede it:
   * the first sentence whose closed character range contains `matchStart`,
   * or 0 when none does.
   */
  function TargetFrom(full: seq<string>, matchStart: int, i: nat, cc: int): (t: nat)
    requires i <= |full|
    ensures t == 0 || i <= t < |full|
    decreases |full| - i
  {
    if i == |full| then 0
    else
      var sentenceEnd := cc + |full[i]|;
      if cc <= matchStart <= sentenceEnd then i
      else TargetFrom(full, matchStart, i + 1, sentenceEnd)
  }

  function Target(full: seq<string>, matchStart: int): (t: nat)
    ensures t == 0 || t < |full|
  {
    TargetFrom(full, matchStart, 0, 0)
  }

  /** The sentences `full[lo:hi]` around the sentence `t`, joined and stripped. */
  function AroundSentence(full: seq<string>, t: nat, contextSentences: int): (r: string)
    ensures IsSubstring(r, Concat(full))
  {
    var lo := if t - contextSentences > 0 then t - contextSentences else 0;
    var hi := if |full| < t + contextSentences + 1 then |full| else t + contextSentences + 1;
    StripSliceOccurs(full, lo, hi);
    Strip(Concat(PySlice(full, lo, hi)))
  }

  /** The sentences around the target sentence of `matchStart`, joined and stripped. */
  function Around(full: seq<string>, matchStart: int, contextSentences: int): (r: string)
    ensures IsSubstring(r, Concat(full))
  {
    AroundSentence(full, Target(full, matchStart), contextSentences)
  }

  /** The text of the sentences around the one holding the match start, stripped. */
  function SnippetBody(content: string, matchStart: int, contextSentences: int): string {
    Around(Sentences(content), matchStart, contextSentences)
  }

  /** `extract_snippet`: the stripped sentences around the match, cut to 300 characters plus "...". */
  function Snippet(content: string, matchStart: int, matchEnd: int, contextSentences: int): string {
    var body := SnippetBody(content, matchStart, contextSentences);
    if |body| > 300 then body[..300] + "..." else body
  }

  /** The snippet is the stripped text itself when it is at most 300 characters, else its first 300 and "...". */
  lemma SnippetShape(content: string, matchStart: int, matchEnd: int, contextSentences: int)
    ensures var r, body := Snippet(content, matchStart, matchEnd, contextSentences),
                           SnippetBody(content, matchStart, contextSentences);
      (|r| <= 300 && r == body) || (|r| == 303 && r == body[..300] + "...")
  {
  }

  /** Prefix lengths of the sentence list. */
  lemma PrefixLength(full: seq<string>, i: nat)
    requires i < |full|
    ensures |Concat(full[..i + 1])| == |Concat(full[..i])| + |full[i]|
  {
    assert full[..i + 1] == full[..i] + [full[i]];
    ConcatAppend(full[..i], [full[i]]);
    ConcatOne(full[i]);
  }

  lemma {:induction false} TargetFromCovers(full: seq<string>, matchStart: int, i: nat)
    requires i < |full| && |Concat(full[..i])| <= matchStart <= |Concat(full)|
    ensures var t := TargetFrom(full, matchStart, i, |Concat(full[..i])|);
      i <= t < |full| && |Concat(full[..t])| <= matchStart <= |Concat(full[..t + 1])|
    decreases |full| - i
  {
    assert full[..|full|] == full;
    PrefixLength(full, i);
    var cc := |Concat(full[..i])|;
    if !(cc <= matchStart <= cc + |full[i]|) && i + 1 < |full| {
      TargetFromCovers(full, matchStart, i + 1);
    }
  }

  /**
   * For a match start inside the content, the target sentence is one whose
   * character range contains it.
   */
  lemma TargetCovers(content: string, matchStart: int)
    requires 0 <= matchStart <= |content|
    ensures var full := Sentences(content); var t := Target(full, matchStart);
      t < |full| && |Concat(full[..t])| <= matchStart <= |Concat(full[..t + 1])|
  {
    var full := Sentences(content);
    SentencesConcat(content);
    assert full[..0] == [];
    TargetFromCovers(full, matchStart, 0);
  }

  /** The concatenation of `full[a..b]` occurs in the concatenation of `full` after the first `a` pieces. */
  lemma ConcatSliceOccurs(full: seq<string>, a: nat, b: nat)
    requires a <= b <= |full|
    ensures OccursAt(Concat(full[a..b]), Concat(full), |Concat(full[..a])|)
  {
    assert full == full[..a] + full[a..b] + full[b..];
    ConcatAppend(full[..a] + full[a..b], full[b..]);
    ConcatAppend(full[..a], full[a..b]);
  }

  /** A slice of a piece that occurs in a text occurs in it too. */
  lemma SliceOccurs(x: string, content: string, at: int, k: nat, l: nat)
    requires OccursAt(x, content, at) && k <= l <= |x|
    ensures OccursAt(x[k..l], content, at + k)
  {
    var whole := content[at..at + |x|];
    assert forall i :: 0 <= i < l - k ==> whole[k..l][i] == content[at + k..at + l][i];
    assert whole[k..l] == content[at + k..at + l];
  }

  /** Stripping a piece that occurs in a text leaves a piece that occurs in it. */
  lemma StripOccurs(x: string, content: string, at: int)
    requires OccursAt(x, content, at)
    ensures OccursAt(Strip(x), content, at + LeadingSpaces(x))
  {
    var k := LeadingSpaces(x);
    var body := Strip(x);
    SliceOccurs(x, content, at, k, k + |body|);
  }

  /** The pieces `full[lo:hi]`, joined, occur in the joined pieces at the returned index. */
  lemma PySliceOccurs(full: seq<string>, lo: int, hi: int) returns (at: int)
    ensures OccursAt(Concat(PySlice(full, lo, hi)), Concat(full), at)
  {
    var a, b := SliceBound(lo, |full|), SliceBound(hi, |full|);
    if a < b {
      ConcatSliceOccurs(full, a, b);
      at := |Concat(full[..a])|;
    } else {
      assert PySlice(full, lo, hi) == [];
      assert Concat(full)[0..0] == [];
      at := 0;
    }
  }

  /** The pieces `full[lo:hi]`, joined and stripped, are a piece of the joined pieces. */
  lemma StripSliceOccurs(full: seq<string>, lo: int, hi: int)
    ensures IsSubstring(Strip(Concat(PySlice(full, lo, hi))), Concat(full))
  {
    var joined := Concat(PySlice(full, lo, hi));
    var at := PySliceOccurs(full, lo, hi);
    StripOccurs(joined, Concat(full), at);
  }

  /** The snippet body is a piece of the content: it occurs in it at some index. */
  lemma SnippetBodyInContent(content: string, matchStart: int, contextSentences: int)
    ensures IsSubstring(SnippetBody(content, matchStart, contextSentences), content)
  {
    SentencesConcat(content);
  }

  /** The loop of `extract_snippet` that glues each text piece to the punctuation after it. */
  method PairSentences(sentences: seq<string>) returns (full: seq<string>)
    ensures full == PairUp(sentences)
  {
    full := [];
    var i := 0;
    while i < |sentences|
      invariant 0 <= i && (i <= |sentences| || i == |sentences| + 1)
      invariant full + PairUp(if i < |sentences| then sentences[i..] else []) == PairUp(sentences)
      decreases |sentences| - i
    {
      var rest := sentences[i..];
      if i + 1 < |sentences| {
        assert rest[2..] == (if i + 2 < |sentences| then sentences[i + 2..] else []);
        full := full + [sentences[i] + sentences[i + 1]];
      } else {
        full := full + [sentences[i]];
      }
      i := i + 2;
    }
    assert sentences[0..] == sentences;
  }

  /** The loop of `extract_snippet` that walks the sentences with a running character count. */
  method FindTargetSentence(full: seq<string>, matchStart: int) returns (target: nat)
    ensures target == Target(full, matchStart)
  {
    var charCount := 0;
    target := 0;
    var j := 0;
    while j < |full|
      invariant 0 <= j <= |full|
      invariant TargetFrom(full, matchStart, j, charCount) == Target(full, matchStart)
      decreases |full| - j
    {
      var sentenceEnd := charCount + |full[j]|;
      if charCount <= matchStart <= sentenceEnd {
        target := j;
        return;
      }
      charCount := sentenceEnd;
      j := j + 1;
    }
  }

  /** The part of `extract_snippet` that picks the sentences around the target and joins and strips them. */
  method JoinAround(full: seq<string>, matchStart: int, contextSentences: int) returns (body: string)
    ensures body == Around(full, matchStart, contextSentences)
  {
    var target := FindTargetSentence(full, matchStart);
    body := JoinSentences(full, target, contextSentences);
  }

  /** Join and strip the sentences `full[startIdx:endIdx]` around the sentence `target`. */
  method JoinSentences(full: seq<string>, target: nat, contextSentences: int) returns (body: string)
    ensures body == AroundSentence(full, target, contextSentences)
  {
    var startIdx := if target - contextSentences > 0 then target - contextSentences else 0;
    var endIdx := if |full| < target + contextSentences + 1 then |full| else target + contextSentences + 1;
    body := Strip(Concat(PySlice(full, startIdx, endIdx)));
  }

  /** `extract_snippet`: the sentences around the one holding the match start, stripped and truncated. */
  method ExtractSnippet(content: string, matchStart: int, matchEnd: int, contextSentences: int)
    returns (snippet: string)
    ensures snippet == Snippet(content, matchStart, matchEnd, contextSentences)
  {
    var sentences := SplitSentences(content);
    var full := PairSentences(sentences);
    snippet := JoinAround(full, matchStart, contextSentences);
    if |snippet| > 300 {
      snippet := snippet[..300] + "...";
    }
  }

  // ---------------------------------------------------------------------------
  // Ranked message search

  /** One entry of the search result list. */
  datatype SearchHit = SearchHit(
    messageId: string,
    snippet: string,
    timestamp: string,
    role: string,
    score: real,
    matchPositions: (int, int))

  /** The hit a message yields: built from its first span, or none when it has no span. */
  function HitFor(m: Message, query: string): Option<SearchHit> {
    var spans := MatchSpans(query, m.content);
    if spans == [] then None
    else
      var best := spans[0];
      Some(SearchHit(m.id, Snippet(m.content, best.0, best.1, 1), m.timestamp, m.role,
                     Score(query, m.content), best))
  }

  /** The hits of the messages, in message order. */
  function Hits(messages: seq<Message>, query: string): (hs: seq<SearchHit>)
    ensures |hs| <= |messages|
  {
    if messages == [] then []
    else
      var h := HitFor(messages[|messages| - 1], query);
      Hits(messages[..|messages| - 1], query) + (if h.Some? then [h.value] else [])
  }

  /** The ranking order of `sort(key=score, reverse=True)`: a higher score comes first. */
  predicate ScoreAbove(a: SearchHit, b: SearchHit) {
    a.score > b.score
  }

  lemma ScoreAboveOrder()
    ensures StrictWeakOrder(ScoreAbove)
  {
  }

  /** `search_messages(messages, query, limit)`. */
  function Search(messages: seq<Message>, query: string, limit: int): seq<SearchHit> {
    Take(StableSort(Hits(messages, query), ScoreAbove), limit)
  }

  /** A hit reports its message's first span and a score above one half. */
  lemma HitForSound(m: Message, query: string)
    requires HitFor(m, query).Some?
    ensures var h, spans := HitFor(m, query).value, MatchSpans(query, m.content);
      && h.messageId == m.id && spans != [] && h.matchPositions == spans[0]
      && 0.5 < h.score == Score(query, m.content) <= 1.0
  {
    SpanImpliesSubsequence(query, m.content);
    ScoreRange(query, m.content);
  }

  /** Every hit comes from one of the messages. */
  lemma {:induction false} HitsFromMessages(messages: seq<Message>, query: string)
    ensures forall h :: h in Hits(messages, query) ==>
      exists j :: 0 <= j < |messages| && HitFor(messages[j], query) == Some(h)
  {
    if messages != [] {
      var init := messages[..|messages| - 1];
      HitsFromMessages(init, query);
      forall h | h in Hits(messages, query)
        ensures exists j :: 0 <= j < |messages| && HitFor(messages[j], query) == Some(h)
      {
        if h in Hits(init, query) {
          var j :| 0 <= j < |init| && HitFor(init[j], query) == Some(h);
          assert messages[j] == init[j];
        } else {
          assert HitFor(messages[|messages| - 1], query) == Some(h);
        }
      }
    }
  }

  /**
   * The result has at most `limit` entries (for `limit >= 0`), is ordered by
   * non-increasing score, and every entry is a hit of some message, reporting
   * that message's first span with a score above one half.
   */
  lemma SearchSound(messages: seq<Message>, query: string, limit: int)
    ensures var r := Search(messages, query, limit);
      && (limit >= 0 ==> |r| <= limit)
      && |r| <= |messages|
      && (forall i, j :: 0 <= i < j < |r| ==> r[i].score >= r[j].score)
      && (forall h :: h in r ==> exists k :: 0 <= k < |messages| && HitFor(messages[k], query) == Some(h))
  {
    var hs := Hits(messages, query);
    var ranked := StableSort(hs, ScoreAbove);
    var r := Search(messages, query, limit);
    ScoreAboveOrder();
    StableSortSorted(hs, ScoreAbove);
    assert r == ranked[..|r|];
    forall i, j | 0 <= i < j < |r| ensures r[i].score >= r[j].score {
      assert !ScoreAbove(ranked[j], ranked[i]);
    }
    HitsFromMessages(messages, query);
    forall h | h in r ensures h in hs {
      assert h in multiset(ranked);
    }
  }

  /** Ties keep message order: among hits of equal score the ranking preserves their order. */
  lemma SearchStable(messages: seq<Message>, query: string, k: SearchHit)
    ensures var hs := Hits(messages, query);
      SameClass(StableSort(hs, ScoreAbove), ScoreAbove, k) == SameClass(hs, ScoreAbove, k)
  {
    ScoreAboveOrder();
    StableSortSameClass(Hits(messages, query), ScoreAbove, k);
  }

  /** `search_messages`: collect the hits message by message, sort by score, keep the first `limit`. */
  method SearchMessages(messages: seq<Message>, query: string, limit: int) returns (results: seq<SearchHit>)
    ensures results == Search(messages, query, limit)
  {
    results := [];
    for i := 0 to |messages|
      invariant results == Hits(messages[..i], query)
    {
      assert messages[..i + 1][..i] == messages[..i];
      var content := messages[i].content;
      var spans := FindMatchPositions(query, content);
      if spans != [] {
        var best := spans[0];
        var snippet := ExtractSnippet(content, best.0, best.1, 1);
        var score := FuzzyMatchScore(query, content);
        results := results + [SearchHit(messages[i].id, snippet, messages[i].timestamp, messages[i].role, score, best)];
      }
    }
    assert messages[..|messages|] == messages;
    results := StableSort(results, ScoreAbove);
    results := Take(results, limit);
  }

  // ---------------------------------------------------------------------------
  // Context expansion around a message

  function MaxInt(a: int, b: int): int { if a >= b then a else b }
  function MinInt(a: int, b: int): int { if a <= b then a else b }

  /** The directions that take messages before the target. */
  predicate WantsBefore(direction: string) {
    direction == "before" || direction == "both"
  }

  /** The directions that take messages after the target. */
  predicate WantsAfter(direction: string) {
    direction == "after" || direction == "both"
  }

  /** The messages taken before the target index `t`: up to `2 * pairs` of them. */
  function BeforeSlice(messages: seq<Message>, t: nat, direction: string, pairs: int): seq<Message> {
    if WantsBefore(direction) then PySlice(messages, MaxInt(0, t - pairs * 2), t) else []
  }

  /** The messages taken after the target index `t`: up to `2 * pairs` of them. */
  function AfterSlice(messages: seq<Message>, t: nat, direction: string, pairs: int): seq<Message> {
    if WantsAfter(direction) then PySlice(messages, t + 1, MinInt(|messages|, t + 1 + pairs * 2)) else []
  }

  /** The slices `expand_context` joins around the target index `t`. */
  function ExpandAt(messages: seq<Message>, t: nat, direction: string, pairs: int): (r: seq<Message>)
    requires t < |messages|
    ensures messages[t] in r
  {
    BeforeSlice(messages, t, direction, pairs) + [messages[t]] + AfterSlice(messages, t, direction, pairs)
  }

  /** `expand_context(messages, message_id, direction, pairs)`. */
  function Expand(messages: seq<Message>, messageId: string, direction: string, pairs: int): seq<Message> {
    var t := IndexOfId(messages, messageId);
    if t == -1 then [] else ExpandAt(messages, t, direction, pairs)
  }

  /** An unknown id expands to nothing; a known one always yields its first holder. */
  lemma ExpandTarget(messages: seq<Message>, messageId: string, direction: string, pairs: int)
    ensures var r, t := Expand(messages, messageId, direction, pairs), IndexOfId(messages, messageId);
      && (r == [] <==> forall j :: 0 <= j < |messages| ==> messages[j].id != messageId)
      && (t >= 0 ==> messages[t] in r)
  {
    IndexOfIdFirst(messages, messageId);
  }

  /** A slice is the part before `t`, the element at `t` and the part after it. */
  lemma SplitAround<T>(s: seq<T>, lo: nat, t: nat, hi: nat)
    requires lo <= t < hi <= |s|
    ensures s[lo..hi] == s[lo..t] + [s[t]] + s[t + 1..hi]
  {
    assert s[lo..hi] == s[lo..t] + s[t..hi];
    assert s[t..hi] == [s[t]] + s[t + 1..hi];
  }

  lemma ExpandAtBoth(messages: seq<Message>, t: nat, pairs: int)
    requires t < |messages| && pairs >= 0
    ensures ExpandAt(messages, t, "both", pairs)
         == messages[MaxInt(0, t - pairs * 2)..MinInt(|messages|, t + 1 + pairs * 2)]
  {
    var lo, hi := MaxInt(0, t - pairs * 2), MinInt(|messages|, t + 1 + pairs * 2);
    assert 0 <= lo <= t < hi <= |messages|;
    assert WantsBefore("both") && WantsAfter("both");
    var before, after := PySlice(messages, lo, t), PySlice(messages, t + 1, hi);
    assert BeforeSlice(messages, t, "both", pairs) == before;
    assert AfterSlice(messages, t, "both", pairs) == after;
    SplitAround(messages, lo, t, hi);
  }

  /**
   * With `pairs >= 0`, "both" yields exactly `messages[max(0, t - 2p) : min(n, t + 1 + 2p)]`
   * around the first index `t` holding the id.
   */
  lemma ExpandBoth(messages: seq<Message>, messageId: string, pairs: int, t: nat)
    requires pairs >= 0 && t == IndexOfId(messages, messageId)
    ensures Expand(messages, messageId, "both", pairs)
         == messages[MaxInt(0, t - pairs * 2)..MinInt(|messages|, t + 1 + pairs * 2)]
  {
    ExpandAtBoth(messages, t, pairs);
  }

  lemma ExpandAtLength(messages: seq<Message>, t: nat, direction: string, pairs: int)
    requires t < |messages| && pairs >= 0
    ensures var r := ExpandAt(messages, t, direction, pairs);
      && (direction == "both" ==> |r| <= 1 + 4 * pairs)
      && (direction == "before" || direction == "after" ==> |r| <= 1 + 2 * pairs)
      && (direction != "before" && direction != "after" && direction != "both" ==> r == [messages[t]])
  {
    var lo, hi := MaxInt(0, t - 2 * pairs), MinInt(|messages|, t + 1 + 2 * pairs);
    assert PySlice(messages, lo, t) == messages[lo..t];
    assert PySlice(messages, t + 1, hi) == messages[t + 1..hi];
  }

  /**
   * With `pairs >= 0` at most `2 * pairs` messages are added on each requested
   * side; a direction other than "before", "after" or "both" yields just the target.
   */
  lemma ExpandLength(messages: seq<Message>, messageId: string, direction: string, pairs: int)
    requires pairs >= 0
    ensures var r, t := Expand(messages, messageId, direction, pairs), IndexOfId(messages, messageId);
      && (direction == "both" ==> |r| <= 1 + 4 * pairs)
      && (direction == "before" || direction == "after" ==> |r| <= 1 + 2 * pairs)
      && (t >= 0 && direction != "before" && direction != "after" && direction != "both" ==> r == [messages[t]])
  {
    var t := IndexOfId(messages, messageId);
    if t >= 0 {
      ExpandAtLength(messages, t, direction, pairs);
    }
  }

  /** The scan of `expand_context`: the first index holding the id, or -1. */
  method LocateMessage(messages: seq<Message>, messageId: string) returns (targetIdx: int)
    ensures targetIdx == IndexOfId(messages, messageId)
  {
    IndexOfIdFirst(messages, messageId);
    targetIdx := -1;
    var i := 0;
    while i < |messages|
      invariant 0 <= i <= |messages|
      invariant forall j :: 0 <= j < i ==> messages[j].id != messageId
    {
      if messages[i].id == messageId {
        targetIdx := i;
        return;
      }
      i := i + 1;
    }
  }

  /** `expand_context`: locate the target, then prepend and append the requested slices. */
  method ExpandContext(messages: seq<Message>, messageId: string, direction: string, pairs: int)
    returns (result: seq<Message>)
    ensures result == Expand(messages, messageId, direction, pairs)
  {
    var targetIdx := LocateMessage(messages, messageId);
    if targetIdx == -1 {
      return [];
    }
    result := JoinAroundTarget(messages, targetIdx, direction, pairs);
  }

  /** The joining half of `expand_context`, once the target index `t` is known. */
  method JoinAroundTarget(messages: seq<Message>, targetIdx: nat, direction: string, pairs: int)
    returns (result: seq<Message>)
    requires targetIdx < |messages|
    ensures result == ExpandAt(messages, targetIdx, direction, pairs)
  {
    var before: seq<Message>, after: seq<Message> := [], [];
    result := [messages[targetIdx]];
    if WantsBefore(direction) {
      var beforeStart := MaxInt(0, targetIdx - pairs * 2);
      before := PySlice(messages, beforeStart, targetIdx);
      result := before + result;
    }
    assert result == before + [messages[targetIdx]];
    assert before == BeforeSlice(messages, targetIdx, direction, pairs);
    if WantsAfter(direction) {
      var afterEnd := MinInt(|messages|, targetIdx + 1 + pairs * 2);
      after := PySlice(messages, targetIdx + 1, afterEnd);
      result := result + after;
    }
    assert after == AfterSlice(messages, targetIdx, direction, pairs);
    assert result == before + [messages[targetIdx]] + after;
  }
}
