/**
 * The pure segment helpers of `scripts/transcribe.py`: recognising
 * hallucinated and music-tag segments, filtering them out, and easing the
 * boundary between close segments.
 *
 * Times are `real`: exact arithmetic standing in for Python floats.
 */
module Segments {
  import opened Wrappers
  import opened Text

  /** A word timing as the recogniser reports it; carried along untouched. */
  datatype Word = Word(start: real, end: real, word: string)

  datatype Segment = Segment(start: real, end: real, text: string, words: Option<seq<Word>>)

  /** Phrases the recogniser invents over silence, matched without regard to case; the Chinese ones decoded from their double-encoded form in the script. */
  const HallucinationKeywords: seq<string> := [
    "请不吝点赞",
    "订阅 转发",
    "打赏支持",
    "感谢观看",
    "thanks for watching",
    "subscribe",
    "like and subscribe",
    "don't forget to subscribe",
    "please subscribe",
    "字幕由",
    "字幕制作",
    "subtitles by"]

  /** The keyword loop of `is_hallucination` from the `k`-th keyword on, over the lower-cased text. */
  predicate MatchesFrom(lowered: string, k: nat)
    decreases |HallucinationKeywords| - k
  {
    k < |HallucinationKeywords| && (Contains(lowered, ToLower(HallucinationKeywords[k])) || MatchesFrom(lowered, k + 1))
  }

  /** `is_hallucination`: the lower-cased text contains some lower-cased keyword. */
  predicate IsHallucination(text: string) {
    MatchesFrom(ToLower(text), 0)
  }

  /** The loop from `j` on finds a match exactly when some keyword from `j` on occurs. */
  lemma {:induction false} MatchesFromMeaning(lowered: string, j: nat)
    ensures MatchesFrom(lowered, j)
            <==> exists k :: j <= k < |HallucinationKeywords| && Contains(lowered, ToLower(HallucinationKeywords[k]))
    decreases |HallucinationKeywords| - j
  {
    if j < |HallucinationKeywords| {
      MatchesFromMeaning(lowered, j + 1);
      if Contains(lowered, ToLower(HallucinationKeywords[j])) {
        assert MatchesFrom(lowered, j);
      }
    }
  }

  /** A text is a hallucination exactly when some keyword occurs in it, both lower-cased. */
  lemma HallucinationMeaning(text: string)
    ensures IsHallucination(text)
            <==> exists k :: 0 <= k < |HallucinationKeywords| && Contains(ToLower(text), ToLower(HallucinationKeywords[k]))
  {
    MatchesFromMeaning(ToLower(text), 0);
  }

  /** A keyword anywhere in the text, in any case, marks it as a hallucination. */
  lemma KeywordAnywhere(before: string, k: int, after: string)
    requires 0 <= k < |HallucinationKeywords|
    ensures IsHallucination(before + HallucinationKeywords[k] + after)
  {
    var kw := HallucinationKeywords[k];
    var t := ToLower(before + kw + after);
    assert t[|before|..|before| + |kw|] == ToLower(kw);
    assert OccursAt(t, ToLower(kw), |before|);
    HallucinationMeaning(before + kw + after);
  }

  /** The characters that open a music or sound-effect tag, decoded from their double-encoded form in the script. */
  const MusicTagOpeners: set<char> := {'[', '【', '（', '(', '♪', '♫', '\U{1F3B5}'}

  /** `is_music_tag`: the stripped text starts with an opening tag character. */
  predicate IsMusicTag(text: string) {
    var s := Strip(text);
    s != [] && s[0] in MusicTagOpeners
  }

  /** A segment survives filtering when its stripped text is non-empty, not a hallucination and not a tag. */
  predicate Keep(seg: Segment) {
    var t := Strip(seg.text);
    t != [] && !IsHallucination(t) && !IsMusicTag(t)
  }

  /** The segments that survive, in their original order. */
  function Filtered(segs: seq<Segment>): seq<Segment>
    decreases |segs|
  {
    if segs == [] then []
    else Filtered(segs[..|segs| - 1]) + (if Keep(segs[|segs| - 1]) then [segs[|segs| - 1]] else [])
  }

  /** A segment is in the result exactly when it is in the input and survives. */
  lemma {:induction false} FilteredMembers(segs: seq<Segment>)
    ensures forall s :: s in Filtered(segs) <==> s in segs && Keep(s)
    ensures |Filtered(segs)| <= |segs|
    decreases |segs|
  {
    if segs != [] {
      var init, last := segs[..|segs| - 1], segs[|segs| - 1];
      FilteredMembers(init);
      assert segs == init + [last];
      SnocMembers(Filtered(init), Keep(last), last);
    }
  }

  /** Appending a segment when it is kept adds exactly that member. */
  lemma SnocMembers(fs: seq<Segment>, kept: bool, last: Segment)
    ensures forall s :: s in fs + (if kept then [last] else []) <==> s in fs || (kept && s == last)
  {
  }

  /** Filtering a concatenation filters each part, so the survivors keep their order. */
  lemma {:induction false} FilteredAppend(a: seq<Segment>, b: seq<Segment>)
    ensures Filtered(a + b) == Filtered(a) + Filtered(b)
    decreases |b|
  {
    if b == [] {
      assert a + b == a;
    } else {
      var b' := b[..|b| - 1];
      assert (a + b)[..|a + b| - 1] == a + b';
      assert (a + b)[|a + b| - 1] == b[|b| - 1];
      FilteredAppend(a, b');
    }
  }

  /** A blank segment or a music tag never survives. */
  lemma DroppedSegments(seg: Segment)
    ensures Strip(seg.text) == [] ==> Filtered([seg]) == []
    ensures IsMusicTag(Strip(seg.text)) ==> Filtered([seg]) == []
  {
    assert [seg][..0] == [];
  }

  /** `filter_segments`, loop by loop. */
  method FilterSegments(segs: seq<Segment>) returns (filtered: seq<Segment>)
    ensures filtered == Filtered(segs)
  {
    filtered := [];
    var i := 0;
    while i < |segs|
      invariant 0 <= i <= |segs|
      invariant filtered == Filtered(segs[..i])
    {
      assert segs[..i + 1][..i] == segs[..i];
      var text := Strip(segs[i].text);
      if text != [] && !IsHallucination(text) && !IsMusicTag(text) {
        filtered := filtered + [segs[i]];
      }
      i := i + 1;
    }
    assert segs[..i] == segs;
  }

  /** Default gap, in milliseconds, below which two segments are drawn together. */
  const DefaultThresholdMs := 1000

  /** The gap between a segment's end and the next one's start, in milliseconds. */
  function GapMs(prev: Segment, next: Segment): real {
    (next.start - prev.end) * 1000.0
  }

  predicate Close(prev: Segment, next: Segment, thresholdMs: int) {
    0.0 < GapMs(prev, next) < thresholdMs as real
  }

  /** `prev` with its end moved three quarters of the way to `next`'s start, when the two are close. */
  function Eased(prev: Segment, next: Segment, thresholdMs: int): Segment {
    if Close(prev, next, thresholdMs) then prev.(end := prev.end + (next.start - prev.end) * 0.75) else prev
  }

  /** `optimize_timing`: every segment but the last eased towards its successor. */
  function Optimized(segs: seq<Segment>, thresholdMs: int): (r: seq<Segment>)
    ensures |r| == |segs|
  {
    if |segs| < 2 then segs
    else seq(|segs|, i requires 0 <= i < |segs| => if i + 1 < |segs| then Eased(segs[i], segs[i + 1], thresholdMs) else segs[i])
  }

  /**
   * Only ends move: start, text and words of every segment, and the whole
   * last segment, are kept. An end moves exactly when the gap to the next
   * start is positive and below the threshold, and then lands strictly
   * between the old end and that start.
   */
  lemma OptimizedMeaning(segs: seq<Segment>, thresholdMs: int, i: int)
    requires 0 <= i < |segs|
    ensures var r := Optimized(segs, thresholdMs);
            r[i].start == segs[i].start && r[i].text == segs[i].text && r[i].words == segs[i].words
            && (i == |segs| - 1 ==> r[i] == segs[i])
            && (i + 1 < |segs| ==>
                  (r[i].end != segs[i].end <==> Close(segs[i], segs[i + 1], thresholdMs))
                  && (Close(segs[i], segs[i + 1], thresholdMs) ==> segs[i].end < r[i].end < segs[i + 1].start))
  {
  }

  /** Fewer than two segments come back as they are. */
  lemma OptimizedShort(segs: seq<Segment>, thresholdMs: int)
    requires |segs| < 2
    ensures Optimized(segs, thresholdMs) == segs
  {
  }

  /** Segments that overlap or touch are never moved. */
  lemma OverlapKept(segs: seq<Segment>, thresholdMs: int, i: int)
    requires 0 <= i < |segs| - 1 && segs[i + 1].start <= segs[i].end
    ensures Optimized(segs, thresholdMs)[i] == segs[i]
  {
  }

  /**
   * `optimize_timing` as written: the list grows one segment at a time and
   * its last element is overwritten when the next segment is close.
   */
  method OptimizeTiming(segs: seq<Segment>, thresholdMs: int) returns (optimized: seq<Segment>)
    ensures optimized == Optimized(segs, thresholdMs)
  {
    if |segs| < 2 {
      return segs;
    }
    optimized := [];
    var i := 0;
    while i < |segs|
      invariant 0 <= i <= |segs|
      invariant |optimized| == i
      invariant forall k :: 0 <= k < i - 1 ==> optimized[k] == Optimized(segs, thresholdMs)[k]
      invariant i > 0 ==> optimized[i - 1] == segs[i - 1]
    {
      var seg := segs[i];
      if i == 0 {
        optimized := optimized + [seg];
      } else {
        var prev := optimized[|optimized| - 1];
        var gapMs := (seg.start - prev.end) * 1000.0;
        if 0.0 < gapMs < thresholdMs as real {
          var midPoint := prev.end + (seg.start - prev.end) * 0.75;
          optimized := optimized[|optimized| - 1 := Segment(prev.start, midPoint, prev.text, prev.words)];
          optimized := optimized + [seg];
        } else {
          optimized := optimized + [seg];
        }
      }
      i := i + 1;
    }
  }
}
