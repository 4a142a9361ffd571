/*
 * The overlapping text chunker of the forum-thread vectorizer. A text longer
 * than `max_length` is cut into windows of at most `max_length` characters;
 * each window ends at the best boundary past its middle (a post marker, a
 * blank line, a list item, a sentence end, whitespace, or a hard cut), and the
 * next window starts `overlap` characters before that end. A thread made of
 * more than two posts is split post by post first.
 */
module Chunker {
  import opened Text

  // The boundaries a window may end at, in the source's order of preference.
  const PostMark: string := "* [#"
  const BlankLine: string := "\n\n"
  const DashItem: string := "\n- "
  const RomanItemI: string := "\ni - "
  const RomanItemII: string := "\nii- "
  const FullStop: string := ". "
  const QuestionMark: string := "? "
  const ExclamationMark: string := "! "

  /** The boundary of preference `i`, the post marker first. */
  function Mark(i: nat): string
    requires i < 8
  {
    if i == 0 then PostMark else if i == 1 then BlankLine else if i == 2 then DashItem
    else if i == 3 then RomanItemI else if i == 4 then RomanItemII else if i == 5 then FullStop
    else if i == 6 then QuestionMark else ExclamationMark
  }

  /** The window ends after the blank line and the sentence ends, at the other boundaries. */
  function MarkOffset(i: nat): nat
    requires i < 8
  {
    if i == 1 || i >= 5 then |Mark(i)| else 0
  }

  /** One of the boundaries from preference `i` on ends the window at `e`. */
  predicate MarkedFrom(text: string, e: int, i: nat)
    requires i <= 8
    decreases 8 - i
  {
    i < 8 && (At(text, e - MarkOffset(i), Mark(i)) || MarkedFrom(text, e, i + 1))
  }

  lemma {:induction false} MarkedAt(text: string, e: int, i: nat, j: nat)
    requires i <= j < 8 && At(text, e - MarkOffset(j), Mark(j))
    ensures MarkedFrom(text, e, i)
    decreases j - i
  {
    if i < j {
      MarkedAt(text, e, i + 1, j);
    }
  }

  /** The arguments for which every window moves the start forward. */
  predicate Args(maxLength: nat, overlap: nat)
  {
    maxLength >= 1 && overlap <= maxLength / 2
  }

  function MaxOf3(a: int, b: int, c: int): (m: int)
    ensures m == a || m == b || m == c
    ensures m >= a && m >= b && m >= c
  {
    if a >= b && a >= c then a else if b >= c then b else c
  }

  /**
   * The whitespace back-off: step `end` back while it lies beyond `lo` and
   * `text[end]` is not whitespace.
   */
  function Backoff(text: string, lo: int, end: int): (e: int)
    requires 0 <= lo <= end < |text|
    ensures lo <= e <= end
    ensures e > lo ==> IsSpace(text[e])
    ensures forall k :: e < k <= end ==> !IsSpace(text[k])
    decreases end
  {
    if end > lo && !IsSpace(text[end]) then Backoff(text, lo, end - 1) else end
  }

  /**
   * The whitespace fallback of a window ending at `limit`: the back-off
   * position if it stopped beyond `lo`, the hard cut `limit` otherwise.
   */
  function Fallback(text: string, lo: int, limit: int): (e: int)
    requires 0 <= lo <= limit < |text|
    ensures lo < e <= limit || (lo == limit && e == limit)
    ensures e == limit || IsSpace(text[e])
  {
    var b := Backoff(text, lo, limit);
    if b <= lo then limit else b
  }

  /**
   * Where an early window starting at `start` ends, from preference `stage`
   * on: 0 the last post marker, 1 the last blank line (cut after it), 2 the
   * last list item, 3 the last sentence end (cut after it), each only when it
   * lies past the middle of the window; 4 the whitespace fallback.
   */
  function CutFrom(text: string, maxLength: nat, overlap: nat, start: int, stage: nat): (e: int)
    requires Args(maxLength, overlap) && 0 <= start && start + maxLength < |text| && stage <= 4
    ensures start + maxLength / 2 < e <= start + maxLength
    decreases 4 - stage
  {
    var limit, half := start + maxLength, start + maxLength / 2;
    if stage == 0 then
      var post := RFind(text, PostMark, start, limit);
      if post > half then post else CutFrom(text, maxLength, overlap, start, 1)
    else if stage == 1 then
      var paragraph := RFind(text, BlankLine, start, limit);
      if paragraph > half then paragraph + 2 else CutFrom(text, maxLength, overlap, start, 2)
    else if stage == 2 then
      var list := MaxOf3(RFind(text, DashItem, start, limit), RFind(text, RomanItemI, start, limit), RFind(text, RomanItemII, start, limit));
      if list > half then list else CutFrom(text, maxLength, overlap, start, 3)
    else if stage == 3 then
      var sentence := MaxOf3(RFind(text, FullStop, start, limit), RFind(text, QuestionMark, start, limit), RFind(text, ExclamationMark, start, limit));
      if sentence > half then sentence + 2 else CutFrom(text, maxLength, overlap, start, 4)
    else
      Fallback(text, start + maxLength - overlap, limit)
  }

  /** Where the window starting at `start` ends (exclusive). */
  function CutEnd(text: string, maxLength: nat, overlap: nat, start: int): (e: int)
    requires Args(maxLength, overlap) && 0 <= start < |text|
    ensures start < e <= |text| && e - start <= maxLength
    ensures e < |text| ==> e > start + overlap
    ensures e < |text| ==> e > start + maxLength / 2
  {
    if start + maxLength >= |text| then |text| else CutFrom(text, maxLength, overlap, start, 0)
  }

  /**
   * A cut rule for a text of length `n`: from any start it ends the window
   * beyond the start, within `maxLength` characters and at most at `n`, and
   * an early cut ends more than `overlap` characters past the start.
   */
  predicate Advances(n: int, maxLength: nat, overlap: nat, cut: int -> int)
  {
    forall st :: 0 <= st < n ==> st < cut(st) <= n && cut(st) - st <= maxLength && (cut(st) < n ==> cut(st) > st + overlap)
  }

  /** `CutEnd` as a rule over every start. */
  function Cutter(text: string, maxLength: nat, overlap: nat): int -> int
    requires Args(maxLength, overlap)
  {
    st => if 0 <= st < |text| then CutEnd(text, maxLength, overlap, st) else |text|
  }

  lemma CutterAdvances(text: string, maxLength: nat, overlap: nat)
    requires Args(maxLength, overlap)
    ensures Advances(|text|, maxLength, overlap, Cutter(text, maxLength, overlap))
  {
  }

  /** The windows from `start` on, as (start, end) pairs, each next window starting `overlap` before the last one ended. */
  function SpansWith(n: int, maxLength: nat, overlap: nat, cut: int -> int, start: int): (s: seq<(int, int)>)
    requires Advances(n, maxLength, overlap, cut) && 0 <= start <= n
    ensures forall k :: 0 <= k < |s| ==> start <= s[k].0 < s[k].1 <= n && s[k].1 - s[k].0 <= maxLength
    decreases n - start
  {
    if start == n then []
    else
      var e := cut(start);
      [(start, e)] + (if e < n then SpansWith(n, maxLength, overlap, cut, e - overlap) else [])
  }

  function SpansFrom(text: string, maxLength: nat, overlap: nat, start: int): (s: seq<(int, int)>)
    requires Args(maxLength, overlap) && 0 <= start <= |text|
    ensures forall k :: 0 <= k < |s| ==> start <= s[k].0 < s[k].1 <= |text| && s[k].1 - s[k].0 <= maxLength
  {
    CutterAdvances(text, maxLength, overlap);
    SpansWith(|text|, maxLength, overlap, Cutter(text, maxLength, overlap), start)
  }

  function Slices(text: string, spans: seq<(int, int)>): (r: seq<string>)
    requires forall k :: 0 <= k < |spans| ==> 0 <= spans[k].0 <= spans[k].1 <= |text|
    ensures |r| == |spans|
    ensures forall k :: 0 <= k < |spans| ==> r[k] == text[spans[k].0 .. spans[k].1]
  {
    seq(|spans|, k requires 0 <= k < |spans| => text[spans[k].0 .. spans[k].1])
  }

  /** Unfolding one window: the first span and the spans after it. */
  lemma SpansStep(n: int, maxLength: nat, overlap: nat, cut: int -> int, start: int)
    requires Advances(n, maxLength, overlap, cut) && 0 <= start < n
    ensures var e := cut(start);
      SpansWith(n, maxLength, overlap, cut, start) ==
      [(start, e)] + (if e < n then SpansWith(n, maxLength, overlap, cut, e - overlap) else [])
  {
  }

  /** The spans from `start` begin at `start` and the last one reaches the end. */
  lemma {:induction false} SpansEnds(n: int, maxLength: nat, overlap: nat, cut: int -> int, start: int)
    requires Advances(n, maxLength, overlap, cut) && 0 <= start <= n
    ensures var s := SpansWith(n, maxLength, overlap, cut, start);
      (start < n <==> |s| > 0) && (|s| > 0 ==> s[0].0 == start && s[|s| - 1].1 == n)
    decreases n - start
  {
    if start < n {
      var e := cut(start);
      SpansStep(n, maxLength, overlap, cut, start);
      if e < n {
        SpansEnds(n, maxLength, overlap, cut, e - overlap);
      }
    }
  }

  /** Every span ends where the cut rule puts the end of a window from its start. */
  lemma {:induction false} SpansAreCuts(n: int, maxLength: nat, overlap: nat, cut: int -> int, start: int)
    requires Advances(n, maxLength, overlap, cut) && 0 <= start <= n
    ensures var s := SpansWith(n, maxLength, overlap, cut, start);
      forall k :: 0 <= k < |s| ==> s[k].1 == cut(s[k].0)
    decreases n - start
  {
    if start < n {
      var e := cut(start);
      var s := SpansWith(n, maxLength, overlap, cut, start);
      SpansStep(n, maxLength, overlap, cut, start);
      if e < n {
        var rest := SpansWith(n, maxLength, overlap, cut, e - overlap);
        SpansAreCuts(n, maxLength, overlap, cut, e - overlap);
        forall k | 0 <= k < |s| ensures s[k].1 == cut(s[k].0) {
          if k > 0 {
            assert s[k] == rest[k - 1];
          }
        }
      }
    }
  }

  /** Unfolding one early window, index by index. */
  lemma SpansStepAt(n: int, maxLength: nat, overlap: nat, cut: int -> int, start: int)
    requires Advances(n, maxLength, overlap, cut) && 0 <= start < n && cut(start) < n
    ensures var s := SpansWith(n, maxLength, overlap, cut, start);
      var rest := SpansWith(n, maxLength, overlap, cut, cut(start) - overlap);
      |s| == |rest| + 1 && s[0] == (start, cut(start)) && rest != [] && rest[0].0 == cut(start) - overlap &&
      forall k :: 1 <= k < |s| ==> s[k] == rest[k - 1]
  {
    SpansStep(n, maxLength, overlap, cut, start);
    SpansStep(n, maxLength, overlap, cut, cut(start) - overlap);
  }

  /** A window that reaches the end is the last one. */
  lemma SpansLast(n: int, maxLength: nat, overlap: nat, cut: int -> int, start: int)
    requires Advances(n, maxLength, overlap, cut) && 0 <= start < n && cut(start) == n
    ensures SpansWith(n, maxLength, overlap, cut, start) == [(start, n)]
  {
  }

  /** Span `k + 1` begins `overlap` characters before span `k` ends, which is short of the end. */
  lemma {:induction false} SpanOverlapAt(n: int, maxLength: nat, overlap: nat, cut: int -> int, start: int, k: int)
    requires Advances(n, maxLength, overlap, cut) && 0 <= start <= n
    requires 0 <= k < |SpansWith(n, maxLength, overlap, cut, start)| - 1
    ensures var s := SpansWith(n, maxLength, overlap, cut, start);
      s[k].1 < n && s[k + 1].0 == s[k].1 - overlap
    decreases n - start
  {
    var e := cut(start);
    if e == n {
      SpansLast(n, maxLength, overlap, cut, start);
      assert false;
    }
    var rest := SpansWith(n, maxLength, overlap, cut, e - overlap);
    SpansTail(n, maxLength, overlap, cut, start);
    if k > 0 {
      SpanOverlapAt(n, maxLength, overlap, cut, e - overlap, k - 1);
    }
    OverlapCons(SpansWith(n, maxLength, overlap, cut, start), (start, e), rest, n, overlap, k);
  }

  /** The overlap of spans `k` and `k + 1` after putting one span in front. */
  lemma OverlapCons(s: seq<(int, int)>, h: (int, int), rest: seq<(int, int)>, n: int, overlap: nat, k: int)
    requires s == [h] + rest
    requires 0 <= k < |rest| && rest[0].0 == h.1 - overlap && h.1 < n
    requires k > 0 ==> rest[k - 1].1 < n && rest[k].0 == rest[k - 1].1 - overlap
    ensures s[k].1 < n && s[k + 1].0 == s[k].1 - overlap
  {
  }

  /** Past an early first window, the spans are those from `overlap` before its end. */
  lemma SpansTail(n: int, maxLength: nat, overlap: nat, cut: int -> int, start: int)
    requires Advances(n, maxLength, overlap, cut) && 0 <= start < n && cut(start) < n
    ensures var s := SpansWith(n, maxLength, overlap, cut, start);
      var rest := SpansWith(n, maxLength, overlap, cut, cut(start) - overlap);
      s == [(start, cut(start))] + rest && rest != [] && rest[0].0 == cut(start) - overlap
  {
    SpansStep(n, maxLength, overlap, cut, start);
    SpansStep(n, maxLength, overlap, cut, cut(start) - overlap);
  }

  /** Each span but the first begins `overlap` characters before the previous one ends. */
  lemma SpansOverlap(n: int, maxLength: nat, overlap: nat, cut: int -> int, start: int)
    requires Advances(n, maxLength, overlap, cut) && 0 <= start <= n
    ensures var s := SpansWith(n, maxLength, overlap, cut, start);
      forall k :: 0 <= k < |s| - 1 ==> s[k].1 < n && s[k + 1].0 == s[k].1 - overlap
  {
    var s := SpansWith(n, maxLength, overlap, cut, start);
    forall k | 0 <= k < |s| - 1 ensures s[k].1 < n && s[k + 1].0 == s[k].1 - overlap {
      SpanOverlapAt(n, maxLength, overlap, cut, start, k);
    }
  }

  // ----- stitching the windows back together -----

  /** A chunk without the `overlap` characters it repeats from the chunk before it. */
  function Fresh(chunk: string, overlap: nat): (r: string)
    ensures |chunk| >= overlap ==> chunk == chunk[..overlap] + r
  {
    if |chunk| >= overlap then chunk[overlap..] else ""
  }

  /** The first chunk followed by the fresh part of every later chunk. */
  function Stitch(chunks: seq<string>, overlap: nat): string
  {
    if chunks == [] then ""
    else if |chunks| == 1 then chunks[0]
    else Stitch(chunks[..|chunks| - 1], overlap) + Fresh(chunks[|chunks| - 1], overlap)
  }

  /** Spans inside a text of length `n`, each next one starting `overlap` before the last one ended and ending no earlier. */
  predicate Chained(n: int, spans: seq<(int, int)>, overlap: nat)
  {
    (forall k :: 0 <= k < |spans| ==> 0 <= spans[k].0 <= spans[k].1 <= n) &&
    (forall k :: 0 <= k < |spans| - 1 ==> spans[k + 1].0 == spans[k].1 - overlap && spans[k + 1].1 >= spans[k].1)
  }

  lemma StitchLast(chunks: seq<string>, overlap: nat, m: nat)
    requires 2 <= m <= |chunks|
    ensures Stitch(chunks[..m], overlap) == Stitch(chunks[..m - 1], overlap) + Fresh(chunks[m - 1], overlap)
  {
    assert chunks[..m][..m - 1] == chunks[..m - 1];
  }

  /** Stitching one more chunk that starts `overlap` before the covered text ends extends it to the chunk's end. */
  lemma StitchStep(text: string, chunks: seq<string>, overlap: nat, m: nat, a: int, x: int, y: int)
    requires 2 <= m <= |chunks| && 0 <= a <= x && overlap <= x <= y <= |text|
    requires Stitch(chunks[..m - 1], overlap) == text[a .. x]
    requires chunks[m - 1] == text[x - overlap .. y]
    ensures Stitch(chunks[..m], overlap) == text[a .. y]
  {
    StitchLast(chunks, overlap, m);
    FreshSlice(text, x - overlap, y, overlap);
    SliceJoin(text, a, x, y);
  }

  lemma FreshSlice(text: string, lo: int, hi: int, overlap: nat)
    requires 0 <= lo && lo + overlap <= hi <= |text|
    ensures Fresh(text[lo .. hi], overlap) == text[lo + overlap .. hi]
  {
  }

  lemma SliceJoin(text: string, a: int, x: int, y: int)
    requires 0 <= a <= x <= y <= |text|
    ensures text[a .. x] + text[x .. y] == text[a .. y]
  {
  }

  /** Stitching the slices of the first `m` chained spans gives back the text they cover. */
  lemma {:induction false} StitchPrefix(text: string, spans: seq<(int, int)>, overlap: nat, m: nat)
    requires Chained(|text|, spans, overlap) && 1 <= m <= |spans|
    ensures spans[0].0 <= spans[m - 1].1
    ensures Stitch(Slices(text, spans)[..m], overlap) == text[spans[0].0 .. spans[m - 1].1]
  {
    var chunks := Slices(text, spans);
    if m > 1 {
      StitchPrefix(text, spans, overlap, m - 1);
      var a, x, y := spans[0].0, spans[m - 2].1, spans[m - 1].1;
      assert spans[m - 1].0 == x - overlap && y >= x by {
        var k := m - 2;
        assert spans[k + 1].0 == spans[k].1 - overlap && spans[k + 1].1 >= spans[k].1;
      }
      StitchStep(text, chunks, overlap, m, a, x, y);
    } else {
      assert chunks[..1] == [chunks[0]];
    }
  }

  /** The windows the cut rule produces are chained. */
  lemma SpansChained(n: int, maxLength: nat, overlap: nat, cut: int -> int)
    requires Advances(n, maxLength, overlap, cut) && 0 <= n
    ensures Chained(n, SpansWith(n, maxLength, overlap, cut, 0), overlap)
  {
    var s := SpansWith(n, maxLength, overlap, cut, 0);
    SpansAreCuts(n, maxLength, overlap, cut, 0);
    forall k | 0 <= k < |s| - 1 ensures s[k + 1].0 == s[k].1 - overlap && s[k + 1].1 >= s[k].1 {
      SpanOverlapAt(n, maxLength, overlap, cut, 0, k);
      var st := s[k + 1].0;
      assert 0 <= st < n;
      assert s[k + 1].1 == cut(st);
    }
  }

  /** `_split_text_by_semantic`: the whole text when it fits, otherwise the windows' slices. */
  function SemanticChunks(text: string, maxLength: nat, overlap: nat): seq<string>
    requires Args(maxLength, overlap)
  {
    if |text| <= maxLength then [text]
    else Slices(text, SpansFrom(text, maxLength, overlap, 0))
  }

  /** Stitching the chunks of `_split_text_by_semantic` gives back the text. */
  lemma SemanticRoundTrip(text: string, maxLength: nat, overlap: nat)
    requires Args(maxLength, overlap)
    ensures Stitch(SemanticChunks(text, maxLength, overlap), overlap) == text
  {
    if |text| > maxLength {
      var cut := Cutter(text, maxLength, overlap);
      CutterAdvances(text, maxLength, overlap);
      var s := SpansWith(|text|, maxLength, overlap, cut, 0);
      SpansEnds(|text|, maxLength, overlap, cut, 0);
      SpansChained(|text|, maxLength, overlap, cut);
      StitchPrefix(text, s, overlap, |s|);
      assert Slices(text, s)[..|s|] == Slices(text, s);
    }
  }

  /**
   * Every chunk of `_split_text_by_semantic` holds at most `maxLength`
   * characters and is a piece of the text; there is more than one exactly
   * when the text is longer than `maxLength`.
   */
  lemma SemanticChunksFit(text: string, maxLength: nat, overlap: nat)
    requires Args(maxLength, overlap)
    ensures var r := SemanticChunks(text, maxLength, overlap);
      |r| >= 1 && (|r| == 1 <==> |text| <= maxLength) &&
      forall k :: 0 <= k < |r| ==> |r[k]| <= maxLength
  {
    if |text| > maxLength {
      var cut := Cutter(text, maxLength, overlap);
      CutterAdvances(text, maxLength, overlap);
      SpansStepAt(|text|, maxLength, overlap, cut, 0);
    }
  }

  /**
   * Where an early window ends: past its middle, at a post marker, after a
   * blank line, at a list item, after a sentence end, at whitespace, or at
   * the hard cut.
   */
  lemma CutKinds(text: string, maxLength: nat, overlap: nat, start: int)
    requires Args(maxLength, overlap) && 0 <= start && start + maxLength < |text|
    ensures var e := CutEnd(text, maxLength, overlap, start);
      e > start + maxLength / 2 && (MarkedFrom(text, e, 0) || IsSpace(text[e]) || e == start + maxLength)
  {
    PostKinds(text, maxLength, overlap, start);
  }

  /** The kinds of end an early window may have. */
  predicate KindOfEnd(text: string, maxLength: nat, start: int, e: int)
    requires 0 <= e < |text|
  {
    MarkedFrom(text, e, 0) || IsSpace(text[e]) || e == start + maxLength
  }

  // `CutKinds` from each preference on, the last one first.

  lemma FallbackKinds(text: string, maxLength: nat, overlap: nat, start: int)
    requires Args(maxLength, overlap) && 0 <= start && start + maxLength < |text|
    ensures KindOfEnd(text, maxLength, start, CutFrom(text, maxLength, overlap, start, 4))
  {
  }

  lemma SentenceKinds(text: string, maxLength: nat, overlap: nat, start: int)
    requires Args(maxLength, overlap) && 0 <= start && start + maxLength < |text|
    ensures KindOfEnd(text, maxLength, start, CutFrom(text, maxLength, overlap, start, 3))
  {
    SentenceCut(text, maxLength, overlap, start);
    var e := CutFrom(text, maxLength, overlap, start, 3);
    if e == CutFrom(text, maxLength, overlap, start, 4) {
      FallbackKinds(text, maxLength, overlap, start);
    } else {
      SentenceMarked(text, e);
    }
  }

  lemma SentenceMarked(text: string, e: int)
    requires At(text, e - 2, FullStop) || At(text, e - 2, QuestionMark) || At(text, e - 2, ExclamationMark)
    ensures MarkedFrom(text, e, 0)
  {
    if At(text, e - 2, FullStop) {
      MarkedAt(text, e, 0, 5);
    } else if At(text, e - 2, QuestionMark) {
      MarkedAt(text, e, 0, 6);
    } else {
      MarkedAt(text, e, 0, 7);
    }
  }

  /** The sentence stage ends the window after a sentence end, or leaves it to the fallback. */
  lemma SentenceCut(text: string, maxLength: nat, overlap: nat, start: int)
    requires Args(maxLength, overlap) && 0 <= start && start + maxLength < |text|
    ensures var e := CutFrom(text, maxLength, overlap, start, 3);
      e == CutFrom(text, maxLength, overlap, start, 4) ||
      At(text, e - 2, FullStop) || At(text, e - 2, QuestionMark) || At(text, e - 2, ExclamationMark)
  {
  }

  lemma ListKinds(text: string, maxLength: nat, overlap: nat, start: int)
    requires Args(maxLength, overlap) && 0 <= start && start + maxLength < |text|
    ensures KindOfEnd(text, maxLength, start, CutFrom(text, maxLength, overlap, start, 2))
  {
    ListCut(text, maxLength, overlap, start);
    var e := CutFrom(text, maxLength, overlap, start, 2);
    if e == CutFrom(text, maxLength, overlap, start, 3) {
      SentenceKinds(text, maxLength, overlap, start);
    } else {
      ListMarked(text, e);
    }
  }

  lemma ListMarked(text: string, e: int)
    requires At(text, e, DashItem) || At(text, e, RomanItemI) || At(text, e, RomanItemII)
    ensures MarkedFrom(text, e, 0)
  {
    if At(text, e, DashItem) {
      MarkedAt(text, e, 0, 2);
    } else if At(text, e, RomanItemI) {
      MarkedAt(text, e, 0, 3);
    } else {
      MarkedAt(text, e, 0, 4);
    }
  }

  /** The list stage ends the window at a list item, or leaves it to the sentence stage. */
  lemma ListCut(text: string, maxLength: nat, overlap: nat, start: int)
    requires Args(maxLength, overlap) && 0 <= start && start + maxLength < |text|
    ensures var e := CutFrom(text, maxLength, overlap, start, 2);
      e == CutFrom(text, maxLength, overlap, start, 3) ||
      At(text, e, DashItem) || At(text, e, RomanItemI) || At(text, e, RomanItemII)
  {
  }

  lemma ParagraphKinds(text: string, maxLength: nat, overlap: nat, start: int)
    requires Args(maxLength, overlap) && 0 <= start && start + maxLength < |text|
    ensures KindOfEnd(text, maxLength, start, CutFrom(text, maxLength, overlap, start, 1))
  {
    var e := CutFrom(text, maxLength, overlap, start, 1);
    if RFind(text, BlankLine, start, start + maxLength) <= start + maxLength / 2 {
      ListKinds(text, maxLength, overlap, start);
    } else {
      MarkedAt(text, e, 0, 1);
    }
  }

  lemma PostKinds(text: string, maxLength: nat, overlap: nat, start: int)
    requires Args(maxLength, overlap) && 0 <= start && start + maxLength < |text|
    ensures KindOfEnd(text, maxLength, start, CutFrom(text, maxLength, overlap, start, 0))
  {
    var e := CutFrom(text, maxLength, overlap, start, 0);
    if RFind(text, PostMark, start, start + maxLength) <= start + maxLength / 2 {
      ParagraphKinds(text, maxLength, overlap, start);
    } else {
      MarkedAt(text, e, 0, 0);
    }
  }

  /** A post marker past the middle of the window always wins: the window ends at the last one. */
  lemma PostMarkerWins(text: string, maxLength: nat, overlap: nat, start: int)
    requires Args(maxLength, overlap) && 0 <= start && start + maxLength < |text|
    ensures var e := CutEnd(text, maxLength, overlap, start);
      forall p :: start + maxLength / 2 < p && p + 4 <= start + maxLength && At(text, p, PostMark) ==>
        At(text, e, PostMark) && p <= e
  {
    RFindLast(text, PostMark, start, start + maxLength);
  }

  /** The cut of one window, in the source's order of preference, with the whitespace back-off as a loop. */
  method ChooseEnd(text: string, maxLength: nat, overlap: nat, start: int) returns (end: int)
    requires Args(maxLength, overlap) && 0 <= start < |text|
    ensures end == Cutter(text, maxLength, overlap)(start)
  {
    end := if start + maxLength <= |text| then start + maxLength else |text|;
    if end < |text| {
      end := EarlyCut(text, maxLength, overlap, start);
    }
  }

  /** A window that ends before the text does: the post marker and blank-line stages. */
  method EarlyCut(text: string, maxLength: nat, overlap: nat, start: int) returns (end: int)
    requires Args(maxLength, overlap) && 0 <= start && start + maxLength < |text|
    ensures end == CutFrom(text, maxLength, overlap, start, 0)
  {
    var limit := start + maxLength;
    var half := start + maxLength / 2;
    var postBoundary := RFind(text, PostMark, start, limit);
    if postBoundary > half {
      end := postBoundary;
    } else {
      var paragraphBoundary := RFind(text, BlankLine, start, limit);
      if paragraphBoundary > half {
        end := paragraphBoundary + 2;
      } else {
        end := LateCut(text, maxLength, overlap, start);
      }
    }
  }

  /** The list item, sentence end and whitespace stages of an early window. */
  method LateCut(text: string, maxLength: nat, overlap: nat, start: int) returns (end: int)
    requires Args(maxLength, overlap) && 0 <= start && start + maxLength < |text|
    ensures end == CutFrom(text, maxLength, overlap, start, 2)
  {
    var limit := start + maxLength;
    var half := start + maxLength / 2;
    var listBoundary := MaxOf3(RFind(text, DashItem, start, limit), RFind(text, RomanItemI, start, limit), RFind(text, RomanItemII, start, limit));
    if listBoundary > half {
      end := listBoundary;
    } else {
      end := SentenceOrSpaceCut(text, maxLength, overlap, start);
    }
  }

  /** The sentence end and whitespace stages of an early window. */
  method SentenceOrSpaceCut(text: string, maxLength: nat, overlap: nat, start: int) returns (end: int)
    requires Args(maxLength, overlap) && 0 <= start && start + maxLength < |text|
    ensures end == CutFrom(text, maxLength, overlap, start, 3)
  {
    var limit := start + maxLength;
    var sentenceBoundary := MaxOf3(RFind(text, FullStop, start, limit), RFind(text, QuestionMark, start, limit), RFind(text, ExclamationMark, start, limit));
    if sentenceBoundary > start + maxLength / 2 {
      end := sentenceBoundary + 2;
    } else {
      end := BackOff(text, start + maxLength - overlap, limit);
    }
  }

  /** The whitespace back-off of the source, as a loop, with the hard cut when it reaches `lo`. */
  method BackOff(text: string, lo: int, limit: int) returns (end: int)
    requires 0 <= lo <= limit < |text|
    ensures end == Fallback(text, lo, limit)
  {
    end := limit;
    while end > lo && !IsSpace(text[end])
      invariant lo <= end <= limit
      invariant Backoff(text, lo, end) == Backoff(text, lo, limit)
      decreases end
    {
      end := end - 1;
    }
    if end <= lo {
      end := limit;
    }
  }

  /** The facts about the windows of a text that the window loop walks through. */
  lemma WindowSpans(text: string, maxLength: nat, overlap: nat)
    requires Args(maxLength, overlap) && |text| > 0
    ensures var s := SpansFrom(text, maxLength, overlap, 0);
      |s| > 0 && s[0].0 == 0 && s[|s| - 1].1 == |text| &&
      (forall k :: 0 <= k < |s| ==> s[k].1 == Cutter(text, maxLength, overlap)(s[k].0)) &&
      (forall k :: 0 <= k < |s| - 1 ==> s[k].1 < |text| && s[k + 1].0 == s[k].1 - overlap)
  {
    var cut := Cutter(text, maxLength, overlap);
    CutterAdvances(text, maxLength, overlap);
    SpansEnds(|text|, maxLength, overlap, cut, 0);
    SpansAreCuts(|text|, maxLength, overlap, cut, 0);
    SpansOverlap(|text|, maxLength, overlap, cut, 0);
  }

  /** `_split_text_by_semantic`, with the window loop of the source. */
  method SplitTextBySemantic(text: string, maxLength: nat, overlap: nat) returns (chunks: seq<string>)
    requires Args(maxLength, overlap)
    ensures chunks == SemanticChunks(text, maxLength, overlap)
  {
    if |text| <= maxLength {
      return [text];
    }
    chunks := WindowLoop(text, maxLength, overlap);
  }

  /** The window loop: slices the text window by window, each next start `overlap` before the last end. */
  method WindowLoop(text: string, maxLength: nat, overlap: nat) returns (chunks: seq<string>)
    requires Args(maxLength, overlap) && |text| > 0
    ensures chunks == Slices(text, SpansFrom(text, maxLength, overlap, 0))
  {
    ghost var spans := SpansFrom(text, maxLength, overlap, 0);
    WindowAt(text, maxLength, overlap, 0);
    chunks := [];
    var start := 0;
    ghost var done := 0;
    while start < |text|
      invariant 0 <= done <= |spans| && |chunks| == done
      invariant start == if done < |spans| then spans[done].0 else |text|
      invariant chunks == Slices(text, spans[..done])
      decreases |spans| - done
    {
      var end := NextWindow(text, maxLength, overlap, start, done);
      SlicesSnoc(text, spans, done);
      chunks := chunks + [text[start .. end]];
      start := if end < |text| then end - overlap else end;
      done := done + 1;
    }
    assert spans[..done] == spans;
  }

  /** One turn of the window loop: the end of window `done`, and where the next one starts. */
  method NextWindow(text: string, maxLength: nat, overlap: nat, start: int, ghost done: nat) returns (end: int)
    requires Args(maxLength, overlap) && |text| > 0
    requires var s := SpansFrom(text, maxLength, overlap, 0); done < |s| && start == s[done].0
    ensures var s := SpansFrom(text, maxLength, overlap, 0);
      end == s[done].1 && (end < |text| <==> done + 1 < |s|) && (done + 1 < |s| ==> s[done + 1].0 == end - overlap)
  {
    end := ChooseEnd(text, maxLength, overlap, start);
    WindowAt(text, maxLength, overlap, done);
  }

  lemma SlicesSnoc(text: string, spans: seq<(int, int)>, k: nat)
    requires forall j :: 0 <= j < |spans| ==> 0 <= spans[j].0 <= spans[j].1 <= |text|
    requires k < |spans|
    ensures Slices(text, spans[..k + 1]) == Slices(text, spans[..k]) + [text[spans[k].0 .. spans[k].1]]
  {
  }

  /** The window `k` of the text: it ends where the cut rule puts it and the next starts `overlap` before its end. */
  lemma WindowAt(text: string, maxLength: nat, overlap: nat, k: nat)
    requires Args(maxLength, overlap) && |text| > 0
    ensures var s := SpansFrom(text, maxLength, overlap, 0);
      |s| > 0 && s[0].0 == 0 &&
      (k < |s| ==> s[k].1 == Cutter(text, maxLength, overlap)(s[k].0) && (k == |s| - 1 <==> s[k].1 == |text|)) &&
      (k < |s| - 1 ==> s[k + 1].0 == s[k].1 - overlap)
  {
    WindowSpans(text, maxLength, overlap);
  }

  // ----- posts -----

  /** A post marker `* [#<digits>]` starts at `p`. */
  predicate MarkerAt(text: string, p: nat)
  {
    At(text, p, "* [#") && var d := DigitRun(text, p + 4); d >= 1 && p + 4 + d < |text| && text[p + 4 + d] == ']'
  }

  /** The position just after the marker at `p`. */
  function MarkerEnd(text: string, p: nat): (q: nat)
    requires MarkerAt(text, p)
    ensures p < q <= |text|
  {
    p + 5 + DigitRun(text, p + 4)
  }

  /** The first post marker at or after `from`, or -1. */
  function NextMarker(text: string, from: nat): (q: int)
    ensures q == -1 || (from <= q && MarkerAt(text, q))
    ensures forall k :: from <= k && (q == -1 || k < q) ==> !MarkerAt(text, k)
    decreases |text| - from
  {
    if from >= |text| then -1
    else if MarkerAt(text, from) then from
    else NextMarker(text, from + 1)
  }

  /**
   * The posts from the marker at `p` on: each runs from its marker to the
   * next marker found after the marker's closing bracket, the last to the
   * end of the text.
   */
  function PostsFrom(text: string, p: nat): (r: seq<string>)
    requires MarkerAt(text, p)
    ensures |r| >= 1
    decreases |text| - p
  {
    var q := NextMarker(text, MarkerEnd(text, p));
    if q == -1 then [text[p..]] else [text[p .. q]] + PostsFrom(text, q)
  }

  /** `re.findall(r'\* \[#\d+\].*?(?=\* \[#\d+\]|\Z)', text, re.DOTALL)`. */
  function Posts(text: string): seq<string>
  {
    var p := NextMarker(text, 0);
    if p == -1 then [] else PostsFrom(text, p)
  }

  lemma ConcatCons(x: string, rest: seq<string>)
    ensures Concat([x] + rest) == x + Concat(rest)
  {
    ConcatAppend([x], rest);
    assert Concat([x]) == Concat([]) + x;
  }

  /** Unfolding one post. */
  lemma PostsFromStep(text: string, p: nat)
    requires MarkerAt(text, p)
    ensures var q := NextMarker(text, MarkerEnd(text, p));
      PostsFrom(text, p) == if q == -1 then [text[p..]] else [text[p .. q]] + PostsFrom(text, q)
  {
  }

  /** The posts from `p` on, put back together, are the text from `p` on. */
  lemma {:induction false} PostsFromCover(text: string, p: nat)
    requires MarkerAt(text, p)
    ensures Concat(PostsFrom(text, p)) == text[p..]
    decreases |text| - p
  {
    var q := NextMarker(text, MarkerEnd(text, p));
    PostsFromStep(text, p);
    if q == -1 {
      ConcatCons(text[p..], []);
    } else {
      var head, rest := text[p .. q], PostsFrom(text, q);
      PostsFromCover(text, q);
      ConcatCons(head, rest);
      SliceJoin(text, p, q, |text|);
      assert text[q..] == text[q .. |text|] && text[p..] == text[p .. |text|];
    }
  }

  /** Every post begins with its marker. */
  lemma {:induction false} PostsFromMarked(text: string, p: nat)
    requires MarkerAt(text, p)
    ensures forall k :: 0 <= k < |PostsFrom(text, p)| ==> MarkerAt(PostsFrom(text, p)[k], 0)
    decreases |text| - p
  {
    var r := PostsFrom(text, p);
    FirstPostMarked(text, p);
    var q := NextMarker(text, MarkerEnd(text, p));
    if q != -1 {
      var rest := PostsFrom(text, q);
      PostsFromTail(text, p, q);
      PostsFromMarked(text, q);
      forall k | 1 <= k < |r| ensures MarkerAt(r[k], 0) {
        assert r[k] == rest[k - 1];
      }
    }
  }

  lemma FirstPostMarked(text: string, p: nat)
    requires MarkerAt(text, p)
    ensures MarkerAt(PostsFrom(text, p)[0], 0)
  {
    var q := NextMarker(text, MarkerEnd(text, p));
    var piece := if q == -1 then text[p..] else text[p .. q];
    assert PostsFrom(text, p)[0] == piece;
    MarkerShifts(text, p, piece);
  }

  lemma PostsFromTail(text: string, p: nat, q: int)
    requires MarkerAt(text, p) && q == NextMarker(text, MarkerEnd(text, p)) && q != -1
    ensures MarkerAt(text, q) && PostsFrom(text, p)[1..] == PostsFrom(text, q)
  {
  }

  /** A marker of the text is a marker of the piece of the text that begins with it and holds its closing bracket. */
  lemma MarkerShifts(text: string, p: nat, piece: string)
    requires MarkerAt(text, p) && MarkerEnd(text, p) - p <= |piece| && p + |piece| <= |text|
    requires text[p .. p + |piece|] == piece
    ensures MarkerAt(piece, 0)
  {
    var d := DigitRun(text, p + 4);
    DigitRunShifts(text, p, piece, 4);
    assert piece[..4] == text[p .. p + 4];
    assert piece[4 + d] == text[p + 4 + d];
  }

  /** A digit run that ends inside a piece of the text is the same run in the piece. */
  lemma {:induction false} DigitRunShifts(text: string, p: nat, piece: string, i: nat)
    requires p + |piece| <= |text| && text[p .. p + |piece|] == piece
    requires i <= |piece| && p + i + DigitRun(text, p + i) < p + |piece|
    ensures DigitRun(piece, i) == DigitRun(text, p + i)
    decreases |piece| - i
  {
    assert piece[i] == text[p + i];
    if IsDigit(text[p + i]) {
      DigitRunShifts(text, p, piece, i + 1);
    }
  }

  /** The posts of a text that has one, put back together, are the text from its first marker on. */
  lemma PostsCover(text: string)
    requires NextMarker(text, 0) != -1
    ensures Concat(Posts(text)) == text[NextMarker(text, 0)..]
    ensures forall k :: 0 <= k < |Posts(text)| ==> MarkerAt(Posts(text)[k], 0)
  {
    PostsFromCover(text, NextMarker(text, 0));
    PostsFromMarked(text, NextMarker(text, 0));
  }

  // ----- split_into_chunks -----

  /** The chunks of each post in turn, one after another. */
  function PostChunks(posts: seq<string>, maxLength: nat, overlap: nat): seq<string>
    requires Args(maxLength, overlap)
  {
    if posts == [] then []
    else PostChunks(posts[..|posts| - 1], maxLength, overlap) + SemanticChunks(posts[|posts| - 1], maxLength, overlap)
  }

  lemma PostChunksStep(posts: seq<string>, maxLength: nat, overlap: nat, i: nat)
    requires Args(maxLength, overlap) && i < |posts|
    ensures PostChunks(posts[..i + 1], maxLength, overlap) ==
      PostChunks(posts[..i], maxLength, overlap) + SemanticChunks(posts[i], maxLength, overlap)
  {
    assert posts[..i + 1][..i] == posts[..i];
  }

  /** `split_into_chunks`: post by post when the text holds more than two posts, the whole text otherwise. */
  function Chunks(text: string, maxLength: nat, overlap: nat): seq<string>
    requires Args(maxLength, overlap)
  {
    var posts := Posts(text);
    if |posts| > 2 then PostChunks(posts, maxLength, overlap) else SemanticChunks(text, maxLength, overlap)
  }

  /** `split_into_chunks`, with the loop over the posts of the source. */
  method SplitIntoChunks(text: string, maxLength: nat, overlap: nat) returns (chunks: seq<string>)
    requires Args(maxLength, overlap)
    ensures chunks == Chunks(text, maxLength, overlap)
  {
    var postMarkers := Posts(text);
    if |postMarkers| > 2 {
      chunks := [];
      for i := 0 to |postMarkers|
        invariant chunks == PostChunks(postMarkers[..i], maxLength, overlap)
      {
        var post := postMarkers[i];
        PostChunksStep(postMarkers, maxLength, overlap, i);
        if |post| > maxLength {
          var postChunks := SplitTextBySemantic(post, maxLength, overlap);
          chunks := chunks + postChunks;
        } else {
          SemanticChunksFit(post, maxLength, overlap);
          chunks := chunks + [post];
        }
      }
      assert postMarkers[..|postMarkers|] == postMarkers;
    } else {
      chunks := SplitTextBySemantic(text, maxLength, overlap);
    }
  }

  lemma {:induction false} PostChunksFit(posts: seq<string>, maxLength: nat, overlap: nat)
    requires Args(maxLength, overlap)
    ensures forall k :: 0 <= k < |PostChunks(posts, maxLength, overlap)| ==> |PostChunks(posts, maxLength, overlap)[k]| <= maxLength
    decreases |posts|
  {
    if posts != [] {
      var last := posts[|posts| - 1];
      PostChunksFit(posts[..|posts| - 1], maxLength, overlap);
      SemanticChunksFit(last, maxLength, overlap);
    }
  }

  /** No chunk of `split_into_chunks` is longer than `maxLength`. */
  lemma ChunksFit(text: string, maxLength: nat, overlap: nat)
    requires Args(maxLength, overlap)
    ensures forall k :: 0 <= k < |Chunks(text, maxLength, overlap)| ==> |Chunks(text, maxLength, overlap)[k]| <= maxLength
  {
    PostChunksFit(Posts(text), maxLength, overlap);
    SemanticChunksFit(text, maxLength, overlap);
  }

  /**
   * When the text is split post by post, stitching each post's chunks gives
   * back the post, and the posts together are the text from its first marker
   * on: whatever precedes the first marker is not in any chunk.
   */
  lemma PostsRoundTrip(text: string, maxLength: nat, overlap: nat)
    requires Args(maxLength, overlap) && |Posts(text)| > 2
    ensures var posts := Posts(text);
      NextMarker(text, 0) != -1 &&
      Concat(seq(|posts|, i requires 0 <= i < |posts| => Stitch(SemanticChunks(posts[i], maxLength, overlap), overlap))) ==
      text[NextMarker(text, 0)..]
  {
    var posts := Posts(text);
    var stitched := seq(|posts|, i requires 0 <= i < |posts| => Stitch(SemanticChunks(posts[i], maxLength, overlap), overlap));
    forall i | 0 <= i < |posts| ensures stitched[i] == posts[i] {
      SemanticRoundTrip(posts[i], maxLength, overlap);
    }
    assert stitched == posts;
    PostsCover(text);
  }

  // ----- the records stored for each chunk -----

  /** What the vector store receives for one chunk: its id, the chunk, and its metadata. */
  datatype Record = Record(id: string, document: string, source: string, chunkIndex: nat)

  /** The records of a file's chunks: id `<collection>_chunk_<i>`, metadata source and index `i`. */
  function Records(collection: string, source: string, chunks: seq<string>): (r: seq<Record>)
    ensures |r| == |chunks|
  {
    seq(|chunks|, i requires 0 <= i < |chunks| => Record(collection + "_chunk_" + NatStr(i), chunks[i], source, i))
  }

  /** The records keep the chunks in order, index them by position, and carry pairwise distinct ids. */
  lemma RecordsDistinct(collection: string, source: string, chunks: seq<string>)
    ensures var r := Records(collection, source, chunks);
      (forall i :: 0 <= i < |r| ==> r[i].document == chunks[i] && r[i].chunkIndex == i && r[i].source == source) &&
      forall i, j :: 0 <= i < j < |r| ==> r[i].id != r[j].id
  {
    var r := Records(collection, source, chunks);
    forall i, j | 0 <= i < j < |r| ensures r[i].id != r[j].id {
      if r[i].id == r[j].id {
        var p := collection + "_chunk_";
        assert p + NatStr(i) == p + NatStr(j);
        PrefixCancels(p, NatStr(i), NatStr(j));
        NatStrInjective(i, j);
        assert false;
      }
    }
  }
}
