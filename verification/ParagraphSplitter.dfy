/** The deterministic chunker: blank lines part the text into paragraphs, and a paragraph over
    the budget is cut into bounded, overlapping slices. */
module ParagraphSplitter {
  import opened Text

  function Max(a: int, b: int): int { if a < b then b else a }
  function Min(a: int, b: int): int { if a < b then a else b }

  /** The last newline or blank in the second half of the budget, or -1. */
  function Boundary(s: string, start: nat, maxChars: nat): (b: int)
    requires maxChars >= 1 && start + maxChars < |s|
    ensures b == -1 || (start + maxChars / 2 <= b <= start + maxChars && (s[b] == '\n' || s[b] == ' '))
    ensures forall j :: start + maxChars / 2 <= j <= start + maxChars && b < j ==> s[j] != '\n' && s[j] != ' '
  {
    Max(RFind(s, '\n', start + maxChars / 2, start + maxChars + 1),
        RFind(s, ' ', start + maxChars / 2, start + maxChars + 1))
  }

  /** How a slice that begins at `start` may end. */
  ghost predicate CutWell(s: string, c: Span, maxChars: nat)
    requires maxChars >= 1 && c.start <= c.end <= |s|
  {
    if c.start + maxChars >= |s| then
      c.end == |s|
    else
      // at the last boundary of the window, or at the budget when the window has no boundary
      // after the start or nothing but whitespace stands before it
      var b := Boundary(s, c.start, maxChars);
      || (c.end == b && b > c.start && StripSlice(s, c.start, c.end) != "")
      || (c.end == c.start + maxChars && (b <= c.start || StripSlice(s, c.start, b) == ""))
  }

  /** The slices follow each other without a gap and overlap by at most the setting. */
  ghost predicate Chained(cuts: seq<Span>, overlap: nat) {
    forall k :: 0 < k < |cuts| ==> Follows(cuts[k - 1], cuts[k], overlap)
  }

  ghost predicate Follows(a: Span, b: Span, overlap: nat) {
    a.start < b.start <= a.end && a.end - b.start <= overlap
  }

  ghost predicate CutAt(s: string, chunks: seq<string>, cuts: seq<Span>, maxChars: nat, k: nat)
    requires maxChars >= 1 && k < |cuts| == |chunks|
  {
    && cuts[k].start < cuts[k].end <= |s| && cuts[k].end - cuts[k].start <= maxChars
    && (k + 1 < |cuts| ==> cuts[k].end < |s|)
    && CutWell(s, cuts[k], maxChars)
    && chunks[k] == StripSlice(s, cuts[k].start, cuts[k].end)
  }

  ghost predicate Slices(s: string, chunks: seq<string>, cuts: seq<Span>, maxChars: nat, overlap: nat)
    requires maxChars >= 1
  {
    && |cuts| == |chunks|
    && (forall k :: 0 <= k < |cuts| ==> CutAt(s, chunks, cuts, maxChars, k))
    && Chained(cuts, overlap)
    && (cuts != [] ==> cuts[0].start == 0)
  }

  /** The end of the slice that begins at `start`. */
  method CutEnd(s: string, start: nat, maxChars: nat) returns (end: nat)
    requires maxChars >= 1 && start < |s|
    ensures start < end <= |s| && end - start <= maxChars
    ensures CutWell(s, Span(start, end), maxChars)
    ensures end == |s| <==> start + maxChars >= |s|
  {
    var maxEnd := Min(start + maxChars, |s|);
    end := maxEnd;
    if maxEnd < |s| {
      var boundary := Boundary(s, start, maxChars);
      if boundary > start { end := boundary; }
    }
    if StripSlice(s, start, end) == "" { end := maxEnd; }
  }

  /** Where the next slice begins: at the front, or behind the last slice, within the overlap. */
  ghost predicate Continues(cuts: seq<Span>, start: nat, overlap: nat, n: nat) {
    if cuts == [] then start == 0
    else cuts[|cuts| - 1].end < n && Follows(cuts[|cuts| - 1], Span(start, start), overlap)
  }

  lemma SlicesMore(s: string, chunks: seq<string>, cuts: seq<Span>, maxChars: nat, overlap: nat, start: nat, end: nat)
    requires maxChars >= 1 && Slices(s, chunks, cuts, maxChars, overlap) && Continues(cuts, start, overlap, |s|)
    requires start < end <= |s| && end - start <= maxChars && CutWell(s, Span(start, end), maxChars)
    ensures Slices(s, chunks + [StripSlice(s, start, end)], cuts + [Span(start, end)], maxChars, overlap)
  {
    var chunks', cuts' := chunks + [StripSlice(s, start, end)], cuts + [Span(start, end)];
    forall k | 0 <= k < |cuts'| ensures CutAt(s, chunks', cuts', maxChars, k) {
      if k < |cuts| { assert CutAt(s, chunks, cuts, maxChars, k); }
    }
    forall k | 0 < k < |cuts'| ensures Follows(cuts'[k - 1], cuts'[k], overlap) {
      if k < |cuts| { assert Follows(cuts[k - 1], cuts[k], overlap); }
    }
  }

  /** Cuts one paragraph. The cuts are the raw slices, before each is stripped. */
  method SplitOversizedParagraph(s: string, maxChars: nat, overlap: nat) returns (chunks: seq<string>, ghost cuts: seq<Span>)
    requires maxChars >= 1 && overlap < maxChars
    ensures |s| <= maxChars ==> chunks == [s]
    ensures |s| > maxChars ==> Slices(s, chunks, cuts, maxChars, overlap) && cuts != [] && cuts[|cuts| - 1].end == |s|
  {
    chunks, cuts := [], [];
    if |s| <= maxChars { return [s], []; }
    var start := 0;
    while start < |s|
      invariant start < |s|
      invariant Slices(s, chunks, cuts, maxChars, overlap) && Continues(cuts, start, overlap, |s|)
      decreases |s| - start
    {
      var end := CutEnd(s, start, maxChars);
      SlicesMore(s, chunks, cuts, maxChars, overlap, start, end);
      chunks := chunks + [StripSlice(s, start, end)];
      cuts := cuts + [Span(start, end)];
      if end >= |s| { break; }
      start := Max(end - overlap, start + 1);
    }
  }

  // ----- what follows from the cuts

  /** Gap-free cuts that reach from 0 to n contain every position below n. */
  lemma {:induction false} SomeCutContains(cuts: seq<Span>, overlap: nat, i: nat) returns (k: nat)
    requires cuts != [] && cuts[0].start == 0 && Chained(cuts, overlap)
    requires i < cuts[|cuts| - 1].end
    ensures k < |cuts| && cuts[k].start <= i < cuts[k].end
  {
    if cuts[|cuts| - 1].start <= i {
      k := |cuts| - 1;
    } else {
      assert |cuts| > 1;
      assert Follows(cuts[|cuts| - 2], cuts[|cuts| - 1], overlap);
      k := SomeCutContains(cuts[..|cuts| - 1], overlap, i);
    }
  }

  /** Every character but whitespace is in the chunk of some cut, at its own place. */
  lemma NothingLost(s: string, chunks: seq<string>, cuts: seq<Span>, maxChars: nat, overlap: nat, i: nat) returns (k: nat)
    requires maxChars >= 1 && Slices(s, chunks, cuts, maxChars, overlap)
    requires cuts != [] && cuts[|cuts| - 1].end == |s|
    requires i < |s| && !IsSpace(s[i])
    ensures k < |cuts| && cuts[k].start <= cuts[k].end <= |s|
    ensures var r := StripSpan(s, cuts[k].start, cuts[k].end); r.start <= i < r.end && chunks[k] == s[r.start..r.end]
  {
    k := SomeCutContains(cuts, overlap, i);
    assert CutAt(s, chunks, cuts, maxChars, k);
  }

  /** The stripped slices begin in the order of the cuts. */
  lemma StripsAscend(s: string, a: Span, b: Span, maxChars: nat, overlap: nat)
    requires maxChars >= 1 && a.start < a.end <= |s| && b.start < b.end <= |s| && a.end - a.start <= maxChars
    requires CutWell(s, b, maxChars) && Follows(a, b, overlap)
    ensures StripSpan(s, a.start, a.end).start <= StripSpan(s, b.start, b.end).start
  {
    var r := StripSpan(s, b.start, b.end);
    if r.start == r.end {
      // nothing but whitespace: the cut then uses its whole budget
      assert StripSlice(s, b.start, b.end) == "";
      assert b.end >= a.end;
    }
  }

  lemma {:induction false} ChunksBounded(s: string, chunks: seq<string>, cuts: seq<Span>, maxChars: nat, overlap: nat)
    requires maxChars >= 1 && Slices(s, chunks, cuts, maxChars, overlap)
    ensures forall k :: 0 <= k < |chunks| ==> |chunks[k]| <= maxChars
  {
    forall k | 0 <= k < |chunks| ensures |chunks[k]| <= maxChars { assert CutAt(s, chunks, cuts, maxChars, k); }
  }

  /** Every cut but the last uses at least half of the budget. */
  lemma HalfBudget(s: string, chunks: seq<string>, cuts: seq<Span>, maxChars: nat, overlap: nat, k: nat)
    requires maxChars >= 1 && Slices(s, chunks, cuts, maxChars, overlap) && 0 < k < |cuts|
    ensures cuts[k].start >= cuts[k - 1].start + maxChars / 2 - overlap
    ensures cuts[k - 1].start + maxChars < |s|
  {
    assert CutAt(s, chunks, cuts, maxChars, k - 1);
    assert CutAt(s, chunks, cuts, maxChars, k);
    assert Follows(cuts[k - 1], cuts[k], overlap);
  }

  lemma {:induction false} StartsAdvance(s: string, chunks: seq<string>, cuts: seq<Span>, maxChars: nat, overlap: nat, k: nat)
    requires maxChars >= 1 && Slices(s, chunks, cuts, maxChars, overlap) && k < |cuts|
    ensures cuts[k].start >= k * (maxChars / 2 - overlap)
  {
    if k > 0 {
      StartsAdvance(s, chunks, cuts, maxChars, overlap, k - 1);
      HalfBudget(s, chunks, cuts, maxChars, overlap, k);
      assert k * (maxChars / 2 - overlap) == (k - 1) * (maxChars / 2 - overlap) + (maxChars / 2 - overlap);
    }
  }

  function CeilDiv(a: nat, b: nat): nat
    requires b > 0
  {
    (a + b - 1) / b
  }

  lemma BelowCeiling(n: nat, a: nat, b: nat)
    requires b > 0 && n * b < a
    ensures n < CeilDiv(a, b)
  {
    var q := CeilDiv(a, b);
    assert q * b >= a by { assert (a + b - 1) == q * b + (a + b - 1) % b; }
    assert q <= n ==> q * b <= n * b;
  }

  /** With an overlap below half of the budget the number of chunks is bounded. */
  lemma ChunkCount(s: string, chunks: seq<string>, cuts: seq<Span>, maxChars: nat, overlap: nat)
    requires maxChars >= 1 && Slices(s, chunks, cuts, maxChars, overlap) && cuts != []
    requires overlap < maxChars / 2 && |s| > maxChars
    ensures |chunks| <= 1 + CeilDiv(|s| - maxChars, maxChars / 2 - overlap)
  {
    if |cuts| > 1 {
      StartsAdvance(s, chunks, cuts, maxChars, overlap, |cuts| - 2);
      HalfBudget(s, chunks, cuts, maxChars, overlap, |cuts| - 1);
      BelowCeiling(|cuts| - 2, |s| - maxChars, maxChars / 2 - overlap);
    }
  }

  // ----- the whole text

  predicate BreakAt(text: string, i: nat) {
    i + 2 <= |text| && text[i] == '\n' && text[i + 1] == '\n'
  }

  /** Where the next blank line begins at or after `from`, or the end of the text. */
  function NextBreak(text: string, from: nat): (i: nat)
    requires from <= |text|
    ensures from <= i <= |text|
    ensures i < |text| ==> i + 2 <= |text| && BreakAt(text, i)
    ensures forall j :: from <= j < i ==> !BreakAt(text, j)
    decreases |text| - from
  {
    if BreakAt(text, from) then from
    else if from < |text| then NextBreak(text, from + 1)
    else from
  }

  /** The chunk is the text of the span. */
  ghost predicate PlacedAt(text: string, chunk: string, r: Span) {
    r.start <= r.end <= |text| && chunk == text[r.start..r.end]
  }

  /** Each chunk has its place in the text. */
  ghost predicate Placed(text: string, chunks: seq<string>, spans: seq<Span>) {
    |spans| == |chunks| && forall k :: 0 <= k < |spans| ==> PlacedAt(text, chunks[k], spans[k])
  }

  /** The places lie between lo and hi and begin in order. */
  ghost predicate InOrder(spans: seq<Span>, lo: nat, hi: nat) {
    && (forall k :: 0 <= k < |spans| ==> lo <= spans[k].start <= spans[k].end <= hi)
    && (forall k :: 0 < k < |spans| ==> spans[k - 1].start <= spans[k].start)
  }

  ghost predicate Covered(spans: seq<Span>, i: nat) {
    exists k :: 0 <= k < |spans| && spans[k].start <= i < spans[k].end
  }

  /** Nothing but whitespace lies outside the places. */
  ghost predicate CoversText(text: string, spans: seq<Span>, lo: nat, hi: nat)
    requires hi <= |text|
  {
    forall i :: lo <= i < hi && !IsSpace(text[i]) ==> Covered(spans, i)
  }

  lemma CoveredMore(spans: seq<Span>, more: seq<Span>, i: nat)
    requires Covered(spans, i) || Covered(more, i)
    ensures Covered(spans + more, i)
  {
    if Covered(spans, i) {
      var k :| 0 <= k < |spans| && spans[k].start <= i < spans[k].end;
      assert (spans + more)[k] == spans[k];
    } else {
      var k :| 0 <= k < |more| && more[k].start <= i < more[k].end;
      assert (spans + more)[|spans| + k] == more[k];
    }
  }

  ghost predicate WithinText(cuts: seq<Span>, n: nat) {
    forall k :: 0 <= k < |cuts| ==> cuts[k].start <= cuts[k].end <= n
  }

  ghost function Shifted(r: Span, offset: nat): Span {
    Span(offset + r.start, offset + r.end)
  }

  /** Where the stripped slices of a paragraph stand in the text. */
  ghost function PlacesOf(s: string, cuts: seq<Span>, offset: nat): (r: seq<Span>)
    requires WithinText(cuts, |s|)
    ensures |r| == |cuts|
    ensures forall k :: 0 <= k < |cuts| ==> r[k] == Shifted(StripSpan(s, cuts[k].start, cuts[k].end), offset)
  {
    seq(|cuts|, k requires 0 <= k < |cuts| => Shifted(StripSpan(s, cuts[k].start, cuts[k].end), offset))
  }

  lemma CutsWithin(s: string, chunks: seq<string>, cuts: seq<Span>, maxChars: nat, overlap: nat)
    requires maxChars >= 1 && Slices(s, chunks, cuts, maxChars, overlap)
    ensures WithinText(cuts, |s|)
  {
    forall k | 0 <= k < |cuts| ensures cuts[k].start <= cuts[k].end <= |s| {
      assert CutAt(s, chunks, cuts, maxChars, k);
    }
  }

  lemma SliceOfSlice(text: string, lo: nat, hi: nat, a: nat, b: nat)
    requires lo <= hi <= |text| && a <= b <= hi - lo
    ensures text[lo..hi][a..b] == text[lo + a..lo + b]
  {
    var x, y := text[lo..hi][a..b], text[lo + a..lo + b];
    assert |x| == |y| && forall i :: 0 <= i < |x| ==> x[i] == y[i];
  }

  lemma PlaceHolds(text: string, r: Span, s: string, chunk: string, cut: Span)
    requires r.start <= r.end <= |text| && s == text[r.start..r.end]
    requires cut.start <= cut.end <= |s| && chunk == StripSlice(s, cut.start, cut.end)
    ensures PlacedAt(text, chunk, Shifted(StripSpan(s, cut.start, cut.end), r.start))
  {
    var strip := StripSpan(s, cut.start, cut.end);
    SliceOfSlice(text, r.start, r.end, strip.start, strip.end);
  }

  lemma PlacesHold(text: string, r: Span, s: string, chunks: seq<string>, cuts: seq<Span>, maxChars: nat, overlap: nat)
    requires r.start <= r.end <= |text| && s == text[r.start..r.end]
    requires maxChars >= 1 && Slices(s, chunks, cuts, maxChars, overlap) && WithinText(cuts, |s|)
    ensures Placed(text, chunks, PlacesOf(s, cuts, r.start))
  {
    var spans := PlacesOf(s, cuts, r.start);
    forall k | 0 <= k < |spans| ensures PlacedAt(text, chunks[k], spans[k]) {
      assert CutAt(s, chunks, cuts, maxChars, k);
      PlaceHolds(text, r, s, chunks[k], cuts[k]);
    }
  }

  lemma PlacesAscend(s: string, chunks: seq<string>, cuts: seq<Span>, maxChars: nat, overlap: nat, offset: nat)
    requires maxChars >= 1 && Slices(s, chunks, cuts, maxChars, overlap) && WithinText(cuts, |s|)
    ensures InOrder(PlacesOf(s, cuts, offset), offset, offset + |s|)
  {
    var spans := PlacesOf(s, cuts, offset);
    forall k | 0 < k < |spans| ensures spans[k - 1].start <= spans[k].start {
      assert CutAt(s, chunks, cuts, maxChars, k - 1);
      assert CutAt(s, chunks, cuts, maxChars, k);
      assert Follows(cuts[k - 1], cuts[k], overlap);
      StripsAscend(s, cuts[k - 1], cuts[k], maxChars, overlap);
    }
  }

  lemma PlacesCover(text: string, r: Span, s: string, chunks: seq<string>, cuts: seq<Span>, maxChars: nat, overlap: nat)
    requires r.start <= r.end <= |text| && s == text[r.start..r.end]
    requires maxChars >= 1 && Slices(s, chunks, cuts, maxChars, overlap) && WithinText(cuts, |s|)
    requires cuts != [] && cuts[|cuts| - 1].end == |s|
    ensures CoversText(text, PlacesOf(s, cuts, r.start), r.start, r.end)
  {
    var spans := PlacesOf(s, cuts, r.start);
    forall i | r.start <= i < r.end && !IsSpace(text[i]) ensures Covered(spans, i) {
      var k := NothingLost(s, chunks, cuts, maxChars, overlap, i - r.start);
      assert spans[k].start <= i < spans[k].end;
    }
  }

  /** Chunks one paragraph of the text and keeps all of it in its place. */
  method ChunkParagraph(text: string, ghost r: Span, paragraph: string, maxChars: nat, overlap: nat)
      returns (chunks: seq<string>, ghost spans: seq<Span>)
    requires maxChars >= 1 && overlap < maxChars
    requires r.start <= r.end <= |text| && paragraph == text[r.start..r.end]
    ensures forall k :: 0 <= k < |chunks| ==> |chunks[k]| <= maxChars
    ensures Placed(text, chunks, spans) && InOrder(spans, r.start, r.end) && CoversText(text, spans, r.start, r.end)
    ensures spans != [] && (Fits(r, maxChars) ==> spans == [r])
  {
    ghost var cuts;
    chunks, cuts := SplitOversizedParagraph(paragraph, maxChars, overlap);
    if |paragraph| > maxChars {
      ChunksBounded(paragraph, chunks, cuts, maxChars, overlap);
      CutsWithin(paragraph, chunks, cuts, maxChars, overlap);
      spans := PlacesOf(paragraph, cuts, r.start);
      PlacesHold(text, r, paragraph, chunks, cuts, maxChars, overlap);
      PlacesAscend(paragraph, chunks, cuts, maxChars, overlap, r.start);
      PlacesCover(text, r, paragraph, chunks, cuts, maxChars, overlap);
    } else {
      spans := [r];
      assert PlacedAt(text, chunks[0], spans[0]);
      forall i | r.start <= i < r.end ensures Covered(spans, i) { assert spans[0].start <= i < spans[0].end; }
    }
  }

  lemma PlacesAppend(text: string, chunks: seq<string>, spans: seq<Span>, found: seq<string>, places: seq<Span>, from: nat, r: Span, next: nat)
    requires from <= r.start <= r.end <= next <= |text|
    requires Placed(text, chunks, spans) && InOrder(spans, 0, from) && CoversText(text, spans, 0, from)
    requires Placed(text, found, places) && InOrder(places, r.start, r.end) && CoversText(text, places, r.start, r.end)
    requires forall i :: from <= i < next && !IsSpace(text[i]) ==> r.start <= i < r.end
    ensures Placed(text, chunks + found, spans + places) && InOrder(spans + places, 0, next) && CoversText(text, spans + places, 0, next)
  {
    forall i | 0 <= i < next && !IsSpace(text[i]) ensures Covered(spans + places, i) {
      CoveredMore(spans, places, i);
    }
  }

  /** `[block.strip() for block in text.split("\n\n") if block.strip()]`, by their places. */
  function Paragraphs(text: string, from: nat): (r: seq<Span>)
    requires from <= |text|
    ensures forall o :: 0 <= o < |r| ==> from <= r[o].start < r[o].end <= |text|
    decreases |text| - from
  {
    var to := NextBreak(text, from);
    var block := StripSpan(text, from, to);
    (if block.start < block.end then [block] else []) + if to < |text| then Paragraphs(text, to + 2) else []
  }

  predicate Fits(r: Span, maxChars: nat) {
    r.start <= r.end && r.end - r.start <= maxChars
  }

  /** The chunk lies within its paragraph, and is all of it if that fits. */
  ghost predicate OwnedBy(paragraphs: seq<Span>, place: Span, o: nat, maxChars: nat) {
    && o < |paragraphs| && paragraphs[o].start <= place.start <= place.end <= paragraphs[o].end
    && (Fits(paragraphs[o], maxChars) ==> place == paragraphs[o])
  }

  /** Every chunk belongs to a paragraph, in order; a paragraph that fits has one chunk, every other at
      least one. */
  ghost predicate ByParagraph(paragraphs: seq<Span>, spans: seq<Span>, owners: seq<nat>, maxChars: nat) {
    && |owners| == |spans| && (forall k :: 0 <= k < |spans| ==> OwnedBy(paragraphs, spans[k], owners[k], maxChars))
    && (forall k :: 0 < k < |spans| ==> owners[k - 1] <= owners[k])
    && (forall k :: 0 < k < |spans| && Fits(paragraphs[owners[k]], maxChars) ==> owners[k - 1] < owners[k])
    && (forall o :: 0 <= o < |paragraphs| ==> o in owners)
  }

  lemma ParagraphMore(paragraphs: seq<Span>, spans: seq<Span>, owners: seq<nat>, r: Span, places: seq<Span>, maxChars: nat)
      returns (more: seq<nat>)
    requires ByParagraph(paragraphs, spans, owners, maxChars) && r.start <= r.end && places != [] && InOrder(places, r.start, r.end)
    requires Fits(r, maxChars) ==> places == [r]
    ensures ByParagraph(paragraphs + [r], spans + places, owners + more, maxChars)
  {
    var n := |paragraphs|;
    more := seq(|places|, k requires 0 <= k < |places| => n);
    var all := owners + more;
    forall k | 0 <= k < |spans + places| ensures OwnedBy(paragraphs + [r], (spans + places)[k], all[k], maxChars) {
      if k < |spans| { assert OwnedBy(paragraphs, spans[k], owners[k], maxChars); }
    }
    forall o | 0 <= o < |paragraphs + [r]| ensures o in all {
      if o < n { assert o in owners; } else { assert all[|owners|] == o; }
    }
  }

  /** The text up to a point is chunked, and these are its paragraphs. */
  ghost predicate ChunkedTo(text: string, chunks: seq<string>, spans: seq<Span>, owners: seq<nat>, done: seq<Span>, upTo: nat, maxChars: nat)
    requires upTo <= |text|
  {
    && (forall k :: 0 <= k < |chunks| ==> |chunks[k]| <= maxChars)
    && Placed(text, chunks, spans) && InOrder(spans, 0, upTo) && CoversText(text, spans, 0, upTo)
    && ByParagraph(done, spans, owners, maxChars)
  }

  lemma ChunkedMore(text: string, chunks: seq<string>, spans: seq<Span>, owners: seq<nat>, done: seq<Span>, from: nat,
                    found: seq<string>, places: seq<Span>, r: Span, next: nat, maxChars: nat) returns (owned: seq<nat>)
    requires from <= r.start <= r.end <= next <= |text| && ChunkedTo(text, chunks, spans, owners, done, from, maxChars)
    requires forall k :: 0 <= k < |found| ==> |found[k]| <= maxChars
    requires Placed(text, found, places) && InOrder(places, r.start, r.end) && CoversText(text, places, r.start, r.end)
    requires places != [] && (Fits(r, maxChars) ==> places == [r])
    requires forall i :: from <= i < next && !IsSpace(text[i]) ==> r.start <= i < r.end
    ensures ChunkedTo(text, chunks + found, spans + places, owners + owned, done + [r], next, maxChars)
  {
    PlacesAppend(text, chunks, spans, found, places, from, r, next);
    owned := ParagraphMore(done, spans, owners, r, places, maxChars);
    hide Placed, InOrder, CoversText, ByParagraph;
  }

  lemma ChunkedFurther(text: string, chunks: seq<string>, spans: seq<Span>, owners: seq<nat>, done: seq<Span>, from: nat, next: nat, maxChars: nat)
    requires from <= next <= |text| && ChunkedTo(text, chunks, spans, owners, done, from, maxChars)
    requires forall i :: from <= i < next ==> IsSpace(text[i])
    ensures ChunkedTo(text, chunks, spans, owners, done, next, maxChars)
  {
  }

  /** A block without a break, up to the next one; all of it but whitespace is in its stripped part. */
  lemma BlockStripped(text: string, from: nat, to: nat, next: nat)
    requires from <= to <= next <= |text| && (to < |text| ==> to + 2 <= |text| && BreakAt(text, to) && next == to + 2) && (to == |text| ==> next == to)
    ensures var r := StripSpan(text, from, to);
            forall i :: from <= i < next && !IsSpace(text[i]) ==> r.start <= i < r.end
  {
  }

  ghost function RestOf(text: string, from: nat, more: bool): seq<Span>
    requires from <= |text|
  {
    if more then Paragraphs(text, from) else []
  }

  lemma RestSplits(text: string, from: nat, done: seq<Span>)
    requires from <= |text|
    ensures var to := NextBreak(text, from);
            var r := StripSpan(text, from, to);
            var next := if to < |text| then to + 2 else to;
            next <= |text|
            && done + RestOf(text, from, true) == (if r.start < r.end then done + [r] else done) + RestOf(text, next, to < |text|)
  {
    hide IsSpace, NextBreak, StripSpan, BreakAt;
    var next := if NextBreak(text, from) < |text| then NextBreak(text, from) + 2 else NextBreak(text, from);
    var rest := RestOf(text, next, NextBreak(text, from) < |text|);
    var r := StripSpan(text, from, NextBreak(text, from));
    assert done + ([r] + rest) == done + [r] + rest && [] + rest == rest;
  }

  lemma StartsChunked(text: string, maxChars: nat)
    ensures ChunkedTo(text, [], [], [], [], 0, maxChars) && Paragraphs(text, 0) == [] + RestOf(text, 0, true)
  {
  }

  lemma EndsChunked(text: string, chunks: seq<string>, spans: seq<Span>, owners: seq<nat>, done: seq<Span>, maxChars: nat)
    requires ChunkedTo(text, chunks, spans, owners, done, |text|, maxChars) && Paragraphs(text, 0) == done + RestOf(text, |text|, false)
    ensures forall k :: 0 <= k < |chunks| ==> |chunks[k]| <= maxChars
    ensures Placed(text, chunks, spans) && InOrder(spans, 0, |text|) && CoversText(text, spans, 0, |text|)
    ensures ByParagraph(Paragraphs(text, 0), spans, owners, maxChars)
  {
    assert done + [] == done;
  }

  /** The text is chunked paragraph by paragraph: every chunk fits the budget and is the text of its
      place within one paragraph, a paragraph that fits is one chunk, the places are in order, and
      nothing but whitespace lies outside them. Chunks are numbered by their position. */
  method Extract(text: string, maxChars: nat, overlap: nat) returns (chunks: seq<string>, ghost spans: seq<Span>, ghost owners: seq<nat>)
    requires maxChars >= 1 && overlap < maxChars
    ensures forall k :: 0 <= k < |chunks| ==> |chunks[k]| <= maxChars
    ensures Placed(text, chunks, spans) && InOrder(spans, 0, |text|) && CoversText(text, spans, 0, |text|)
    ensures ByParagraph(Paragraphs(text, 0), spans, owners, maxChars)
  {
    chunks, spans, owners := [], [], [];
    var from := 0;
    var more := true;
    ghost var done: seq<Span> := [];
    StartsChunked(text, maxChars);
    hide ChunkedTo, Paragraphs, RestOf, BreakAt, StripSpan, IsSpace, NextBreak, Fits, Placed, InOrder, CoversText, PlacedAt, ByParagraph;
    while more
      invariant from <= |text|
      invariant !more ==> from == |text|
      invariant ChunkedTo(text, chunks, spans, owners, done, from, maxChars)
      invariant Paragraphs(text, 0) == done + RestOf(text, from, more)
      decreases more, |text| - from
    {
      var to := NextBreak(text, from);
      var r := StripSpan(text, from, to);
      var next := if to < |text| then to + 2 else to;
      BlockStripped(text, from, to, next);
      RestSplits(text, from, done);
      if r.start < r.end {
        ghost var places, owned;
        var found;
        found, places := ChunkParagraph(text, r, text[r.start..r.end], maxChars, overlap);
        owned := ChunkedMore(text, chunks, spans, owners, done, from, found, places, r, next, maxChars);
        chunks, spans, owners, done := chunks + found, spans + places, owners + owned, done + [r];
      } else {
        ChunkedFurther(text, chunks, spans, owners, done, from, next, maxChars);
      }
      more := to < |text|;
      from := next;
    }
    EndsChunked(text, chunks, spans, owners, done, maxChars);
  }

  predicate Unbroken(text: string, r: Span) {
    forall i :: r.start <= i < r.end - 1 ==> !BreakAt(text, i)
  }

  lemma BlockUnbroken(text: string, from: nat)
    requires from <= |text|
    ensures Unbroken(text, StripSpan(text, from, NextBreak(text, from)))
  {
    var to := NextBreak(text, from);
    var r := StripSpan(text, from, to);
    forall i | r.start <= i < r.end - 1 ensures !BreakAt(text, i) { assert from <= i < to; }
  }

  lemma {:induction false} ParagraphsUnbroken(text: string, from: nat)
    requires from <= |text|
    ensures forall o :: 0 <= o < |Paragraphs(text, from)| ==> Unbroken(text, Paragraphs(text, from)[o])
    decreases |text| - from
  {
    hide Unbroken, BreakAt, IsSpace, StripSpan, NextBreak;
    var to := NextBreak(text, from);
    BlockUnbroken(text, from);
    if to < |text| { ParagraphsUnbroken(text, to + 2); }
  }

  /** No chunk crosses a blank line. */
  lemma NoChunkCrosses(text: string, spans: seq<Span>, owners: seq<nat>, maxChars: nat, k: nat, i: nat)
    requires ByParagraph(Paragraphs(text, 0), spans, owners, maxChars) && k < |spans| && spans[k].start <= i < spans[k].end - 1
    ensures !BreakAt(text, i)
  {
    ParagraphsUnbroken(text, 0);
    assert OwnedBy(Paragraphs(text, 0), spans[k], owners[k], maxChars);
  }
}
