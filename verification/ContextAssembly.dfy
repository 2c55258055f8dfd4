/** The bounded JSONL context: evidence items one a line, the last one shrunk to fit. */
module ContextAssembly {
  import opened Evidence
  import opened Json
  import opened Outcomes
  import opened Text

  datatype Item = ChunkItem(chunk: RetrievedChunk) | FactItem(fact: RetrievedFact)

  function Kind(item: Item): string {
    if item.ChunkItem? then "chunk" else "graph_fact"
  }

  function ChunkId(item: Item): string {
    if item.ChunkItem? then item.chunk.chunkId else item.fact.chunkId
  }

  /** `text.replace("_", " ")` */
  function Spaced(s: string): string {
    seq(|s|, i requires 0 <= i < |s| => if s[i] == '_' then ' ' else s[i])
  }

  function RawContent(item: Item): string {
    match item
    case ChunkItem(c) => c.text
    case FactItem(f) => f.sourceName + " " + Spaced(f.relationshipType) + " " + f.targetName + ". Evidence: " + f.text
  }

  /** The words of the text, each parted from the last by one blank. */
  function Words(s: string, gap: bool): string
    decreases |s|
  {
    if s == "" then ""
    else if IsSpace(s[0]) then Words(s[1..], true)
    else (if gap then " " else "") + [s[0]] + Words(s[1..], false)
  }

  /** `" ".join(text.split())` */
  function Compact(text: string): string {
    var w := Words(text, false);
    if w != "" && w[0] == ' ' then w[1..] else w
  }

  /** The characters that are not whitespace. */
  function Ink(s: string): string {
    if s == "" then "" else (if IsSpace(s[0]) then "" else [s[0]]) + Ink(s[1..])
  }

  lemma {:induction false} WordsShape(s: string, gap: bool)
    ensures var w := Words(s, gap);
            && Ink(w) == Ink(s)
            && (w != "" && !gap && !IsSpace(s[0]) ==> !IsSpace(w[0]))
            && forall i :: 0 <= i < |w| && IsSpace(w[i]) ==> w[i] == ' ' && i + 1 < |w| && !IsSpace(w[i + 1])
    decreases |s|
  {
    if s != "" {
      WordsShape(s[1..], IsSpace(s[0]));
      if !IsSpace(s[0]) {
        var w := [s[0]] + Words(s[1..], false);
        assert w[1..] == Words(s[1..], false);
        assert (" " + w)[1..] == w;
      }
    }
  }

  /** Compacting loses no character but whitespace, and leaves single inner blanks only. */
  lemma CompactShape(text: string)
    ensures var c := Compact(text);
            && Ink(c) == Ink(text)
            && forall i :: 0 <= i < |c| && IsSpace(c[i]) ==> c[i] == ' ' && 0 < i < |c| - 1 && !IsSpace(c[i + 1])
  {
    WordsShape(text, false);
  }

  /** The compacted content within the limit for one item. */
  function Content(item: Item, itemMax: nat): string
    requires itemMax >= 1
  {
    var content := Compact(RawContent(item));
    if |content| > itemMax then content[..itemMax - 1] + "…" else content
  }

  function Items(evidence: RetrievalEvidence): seq<Item> {
    seq(|evidence.chunks|, i requires 0 <= i < |evidence.chunks| => ChunkItem(evidence.chunks[i]))
    + seq(|evidence.facts|, i requires 0 <= i < |evidence.facts| => FactItem(evidence.facts[i]))
  }

  function NonBlank(items: seq<Item>, itemMax: nat): (r: seq<Item>)
    requires itemMax >= 1
  {
    if items == [] then []
    else NonBlank(items[..|items| - 1], itemMax) + if Content(items[|items| - 1], itemMax) == "" then [] else [items[|items| - 1]]
  }

  // ----- one line

  /** A kept item and the content its line shows. */
  datatype Kept = Kept(item: Item, content: string)

  function Source(k: nat): string {
    "S" + Decimal(k + 1)
  }

  function RecordOf(kept: Kept, k: nat): Record {
    Record(Source(k), Kind(kept.item), ChunkId(kept.item), kept.content)
  }

  function LineOf(kept: Kept, k: nat): string {
    JsonLine(RecordOf(kept, k))
  }

  lemma {:induction false} EscapesNothing(s: string)
    requires forall i :: 0 <= i < |s| ==> s[i] != '"' && s[i] != '\\' && s[i] >= ' '
    ensures EscapedLength(s) == |s|
  {
    if s != "" { EscapesNothing(s[1..]); }
  }

  /** What a line costs besides its content; never less than 57. */
  function Envelope(item: Item, k: nat): (n: nat)
    ensures n >= 57
  {
    50 + |Source(k)| + |Kind(item)| + EscapedLength(ChunkId(item))
  }

  lemma LabelsCost(item: Item, k: nat)
    ensures |EscapeAll(Source(k))| == |Source(k)| && |EscapeAll(Kind(item))| == |Kind(item)|
  {
    EscapedLengthIs(Source(k));
    EscapedLengthIs(Kind(item));
    EscapesNothing(Source(k));
    EscapesNothing(Kind(item));
  }

  lemma LineCost(kept: Kept, k: nat)
    ensures |LineOf(kept, k)| == Envelope(kept.item, k) + EscapedLength(kept.content)
  {
    LineLength(RecordOf(kept, k));
    LabelsCost(kept.item, k);
    EscapedLengthIs(ChunkId(kept.item));
    EscapedLengthIs(kept.content);
  }

  // ----- shrinking the content

  /** The content cut at m: the whole of it, or its first m - 1 characters and an ellipsis. */
  function Cut(content: string, m: nat): string
    requires 0 < m <= |content|
  {
    if m < |content| then content[..m - 1] + "…" else content
  }

  function CutCost(content: string, m: nat): nat
    requires 0 < m <= |content|
  {
    EscapedLength(Cut(content, m))
  }

  lemma PrefixCost(content: string, m: nat)
    requires 0 < m <= |content|
    ensures EscapedLength(content[..m]) == EscapedLength(content[..m - 1]) + |Escape(content[m - 1])|
  {
    assert content[..m] == content[..m - 1] + [content[m - 1]];
    EscapedLengthAppend(content[..m - 1], content[m - 1]);
  }

  lemma EllipsisCost(s: string)
    ensures EscapedLength(s + "…") == EscapedLength(s) + 1
  {
    EscapedLengthAppend(s, '…');
  }

  /** Each further cut point costs more, and at most eleven characters more. */
  lemma CutCostStep(content: string, m: nat)
    requires 0 < m < |content|
    ensures CutCost(content, m) < CutCost(content, m + 1) <= CutCost(content, m) + 11
  {
    EllipsisCost(content[..m - 1]);
    PrefixCost(content, m);
    if m + 1 < |content| {
      EllipsisCost(content[..m]);
    } else {
      PrefixCost(content, m + 1);
      assert content[..m + 1] == content;
    }
  }

  lemma {:induction false} CutCostGrows(content: string, m: nat, n: nat)
    requires 0 < m <= n <= |content|
    ensures CutCost(content, m) <= CutCost(content, n)
  {
    if m < n {
      CutCostGrows(content, m, n - 1);
      CutCostStep(content, n - 1);
    }
  }

  function LowestCut(content: string): nat
    requires content != ""
  {
    if |content| < 16 then |content| else 16
  }

  /** m is the last cut point, from 16 up, whose line fits in the budget. */
  ghost predicate LongestFit(item: Item, k: nat, content: string, budget: nat, m: nat) {
    && content != "" && LowestCut(content) <= m <= |content|
    && |LineOf(Kept(item, Cut(content, m)), k)| <= budget
    && forall n :: m < n <= |content| ==> |LineOf(Kept(item, Cut(content, n)), k)| > budget
  }

  /** The line shows less than the content, and the most that fits. */
  ghost predicate ShrunkTo(kept: Kept, k: nat, content: string, budget: nat) {
    exists m: nat :: LongestFit(kept.item, k, content, budget, m) && m < |content| && kept.content == Cut(content, m)
  }

  ghost predicate NoneFits(item: Item, k: nat, content: string, budget: nat) {
    content != "" && forall n :: LowestCut(content) <= n <= |content| ==> |LineOf(Kept(item, Cut(content, n)), k)| > budget
  }

  /** The binary search over the cut points. */
  method ShrinkToFit(item: Item, k: nat, content: string, budget: nat) returns (fitted: Option<string>, ghost cut: nat)
    requires content != ""
    ensures fitted.None? ==> NoneFits(item, k, content, budget)
    ensures fitted.Some? ==> LongestFit(item, k, content, budget, cut) && fitted.value == Cut(content, cut)
  {
    var low, high := LowestCut(content), |content|;
    fitted, cut := None, 0;
    while low <= high
      invariant LowestCut(content) <= low <= high + 1 <= |content| + 1
      invariant forall n :: high < n <= |content| ==> |LineOf(Kept(item, Cut(content, n)), k)| > budget
      invariant fitted.None? ==> low == LowestCut(content)
      invariant fitted.Some? ==> LowestCut(content) <= cut == low - 1
      invariant fitted.Some? ==> fitted.value == Cut(content, cut) && |LineOf(Kept(item, Cut(content, cut)), k)| <= budget
      decreases high - low
    {
      var midpoint := (low + high) / 2;
      var candidate := LineOf(Kept(item, Cut(content, midpoint)), k);
      if |candidate| <= budget {
        fitted, cut := Some(Cut(content, midpoint)), midpoint;
        low := midpoint + 1;
      } else {
        forall n | midpoint <= n <= |content| ensures |LineOf(Kept(item, Cut(content, n)), k)| > budget {
          CutCostGrows(content, midpoint, n);
          LineCost(Kept(item, Cut(content, midpoint)), k);
          LineCost(Kept(item, Cut(content, n)), k);
        }
        high := midpoint - 1;
      }
    }
  }

  /** A line that had to be shrunk leaves at most ten characters of its budget. */
  lemma ShrunkLeavesLittle(item: Item, k: nat, content: string, budget: nat, m: nat)
    requires LongestFit(item, k, content, budget, m) && m < |content|
    ensures budget - |LineOf(Kept(item, Cut(content, m)), k)| <= 10
  {
    CutCostStep(content, m);
    LineCost(Kept(item, Cut(content, m)), k);
    LineCost(Kept(item, Cut(content, m + 1)), k);
  }

  // ----- the whole context

  function Lines(kept: seq<Kept>): (lines: seq<string>)
    ensures |lines| == |kept|
    ensures forall k :: 0 <= k < |kept| ==> lines[k] == LineOf(kept[k], k)
  {
    seq(|kept|, k requires 0 <= k < |kept| => LineOf(kept[k], k))
  }

  function KeptItems(kept: seq<Kept>): (items: seq<Item>)
    ensures |items| == |kept| && forall k :: 0 <= k < |kept| ==> items[k] == kept[k].item
  {
    seq(|kept|, k requires 0 <= k < |kept| => kept[k].item)
  }

  function ChunksOf(items: seq<Item>): seq<RetrievedChunk> {
    if items == [] then []
    else ChunksOf(items[..|items| - 1]) + (if items[|items| - 1].ChunkItem? then [items[|items| - 1].chunk] else [])
  }

  function FactsOf(items: seq<Item>): seq<RetrievedFact> {
    if items == [] then []
    else FactsOf(items[..|items| - 1]) + (if items[|items| - 1].FactItem? then [items[|items| - 1].fact] else [])
  }

  /** The budget left for the line after the kept ones. */
  function Remaining(kept: seq<Kept>, maxChars: nat): int {
    maxChars - |Join(Lines(kept))| - (if kept == [] then 0 else 1)
  }

  /** Line k shows its content in full, or was shrunk as little as possible and is the last. */
  ghost predicate FullOrLast(kept: seq<Kept>, maxChars: nat, itemMax: nat, k: nat)
    requires k < |kept| && itemMax >= 1
  {
    var content := Content(kept[k].item, itemMax);
    || kept[k].content == content
    || (&& k + 1 == |kept| && Remaining(kept[..k], maxChars) >= 1
        && ShrunkTo(kept[k], k, content, Remaining(kept[..k], maxChars)))
  }

  /** The next item finds no room, not even shrunk to the lowest cut point. */
  ghost predicate NoRoom(kept: seq<Kept>, item: Item, maxChars: nat, itemMax: nat)
    requires itemMax >= 1
  {
    var budget := Remaining(kept, maxChars);
    budget < 1 || NoneFits(item, |kept|, Content(item, itemMax), budget)
  }

  ghost predicate Bounded(kept: seq<Kept>, maxChars: nat, itemMax: nat)
    requires itemMax >= 1
  {
    && |Join(Lines(kept))| <= maxChars
    && forall k :: 0 <= k < |kept| ==> FullOrLast(kept, maxChars, itemMax, k)
  }

  /** Only ten characters at most are left once a line was shrunk. */
  ghost predicate Exhausted(kept: seq<Kept>, maxChars: nat, itemMax: nat)
    requires itemMax >= 1
  {
    kept != [] && Remaining(kept, maxChars) <= 10
  }

  lemma LinesAppend(kept: seq<Kept>, y: Kept)
    ensures Lines(kept + [y]) == Lines(kept) + [LineOf(y, |kept|)]
  {
  }

  lemma LinesMore(kept: seq<Kept>, y: Kept)
    ensures Lines(kept + [y]) == Lines(kept) + [LineOf(y, |kept|)]
    ensures |Join(Lines(kept + [y]))| == |Join(Lines(kept))| + (if kept == [] then 0 else 1) + |LineOf(y, |kept|)|
  {
    LinesAppend(kept, y);
    JoinMore(Lines(kept), LineOf(y, |kept|));
  }

  lemma ExhaustedMeansNoRoom(kept: seq<Kept>, item: Item, maxChars: nat, itemMax: nat)
    requires itemMax >= 1 && Exhausted(kept, maxChars, itemMax) && Content(item, itemMax) != ""
    ensures NoRoom(kept, item, maxChars, itemMax)
  {
    var content := Content(item, itemMax);
    forall n | LowestCut(content) <= n <= |content| ensures |LineOf(Kept(item, Cut(content, n)), |kept|)| > 10 {
      LineCost(Kept(item, Cut(content, n)), |kept|);
    }
  }

  lemma KeepsFull(kept: seq<Kept>, y: Kept, maxChars: nat, itemMax: nat)
    requires itemMax >= 1 && Bounded(kept, maxChars, itemMax)
    requires forall k :: 0 <= k < |kept| ==> kept[k].content == Content(kept[k].item, itemMax)
    requires y.content == Content(y.item, itemMax) && |LineOf(y, |kept|)| <= Remaining(kept, maxChars)
    ensures Bounded(kept + [y], maxChars, itemMax)
  {
    LinesMore(kept, y);
  }

  lemma KeepsShrunk(kept: seq<Kept>, y: Kept, maxChars: nat, itemMax: nat)
    requires itemMax >= 1 && Bounded(kept, maxChars, itemMax) && Remaining(kept, maxChars) >= 1
    requires forall k :: 0 <= k < |kept| ==> kept[k].content == Content(kept[k].item, itemMax)
    requires ShrunkTo(y, |kept|, Content(y.item, itemMax), Remaining(kept, maxChars))
    ensures Bounded(kept + [y], maxChars, itemMax) && Exhausted(kept + [y], maxChars, itemMax)
  {
    LinesMore(kept, y);
    var content := Content(y.item, itemMax);
    var m: nat :| LongestFit(y.item, |kept|, content, Remaining(kept, maxChars), m) && m < |content| && y.content == Cut(content, m);
    ShrunkLeavesLittle(y.item, |kept|, Content(y.item, itemMax), Remaining(kept, maxChars), m);
    assert (kept + [y])[..|kept|] == kept;
    assert FullOrLast(kept + [y], maxChars, itemMax, |kept|);
  }

  lemma NonBlankMore(items: seq<Item>, i: nat, itemMax: nat)
    requires itemMax >= 1 && i < |items|
    ensures NonBlank(items[..i + 1], itemMax) == NonBlank(items[..i], itemMax) + (if Content(items[i], itemMax) == "" then [] else [items[i]])
  {
    assert items[..i + 1][..i] == items[..i];
  }

  lemma {:induction false} NonBlankPrefix(items: seq<Item>, i: nat, itemMax: nat)
    requires itemMax >= 1 && i <= |items|
    ensures NonBlank(items[..i], itemMax) <= NonBlank(items, itemMax)
  {
    if i < |items| {
      var init := items[..|items| - 1];
      NonBlankPrefix(init, i, itemMax);
      assert init[..i] == items[..i];
    } else {
      assert items[..i] == items;
    }
  }

  ghost predicate AllFull(kept: seq<Kept>, itemMax: nat)
    requires itemMax >= 1
  {
    forall k :: 0 <= k < |kept| ==> kept[k].content == Content(kept[k].item, itemMax)
  }

  /** The line for the next item: its full content if that fits, else shrunk, else nothing. */
  method FitLine(item: Item, ghost kept: seq<Kept>, maxChars: nat, itemMax: nat, k: nat, remaining: int)
      returns (line: Option<string>, ghost y: Kept)
    requires itemMax >= 1 && Content(item, itemMax) != "" && k == |kept| && remaining == Remaining(kept, maxChars)
    ensures line.None? ==> NoRoom(kept, item, maxChars, itemMax)
    ensures line.Some? ==> line.value == LineOf(y, k) && y.item == item && 1 <= |line.value| <= remaining
    ensures line.Some? ==> y.content == Content(item, itemMax) || ShrunkTo(y, k, Content(item, itemMax), remaining)
  {
    var content := Content(item, itemMax);
    y := Kept(item, content);
    LineCost(y, k);
    var full := LineOf(Kept(item, content), k);
    if remaining < 1 {
      return None, y;
    }
    if |full| <= remaining {
      return Some(full), y;
    }
    var fitted, cut := ShrinkToFit(item, k, content, remaining);
    if fitted.None? {
      return None, y;
    }
    y := Kept(item, fitted.value);
    LineCost(y, k);
    line := Some(LineOf(Kept(item, fitted.value), k));
  }

  /** One more line keeps the bound; had a line been shrunk before, none would have fitted. */
  lemma KeepsLine(kept: seq<Kept>, y: Kept, maxChars: nat, itemMax: nat)
    requires itemMax >= 1 && Bounded(kept, maxChars, itemMax)
    requires AllFull(kept, itemMax) || Exhausted(kept, maxChars, itemMax)
    requires 1 <= |LineOf(y, |kept|)| <= Remaining(kept, maxChars)
    requires || y.content == Content(y.item, itemMax)
             || ShrunkTo(y, |kept|, Content(y.item, itemMax), Remaining(kept, maxChars))
    ensures Bounded(kept + [y], maxChars, itemMax)
    ensures AllFull(kept + [y], itemMax) || Exhausted(kept + [y], maxChars, itemMax)
  {
    LineCost(y, |kept|);
    if y.content == Content(y.item, itemMax) {
      KeepsFull(kept, y, maxChars, itemMax);
    } else {
      KeepsShrunk(kept, y, maxChars, itemMax);
    }
  }

  datatype AssembledContext = AssembledContext(text: string, chunks: seq<RetrievedChunk>, facts: seq<RetrievedFact>)

  /** The local variables of the loop. */
  datatype Draft = Draft(lines: seq<string>, chunks: seq<RetrievedChunk>, facts: seq<RetrievedFact>,
                         usedChars: nat, sourceNumber: nat) {
    function SeparatorSize(): nat {
      if lines == [] then 0 else 1
    }

    function Add(line: string, item: Item): Draft {
      Draft(lines + [line],
            if item.ChunkItem? then chunks + [item.chunk] else chunks,
            if item.FactItem? then facts + [item.fact] else facts,
            usedChars + SeparatorSize() + |line|, sourceNumber + 1)
    }
  }

  /** What the variables hold once these lines are kept. */
  ghost predicate Holds(kept: seq<Kept>, d: Draft) {
    && d.lines == Lines(kept)
    && d.chunks == ChunksOf(KeptItems(kept))
    && d.facts == FactsOf(KeptItems(kept))
    && d.usedChars == |Join(Lines(kept))|
    && d.sourceNumber == |kept|
  }

  lemma KeptItemsMore(kept: seq<Kept>, y: Kept)
    ensures KeptItems(kept + [y]) == KeptItems(kept) + [y.item]
  {
  }

  lemma CitedMore(items: seq<Item>, x: Item)
    ensures ChunksOf(items + [x]) == if x.ChunkItem? then ChunksOf(items) + [x.chunk] else ChunksOf(items)
    ensures FactsOf(items + [x]) == if x.FactItem? then FactsOf(items) + [x.fact] else FactsOf(items)
  {
    assert (items + [x])[..|items|] == items;
  }

  lemma HoldsMore(kept: seq<Kept>, y: Kept, d: Draft)
    requires Holds(kept, d)
    ensures Holds(kept + [y], d.Add(LineOf(y, |kept|), y.item))
  {
    LinesMore(kept, y);
    KeptItemsMore(kept, y);
    CitedMore(KeptItems(kept), y.item);
  }

  /** The kept items are the non-blank ones up to the first that finds no room. */
  ghost predicate StopsOnlyForRoom(kept: seq<Kept>, nonBlank: seq<Item>, maxChars: nat, itemMax: nat)
    requires itemMax >= 1
  {
    && KeptItems(kept) <= nonBlank
    && (|kept| < |nonBlank| ==> NoRoom(kept, nonBlank[|kept|], maxChars, itemMax))
  }

  /** What holds once the first i items are dealt with. */
  ghost predicate Progress(items: seq<Item>, i: nat, kept: seq<Kept>, maxChars: nat, itemMax: nat)
    requires itemMax >= 1 && i <= |items|
  {
    && KeptItems(kept) == NonBlank(items[..i], itemMax)
    && Bounded(kept, maxChars, itemMax)
    && (AllFull(kept, itemMax) || Exhausted(kept, maxChars, itemMax))
  }

  lemma ProgressBlank(items: seq<Item>, i: nat, kept: seq<Kept>, maxChars: nat, itemMax: nat)
    requires itemMax >= 1 && i < |items| && Progress(items, i, kept, maxChars, itemMax)
    requires Content(items[i], itemMax) == ""
    ensures Progress(items, i + 1, kept, maxChars, itemMax)
  {
    NonBlankMore(items, i, itemMax);
  }

  lemma ProgressKept(items: seq<Item>, i: nat, kept: seq<Kept>, y: Kept, maxChars: nat, itemMax: nat)
    requires itemMax >= 1 && i < |items| && Progress(items, i, kept, maxChars, itemMax)
    requires Content(items[i], itemMax) != "" && y.item == items[i]
    requires 1 <= |LineOf(y, |kept|)| <= Remaining(kept, maxChars)
    requires || y.content == Content(y.item, itemMax)
             || ShrunkTo(y, |kept|, Content(y.item, itemMax), Remaining(kept, maxChars))
    ensures Progress(items, i + 1, kept + [y], maxChars, itemMax)
  {
    NonBlankMore(items, i, itemMax);
    KeepsLine(kept, y, maxChars, itemMax);
    KeptItemsMore(kept, y);
  }

  lemma StopsForRoom(items: seq<Item>, i: nat, kept: seq<Kept>, maxChars: nat, itemMax: nat, full: bool)
    requires itemMax >= 1 && i <= |items| && KeptItems(kept) == NonBlank(items[..i], itemMax)
    requires full ==> i < |items| && Content(items[i], itemMax) != "" && NoRoom(kept, items[i], maxChars, itemMax)
    requires full || i == |items|
    ensures StopsOnlyForRoom(kept, NonBlank(items, itemMax), maxChars, itemMax)
  {
    NonBlankPrefix(items, i, itemMax);
    if full {
      NonBlankMore(items, i, itemMax);
      NonBlankPrefix(items, i + 1, itemMax);
    } else {
      assert items[..i] == items;
    }
  }

  /** One turn of the loop: the item is skipped, gets a line, or ends the context. */
  method AddItem(items: seq<Item>, i: nat, ghost kept: seq<Kept>, d: Draft, maxChars: nat, itemMax: nat)
      returns (full: bool, d': Draft, ghost kept': seq<Kept>)
    requires itemMax >= 1 && i < |items| && Progress(items, i, kept, maxChars, itemMax) && Holds(kept, d)
    ensures full ==> kept' == kept && d' == d && Content(items[i], itemMax) != "" && NoRoom(kept, items[i], maxChars, itemMax)
    ensures !full ==> Progress(items, i + 1, kept', maxChars, itemMax) && Holds(kept', d')
  {
    full, d', kept' := false, d, kept;
    var item := items[i];
    if Content(item, itemMax) == "" {
      ProgressBlank(items, i, kept, maxChars, itemMax);
      return;
    }
    var line, y := FitLine(item, kept, maxChars, itemMax, d.sourceNumber, maxChars - d.usedChars - d.SeparatorSize());
    if line.None? {
      full := true;
      return;
    }
    ProgressKept(items, i, kept, y, maxChars, itemMax);
    HoldsMore(kept, y, d);
    kept', d' := kept + [y], d.Add(line.value, item);
  }

  method KeepLines(items: seq<Item>, maxChars: nat, itemMax: nat) returns (d: Draft, ghost kept: seq<Kept>)
    requires itemMax >= 1
    ensures Holds(kept, d) && Bounded(kept, maxChars, itemMax)
    ensures StopsOnlyForRoom(kept, NonBlank(items, itemMax), maxChars, itemMax)
  {
    kept, d := [], Draft([], [], [], 0, 0);
    var i, full := 0, false;
    while i < |items| && !full
      invariant 0 <= i <= |items| && Progress(items, i, kept, maxChars, itemMax) && Holds(kept, d)
      invariant full ==> i < |items| && Content(items[i], itemMax) != "" && NoRoom(kept, items[i], maxChars, itemMax)
      decreases |items| - i, !full
    {
      full, d, kept := AddItem(items, i, kept, d, maxChars, itemMax);
      i := if full then i else i + 1;
    }
    StopsForRoom(items, i, kept, maxChars, itemMax, full);
  }

  /** The context of some evidence, or the error for limits that are not positive. */
  method AssembleContext(evidence: RetrievalEvidence, maxChars: int, itemMax: int)
      returns (r: Result<AssembledContext>, ghost kept: seq<Kept>)
    ensures r.Err? <==> maxChars < 1 || itemMax < 1
    ensures r.Ok? ==> r.value.text == Join(Lines(kept)) && Bounded(kept, maxChars, itemMax)
    ensures r.Ok? ==> StopsOnlyForRoom(kept, NonBlank(Items(evidence), itemMax), maxChars, itemMax)
    ensures r.Ok? ==> r.value.chunks == ChunksOf(KeptItems(kept)) && r.value.facts == FactsOf(KeptItems(kept))
  {
    if maxChars < 1 || itemMax < 1 {
      return Err("Context limits must be positive."), [];
    }
    var d;
    d, kept := KeepLines(Items(evidence), maxChars, itemMax);
    r := Ok(AssembledContext(Join(d.lines), d.chunks, d.facts));
  }

  /** Splitting the text at newlines and reading each line gives the emitted records, S1 to Sn,
      whatever characters the contents hold. */
  lemma ContextReadsBack(kept: seq<Kept>, k: nat)
    requires k < |kept|
    ensures var lines := Split(Join(Lines(kept)));
            |lines| == |kept| && ParseLine(lines[k]) == Some(Record("S" + Decimal(k + 1), Kind(kept[k].item), ChunkId(kept[k].item), kept[k].content))
  {
    forall j | 0 <= j < |kept| ensures '\n' !in Lines(kept)[j] {
      LineHasNoNewline(RecordOf(kept[j], j));
    }
    SplitsBack(Lines(kept));
    LineReadsBack(RecordOf(kept[k], k));
  }
}
