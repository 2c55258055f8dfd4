/** What a reader finds in the assembled text: line by line the evidence, chunks before facts, each in
    its order, each with its own content flattened to single blanks. */
module ContextReading {
  import opened ContextAssembly
  import opened Evidence
  import opened Json
  import opened Text

  lemma InitAndLast<T>(s: seq<T>)
    requires s != []
    ensures s[..|s| - 1] + [s[|s| - 1]] == s
  {
  }

  // ----- flattening

  predicate AllSpaces(s: string) {
    forall i :: 0 <= i < |s| ==> IsSpace(s[i])
  }

  predicate NoSpaces(s: string) {
    forall i :: 0 <= i < |s| ==> !IsSpace(s[i])
  }

  lemma {:induction false} WordsOfSpaces(s: string, gap: bool)
    requires AllSpaces(s)
    ensures Words(s, gap) == ""
    decreases |s|
  {
    if s != "" { WordsOfSpaces(s[1..], true); }
  }

  lemma {:induction false} WordsAfterSpaces(g: string, b: string, gap: bool)
    requires AllSpaces(g) && g != ""
    ensures Words(g + b, gap) == Words(b, true)
    decreases |g|
  {
    assert (g + b)[1..] == g[1..] + b;
    if |g| > 1 {
      WordsAfterSpaces(g[1..], b, true);
    } else {
      assert g[1..] + b == b;
    }
  }

  lemma {:induction false} WordsAppend(a: string, g: string, b: string, gap: bool)
    requires AllSpaces(g) && g != ""
    ensures Words(a + g + b, gap) == Words(a, gap) + Words(b, true)
    decreases |a|
  {
    if a == "" {
      assert a + g + b == g + b;
      WordsAfterSpaces(g, b, gap);
    } else {
      assert (a + g + b)[1..] == a[1..] + g + b;
      WordsAppend(a[1..], g, b, IsSpace(a[0]));
    }
  }

  lemma WordsFromInk(s: string, gap: bool)
    requires s != "" && !IsSpace(s[0])
    ensures Words(s, gap) == (if gap then " " else "") + [s[0]] + Words(s[1..], false)
  {
  }

  lemma CompactFromInk(s: string)
    requires s != "" && !IsSpace(s[0])
    ensures Compact(s) == Words(s, false) && Words(s, true) == " " + Compact(s) && Compact(s) != ""
  {
    assert IsSpace(' ');
    WordsFromInk(s, false);
    WordsFromInk(s, true);
    hide IsSpace, Words;
    LedByInk(s[0], Words(s[1..], false));
  }

  lemma LedByInk(c: char, rest: string)
    ensures "" + [c] + rest == [c] + rest && " " + [c] + rest == " " + ([c] + rest) && ([c] + rest)[0] == c
  {
  }

  lemma CompactFromSpace(s: string)
    requires s != "" && IsSpace(s[0])
    requires Words(s[1..], true) == if Compact(s[1..]) == "" then "" else " " + Compact(s[1..])
    ensures Compact(s) == Compact(s[1..])
  {
    hide IsSpace;
    assert Words(s, false) == Words(s[1..], true);
    if Compact(s[1..]) != "" { assert (" " + Compact(s[1..]))[1..] == Compact(s[1..]); }
  }

  lemma {:induction false} WordsWithGap(s: string)
    ensures Words(s, true) == if Compact(s) == "" then "" else " " + Compact(s)
    decreases |s|
  {
    if s != "" {
      if IsSpace(s[0]) {
        WordsWithGap(s[1..]);
        CompactFromSpace(s);
      } else {
        CompactFromInk(s);
      }
    }
  }

  lemma {:induction false} WordsOrGap(s: string)
    ensures Words(s, false) == Compact(s) || Words(s, false) == " " + Compact(s)
    ensures Compact(s) == "" ==> Words(s, false) == ""
  {
    var w := Words(s, false);
    WordsShape(s, false);
    assert IsSpace(' ');
    if w != "" && w[0] == ' ' { assert w == " " + w[1..]; }
  }

  function Unled(s: string): string {
    if s != "" && s[0] == ' ' then s[1..] else s
  }

  lemma UnledJoin(w: string, a: string, b: string)
    requires a != "" ==> a[0] != ' ' && (w == a || w == " " + a)
    requires a == "" ==> w == ""
    requires b != "" ==> b[0] != ' '
    ensures Unled(w + if b == "" then "" else " " + b) == if a == "" then b else if b == "" then a else a + " " + b
  {
    var x := if b == "" then "" else " " + b;
    if a == "" {
      assert w + x == x;
      if b != "" { assert x[1..] == b; }
    } else if w == a {
      assert (w + x)[0] == a[0];
      assert w + x == if b == "" then a else a + " " + b;
    } else {
      assert (w + x)[1..] == a + x;
      assert a + x == if b == "" then a else a + " " + b;
    }
  }

  /** Two texts with whitespace between them are flattened each, with one blank between them. */
  lemma CompactAppend(a: string, g: string, b: string)
    requires AllSpaces(g) && g != ""
    ensures Compact(a + g + b)
         == if Compact(a) == "" then Compact(b) else if Compact(b) == "" then Compact(a) else Compact(a) + " " + Compact(b)
  {
    WordsAppend(a, g, b, false);
    WordsWithGap(b);
    WordsOrGap(a);
    NeverDoubled(a);
    NeverDoubled(b);
    UnledJoin(Words(a, false), Compact(a), Compact(b));
    CompactIsUnled(a + g + b);
    hide Words, IsSpace, Unled, Compact;
  }

  lemma CompactIsUnled(s: string)
    ensures Compact(s) == Unled(Words(s, false))
  {
  }

  lemma NeverDoubled(s: string)
    ensures Compact(s) == "" || Compact(s)[0] != ' '
  {
    CompactShape(s);
    assert IsSpace(' ');
  }

  lemma {:induction false} WordsOfInk(s: string)
    requires NoSpaces(s)
    ensures Words(s, false) == s
    decreases |s|
  {
    if s != "" { WordsOfInk(s[1..]); }
  }

  lemma CompactOfInk(s: string)
    requires NoSpaces(s)
    ensures Compact(s) == s
  {
    WordsOfInk(s);
  }

  lemma CompactOfSpaces(s: string)
    ensures AllSpaces(s) ==> Compact(s) == ""
  {
    if AllSpaces(s) { WordsOfSpaces(s, false); }
  }

  // ----- words and the gaps between them

  /** The words, each after its gap. */
  function Woven(gaps: seq<string>, words: seq<string>): string
    requires |gaps| == |words|
  {
    if words == [] then "" else Woven(gaps[..|gaps| - 1], words[..|words| - 1]) + gaps[|gaps| - 1] + words[|words| - 1]
  }

  /** The words with one blank between any two. */
  function Spread(words: seq<string>): string {
    if words == [] then "" else if |words| == 1 then words[0] else Spread(words[..|words| - 1]) + " " + words[|words| - 1]
  }

  /** The text is made of these words, with whitespace between any two and maybe around them. */
  ghost predicate MadeOf(text: string, gaps: seq<string>, words: seq<string>, tail: string) {
    && |gaps| == |words| && text == Woven(gaps, words) + tail && AllSpaces(tail)
    && (forall i :: 0 <= i < |words| ==> words[i] != "" && NoSpaces(words[i]) && AllSpaces(gaps[i]))
    && (forall i :: 0 < i < |words| ==> gaps[i] != "")
  }

  lemma {:induction false} SpreadNotBlank(words: seq<string>)
    requires words != [] && forall i :: 0 <= i < |words| ==> words[i] != ""
    ensures Spread(words) != ""
  {
  }

  lemma {:induction false} WovenSpreads(gaps: seq<string>, words: seq<string>)
    requires |gaps| == |words|
    requires forall i :: 0 <= i < |words| ==> words[i] != "" && NoSpaces(words[i]) && AllSpaces(gaps[i])
    requires forall i :: 0 < i < |words| ==> gaps[i] != ""
    ensures Compact(Woven(gaps, words)) == Spread(words)
    decreases |words|
  {
    hide Compact;
    if words == [] {
      CompactOfSpaces("");
    } else {
      var n := |words| - 1;
      WovenSpreads(gaps[..n], words[..n]);
      CompactOfInk(words[n]);
      if gaps[n] == "" {
        assert Woven(gaps, words) == words[0];
      } else {
        CompactAppend(Woven(gaps[..n], words[..n]), gaps[n], words[n]);
        if n > 0 { SpreadNotBlank(words[..n]); }
      }
    }
  }

  /** Flattening keeps the words of a text, and nothing but one blank between any two of them. */
  lemma CompactSpreadsWords(text: string, gaps: seq<string>, words: seq<string>, tail: string)
    requires MadeOf(text, gaps, words, tail)
    ensures Compact(text) == Spread(words)
  {
    hide Compact;
    WovenSpreads(gaps, words);
    if tail != "" {
      assert text == Woven(gaps, words) + tail + "";
      CompactAppend(Woven(gaps, words), tail, "");
      CompactOfSpaces("");
    } else {
      assert text == Woven(gaps, words);
    }
  }

  /** Every text is made of words and whitespace. */
  lemma {:induction false} EveryTextHasWords(text: string) returns (gaps: seq<string>, words: seq<string>, tail: string)
    ensures MadeOf(text, gaps, words, tail)
  {
    hide MadeOf, IsSpace;
    if text == "" {
      gaps, words, tail := [], [], "";
      MadeOfNothing();
    } else {
      var init, c := text[..|text| - 1], text[|text| - 1];
      InitAndLast(text);
      var g, w, t := EveryTextHasWords(init);
      if IsSpace(c) {
        gaps, words, tail := g, w, t + [c];
        LongerTail(init, g, w, t, c);
      } else if t == "" && w != [] {
        gaps, words, tail := g, w[|w| - 1 := w[|w| - 1] + [c]], "";
        LongerLast(init, g, w, c);
      } else {
        gaps, words, tail := g + [t], w + [[c]], "";
        OneMoreWord(init, g, w, t, c);
      }
    }
  }

  lemma MadeOfNothing()
    ensures MadeOf("", [], [], "")
  {
  }

  lemma LongerTail(text: string, gaps: seq<string>, words: seq<string>, tail: string, c: char)
    requires MadeOf(text, gaps, words, tail) && IsSpace(c)
    ensures MadeOf(text + [c], gaps, words, tail + [c])
  {
    assert text + [c] == Woven(gaps, words) + (tail + [c]);
  }

  lemma LongerLast(text: string, gaps: seq<string>, words: seq<string>, c: char)
    requires MadeOf(text, gaps, words, "") && words != [] && !IsSpace(c)
    ensures MadeOf(text + [c], gaps, words[|words| - 1 := words[|words| - 1] + [c]], "")
  {
    hide IsSpace;
    LongerWord(gaps, words, c);
    assert text == Woven(gaps, words);
    hide Woven;
  }

  lemma OneMoreWord(text: string, gaps: seq<string>, words: seq<string>, tail: string, c: char)
    requires MadeOf(text, gaps, words, tail) && !IsSpace(c) && (words == [] || tail != "")
    ensures MadeOf(text + [c], gaps + [tail], words + [[c]], "")
  {
    hide IsSpace;
    WovenMore(gaps, words, tail, [c]);
    hide Woven;
    assert text + [c] == Woven(gaps, words) + tail + [c];
    assert Woven(gaps + [tail], words + [[c]]) + "" == Woven(gaps + [tail], words + [[c]]);
  }

  lemma WovenMore(gaps: seq<string>, words: seq<string>, gap: string, word: string)
    requires |gaps| == |words|
    ensures Woven(gaps + [gap], words + [word]) == Woven(gaps, words) + gap + word
  {
    var g, w := gaps + [gap], words + [word];
    assert g[..|g| - 1] == gaps && w[..|w| - 1] == words;
  }

  lemma LongerWord(gaps: seq<string>, words: seq<string>, c: char)
    requires |gaps| == |words| && words != []
    ensures Woven(gaps, words[|words| - 1 := words[|words| - 1] + [c]]) == Woven(gaps, words) + [c]
  {
    var n := |words| - 1;
    var more := words[n := words[n] + [c]];
    assert more[..n] == words[..n];
    assert Woven(gaps, more) == Woven(gaps[..n], words[..n]) + gaps[n] + (words[n] + [c]);
  }

  // ----- the lines of the text

  /** The content is the whole flattened text if that is within the limit, and otherwise its beginning
      with an ellipsis; only the last line may be cut further. */
  ghost predicate Shown(content: string, full: string, itemMax: nat, last: bool)
    requires itemMax >= 1
  {
    || content == (if |full| <= itemMax then full else full[..itemMax - 1] + "…")
    || (last && exists m: nat :: m < |full| && m < itemMax && content == full[..m] + "…")
  }

  /** What a fact says before it is flattened. */
  function Statement(f: RetrievedFact): string {
    f.sourceName + " " + Spaced(f.relationshipType) + " " + f.targetName + ". Evidence: " + f.text
  }

  /** Line k shows the chunk, or the fact. */
  ghost predicate ShowsChunk(record: Record, k: nat, c: RetrievedChunk, itemMax: nat, last: bool)
    requires itemMax >= 1
  {
    && record.source == "S" + Decimal(k + 1) && record.kind == "chunk" && record.chunkId == c.chunkId
    && Shown(record.content, Compact(c.text), itemMax, last)
  }

  ghost predicate ShowsFact(record: Record, k: nat, f: RetrievedFact, itemMax: nat, last: bool)
    requires itemMax >= 1
  {
    && record.source == "S" + Decimal(k + 1) && record.kind == "graph_fact" && record.chunkId == f.chunkId
    && Shown(record.content, Compact(Statement(f)), itemMax, last)
  }

  /** Line k shows what stands at the place: first come the chunks, then the facts. */
  ghost predicate LineShows(evidence: RetrievalEvidence, place: nat, line: string, k: nat, itemMax: nat, last: bool)
    requires itemMax >= 1
  {
    var record, chunks := ParseLine(line), |evidence.chunks|;
    && record.Some?
    && (place < chunks ==> ShowsChunk(record.value, k, evidence.chunks[place], itemMax, last))
    && (place >= chunks ==> place - chunks < |evidence.facts| && ShowsFact(record.value, k, evidence.facts[place - chunks], itemMax, last))
  }

  predicate BlankAt(evidence: RetrievalEvidence, place: nat) {
    place < |evidence.chunks| && AllSpaces(evidence.chunks[place].text)
  }

  /** The text shows the evidence at the places, in order; what it passes over before the last of them
      is blank. */
  ghost predicate ShowsEvidence(evidence: RetrievalEvidence, text: string, itemMax: nat, places: seq<nat>)
    requires itemMax >= 1
  {
    && (places == [] ==> text == "") && (places != [] ==> |Split(text)| == |places|)
    && (forall i, j :: 0 <= i < j < |places| ==> places[i] < places[j])
    && (forall k :: 0 <= k < |places| ==> LineShows(evidence, places[k], Split(text)[k], k, itemMax, k + 1 == |places|))
    && (forall k, place: nat :: 0 <= k < |places| && place < places[k] && place !in places ==> BlankAt(evidence, place))
  }

  // ----- the assembled text shows the evidence

  lemma {:induction false} InkOfBlank(s: string)
    requires Ink(s) == ""
    ensures AllSpaces(s)
  {
    if s != "" { InkOfBlank(s[1..]); }
  }

  lemma CompactBlank(s: string)
    requires Compact(s) == ""
    ensures AllSpaces(s)
  {
    CompactShape(s);
    InkOfBlank(s);
  }

  lemma StatementNotBlank(f: RetrievedFact)
    ensures Compact(Statement(f)) != ""
  {
    var before := f.sourceName + " " + Spaced(f.relationshipType) + " " + f.targetName;
    assert Statement(f)[|before|] == '.' && !IsSpace('.');
    hide Compact, Statement;
    if Compact(Statement(f)) == "" {
      CompactBlank(Statement(f));
      assert false;
    }
  }

  /** The items found stand at the places; what stands elsewhere is blank. */
  ghost predicate StandAt(items: seq<Item>, itemMax: nat, found: seq<Item>, at: seq<nat>)
    requires itemMax >= 1
  {
    && |at| == |found| && (forall i, j :: 0 <= i < j < |at| ==> at[i] < at[j])
    && (forall k :: 0 <= k < |at| ==> at[k] < |items| && items[at[k]] == found[k])
    && (forall n: nat :: n < |items| ==> BlankOrIn(items, itemMax, at, n))
  }

  ghost predicate BlankOrIn(items: seq<Item>, itemMax: nat, at: seq<nat>, n: nat)
    requires itemMax >= 1 && n < |items|
  {
    n in at || Content(items[n], itemMax) == ""
  }

  lemma StandMore(items: seq<Item>, itemMax: nat, found: seq<Item>, at: seq<nat>, item: Item)
    requires itemMax >= 1 && StandAt(items, itemMax, found, at)
    ensures if Content(item, itemMax) == "" then StandAt(items + [item], itemMax, found, at)
            else StandAt(items + [item], itemMax, found + [item], at + [|items|])
  {
    hide Content;
    var more, at' := items + [item], if Content(item, itemMax) == "" then at else at + [|items|];
    forall n: nat | n < |more| ensures BlankOrIn(more, itemMax, at', n) {
      if n < |items| {
        assert BlankOrIn(items, itemMax, at, n);
      } else if Content(item, itemMax) != "" {
        assert at'[|at|] == n;
      }
    }
  }

  /** The places of the items that are not blank. */
  lemma {:induction false} NonBlankPlaces(items: seq<Item>, itemMax: nat) returns (at: seq<nat>)
    requires itemMax >= 1
    ensures StandAt(items, itemMax, NonBlank(items, itemMax), at)
  {
    hide Content, StandAt;
    if items == [] {
      at := [];
      NothingStands(itemMax);
      assert NonBlank(items, itemMax) == [];
    } else {
      var n := |items| - 1;
      at := NonBlankPlaces(items[..n], itemMax);
      StandMore(items[..n], itemMax, NonBlank(items[..n], itemMax), at, items[n]);
      assert items == items[..n] + [items[n]] && items[..n + 1] == items;
      NonBlankMore(items, n, itemMax);
      if Content(items[n], itemMax) != "" {
        at := at + [n];
      } else {
        assert NonBlank(items, itemMax) == NonBlank(items[..n], itemMax);
      }
    }
  }

  lemma NothingStands(itemMax: nat)
    requires itemMax >= 1
    ensures StandAt([], itemMax, [], [])
  {
  }

  lemma ItemAt(evidence: RetrievalEvidence, n: nat)
    requires n < |evidence.chunks| + |evidence.facts|
    ensures |Items(evidence)| == |evidence.chunks| + |evidence.facts|
    ensures n < |evidence.chunks| ==> Items(evidence)[n] == ChunkItem(evidence.chunks[n])
    ensures n >= |evidence.chunks| ==> Items(evidence)[n] == FactItem(evidence.facts[n - |evidence.chunks|])
  {
  }

  /** What an item's text is before it is flattened. */
  function TextOf(item: Item): string {
    match item
    case ChunkItem(c) => c.text
    case FactItem(f) => Statement(f)
  }

  lemma KeptIsShown(kept: seq<Kept>, maxChars: nat, itemMax: nat, k: nat)
    requires itemMax >= 1 && Bounded(kept, maxChars, itemMax) && k < |kept|
    ensures Shown(kept[k].content, Compact(TextOf(kept[k].item)), itemMax, k + 1 == |kept|)
  {
    assert FullOrLast(kept, maxChars, itemMax, k);
    var full, content := Compact(TextOf(kept[k].item)), Content(kept[k].item, itemMax);
    hide Compact, Bounded, Remaining;
    assert content == if |full| <= itemMax then full else full[..itemMax - 1] + "…";
    if kept[k].content != content {
      var m: nat :| LongestFit(kept[k].item, k, content, Remaining(kept[..k], maxChars), m) && m < |content| && kept[k].content == Cut(content, m);
      assert content[..m - 1] == full[..m - 1];
      assert m - 1 < |full| && m - 1 < itemMax;
    }
  }

  lemma LineIsShown(evidence: RetrievalEvidence, kept: seq<Kept>, maxChars: nat, itemMax: nat, k: nat, place: nat)
    requires itemMax >= 1 && Bounded(kept, maxChars, itemMax) && k < |kept|
    requires place < |evidence.chunks| + |evidence.facts| && place < |Items(evidence)| && Items(evidence)[place] == kept[k].item
    ensures |Split(Join(Lines(kept)))| == |kept|
    ensures LineShows(evidence, place, Split(Join(Lines(kept)))[k], k, itemMax, k + 1 == |kept|)
  {
    hide Shown, Bounded, Compact, Split, Join, Lines, ParseLine, Statement;
    ContextReadsBack(kept, k);
    KeptIsShown(kept, maxChars, itemMax, k);
    ItemAt(evidence, place);
  }

  lemma BlankPlace(evidence: RetrievalEvidence, itemMax: nat, place: nat)
    requires itemMax >= 1 && place < |Items(evidence)| && Content(Items(evidence)[place], itemMax) == ""
    ensures BlankAt(evidence, place)
  {
    hide Compact;
    ItemAt(evidence, place);
    if place < |evidence.chunks| {
      CompactBlank(evidence.chunks[place].text);
    } else {
      StatementNotBlank(evidence.facts[place - |evidence.chunks|]);
    }
  }

  /** What the context retains: the chunks and the facts whose lines it shows. */
  ghost predicate Retains(evidence: RetrievalEvidence, places: seq<nat>, chunks: seq<RetrievedChunk>, facts: seq<RetrievedFact>) {
    && |places| == |chunks| + |facts|
    && (forall k :: 0 <= k < |chunks| ==> places[k] < |evidence.chunks| && chunks[k] == evidence.chunks[places[k]])
    && (forall k :: |chunks| <= k < |places| ==> |evidence.chunks| <= places[k] < |evidence.chunks| + |evidence.facts|
                                                 && facts[k - |chunks|] == evidence.facts[places[k] - |evidence.chunks|])
  }

  /** Once a fact is retained, the places have passed the chunks. */
  lemma FactsComeLast(evidence: RetrievalEvidence, places: seq<nat>, chunks: seq<RetrievedChunk>, facts: seq<RetrievedFact>)
    requires Retains(evidence, places, chunks, facts) && facts != []
    ensures |chunks| < |places| && places[|chunks|] >= |evidence.chunks|
  {
  }

  lemma RetainsMore(evidence: RetrievalEvidence, places: seq<nat>, chunks: seq<RetrievedChunk>, facts: seq<RetrievedFact>, place: nat)
    requires Retains(evidence, places, chunks, facts) && place < |evidence.chunks| + |evidence.facts|
    ensures place < |evidence.chunks| && facts == [] ==> Retains(evidence, places + [place], chunks + [evidence.chunks[place]], facts)
    ensures place >= |evidence.chunks| ==> Retains(evidence, places + [place], chunks, facts + [evidence.facts[place - |evidence.chunks|]])
  {
  }

  /** The items stand at the places, in their order. */
  ghost predicate Placed(evidence: RetrievalEvidence, items: seq<Item>, places: seq<nat>) {
    && |items| == |places| && (forall i, j :: 0 <= i < j < |places| ==> places[i] < places[j])
    && forall k :: 0 <= k < |places| ==> places[k] < |Items(evidence)| && Items(evidence)[places[k]] == items[k]
  }

  predicate AllBelow(places: seq<nat>, place: nat) {
    forall i :: 0 <= i < |places| ==> places[i] < place
  }

  lemma PlacedPrefix(evidence: RetrievalEvidence, items: seq<Item>, places: seq<nat>)
    requires Placed(evidence, items, places) && items != []
    ensures |items| == |places| && Placed(evidence, items[..|items| - 1], places[..|places| - 1])
    ensures var n := |items| - 1; places[n] < |Items(evidence)| && Items(evidence)[places[n]] == items[n]
    ensures AllBelow(places[..|places| - 1], places[|places| - 1])
  {
    hide Items;
  }

  lemma RetainsItem(evidence: RetrievalEvidence, items: seq<Item>, places: seq<nat>, x: Item, place: nat)
    requires Retains(evidence, places, ChunksOf(items), FactsOf(items)) && AllBelow(places, place)
    requires place < |Items(evidence)| && Items(evidence)[place] == x
    ensures Retains(evidence, places + [place], ChunksOf(items + [x]), FactsOf(items + [x]))
  {
    hide Items, ChunksOf, FactsOf, Retains;
    ItemCount(evidence);
    ItemAt(evidence, place);
    CitedMore(items, x);
    RetainsMore(evidence, places, ChunksOf(items), FactsOf(items), place);
    if x.ChunkItem? && FactsOf(items) != [] {
      FactsComeLast(evidence, places, ChunksOf(items), FactsOf(items));
      assert false;
    }
  }

  lemma {:induction false} ItemsRetained(evidence: RetrievalEvidence, items: seq<Item>, places: seq<nat>)
    requires Placed(evidence, items, places)
    ensures Retains(evidence, places, ChunksOf(items), FactsOf(items))
    decreases |items|
  {
    if items != [] {
      hide *;
      PlacedPrefix(evidence, items, places);
      var n := |items| - 1;
      ItemsRetained(evidence, items[..n], places[..n]);
      RetainsItem(evidence, items[..n], places[..n], items[n], places[n]);
      InitAndLast(items);
      InitAndLast(places);
    }
  }

  lemma ItemCount(evidence: RetrievalEvidence)
    ensures |Items(evidence)| == |evidence.chunks| + |evidence.facts|
  {
  }

  lemma PlacesOfKept(items: seq<Item>, itemMax: nat, found: seq<Item>, at: seq<nat>, kept: seq<Item>)
    requires itemMax >= 1 && StandAt(items, itemMax, found, at) && kept <= found
    ensures forall k :: 0 <= k < |kept| ==> at[k] < |items| && items[at[k]] == kept[k]
    ensures forall i, j :: 0 <= i < j < |kept| ==> at[i] < at[j]
    ensures forall k, place: nat :: 0 <= k < |kept| && place < at[k] && place !in at[..|kept|] ==> Content(items[place], itemMax) == ""
  {
    hide Content;
    forall k, place: nat | 0 <= k < |kept| && place < at[k] && place !in at[..|kept|] ensures Content(items[place], itemMax) == "" {
      forall i | 0 <= i < |at| ensures at[i] != place {
        if i < |kept| { assert at[..|kept|][i] == at[i]; }
      }
      assert BlankOrIn(items, itemMax, at, place);
    }
  }

  lemma KeptStand(evidence: RetrievalEvidence, kept: seq<Kept>, itemMax: nat) returns (places: seq<nat>)
    requires itemMax >= 1 && KeptItems(kept) <= NonBlank(Items(evidence), itemMax)
    ensures |places| == |kept| && forall k :: 0 <= k < |kept| ==> places[k] < |Items(evidence)| && Items(evidence)[places[k]] == KeptItems(kept)[k]
    ensures forall i, j :: 0 <= i < j < |places| ==> places[i] < places[j]
    ensures forall k, place: nat :: 0 <= k < |places| && place < places[k] && place !in places ==> BlankAt(evidence, place)
  {
    hide Content, BlankAt, StandAt, NonBlank, Items;
    var items := Items(evidence);
    var at := NonBlankPlaces(items, itemMax);
    FoundAsMany(items, itemMax, NonBlank(items, itemMax), at);
    PlacesOfKept(items, itemMax, NonBlank(items, itemMax), at, KeptItems(kept));
    places := at[..|kept|];
    forall k, place: nat | 0 <= k < |places| && place < places[k] && place !in places ensures BlankAt(evidence, place) {
      assert places[k] == at[k] && at[k] < |items|;
      BlankPlace(evidence, itemMax, place);
    }
  }

  lemma SplitsAsKept(kept: seq<Kept>)
    ensures if kept == [] then Join(Lines(kept)) == "" else |Split(Join(Lines(kept)))| == |kept|
  {
    if kept != [] { ContextReadsBack(kept, 0); }
  }

  /** The assembled text shows the evidence, in order, and retains what it shows. */
  lemma ContextShowsEvidence(evidence: RetrievalEvidence, kept: seq<Kept>, maxChars: nat, itemMax: nat) returns (places: seq<nat>)
    requires itemMax >= 1 && Bounded(kept, maxChars, itemMax) && KeptItems(kept) <= NonBlank(Items(evidence), itemMax)
    ensures ShowsEvidence(evidence, Join(Lines(kept)), itemMax, places)
    ensures Retains(evidence, places, ChunksOf(KeptItems(kept)), FactsOf(KeptItems(kept)))
  {
    hide Bounded, LineShows, BlankAt, NonBlank, Items, Join, Split, Lines, ChunksOf, FactsOf, Retains;
    SplitsAsKept(kept);
    places := KeptStand(evidence, kept, itemMax);
    ItemsRetained(evidence, KeptItems(kept), places);
    ItemCount(evidence);
    forall k | 0 <= k < |kept| ensures LineShows(evidence, places[k], Split(Join(Lines(kept)))[k], k, itemMax, k + 1 == |places|) {
      LineIsShown(evidence, kept, maxChars, itemMax, k, places[k]);
    }
  }

  lemma FoundAsMany(items: seq<Item>, itemMax: nat, found: seq<Item>, at: seq<nat>)
    requires itemMax >= 1 && StandAt(items, itemMax, found, at)
    ensures |at| == |found|
  {
  }

  // ----- what a fact's line says

  lemma PartsOf(a: string, b: string, c: string, d: string)
    ensures a + " " + (b + " " + (c + " " + d)) == a + " " + b + " " + c + " " + d
    ensures a + " " + (b + " " + c) == a + " " + b + " " + c
  {
  }

  lemma CompactFour(a: string, b: string, c: string, d: string)
    requires Compact(a) != "" && Compact(b) != "" && Compact(c) != ""
    ensures Compact(a + " " + b + " " + c + " " + d)
         == Compact(a) + " " + Compact(b) + " " + Compact(c) + (if Compact(d) == "" then "" else " " + Compact(d))
  {
    BlankIsSpace();
    hide Compact, AllSpaces;
    PartsOf(a, b, c, d);
    CompactAppend(a, " ", b + " " + (c + " " + d));
    CompactAppend(b, " ", c + " " + d);
    CompactAppend(c, " ", d);
    PartsOf(Compact(a), Compact(b), Compact(c), Compact(d));
  }

  lemma StatementParts(f: RetrievedFact)
    ensures Statement(f) == f.sourceName + " " + Spaced(f.relationshipType) + " " + (f.targetName + ". Evidence:") + " " + f.text
  {
    var front, colon := f.sourceName + " " + Spaced(f.relationshipType) + " ", ". Evidence:";
    assert colon + " " == ". Evidence: ";
    assert front + f.targetName + ". Evidence: " == front + (f.targetName + colon) + " ";
  }

  lemma CompactStatement(f: RetrievedFact)
    ensures var name, link, target, text := Compact(f.sourceName), Compact(Spaced(f.relationshipType)), Compact(f.targetName + ". Evidence:"), Compact(f.text);
      name != "" && link != "" && target != "" ==>
        Compact(Statement(f)) == name + " " + link + " " + target + (if text == "" then "" else " " + text)
  {
    hide Compact, Statement, Spaced;
    StatementParts(f);
    var a, b, c := f.sourceName, Spaced(f.relationshipType), f.targetName + ". Evidence:";
    if Compact(a) != "" && Compact(b) != "" && Compact(c) != "" { CompactFour(a, b, c, f.text); }
  }

  lemma TargetReads(name: string)
    requires name != "" && NoSpaces(name)
    ensures Compact(name + ". Evidence:") == name + ". Evidence:"
  {
    hide *;
    LabelHasInk(name);
    CompactOfInk(name + ".");
    CompactOfInk("Evidence:");
    BlankIsSpace();
    CompactAppend(name + ".", " ", "Evidence:");
    LabelParts(name);
  }

  lemma LabelParts(name: string)
    ensures name + ". Evidence:" == (name + ".") + " " + "Evidence:" && name + "." != "" && "Evidence:" != ""
  {
  }

  lemma LabelHasInk(name: string)
    requires NoSpaces(name)
    ensures NoSpaces(name + ".") && NoSpaces("Evidence:")
  {
    assert !IsSpace('.');
  }

  lemma BlankIsSpace()
    ensures AllSpaces(" ")
  {
    assert IsSpace(' ');
  }

  /** A fact between names without whitespace reads: the source's name, the relationship with blanks for
      underscores, the target's name, and the evidence. */
  lemma FactReads(f: RetrievedFact)
    requires f.sourceName != "" && NoSpaces(f.sourceName) && f.targetName != "" && NoSpaces(f.targetName)
    requires Compact(Spaced(f.relationshipType)) != ""
    ensures Compact(Statement(f)) == f.sourceName + " " + Compact(Spaced(f.relationshipType)) + " " + f.targetName + ". Evidence:"
                                     + (if Compact(f.text) == "" then "" else " " + Compact(f.text))
  {
    CompactStatement(f);
    CompactOfInk(f.sourceName);
    TargetReads(f.targetName);
    hide Compact, Statement, Spaced;
    var name, link, target := f.sourceName, Compact(Spaced(f.relationshipType)), f.targetName;
    assert name + " " + link + " " + (target + ". Evidence:") == name + " " + link + " " + target + ". Evidence:";
  }

  /** The words of a relationship are single: no blank, no underscore at its ends or next to another. */
  predicate PlainLink(s: string) {
    && s != "" && NoSpaces(s) && s[0] != '_' && s[|s| - 1] != '_'
    && forall i :: 0 < i < |s| ==> s[i - 1] != '_' || s[i] != '_'
  }

  /** Single blanks only, none at the end. */
  predicate SingleBlanks(s: string) {
    && (s != "" ==> !IsSpace(s[|s| - 1]))
    && forall i :: 0 <= i < |s| && IsSpace(s[i]) ==> s[i] == ' ' && (i + 1 < |s| ==> !IsSpace(s[i + 1]))
  }

  lemma SingleBlanksTail(s: string)
    requires SingleBlanks(s) && s != ""
    ensures SingleBlanks(s[1..])
  {
    hide IsSpace;
  }

  lemma {:induction false} WordsOfSingleBlanks(s: string)
    requires SingleBlanks(s) && (s != "" ==> !IsSpace(s[0]))
    ensures Words(s, false) == s
    decreases |s|
  {
    hide IsSpace;
    if |s| > 1 {
      SingleBlanksTail(s);
      if IsSpace(s[1]) {
        SingleBlanksTail(s[1..]);
        assert s[1..][1..] == s[2..];
        WordsOfSingleBlanks(s[2..]);
        WordsFromInk(s[2..], true);
        WordsFromInk(s[2..], false);
        assert s == [s[0]] + ([s[1]] + s[2..]);
      } else {
        WordsOfSingleBlanks(s[1..]);
      }
    }
  }

  /** Such a relationship is shown with a blank for every underscore, and otherwise as it is. */
  lemma LinkReads(s: string)
    requires PlainLink(s)
    ensures var shown := Compact(Spaced(s));
            |shown| == |s| && forall i :: 0 <= i < |s| ==> shown[i] == if s[i] == '_' then ' ' else s[i]
  {
    assert IsSpace(' ') && !IsSpace('_');
    WordsOfSingleBlanks(Spaced(s));
    CompactFromInk(Spaced(s));
  }
}
