/**
  Where a user text is cut (canonical/mod.rs): behind its first closed block of Rust
  code, or close to 131072 bytes, and nowhere else.
*/
module StableSplitLaws {
  import opened Utf8Text
  import opened StableSplit

  // ---- Behind a block of code -------------------------------------------------

  predicate First(text: string, pattern: string, from: nat, at: nat) {
    from <= at && OccursAt(text, pattern, at) && forall j :: from <= j < at ==> !OccursAt(text, pattern, j)
  }

  /** The first block opens and closes here, line breaks follow it up to k, and then something else. */
  predicate BlockEnds(text: string, open: nat, close: nat, k: nat) {
    && First(text, "```rust", 0, open) && First(text, "\n```", open + 7, close)
    && close + 4 <= k < |text| && text[k] != '\n' && text[k] != '\r'
    && forall j :: close + 4 <= j < k ==> text[j] == '\n' || text[j] == '\r'
  }

  lemma FirstIsFound(text: string, pattern: string, from: nat, at: nat)
    requires from <= |text|
    ensures IndexFrom(text, pattern, from) == Some(at) <==> First(text, pattern, from, at)
  {
    hide OccursAt;
    if First(text, pattern, from, at) && IndexFrom(text, pattern, from).Some? {
      var k := IndexFrom(text, pattern, from).value;
      assert OccursAt(text, pattern, k);
    }
  }

  lemma OccurrenceFits(text: string, pattern: string, at: nat)
    requires OccursAt(text, pattern, at)
    ensures at + |pattern| <= |text|
  {
  }

  lemma {:induction false} SkipsTo(text: string, i: nat, k: nat)
    requires i <= k < |text| && !IsBreak(text[k]) && forall j :: i <= j < k ==> IsBreak(text[j])
    ensures SkipBreaks(text, i) == k
    decreases k - i
  {
    if i < k { SkipsTo(text, i + 1, k); }
  }

  /** The split behind a block is where the first block ends, and there is none without one. */
  lemma FenceSplitIsBlockEnd(text: string, k: nat)
    ensures FenceSplit(text) == Some(k) <==> exists open: nat, close: nat :: BlockEnds(text, open, close, k)
  {
    hide OccursAt, IndexFrom, SkipBreaks;
    if FenceSplit(text) == Some(k) {
      var open := IndexFrom(text, FENCE, 0).value;
      OccurrenceFits(text, FENCE, open);
      var close := IndexFrom(text, FENCE_END, open + 7).value;
      OccurrenceFits(text, FENCE_END, close);
      FirstIsFound(text, FENCE, 0, open);
      FirstIsFound(text, FENCE_END, open + 7, close);
      assert BlockEnds(text, open, close, k);
    }
    forall open: nat, close: nat | BlockEnds(text, open, close, k)
      ensures FenceSplit(text) == Some(k)
    {
      OccurrenceFits(text, FENCE, open);
      FirstIsFound(text, FENCE, 0, open);
      FirstIsFound(text, FENCE_END, open + 7, close);
      OccurrenceFits(text, FENCE_END, close);
      SkipsTo(text, close + 4, k);
    }
  }

  /** A block that ends late enough is where the text is cut. */
  lemma CutBehindBlock(text: string, open: nat, close: nat, k: nat)
    requires BlockEnds(text, open, close, k) && k >= 1024
    ensures Cut(text) == Some(k)
  {
    hide FenceSplit, ByteSplit, OccursAt;
    FenceSplitIsBlockEnd(text, k);
  }

  // ---- Close to a size --------------------------------------------------------

  ghost predicate NoLateBlock(text: string) {
    forall open: nat, close: nat, k: nat :: BlockEnds(text, open, close, k) ==> k < 1024
  }

  lemma NoLateSplit(text: string)
    requires NoLateBlock(text)
    ensures FenceSplit(text).Some? ==> FenceSplit(text).value < 1024
  {
    hide FenceSplit, OccursAt;
    if FenceSplit(text).Some? { FenceSplitIsBlockEnd(text, FenceSplit(text).value); }
  }

  /** No character is longer than four bytes. */
  predicate ShortCharacters(text: string) {
    forall i :: 0 <= i && i + 3 < |text| ==>
      !Continues(text[i]) || !Continues(text[i + 1]) || !Continues(text[i + 2]) || !Continues(text[i + 3])
  }

  lemma {:induction false} BoundaryIsLast(text: string, i: nat)
    requires i <= |text|
    ensures var k := BoundaryBefore(text, i);
      forall j :: k < j <= i ==> !IsBoundary(text, j)
    decreases i
  {
    hide IsBoundary;
    if i != 0 && !IsBoundary(text, i) { BoundaryIsLast(text, i - 1); }
  }

  /**
    A text with no such block is cut exactly when it is longer than 131072 bytes, at
    the last boundary of a character up to there, at most three bytes before it.
  */
  lemma CutBySize(text: string)
    requires NoLateBlock(text) && ShortCharacters(text)
    ensures Cut(text).Some? <==> |text| > 131_072
    ensures Cut(text).Some? ==>
      && 131_072 - 3 <= Cut(text).value <= 131_072 && IsBoundary(text, Cut(text).value)
      && forall j :: Cut(text).value < j <= 131_072 ==> !IsBoundary(text, j)
  {
    hide FenceSplit;
    NoLateSplit(text);
    if |text| > 131_072 {
      BoundaryIsLast(text, 131_072);
      var k, i := BoundaryBefore(text, 131_072), 131_072 - 3;
      assert IsBoundary(text, i) || IsBoundary(text, i + 1) || IsBoundary(text, i + 2) || IsBoundary(text, i + 3);
      assert k >= i;
    }
  }

  /** So a long part is cached as the same bytes whatever follows its first 131073 bytes. */
  lemma LongPartIsReused(front: string, tail: string, other: string)
    requires |front| > 131_072 && ShortCharacters(front + tail) && ShortCharacters(front + other)
    requires NoLateBlock(front + tail) && NoLateBlock(front + other)
    ensures Cut(front + tail) == Cut(front + other) && Cut(front + tail).Some?
    ensures (front + tail)[..Cut(front + tail).value] == (front + other)[..Cut(front + other).value]
  {
    hide NoLateBlock, ShortCharacters, Cut;
    CutBySize(front + tail);
    CutBySize(front + other);
    var a, b := Cut(front + tail).value, Cut(front + other).value;
    forall j | 0 <= j <= 131_072
      ensures IsBoundary(front + tail, j) <==> IsBoundary(front + other, j)
    {
      assert (front + tail)[j] == front[j] == (front + other)[j];
    }
    assert a == b;
    assert (front + tail)[..a] == front[..a] == (front + other)[..a];
  }
}
