/**
  Where canonical/mod.rs cuts a long user text into a stable part, which the
  provider caches, and a tail that may change from turn to turn.
*/
module StableSplit {
  import opened Utf8Text

  const FENCE := "```rust"
  const FENCE_END := "\n```"
  const FENCE_STABLE_MIN: nat := 1024
  const CHUNK_MIN: nat := 65_536
  const STABLE_TARGET: nat := 131_072

  predicate IsBreak(c: char) {
    c == '\n' || c == '\r'
  }

  function SkipBreaks(text: string, i: nat): (k: nat)
    requires i <= |text|
    ensures i <= k <= |text| && (k < |text| ==> !IsBreak(text[k]))
    ensures forall j :: i <= j < k ==> IsBreak(text[j])
    decreases |text| - i
  {
    if i < |text| && IsBreak(text[i]) then SkipBreaks(text, i + 1) else i
  }

  /** The end of the first fenced block and the line breaks behind it, if more text follows. */
  function FenceSplit(text: string): (k: Option<nat>)
    ensures k.Some? ==> 0 < k.value < |text|
  {
    var start := IndexFrom(text, FENCE, 0);
    if start.None? then None
    else
      var close := IndexFrom(text, FENCE_END, start.value + |FENCE|);
      if close.None? then None
      else
        var k := SkipBreaks(text, close.value + |FENCE_END|);
        if k < |text| then Some(k) else None
  }

  /** The last character boundary at or before the offset. */
  function BoundaryBefore(text: string, i: nat): (k: nat)
    requires i <= |text|
    ensures k <= i && (k == 0 || IsBoundary(text, k))
  {
    if i == 0 || IsBoundary(text, i) then i else BoundaryBefore(text, i - 1)
  }

  function ByteSplit(text: string, target: nat): (k: nat)
    ensures k <= |text|
  {
    if |text| <= target then |text| else BoundaryBefore(text, target)
  }

  /** Where the text is cut, None if it stays whole. */
  function Cut(text: string): (k: Option<nat>)
    ensures k.Some? ==> k.value < |text|
  {
    var fence := FenceSplit(text);
    if fence.Some? && fence.value >= FENCE_STABLE_MIN then fence
    else if |text| < CHUNK_MIN then None
    else if ByteSplit(text, STABLE_TARGET) < |text| then Some(ByteSplit(text, STABLE_TARGET))
    else None
  }

  // ---- The finders, in place --------------------------------------------------

  method FindRustCodeblockTailSplit(text: string) returns (k: Option<nat>)
    ensures k == FenceSplit(text)
  {
    var start := IndexFrom(text, FENCE, 0);
    if start.None? { return None; }
    var close := IndexFrom(text, FENCE_END, start.value + |FENCE|);
    if close.None? { return None; }
    var i := close.value + |FENCE_END|;
    while i < |text| && IsBreak(text[i])
      invariant i <= |text| && SkipBreaks(text, i) == SkipBreaks(text, close.value + |FENCE_END|)
    {
      i := i + 1;
    }
    k := if i > start.value && i < |text| then Some(i) else None;
  }

  method FindUtf8ByteSplitIndex(text: string, target: nat) returns (k: nat)
    ensures k == ByteSplit(text, target)
  {
    if |text| <= target { return |text|; }
    k := target;
    while k > 0 && !IsBoundary(text, k)
      invariant k <= |text| && BoundaryBefore(text, k) == BoundaryBefore(text, target)
    {
      k := k - 1;
    }
  }

  method SplitUserTextStableTail(text: string) returns (stable: string, tail: Option<string>)
    ensures stable + (if tail.Some? then tail.value else "") == text
    ensures tail.None? <==> Cut(text).None?
    ensures tail.Some? ==> tail.value != "" && |stable| == Cut(text).value
  {
    hide FenceSplit, ByteSplit;
    var fence := FindRustCodeblockTailSplit(text);
    if fence.Some? {
      stable, tail := text[..fence.value], Some(text[fence.value..]);
      if tail.value != "" && |stable| >= FENCE_STABLE_MIN { return; }
    }
    if |text| < CHUNK_MIN { return text, None; }
    var k := FindUtf8ByteSplitIndex(text, STABLE_TARGET);
    if k < |text| { return text[..k], Some(text[k..]); }
    stable, tail := text, None;
  }

  // ---- The cached part depends only on itself ---------------------------------

  lemma OccursInFront(front: string, back: string, pattern: string, i: nat)
    requires i + |pattern| <= |front|
    ensures OccursAt(front + back, pattern, i) <==> OccursAt(front, pattern, i)
  {
    assert (front + back)[i..i + |pattern|] == front[i..i + |pattern|];
  }

  /** A first occurrence inside the front does not depend on what follows. */
  lemma FirstInFront(front: string, back: string, other: string, pattern: string, i: nat)
    requires IndexFrom(front + back, pattern, i).Some?
    requires IndexFrom(front + back, pattern, i).value + |pattern| <= |front|
    ensures IndexFrom(front + other, pattern, i) == IndexFrom(front + back, pattern, i)
  {
    hide OccursAt;
    var k := IndexFrom(front + back, pattern, i).value;
    OccursInFront(front, back, pattern, k);
    OccursInFront(front, other, pattern, k);
    forall j: nat | i <= j < k
      ensures !OccursAt(front + other, pattern, j)
    {
      OccursInFront(front, back, pattern, j);
      OccursInFront(front, other, pattern, j);
    }
  }

  lemma {:induction false} BreaksInFront(front: string, other: string, i: nat)
    requires i <= |front| && forall j :: i <= j < |front| ==> IsBreak(front[j])
    requires other == "" || !IsBreak(other[0])
    ensures SkipBreaks(front + other, i) == |front|
    decreases |front| - i
  {
    if i < |front| {
      assert (front + other)[i] == front[i];
      BreaksInFront(front, other, i + 1);
    } else if other != "" {
      assert (front + other)[i] == other[0];
    }
  }

  /**
    If the fence split of a text is behind `front`, then with any other tail it is
    there again exactly when that tail has something in it and does not start with
    a line break.
  */
  lemma FenceSplitDependsOnFront(front: string, tail: string, other: string)
    requires FenceSplit(front + tail) == Some(|front|)
    ensures FenceSplit(front + other) == Some(|front|) <==> other != "" && !IsBreak(other[0])
  {
    hide OccursAt, IndexFrom, SkipBreaks;
    var text := front + tail;
    var start := IndexFrom(text, FENCE, 0).value;
    var close := IndexFrom(text, FENCE_END, start + |FENCE|).value;
    OccurrenceEnds(text, FENCE_END, close);
    assert SkipBreaks(text, close + |FENCE_END|) == |front|;
    FirstInFront(front, tail, other, FENCE, 0);
    FirstInFront(front, tail, other, FENCE_END, start + |FENCE|);
    forall j | close + |FENCE_END| <= j < |front|
      ensures IsBreak(front[j])
    {
      assert text[j] == front[j];
    }
    if other == "" || !IsBreak(other[0]) {
      BreaksInFront(front, other, close + |FENCE_END|);
    } else {
      assert (front + other)[|front|] == other[0];
    }
  }

  lemma OccurrenceEnds(text: string, pattern: string, i: nat)
    requires OccursAt(text, pattern, i)
    ensures i + |pattern| <= |text|
  {
  }

  /** So a long enough fenced block is cached as the same bytes whatever follows it. */
  lemma StablePartIsReused(front: string, tail: string, other: string)
    requires FenceSplit(front + tail) == Some(|front|) && |front| >= FENCE_STABLE_MIN
    requires other != "" && !IsBreak(other[0])
    ensures Cut(front + other) == Cut(front + tail) == Some(|front|)
    ensures (front + other)[..Cut(front + other).value] == (front + tail)[..Cut(front + tail).value] == front
  {
    hide FenceSplit, ByteSplit;
    FenceSplitDependsOnFront(front, tail, other);
    FenceSplitDependsOnFront(front, tail, tail);
  }

  // ---- Character boundaries ---------------------------------------------------

  /** The text is cut between two characters. */
  lemma CutIsBoundary(text: string)
    requires Encoded(text) && Cut(text).Some?
    ensures IsBoundary(text, Cut(text).value)
  {
    hide IndexFrom;
    var fence := FenceSplit(text);
    if fence.Some? {
      var start := IndexFrom(text, FENCE, 0).value;
      var close := IndexFrom(text, FENCE_END, start + |FENCE|).value;
      var k := fence.value;
      AsciiBefore(text, close, k);
    }
    if |text| > STABLE_TARGET && BoundaryBefore(text, STABLE_TARGET) == 0 { assert Encoded(text); }
  }

  lemma AsciiBefore(text: string, close: nat, k: nat)
    requires OccursAt(text, FENCE_END, close) && close + |FENCE_END| <= k < |text|
    requires forall j :: close + |FENCE_END| <= j < k ==> IsBreak(text[j])
    ensures text[k - 1] < '\U{80}'
  {
    if k == close + |FENCE_END| {
      assert text[close..close + |FENCE_END|][3] == text[k - 1];
    }
  }
}
