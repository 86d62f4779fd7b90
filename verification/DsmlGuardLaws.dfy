/**
  What the guard of dsml_guard.rs promises over a whole stream: which text comes
  out for which chunks, and for which markers the promise holds.
*/
module DsmlGuardLaws {
  import opened Utf8Text
  import opened DsmlGuard

  // ---- A whole stream ---------------------------------------------------------

  /** Everything released so far, what is held, and whether markup was ever reported. */
  datatype Run = Run(released: string, held: string, leaked: bool)

  function Emitted(emit: Option<string>): string {
    if emit.Some? then emit.value else ""
  }

  function StepRun(run: Run, chunk: string): Run {
    var t := Take(run.held, chunk);
    Run(run.released + Emitted(t.emit), t.held, run.leaked || t.leaked)
  }

  function Feed(chunks: seq<string>): Run {
    if chunks == [] then Run("", "", false) else StepRun(Feed(chunks[..|chunks| - 1]), chunks[|chunks| - 1])
  }

  /** What a client sees of the stream: the releases and the final flush. */
  function Delivered(chunks: seq<string>): string {
    var run := Feed(chunks);
    run.released + Emitted(Flush(run.held).emit)
  }

  // ---- Conservation -----------------------------------------------------------

  /** Nothing is lost, invented or reordered: released and held text is the input. */
  lemma {:induction false} ReleasedAndHeldIsInput(chunks: seq<string>)
    ensures Feed(chunks).released + Feed(chunks).held == Concat(chunks)
  {
    hide Leaks, HoldLen;
    ConcatEnd(chunks);
    if chunks != [] {
      ReleasedAndHeldIsInput(chunks[..|chunks| - 1]);
      TakeConserves(Feed(chunks[..|chunks| - 1]), chunks[|chunks| - 1]);
    }
  }

  lemma TakeConserves(run: Run, chunk: string)
    ensures StepRun(run, chunk).released + StepRun(run, chunk).held == run.released + run.held + chunk
  {
    hide Take;
    var t := Take(run.held, chunk);
    TakeKeeps(run.held, chunk);
    assert (run.released + Emitted(t.emit)) + t.held == run.released + (Emitted(t.emit) + t.held);
    assert run.released + (run.held + chunk) == run.released + run.held + chunk;
  }

  lemma TakeKeeps(held: string, chunk: string)
    ensures Emitted(Take(held, chunk).emit) + Take(held, chunk).held == held + chunk
  {
    hide Leaks, HoldLen;
    var text := held + chunk;
    assert text[..|text| - HoldLen(text)] + text[|text| - HoldLen(text)..] == text;
    assert "" + text == text && text + "" == text && held + "" == held;
  }

  // ---- Silence after a report -------------------------------------------------

  /** Once markup is reported the held text keeps it, so no later chunk and no flush releases anything. */
  lemma {:induction false} SilentAfterReport(chunks: seq<string>, more: seq<string>)
    requires Feed(chunks).leaked
    ensures Feed(chunks + more).leaked && Leaks(Feed(chunks + more).held)
    ensures Feed(chunks + more).released == Feed(chunks).released == Delivered(chunks + more)
    decreases |more|
  {
    hide Leaks, HoldLen, Feed;
    if more == [] {
      assert chunks + more == chunks;
      ReportKeepsMarkup(chunks);
      NoMoreAfterMarkup(Feed(chunks), "");
    } else {
      var front, last := more[..|more| - 1], more[|more| - 1];
      SilentAfterReport(chunks, front);
      FeedUnfold(chunks + front, last);
      assert chunks + front + [last] == chunks + more;
      NoMoreAfterMarkup(Feed(chunks + front), last);
    }
  }

  lemma FeedUnfold(chunks: seq<string>, last: string)
    ensures Feed(chunks + [last]) == StepRun(Feed(chunks), last)
  {
    assert (chunks + [last])[..|chunks|] == chunks;
  }

  lemma NoMoreAfterMarkup(run: Run, chunk: string)
    requires Leaks(run.held) && run.leaked
    ensures Leaks(StepRun(run, chunk).held) && StepRun(run, chunk).leaked
    ensures StepRun(run, chunk).released == run.released
    ensures run.released + Emitted(Flush(run.held).emit) == run.released
    ensures StepRun(run, chunk).released + Emitted(Flush(StepRun(run, chunk).held).emit) == run.released
  {
    hide Leaks, HoldLen;
    LeaksExtends(run.held, chunk);
    assert run.released + "" == run.released;
  }

  lemma {:induction false} ReportKeepsMarkup(chunks: seq<string>)
    requires Feed(chunks).leaked
    ensures Leaks(Feed(chunks).held)
  {
    hide Leaks, HoldLen;
    var before := Feed(chunks[..|chunks| - 1]);
    if before.leaked {
      ReportKeepsMarkup(chunks[..|chunks| - 1]);
      LeaksExtends(before.held, chunks[|chunks| - 1]);
    }
  }

  lemma LeaksExtends(text: string, more: string)
    requires Leaks(text)
    ensures Leaks(text + more)
  {
    hide MARKERS;
    var m :| m in MARKERS && Contains(text, m);
    ContainsExtends(text, more, m);
  }

  lemma ContainsExtends(text: string, more: string, pattern: string)
    requires Contains(text, pattern)
    ensures Contains(text + more, pattern)
  {
    var i :| 0 <= i <= |text| && OccursAt(text, pattern, i);
    assert (text + more)[i..i + |pattern|] == text[i..i + |pattern|];
    assert OccursAt(text + more, pattern, i);
  }

  // ---- Completeness for the marker that repair depends on --------------------

  /** The last n bytes of the text start the invoke marker without completing it. */
  predicate EndsInInvoke(text: string, n: nat) {
    0 < n < |INVOKE| && n <= |text| && text[|text| - n..] == INVOKE[..n]
  }

  /** No marker so far, and every beginning of one is still held back. */
  ghost predicate Covered(run: Run) {
    && !Contains(run.released + run.held, INVOKE)
    && forall n: nat :: EndsInInvoke(run.released + run.held, n) ==> n <= |run.held|
  }

  /** A client never sees "invoke name=", however the stream is cut into chunks. */
  lemma {:induction false} InvokeNeverDelivered(chunks: seq<string>)
    ensures !Contains(Delivered(chunks), INVOKE)
  {
    hide Leaks, Contains;
    var run := Feed(chunks);
    FeedIsCovered(chunks);
    if !run.leaked {
      assert Delivered(chunks) + "" == Delivered(chunks);
      if Flush(run.held).emit == None {
        assert run.released + "" == run.released;
        PrefixIsClean(run.released, run.held);
      }
    } else {
      assert chunks + [] == chunks;
      SilentAfterReport(chunks, []);
    }
  }

  lemma {:induction false} FeedIsCovered(chunks: seq<string>)
    ensures !Feed(chunks).leaked ==> Covered(Feed(chunks))
    ensures !Contains(Feed(chunks).released, INVOKE)
  {
    hide Leaks, HoldLen, Contains, Covered, StepRun;
    if chunks == [] {
      EmptyIsCovered();
    } else {
      var before, chunk := Feed(chunks[..|chunks| - 1]), chunks[|chunks| - 1];
      FeedIsCovered(chunks[..|chunks| - 1]);
      if before.leaked { ReportKeepsMarkup(chunks[..|chunks| - 1]); }
      StepKeepsCovered(before, chunk);
    }
  }

  lemma EmptyIsCovered()
    ensures Covered(Run("", "", false)) && !Contains("", INVOKE)
  {
    assert "" + "" == "";
  }

  lemma PrefixIsClean(text: string, more: string)
    requires !Contains(text + more, INVOKE)
    ensures !Contains(text, INVOKE)
  {
    if Contains(text, INVOKE) { ContainsExtends(text, more, INVOKE); }
  }

  lemma StepKeepsCovered(run: Run, chunk: string)
    requires !Contains(run.released, INVOKE)
    requires !run.leaked ==> Covered(run)
    requires run.leaked ==> Leaks(run.held)
    ensures !StepRun(run, chunk).leaked ==> Covered(StepRun(run, chunk))
    ensures !Contains(StepRun(run, chunk).released, INVOKE)
  {
    hide Leaks, HoldLen, Contains, Covered;
    var text := run.held + chunk;
    if run.leaked {
      LeaksExtends(run.held, chunk);
      assert run.released + "" == run.released;
    } else if chunk == "" || Leaks(text) {
      assert run.released + "" == run.released;
    } else {
      NoMarkerAcrossChunks(run, chunk);
      ExtensionIsCovered(run, chunk);
      var next := StepRun(run, chunk);
      TakeConserves(run, chunk);
      PrefixIsClean(next.released, next.held);
    }
  }

  /** A marker across the boundary would have begun in released text, which the invariant excludes. */
  lemma NoMarkerAcrossChunks(run: Run, chunk: string)
    requires Covered(run) && !Leaks(run.held + chunk)
    ensures !Contains(run.released + run.held + chunk, INVOKE)
  {
    hide Leaks, Contains;
    if Contains(run.held + chunk, INVOKE) {
      InvokeLeaks(run.held + chunk);
    } else {
      MarkerIsSomewhere(run.released, run.held, chunk);
    }
  }

  lemma MarkerIsSomewhere(released: string, held: string, chunk: string)
    requires !Contains(released + held, INVOKE) && !Contains(held + chunk, INVOKE)
    ensures Contains(released + held + chunk, INVOKE)
      ==> exists n: nat :: n > |held| && EndsInInvoke(released + held, n)
  {
    var seen := released + held;
    if Contains(seen + chunk, INVOKE) {
      var i: nat :| i <= |seen + chunk| && OccursAt(seen + chunk, INVOKE, i);
      Located(released, held, chunk, i);
      assert EndsInInvoke(seen, |seen| - i);
    }
  }

  lemma Located(released: string, held: string, chunk: string, i: nat)
    requires !Contains(released + held, INVOKE) && !Contains(held + chunk, INVOKE)
    requires OccursAt(released + held + chunk, INVOKE, i)
    ensures i < |released| && EndsInInvoke(released + held, |released + held| - i)
  {
    var seen := released + held;
    assert released + (held + chunk) == seen + chunk;
    if i >= |released| { AtPart(released, held + chunk, i); }
    if i + |INVOKE| <= |seen| { AtFront(seen, chunk, i); }
    assert seen[i..] == (seen + chunk)[i..i + |INVOKE|][..|seen| - i];
  }

  lemma SliceOfPart(a: string, b: string, i: nat, j: nat)
    requires i <= j <= |b|
    ensures (a + b)[|a| + i..|a| + j] == b[i..j]
  {
    forall k | 0 <= k < j - i
      ensures (a + b)[|a| + i..|a| + j][k] == b[i..j][k]
    {
    }
  }

  lemma AtPart(a: string, b: string, i: nat)
    requires i >= |a|
    ensures OccursAt(a + b, INVOKE, i) ==> Contains(b, INVOKE)
  {
    if OccursAt(a + b, INVOKE, i) {
      var j := i - |a|;
      SliceOfPart(a, b, j, j + |INVOKE|);
      assert OccursAt(b, INVOKE, j);
    }
  }

  lemma AtFront(a: string, b: string, i: nat)
    requires i + |INVOKE| <= |a|
    ensures OccursAt(a + b, INVOKE, i) ==> Contains(a, INVOKE)
  {
    if OccursAt(a + b, INVOKE, i) {
      assert a[i..i + |INVOKE|] == (a + b)[i..i + |INVOKE|];
      assert OccursAt(a, INVOKE, i);
    }
  }

  lemma InvokeLeaks(text: string)
    requires Contains(text, INVOKE)
    ensures Leaks(text)
  {
    hide Contains;
    assert INVOKE in MARKERS;
  }

  lemma ExtensionIsCovered(run: Run, chunk: string)
    requires Covered(run) && chunk != "" && !Leaks(run.held + chunk)
    requires !Contains(run.released + run.held + chunk, INVOKE)
    ensures Covered(StepRun(run, chunk))
  {
    hide Leaks, HoldLen, Contains, EndsInInvoke, StepRun;
    TakeConserves(run, chunk);
    forall n: nat | EndsInInvoke(run.released + run.held + chunk, n)
      ensures n <= |StepRun(run, chunk).held|
    {
      EndingIsHeld(run, chunk, n);
    }
  }

  lemma EndingIsHeld(run: Run, chunk: string, n: nat)
    requires Covered(run) && chunk != "" && !Leaks(run.held + chunk)
    requires EndsInInvoke(run.released + run.held + chunk, n)
    ensures n <= |StepRun(run, chunk).held|
  {
    hide Leaks, HoldLen, Contains, EndsInInvoke;
    var text := run.held + chunk;
    assert run.released + run.held + chunk == run.released + text;
    if n <= |text| {
      EndsInPart(run.released, text, n);
      HoldCoversInvoke(text, n);
    } else {
      EndsEarlier(run.released + run.held, chunk, n);
    }
  }

  lemma EndsInPart(before: string, text: string, n: nat)
    requires EndsInInvoke(before + text, n) && n <= |text|
    ensures EndsInInvoke(text, n)
  {
    assert text[|text| - n..] == (before + text)[|before + text| - n..];
  }

  lemma EndsEarlier(seen: string, chunk: string, n: nat)
    requires EndsInInvoke(seen + chunk, n) && n > |chunk|
    ensures EndsInInvoke(seen, n - |chunk|)
  {
    var k := n - |chunk|;
    assert seen[|seen| - k..] == (seen + chunk)[|seen + chunk| - n..][..k];
    assert INVOKE[..n][..k] == INVOKE[..k];
  }

  /** The hold is at least as long as any beginning of the marker at the end of the text. */
  lemma HoldCoversInvoke(text: string, n: nat)
    requires EndsInInvoke(text, n)
    ensures HoldLen(text) >= n
  {
    hide Contains, Suspect, RFindUpTo;
    OpenerBeforeInvoke(text, n, "<invoke", "invoke name", "</invoke>");
    OpenerBeforeInvoke(text, n, "<parameter", "parameter name", "</parameter>");
    InvokeIsSuspect(text, n);
    forall k: nat | 1 <= k < n
      ensures !Suspect(text, k)
    {
      assert text[|text| - k] == INVOKE[n - k];
      NotSuspect(text, k);
    }
    HoldFromIs(text, 1, Min(MAX_HOLD, |text|), n);
  }

  lemma OpenerBeforeInvoke(text: string, n: nat, opener: string, named: string, close: string)
    requires EndsInInvoke(text, n) && opener != "" && opener[0] == '<'
    ensures OpenerHold(text, opener, named, close) > 0 ==> OpenerHold(text, opener, named, close) >= n
  {
    hide Contains, RFindUpTo;
    var k := RFind(text, opener);
    if k.Some? && |text| - n < k.value < |text| { NoOpenerInside(text, n, opener, k.value); }
  }

  lemma NoOpenerInside(text: string, n: nat, opener: string, j: nat)
    requires EndsInInvoke(text, n) && opener != "" && opener[0] == '<'
    requires |text| - n < j < |text|
    ensures !OccursAt(text, opener, j)
  {
    assert text[j] == INVOKE[j - (|text| - n)];
    assert text[j] != opener[0];
  }

  lemma InvokeIsSuspect(text: string, n: nat)
    requires EndsInInvoke(text, n)
    ensures Suspect(text, n)
  {
    assert text[|text| - n] == INVOKE[0];
    assert INVOKE in PREFIXES;
  }

  predicate CanStart(c: char) {
    c == '<' || c == 'i' || c == 'D' || c == '|' || c == '\U{EF}'
  }

  lemma PrefixesStart(m: string)
    requires m in PREFIXES
    ensures m != "" && CanStart(m[0])
  {
  }

  lemma NotSuspect(text: string, n: nat)
    requires 0 < n <= |text|
    requires !CanStart(text[|text| - n])
    ensures !Suspect(text, n)
  {
    hide PREFIXES;
    var suffix := text[|text| - n..];
    forall m | m in PREFIXES && |suffix| < |m|
      ensures m[..|suffix|] != suffix
    {
      PrefixesStart(m);
      assert m[..|suffix|][0] == m[0] != suffix[0];
    }
  }

  lemma {:induction false} HoldFromIs(text: string, n: nat, max: nat, hold: nat)
    requires 1 <= n <= hold <= max <= |text| && Suspect(text, hold)
    requires forall k: nat :: n <= k < hold ==> !Suspect(text, k)
    ensures HoldFrom(text, n, max) == hold
    decreases hold - n
  {
    hide Suspect;
    if n < hold { HoldFromIs(text, n + 1, max, hold); }
  }
}
