/**
  Responses without markup (openai.rs, dsml_guard.rs): the guard lets all of their
  text and thoughts through, nothing is repaired, and whether they are answered shows
  in what the upstream sent.
*/
module OpenAiPlain {
  import opened Utf8Text
  import opened DsmlGuard
  import opened DsmlGuardLaws
  import opened OpenAiStream
  import opened OpenAiAttempt
  import opened OpenAiLoop
  import opened OpenAiRun
  import opened OpenAiUpstream
  import opened OpenAiWaiting
  import opened OpenAiEndings

  // ---- Text that holds no marker ----------------------------------------------

  /** Every marker has one of these bytes; the last is the middle one of the full-width bar. */
  predicate Marks(c: char) {
    c == '<' || c == '=' || c == '|' || c == '\U{BD}'
  }

  predicate Plain(s: string) {
    forall i :: 0 <= i < |s| ==> !Marks(s[i])
  }

  predicate AllPlain(chunks: seq<string>) {
    forall i :: 0 <= i < |chunks| ==> Plain(chunks[i])
  }

  lemma MarkerMarks(m: string)
    requires m in MARKERS
    ensures '<' in m || '=' in m || '|' in m || '\U{BD}' in m
  {
    if m == "DSML|tool_calls" { assert m[4] == '|'; }
    else if m == "DSML\U{EF}\U{BD}\U{9C}tool_calls" { assert m[5] == '\U{BD}'; }
    else if m == "\U{EF}\U{BD}\U{9C}DSML\U{EF}\U{BD}\U{9C}" { assert m[1] == '\U{BD}'; }
    else if m == "invoke name=" { assert m[11] == '='; }
    else { assert m[0] == '<' || m[0] == '|'; }
  }

  lemma PlainNeverLeaks(s: string)
    requires Plain(s)
    ensures !Leaks(s)
  {
    hide MARKERS;
    forall m | m in MARKERS
      ensures !Contains(s, m)
    {
      MarkerMarks(m);
      ContainsAll(s, m);
    }
  }

  lemma PlainTake(held: string, chunk: string)
    requires Plain(held) && Plain(chunk)
    ensures var t := Take(held, chunk); !t.leaked && Plain(t.held) && Plain(Emitted(t.emit))
    ensures var t := Flush(held); !t.leaked && Plain(t.held) && Plain(Emitted(t.emit))
  {
    hide Leaks, HoldLen;
    PlainNeverLeaks(held);
    PlainNeverLeaks(held + chunk);
  }

  lemma {:induction false} PlainFeed(chunks: seq<string>)
    requires AllPlain(chunks)
    ensures !Feed(chunks).leaked && Plain(Feed(chunks).held) && Delivered(chunks) == Concat(chunks)
  {
    hide Take, Plain, Flush;
    PlainFeedHolds(chunks);
    ReleasedAndHeldIsInput(chunks);
    QuietFlush(chunks);
  }

  lemma {:induction false} PlainFeedHolds(chunks: seq<string>)
    requires AllPlain(chunks)
    ensures !Feed(chunks).leaked && Plain(Feed(chunks).held)
  {
    hide Take, Flush;
    if chunks != [] {
      PlainFeedHolds(chunks[..|chunks| - 1]);
      PlainTake(Feed(chunks[..|chunks| - 1]).held, chunks[|chunks| - 1]);
    }
  }

  // ---- An attempt without markup ----------------------------------------------

  /** Nothing in the attempt has a byte of a marker, and nothing was reported. */
  predicate PlainAttempt(a: Attempt) {
    && Plain(a.text) && Plain(a.held) && Plain(a.reasoning) && Plain(a.textHold) && Plain(a.reasoningHold)
    && !a.leaked && a.leakBlob == ""
  }

  predicate PlainPiece(piece: Piece) {
    && (piece.ContentPiece? ==> Plain(piece.content))
    && (piece.ReasoningPiece? ==> Plain(piece.reasoning))
  }

  lemma PlainRelease(config: Config, a: Attempt, emit: string)
    requires config.claudeCode && PlainAttempt(a) && Plain(emit)
    ensures PlainAttempt(Release(config, a, emit))
  {
    hide Blank;
  }

  lemma PlainStep(config: Config, a: Attempt, piece: Piece)
    requires config.claudeCode && PlainAttempt(a) && PlainPiece(piece)
    ensures PlainAttempt(Step(config, a, piece))
  {
    hide Take, Release, MergeAll, Plain;
    match piece
    case UsagePiece(_) =>
    case FinishPiece(_) =>
    case ContentPiece(content) =>
      PlainTake(a.textHold, content);
      var t := Take(a.textHold, content);
      if t.emit.Some? { PlainRelease(config, a.(textHold := t.held), t.emit.value); }
    case ReasoningPiece(reasoning) =>
      PlainTake(a.reasoningHold, reasoning);
      PlainAppend(a.reasoning, Emitted(Take(a.reasoningHold, reasoning).emit));
    case CallsPiece(_) =>
  }

  lemma PlainAppend(a: string, b: string)
    requires Plain(a) && Plain(b)
    ensures Plain(a + b)
  {
  }

  lemma {:induction false} PlainSteps(config: Config, a: Attempt, pieces: seq<Piece>)
    requires config.claudeCode && PlainAttempt(a) && forall i :: 0 <= i < |pieces| ==> PlainPiece(pieces[i])
    ensures PlainAttempt(Steps(config, a, pieces))
    decreases |pieces|
  {
    hide Step, PlainAttempt, PlainPiece;
    if pieces != [] {
      PlainStep(config, a, pieces[0]);
      PlainSteps(config, Step(config, a, pieces[0]), pieces[1..]);
    }
  }

  lemma PlainFlush(config: Config, a: Attempt)
    requires config.claudeCode && PlainAttempt(a)
    ensures PlainAttempt(Flushed(config, a))
  {
    hide Flush, Release, Plain;
    PlainTake(a.textHold, "") by { assert Plain("") by { NothingIsPlain(); } }
    PlainTake(a.reasoningHold, "") by { assert Plain("") by { NothingIsPlain(); } }
    var t := Flush(a.textHold);
    if t.emit.Some? { PlainRelease(config, a.(textHold := t.held), t.emit.value); }
    var b := FlushText(config, a);
    assert PlainAttempt(b);
    KeepsReasoning(config, a);
    PlainAppend(b.reasoning, Emitted(Flush(b.reasoningHold).emit));
  }

  lemma KeepsReasoning(config: Config, a: Attempt)
    ensures FlushText(config, a).reasoningHold == a.reasoningHold
  {
    hide Blank;
  }

  lemma NothingIsPlain()
    ensures Plain("")
  {
  }

  // ---- A response without markup ----------------------------------------------

  /** No content and no reasoning of the response has a byte of a marker. */
  predicate PlainResponse(items: seq<Item>) {
    && AllPlain(ContentsIn(ChoicesOf(Heard(items))))
    && AllPlain(ReasoningsIn(ChoicesOf(Heard(items))))
  }

  lemma {:induction false} PiecesArePlain(pieces: seq<Piece>)
    requires AllPlain(Contents(pieces)) && AllPlain(Reasonings(pieces))
    ensures forall i :: 0 <= i < |pieces| ==> PlainPiece(pieces[i])
  {
    hide Plain;
    if pieces != [] {
      var front, last := pieces[..|pieces| - 1], pieces[|pieces| - 1];
      FrontIsPlain(Contents(front), Contents(pieces));
      FrontIsPlain(Reasonings(front), Reasonings(pieces));
      PiecesArePlain(front);
      if last.ContentPiece? { assert Contents(pieces)[|Contents(front)|] == last.content; }
      if last.ReasoningPiece? { assert Reasonings(pieces)[|Reasonings(front)|] == last.reasoning; }
      forall i | 0 <= i < |pieces|
        ensures PlainPiece(pieces[i])
      {
        if i < |front| { assert front[i] == pieces[i]; }
      }
    }
  }

  lemma FrontIsPlain(front: seq<string>, chunks: seq<string>)
    requires front <= chunks && AllPlain(chunks)
    ensures AllPlain(front)
  {
    hide Plain;
    forall i | 0 <= i < |front|
      ensures Plain(front[i])
    {
      assert front[i] == chunks[i];
    }
  }

  lemma FinalIsPlain(config: Config, items: seq<Item>)
    requires config.claudeCode && PlainResponse(items)
    ensures PlainAttempt(Final(config, items))
  {
    hide Plain, Steps, PlainAttempt, Flushed, Contents, Reasonings, Pieces, AllPlain;
    ResponseIsHeard(items);
    PiecesArePlain(Pieces(items));
    assert PlainAttempt(Start(config)) by { StartIsPlain(config); }
    PlainSteps(config, Start(config), Pieces(items));
    PlainFlush(config, Read(config, items));
  }

  lemma StartIsPlain(config: Config)
    ensures PlainAttempt(Start(config))
  {
  }

  lemma PlainIsUnrepaired(config: Config, f: Attempt)
    requires PlainAttempt(f)
    ensures !TriesRepair(f) && !RepairPanics(f) && Repaired(config, f).None? && FinalCalls(config, f) == f.calls
    ensures !Unrepaired(config, f)
  {
    hide Leaks, Plain;
    PlainAppend(f.reasoning, "\n") by { assert Plain("\n") by { NewlineIsPlain(); } }
    PlainAppend(f.reasoning + "\n", f.text);
    assert f.leakBlob == "";
    PlainNeverLeaks(f.text);
    PlainNeverLeaks(f.reasoning);
    PlainNeverLeaks(Blob(f));
  }

  lemma NewlineIsPlain()
    ensures Plain("\n")
  {
  }

  /**
    A whole response to ClaudeCode without markup never crashes and no call is made up
    for it: all its text and thoughts are let through, its calls are the upstream's, and
    it is answered if it says anything, carries a call, or something can stand in.
  */
  lemma PlainIsServed(config: Config, items: seq<Item>)
    requires config.claudeCode && PlainResponse(items) && Break(items).None?
    ensures var choices := ChoicesOf(Heard(items));
      && Text(items) == Concat(ContentsIn(choices)) && Thought(items) == Concat(ReasoningsIn(choices))
      && !Crashed(config, Opened(items)) && !Unrepaired(config, Final(config, items))
      && (FinalCalls(config, Final(config, items)) == [] <==> AllCallsIn(choices) == [])
      && (IsAnswered(config, items) <==>
            || !Blank(Concat(ContentsIn(choices))) || AllCallsIn(choices) != []
            || !Blank(Concat(ReasoningsIn(choices))) || config.probe != NotAProbe)
  {
    hide Blank, Plain, Leaks, Flushed, Read, Unrepaired, Supplement, RepairPanics, Concat, Delivered, FinalCalls, PlainAttempt, ChoicesOf, Heard;
    var f, choices := Final(config, items), ChoicesOf(Heard(items));
    FinalIsPlain(config, items);
    PlainIsUnrepaired(config, f);
    FinalSays(config, items);
    PlainFeed(ContentsIn(choices));
    PlainFeed(ReasoningsIn(choices));
    EmptyFails(config, items);
    assert !Leaks(f.reasoning) by { ReasoningIsPlain(f); }
  }

  lemma ReasoningIsPlain(f: Attempt)
    requires PlainAttempt(f)
    ensures !Leaks(f.reasoning)
  {
    hide Plain, Leaks;
    PlainNeverLeaks(f.reasoning);
  }
}
