/**
  What of a response has been shown and what waits (openai.rs): text that reads like
  an unfinished tool intent is held back, and the role chunk until there is text.
*/
module OpenAiWaiting {
  import opened Utf8Text
  import opened DsmlGuard
  import opened DsmlGuardLaws
  import opened OpenAiStream
  import opened OpenAiAttempt
  import opened OpenAiLoop
  import opened OpenAiRun

  /** Shown are the releases up to the last at which the text read finished. */
  predicate ShownUpTo(config: Config, text: string, fed: seq<string>, k: nat)
    requires k <= |fed|
  {
    && text == Concat(fed[..k])
    && (k > 0 ==> !config.looksUnfinished(Concat(fed[..k])))
    && forall j :: k < j <= |fed| ==> config.looksUnfinished(Concat(fed[..j]))
  }

  predicate ShownFinished(config: Config, text: string, fed: seq<string>) {
    exists k :: 0 <= k <= |fed| && ShownUpTo(config, text, fed, k)
  }

  /** Text waits only for a client and a request that a tool intent can come from. */
  predicate MayWait(config: Config) {
    config.claudeCode && config.offersTools
  }

  predicate Waits(config: Config, a: Attempt) {
    && (a.roleSent <==> !config.trueFirstToken || a.text != "")
    && (MayWait(config) && a.calls == [] ==> ShownFinished(config, a.text, a.fed))
    && (!MayWait(config) ==> a.held == "")
  }

  lemma FedIsText(config: Config, a: Attempt, contents: seq<string>)
    requires Tracks(config, a, contents)
    ensures config.claudeCode ==> a.text + a.held == Concat(a.fed)
  {
    hide Emits, Feed, Shown;
    if config.claudeCode { ShownIsConcat(config, a.fed); }
  }

  lemma ShownAll(config: Config, fed: seq<string>)
    requires fed != [] ==> !config.looksUnfinished(Concat(fed))
    ensures ShownFinished(config, Concat(fed), fed)
  {
    hide Concat;
    assert fed[..|fed|] == fed;
    assert Concat(fed) == Concat(fed[..|fed|]);
    assert ShownUpTo(config, Concat(fed), fed, |fed|);
  }

  lemma ShownStill(config: Config, text: string, fed: seq<string>, emit: string)
    requires ShownFinished(config, text, fed) && config.looksUnfinished(Concat(fed + [emit]))
    ensures ShownFinished(config, text, fed + [emit])
  {
    hide Concat;
    var more := fed + [emit];
    var k :| 0 <= k <= |fed| && ShownUpTo(config, text, fed, k);
    assert forall j :: 0 <= j <= |fed| ==> more[..j] == fed[..j];
    assert more[..|more|] == more;
    assert ShownUpTo(config, text, more, k);
  }

  lemma ReleaseWaits(config: Config, a: Attempt, emit: string)
    requires Waits(config, a) && emit != ""
    requires config.claudeCode ==> a.text + a.held == Concat(a.fed)
    ensures Waits(config, Release(config, a, emit))
  {
    hide Blank, Concat, ShownFinished;
    var fed := a.fed + [emit];
    if config.claudeCode {
      var all := a.text + a.held + emit;
      assert a.text + (a.held + emit) == all;
      ConcatAppend(a.fed, emit);
      if ShouldHold(config, all, a.calls == []) {
        ShownStill(config, a.text, a.fed, emit);
      } else if MayWait(config) && a.calls == [] {
        ShownAll(config, fed);
      }
    }
  }

  lemma EmitIsSomething(held: string, chunk: string)
    ensures Take(held, chunk).emit.Some? ==> Take(held, chunk).emit.value != ""
    ensures Flush(held).emit.Some? ==> Flush(held).emit.value != ""
  {
    hide Leaks, HoldLen;
  }

  lemma StepWaits(config: Config, a: Attempt, front: seq<Piece>, piece: Piece)
    requires Knows(config, a, front) && Waits(config, a)
    ensures Waits(config, Step(config, a, piece))
  {
    hide OnlyText, Take, Tracks, TracksReasoning, Feed, Emits, Release, ShownFinished, MergeAll, Contents, Reasonings, CallDeltas;
    FedIsText(config, a, Contents(front));
    match piece
    case UsagePiece(_) =>
    case FinishPiece(_) =>
    case ContentPiece(content) =>
      var t := Take(a.textHold, content);
      EmitIsSomething(a.textHold, content);
      if t.emit.Some? && !t.leaked { ReleaseWaits(config, a.(textHold := t.held), t.emit.value); }
    case ReasoningPiece(_) =>
    case CallsPiece(deltas) => CallsStay(a.calls, deltas);
  }

  lemma {:induction false} CallsStay(calls: seq<CollectedCall>, deltas: seq<CallDelta>)
    ensures MergeAll(calls, deltas) == [] <==> calls == [] && deltas == []
    decreases |deltas|
  {
    hide Updated;
    if deltas != [] { CallsStay(MergeOne(calls, deltas[0]), deltas[1..]); }
  }

  lemma {:induction false} ReadingWaits(config: Config, pieces: seq<Piece>)
    ensures Waits(config, Steps(config, Start(config), pieces))
  {
    hide Waits, Knows, Steps, Step, Start;
    if pieces == [] {
      StepsNone(config, Start(config));
      StartWaits(config);
    } else {
      var front, last := pieces[..|pieces| - 1], pieces[|pieces| - 1];
      ReadingWaits(config, front);
      ReadingKnows(config, front);
      assert front + [last] == pieces;
      StepsAppend(config, Start(config), front, [last]);
      StepsOne(config, Steps(config, Start(config), front), last);
      StepWaits(config, Steps(config, Start(config), front), front, last);
    }
  }

  lemma StartWaits(config: Config)
    ensures Waits(config, Start(config))
  {
    assert ShownUpTo(config, "", [], 0);
  }

  lemma FlushTextWaits(config: Config, a: Attempt, pieces: seq<Piece>)
    requires Knows(config, a, pieces) && Waits(config, a)
    ensures Waits(config, FlushText(config, a))
  {
    hide OnlyText, Flush, Tracks, TracksReasoning, Feed, Emits, Release, ShownFinished, MergeAll, Contents, Reasonings, CallDeltas;
    FedIsText(config, a, Contents(pieces));
    var t := Flush(a.textHold);
    EmitIsSomething(a.textHold, "");
    if t.emit.Some? && !t.leaked { ReleaseWaits(config, a.(textHold := t.held), t.emit.value); }
  }

  lemma FlushReasoningWaits(config: Config, a: Attempt)
    requires Waits(config, a)
    ensures Waits(config, FlushReasoning(a))
  {
    hide Flush, ShownFinished;
  }

  lemma FlushMarkdownWaits(config: Config, a: Attempt)
    requires Waits(config, a)
    ensures Waits(config, FlushMarkdown(config, a))
  {
    hide ShownFinished;
  }

  lemma FlushWaits(config: Config, a: Attempt, pieces: seq<Piece>)
    requires Knows(config, a, pieces) && Waits(config, a)
    ensures Waits(config, Flushed(config, a))
  {
    hide Knows, Waits, FlushText, FlushReasoning, FlushMarkdown;
    FlushTextWaits(config, a, pieces);
    FlushReasoningWaits(config, FlushText(config, a));
    FlushMarkdownWaits(config, FlushReasoning(FlushText(config, a)));
  }

  /** What is shown and what waits when the response ends, and when it has been flushed. */
  lemma ResponseWaits(config: Config, items: seq<Item>)
    ensures Waits(config, Read(config, items)) && Waits(config, Flushed(config, Read(config, items)))
  {
    hide Waits, Knows, Steps, Flushed;
    ReadingKnows(config, Pieces(items));
    ReadingWaits(config, Pieces(items));
    FlushWaits(config, Read(config, items), Pieces(items));
  }

  // ---- For the client ---------------------------------------------------------

  lemma FedIsAll(config: Config, items: seq<Item>)
    ensures Flushed(config, Read(config, items)).fed == AllEmits(Contents(Pieces(items)))
  {
    hide Tracks, TracksReasoning, OnlyText, Emits, Feed, Flush, Release, Shown, MergeAll, Contents, Reasonings, CallDeltas, Steps, FlushText;
    var read := Read(config, items);
    ReadingKnows(config, Pieces(items));
    TextFlushed(config, read, Contents(Pieces(items)));
  }

  /**
    ClaudeCode with tools on offer and no call in the response is shown what the guard
    lets through up to the last release at which that text reads finished; every other
    client and request is shown all of it.
  */
  lemma IntentIsHeld(config: Config, items: seq<Item>)
    ensures var f := Flushed(config, Read(config, items));
      && (MayWait(config) && f.calls == [] ==> ShownFinished(config, f.text, AllEmits(Contents(Pieces(items)))))
      && (!MayWait(config) ==> f.held == "")
  {
    hide Flushed, Read, ShownFinished, AllEmits, Contents;
    ResponseWaits(config, items);
    FedIsAll(config, items);
  }

  /** What the Markdown stage makes of each release, blank text left out. */
  function Marked(config: Config, fed: seq<string>): seq<string> {
    if fed == [] then []
    else Marked(config, fed[..|fed| - 1]) + (if Blank(config.markdown(fed)) then [] else [config.markdown(fed)])
  }

  lemma {:induction false} ShownIsMarked(config: Config, fed: seq<string>)
    requires !config.claudeCode
    ensures Shown(config, fed) == Concat(Marked(config, fed))
  {
    hide Blank;
    ConcatEnd(Marked(config, fed));
    if fed != [] {
      var front := fed[..|fed| - 1];
      ShownIsMarked(config, front);
      if Blank(config.markdown(fed)) {
        assert Marked(config, front) + [] == Marked(config, front);
        assert Shown(config, front) + "" == Shown(config, front);
      } else {
        ConcatAppend(Marked(config, front), config.markdown(fed));
      }
    } else {
      assert Concat(Marked(config, fed)) == "";
    }
  }

  /** Other clients are shown what the Markdown stage makes of the releases, and what it ends with. */
  lemma OthersSeeMarkdown(config: Config, items: seq<Item>)
    requires !config.claudeCode
    ensures var f, fed := Flushed(config, Read(config, items)), AllEmits(Contents(Pieces(items)));
      f.text == Concat(Marked(config, fed)) + config.markdownEnd(fed)
  {
    hide Flushed, Read, AllEmits, Contents, Marked, Settled, Shown, Steps;
    var f := Flushed(config, Read(config, items));
    ResponseWaits(config, items);
    ReadSettles(config, items);
    ShownIsMarked(config, AllEmits(Contents(Pieces(items))));
    SettledIsVisible(config, f, Pieces(items));
    HoldsNone(config, f);
  }

  lemma SettledIsVisible(config: Config, f: Attempt, pieces: seq<Piece>)
    requires Settled(config, f, pieces)
    ensures f.text + f.held == Visible(config, Contents(pieces))
  {
    hide OnlyText, Visible, MergeAll, Contents, Reasonings, CallDeltas, Delivered;
  }

  lemma HoldsNone(config: Config, f: Attempt)
    requires Waits(config, f) && !config.claudeCode
    ensures f.text + f.held == f.text
  {
    hide ShownFinished;
  }
}
