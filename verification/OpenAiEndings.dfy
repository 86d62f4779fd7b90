/**
  How a response ends for the client (openai.rs), in terms of what the upstream sent:
  what stands in for an empty answer, why an answer stopped, and when an attempt is
  given up.
*/
module OpenAiEndings {
  import opened Utf8Text
  import opened DsmlGuard
  import opened DsmlGuardLaws
  import opened OpenAiStream
  import opened OpenAiAttempt
  import opened OpenAiLoop
  import opened OpenAiRun
  import opened OpenAiCallChunks
  import opened OpenAiUpstream
  import opened OpenAiWaiting

  // ---- What a response says ---------------------------------------------------

  /** The text that the markup guard lets through. */
  function Text(items: seq<Item>): string {
    Delivered(ContentsIn(ChoicesOf(Heard(items))))
  }

  function Thought(items: seq<Item>): string {
    Delivered(ReasoningsIn(ChoicesOf(Heard(items))))
  }

  function Final(config: Config, items: seq<Item>): Attempt {
    Flushed(config, Read(config, items))
  }

  lemma FinalSays(config: Config, items: seq<Item>)
    ensures var f := Final(config, items);
      && f.reasoning == Thought(items) && (config.claudeCode ==> f.text + f.held == Text(items))
      && (f.calls == [] <==> AllCallsIn(ChoicesOf(Heard(items))) == [])
      && StoppedBy(ChoicesOf(Heard(items)), f.finish) && UsedAs(Heard(items), f.usage)
  {
    hide Flushed, Settled, MergeAll, Steps, Delivered, StoppedBy, UsedAs, Visible, OnlyText, Contents, Reasonings, CallDeltas;
    hide ContentsIn, ReasoningsIn, AllCallsIn, ChoicesOf, Heard, Pieces, LastFinish, LastUsage;
    var f, pieces := Final(config, items), Pieces(items);
    ReadSettles(config, items);
    SettledSays(config, f, pieces);
    ResponseIsHeard(items);
    CallsStay([], CallDeltas(pieces));
  }

  lemma SettledSays(config: Config, f: Attempt, pieces: seq<Piece>)
    requires Settled(config, f, pieces)
    ensures f.reasoning == Delivered(Reasonings(pieces)) && f.calls == MergeAll([], CallDeltas(pieces))
    ensures f.finish == LastFinish(pieces) && f.usage == LastUsage(pieces)
    ensures config.claudeCode ==> f.text + f.held == Delivered(Contents(pieces))
  {
    hide Delivered, Visible, OnlyText, MergeAll, Contents, Reasonings, CallDeltas, LastFinish, LastUsage;
    if config.claudeCode { VisibleIsDelivered(config, Contents(pieces)); }
  }

  // ---- Blank text -------------------------------------------------------------

  lemma MarkerHasInk(m: string)
    requires m in MARKERS
    ensures 'D' in m || 'i' in m || 'p' in m
  {
    if m == "<parameter name=" || m == "</parameter>" { assert 'p' in m by { assert m[1] == 'p' || m[2] == 'p'; } }
    else if m == "invoke name=" || m == "<invoke name" || m == "</invoke>" { assert m[0] == 'i' || m[1] == 'i' || m[2] == 'i'; }
    else { assert m[0] == 'D' || m[1] == 'D' || m[2] == 'D' || m[3] == 'D' || m[4] == 'D' || m[5] == 'D'; }
  }

  lemma BlankNeverLeaks(s: string)
    requires Blank(s)
    ensures !Leaks(s)
  {
    hide Blank, MARKERS;
    BlankHasNone(s, 'D');
    BlankHasNone(s, 'i');
    BlankHasNone(s, 'p');
    forall m | m in MARKERS
      ensures !Contains(s, m)
    {
      MarkerHasInk(m);
      ContainsAll(s, m);
    }
  }

  lemma ContainsAll(s: string, m: string)
    ensures Contains(s, m) ==> forall c <- m :: c in s
  {
    hide OccursAt;
    if Contains(s, m) {
      var i :| 0 <= i <= |s| && OccursAt(s, m, i);
      InOccurrence(s, m, i);
    }
  }

  lemma InOccurrence(s: string, m: string, i: nat)
    requires OccursAt(s, m, i)
    ensures forall c <- m :: c in s
  {
    forall c | c in m
      ensures c in s
    {
      var k :| 0 <= k < |m| && m[k] == c;
      assert s[i..i + |m|][k] == s[i + k];
    }
  }

  // ---- An empty answer --------------------------------------------------------

  /** Thoughts that can stand in for an answer. */
  predicate Usable(thought: string) {
    !Blank(thought) && !Leaks(thought)
  }

  /** What stands in for an empty answer: the thoughts, else the reply to a probe. */
  predicate StandsIn(config: Config, thought: string, filling: string) {
    || (Usable(thought) && filling == Trim(thought))
    || (!Usable(thought) && config.probe == OkProbe && filling == "ok")
    || (!Usable(thought) && config.probe == PongProbe && filling == "PONG")
    || (!Usable(thought) && config.probe == PassProbe && filling == "PASS")
  }

  predicate Fillable(config: Config, thought: string) {
    Usable(thought) || config.probe != NotAProbe
  }

  /** Any text or call is an answer; a blank one is filled, if it can be. */
  lemma FilledWith(config: Config, f: Attempt)
    ensures var text := f.text + f.held;
      && (!Blank(text) || FinalCalls(config, f) != [] ==> Supplement(config, f) == Some(""))
      && (Blank(text) && FinalCalls(config, f) == [] ==>
            && (Supplement(config, f).Some? <==> Fillable(config, f.reasoning))
            && (Supplement(config, f).Some? ==> StandsIn(config, f.reasoning, Supplement(config, f).value)))
  {
    hide Blank, Leaks, Trim, FinalCalls;
    if Blank(f.text + f.held) { BlankNeverLeaks(f.text + f.held); }
  }

  /**
    An answer to ClaudeCode is the text let through, as it is if it says anything or
    calls come with it, else followed by what stands in for it.
  */
  lemma AnswerText(config: Config, items: seq<Item>, out: seq<Out>) returns (filling: string)
    requires config.claudeCode && Answers(config, Final(config, items), out)
    ensures TextOf(out) == Text(items) + filling
    ensures !Blank(Text(items)) || CallsOf(out) != [] ==> filling == ""
    ensures Blank(Text(items)) && CallsOf(out) == [] ==> StandsIn(config, Thought(items), filling)
  {
    hide Blank, TextOf, CallsOf, Finish, Unrepaired, Supplement, FinalCalls, Tells, Final, Text, Thought, StandsIn;
    var f := Final(config, items);
    FinalSays(config, items);
    FilledWith(config, f);
    AnswerTellsCalls(config, f, out);
    filling := Supplement(config, f).value;
  }

  /** A whole response without leaked markup fails only if it says nothing, carries no call and nothing can stand in. */
  lemma EmptyFails(config: Config, items: seq<Item>)
    requires config.claudeCode && Break(items).None? && !Unrepaired(config, Final(config, items))
    ensures IsAnswered(config, items) <==>
      && !RepairPanics(Final(config, items))
      && (!Blank(Text(items)) || FinalCalls(config, Final(config, items)) != [] || Fillable(config, Thought(items)))
  {
    hide Blank, Unrepaired, Supplement, FinalCalls, Text, Thought, Fillable, RepairPanics, Flushed, Read;
    FinalSays(config, items);
    FilledWith(config, Final(config, items));
  }

  // ---- Why the answer stopped -------------------------------------------------

  /** The reason as the client is told it. */
  predicate Told(finish: Option<string>, told: string) {
    || (finish == Some("length") && told == "length")
    || (finish == Some("content_filter") && told == "content_filter")
    || (finish != Some("length") && finish != Some("content_filter") && told == "stop")
  }

  /**
    The last chunk of an answer tells the usage, and why it stopped: calls, a tool
    intent that breaks off, or the upstream's reason.
  */
  lemma AnswerStops(config: Config, items: seq<Item>, out: seq<Out>) returns (finish: Option<string>)
    requires Answers(config, Final(config, items), out)
    ensures out[|out| - 2].FinalChunk? && UsedAs(Heard(items), out[|out| - 2].usage)
    ensures StoppedBy(ChoicesOf(Heard(items)), finish)
    ensures var told := out[|out| - 2].finish;
      && (CallsOf(out) != [] ==> told == "tool_calls")
      && (CallsOf(out) == [] && MayWait(config) && config.looksUnfinished(TextOf(out)) ==> told == "length")
      && (CallsOf(out) == [] && !(MayWait(config) && config.looksUnfinished(TextOf(out))) ==> Told(finish, told))
  {
    hide TextOf, CallsOf, Unrepaired, Supplement, FinalCalls, Tells, Final, StoppedBy, UsedAs;
    FinalSays(config, items);
    AnswerTellsCalls(config, Final(config, items), out);
    finish := Final(config, items).finish;
  }

  // ---- Nothing withheld -------------------------------------------------------

  lemma LeakStays(config: Config, a: Attempt)
    ensures a.leaked ==> Flushed(config, a).leaked
  {
    hide Blank, Flush;
  }

  lemma LeakIsKnown(config: Config, read: Attempt, pieces: seq<Piece>)
    requires Knows(config, read, pieces)
    ensures read.leaked <==> Feed(Contents(pieces)).leaked || Feed(Reasonings(pieces)).leaked
  {
    hide OnlyText, Tracks, TracksReasoning, MergeAll, Contents, Reasonings, CallDeltas, Feed;
  }

  lemma QuietDelivers(chunks: seq<string>)
    requires !Feed(chunks).leaked
    ensures Delivered(chunks) == Concat(chunks)
  {
    hide Feed, Flush, Leaks;
    QuietFlush(chunks);
    ReleasedAndHeldIsInput(chunks);
  }

  /**
    An answer without calls withholds nothing: no markup was found in the response, so
    its text and thoughts are what the upstream sent.
  */
  lemma AnswerWithholdsNothing(config: Config, items: seq<Item>, out: seq<Out>)
    requires Answers(config, Final(config, items), out) && CallsOf(out) == []
    ensures var choices := ChoicesOf(Heard(items));
      && !Feed(ContentsIn(choices)).leaked && Text(items) == Concat(ContentsIn(choices))
      && !Feed(ReasoningsIn(choices)).leaked && Thought(items) == Concat(ReasoningsIn(choices))
      && AllCallsIn(choices) == [] && !Leaks(Final(config, items).text)
  {
    hide Blank, TextOf, CallsOf, Finish, Supplement, Repaired, Tells, Flushed, Feed, Delivered, Concat, Steps, Leaks, Knows;
    hide Contents, Reasonings, CallDeltas, ContentsIn, ReasoningsIn, AllCallsIn, ChoicesOf, Heard, Pieces, StoppedBy, UsedAs;
    var f, choices := Final(config, items), ChoicesOf(Heard(items));
    AnswerTellsCalls(config, f, out);
    FinalSays(config, items);
    ReadingKnows(config, Pieces(items));
    LeakIsKnown(config, Read(config, items), Pieces(items));
    LeakStays(config, Read(config, items));
    ResponseIsHeard(items);
    QuietDelivers(ContentsIn(choices));
    QuietDelivers(ReasoningsIn(choices));
  }

  // ---- What a failure says ----------------------------------------------------

  /** Why there is nothing to answer with. */
  predicate EmptyClass(thought: string, finish: Option<string>, kind: string) {
    || (Blank(thought) && kind == "empty_output")
    || (!Blank(thought) && finish == Some("length") && kind == "reasoning_only_length")
    || (!Blank(thought) && finish != Some("length") && kind == "reasoning_only")
  }

  /**
    A failure says what broke, that markup leaked, or that there was nothing, with or
    without thoughts; what was shown before it is all the text that came by then.
  */
  lemma FailureSays(config: Config, items: seq<Item>, out: seq<Out>) returns (finish: Option<string>, kind: string)
    requires Fails(config, Read(config, items), Break(items), out)
    ensures StoppedBy(ChoicesOf(Heard(items)), finish) && EmptyClass(Thought(items), finish, kind) && CallsOf(out) == []
    ensures Break(items).Some? ==> TextOf(out) == Read(config, items).text && out[|out| - 2] == FailureChunk(Break(items).value)
    ensures Break(items).None? && Unrepaired(config, Final(config, items)) ==>
      TextOf(out) == Final(config, items).text
      && out[|out| - 2] == FailureChunk("upstream returned DSML tool markup in text stream")
    ensures Break(items).None? && !Unrepaired(config, Final(config, items)) ==>
      && (config.claudeCode ==> TextOf(out) == Text(items))
      && out[|out| - 2] == FailureChunk("upstream returned no assistant content or tool call" + " (class=" + kind + ")")
  {
    hide Blank, TextOf, CallsOf, Unrepaired, Supplement, FinalCalls, Flushed, Read, StoppedBy, UsedAs, Text, Thought, ChoicesOf, Heard, AllCallsIn;
    var f := Final(config, items);
    FinalSays(config, items);
    finish := f.finish;
    kind := if Blank(f.reasoning) then "empty_output"
              else if f.finish == Some("length") then "reasoning_only_length" else "reasoning_only";
  }

  // ---- When an attempt is given up --------------------------------------------

  /** The client has been sent nothing: it waits for the first text, and none was shown. */
  predicate Unsent(config: Config, shown: string) {
    config.trueFirstToken && shown == ""
  }

  /** A broken response is tried again exactly when it has shown nothing and brought no call. */
  lemma BrokenIsRetried(config: Config, items: seq<Item>, attempt: nat)
    requires Break(items).Some?
    ensures Retry(config, Read(config, items), Break(items), attempt) ==
      if Unsent(config, Read(config, items).text) && AllCallsIn(ChoicesOf(Heard(items))) == [] && attempt < MaxAttempts(config)
      then Some(StreamError) else None
  {
    hide Flushed, Read, Waits, Unrepaired, RepairPanics, Supplement, Knows, Blank, ChoicesOf, Heard, AllCallsIn;
    ResponseWaits(config, items);
    var read := Read(config, items);
    RoleWaits(config, read);
    ReadCalls(config, items);
    assert Blank("") by { NothingIsBlank(); }
  }

  lemma NothingIsBlank()
    ensures Blank("")
  {
  }

  lemma RoleWaits(config: Config, a: Attempt)
    requires Waits(config, a)
    ensures !a.roleSent <==> Unsent(config, a.text)
    ensures !MayWait(config) ==> a.held == ""
  {
    hide ShownFinished;
  }

  lemma ReadCalls(config: Config, items: seq<Item>)
    ensures Read(config, items).calls == [] <==> AllCallsIn(ChoicesOf(Heard(items))) == []
  {
    hide Steps, Knows, MergeAll, Contents, Reasonings, CallDeltas, AllCallsIn, ChoicesOf, Heard, Pieces, StoppedBy, UsedAs;
    ReadingKnows(config, Pieces(items));
    KnowsCalls(config, Read(config, items), Pieces(items));
    ResponseIsHeard(items);
    CallsStay([], CallDeltas(Pieces(items)));
  }

  lemma KnowsCalls(config: Config, a: Attempt, pieces: seq<Piece>)
    requires Knows(config, a, pieces)
    ensures a.calls == MergeAll([], CallDeltas(pieces))
  {
    hide OnlyText, Tracks, TracksReasoning, MergeAll, Contents, Reasonings, CallDeltas, Feed;
  }

  /** Leaked markup that is no call is tried again exactly when nothing was shown. */
  lemma LeakIsRetried(config: Config, items: seq<Item>, attempt: nat)
    requires Break(items).None? && !RepairPanics(Final(config, items)) && Unrepaired(config, Final(config, items))
    ensures Retry(config, Read(config, items), None, attempt) ==
      if Unsent(config, Final(config, items).text) && attempt < MaxAttempts(config) then Some(MarkupLeak) else None
  {
    hide Flushed, Read, Waits, Unrepaired, RepairPanics, Supplement;
    ResponseWaits(config, items);
    RoleWaits(config, Final(config, items));
  }

  /**
    A whole response is given up as an unfinished intent when ClaudeCode offers tools,
    none was called, all it says reads unfinished and nothing of it was shown; and as an
    empty answer when nothing at all was shown or waits, nothing can stand in for it.
  */
  lemma WholeIsRetried(config: Config, items: seq<Item>, attempt: nat)
    requires Break(items).None? && !RepairPanics(Final(config, items)) && !Unrepaired(config, Final(config, items))
    requires attempt < MaxAttempts(config)
    ensures var f := Final(config, items);
      var cause := Retry(config, Read(config, items), None, attempt);
      && (cause == Some(UnfinishedIntent) <==>
            MayWait(config) && FinalCalls(config, f) == [] && Blank(f.text) && config.looksUnfinished(f.text + f.held))
      && (cause == Some(EmptyAnswer) <==>
            && cause != Some(UnfinishedIntent)
            && Unsent(config, f.text + f.held) && FinalCalls(config, f) == [] && !Fillable(config, Thought(items)))
      && (cause.Some? ==> cause in {Some(UnfinishedIntent), Some(EmptyAnswer)})
  {
    hide Flushed, Read, Waits, Unrepaired, RepairPanics, Supplement, FinalCalls, Blank, Fillable, Thought, Text;
    var f := Final(config, items);
    ResponseWaits(config, items);
    RoleWaits(config, f);
    FinalSays(config, items);
    FilledWith(config, f);
    NothingIsBlank();
  }

  /** No attempt is given up when no other is left. */
  lemma LastIsKept(config: Config, read: Attempt, broken: Option<string>, attempt: nat)
    requires attempt >= MaxAttempts(config)
    ensures Retry(config, read, broken, attempt) == None
  {
    hide Flushed, Unrepaired, RepairPanics, Supplement;
  }
}
