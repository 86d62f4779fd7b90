/**
  What one attempt of the streaming loop in openai.rs has shown, held and lost by
  the time its response ends, as a function of what the upstream sent.
*/
module OpenAiAttempt {
  import opened Utf8Text
  import opened DsmlGuard
  import opened DsmlGuardLaws
  import opened OpenAiStream

  // ---- What the upstream sent -------------------------------------------------

  function Contents(pieces: seq<Piece>): seq<string> {
    if pieces == [] then [] else
      var last := pieces[|pieces| - 1];
      Contents(pieces[..|pieces| - 1]) + (if last.ContentPiece? then [last.content] else [])
  }

  function Reasonings(pieces: seq<Piece>): seq<string> {
    if pieces == [] then [] else
      var last := pieces[|pieces| - 1];
      Reasonings(pieces[..|pieces| - 1]) + (if last.ReasoningPiece? then [last.reasoning] else [])
  }

  function CallDeltas(pieces: seq<Piece>): seq<CallDelta> {
    if pieces == [] then [] else
      var last := pieces[|pieces| - 1];
      CallDeltas(pieces[..|pieces| - 1]) + (if last.CallsPiece? then last.deltas else [])
  }

  function LastUsage(pieces: seq<Piece>): Option<int> {
    if pieces == [] then None else
      var last := pieces[|pieces| - 1];
      if last.UsagePiece? then Some(last.usage) else LastUsage(pieces[..|pieces| - 1])
  }

  function LastFinish(pieces: seq<Piece>): Option<string> {
    if pieces == [] then None else
      var last := pieces[|pieces| - 1];
      if last.FinishPiece? then Some(last.finish) else LastFinish(pieces[..|pieces| - 1])
  }

  // ---- What the markup guard releases -----------------------------------------

  function AsList(emit: Option<string>): seq<string> {
    if emit.Some? then [emit.value] else []
  }

  /** The releases of the guard, one by one. */
  function Emits(chunks: seq<string>): seq<string> {
    if chunks == [] then [] else
      var front := chunks[..|chunks| - 1];
      Emits(front) + AsList(Take(Feed(front).held, chunks[|chunks| - 1]).emit)
  }

  function AllEmits(chunks: seq<string>): seq<string> {
    Emits(chunks) + AsList(Flush(Feed(chunks).held).emit)
  }

  /** The text those releases become for this client. */
  function Shown(config: Config, fed: seq<string>): string {
    if fed == [] then ""
    else Shown(config, fed[..|fed| - 1]) + ShownLast(config, fed)
  }

  function ShownLast(config: Config, fed: seq<string>): string
    requires fed != []
  {
    var content := if config.claudeCode then fed[|fed| - 1] else config.markdown(fed);
    if Shows(config, content) then content else ""
  }

  /** The text that a whole response comes to, before anything is put in its place. */
  function Visible(config: Config, contents: seq<string>): string {
    Shown(config, AllEmits(contents))
    + (if config.claudeCode then "" else config.markdownEnd(AllEmits(contents)))
  }

  // ---- What has been sent -----------------------------------------------------

  function TextOf(out: seq<Out>): string {
    if out == [] then "" else
      var last := out[|out| - 1];
      TextOf(out[..|out| - 1]) + (if last.TextChunk? then last.text else "")
  }

  function Rank(chunk: Out): nat {
    match chunk
    case RoleChunk => 0
    case TextChunk(_) => 1
    case CallChunk(_, _, _, _) => 2
    case FinalChunk(_, _) => 3
    case FailureChunk(_) => 3
    case Done => 4
  }

  /** Text and calls may repeat; everything else comes once, in this order. */
  predicate Follows(x: Out, y: Out) {
    Rank(x) < Rank(y) || (Rank(x) == Rank(y) && 1 <= Rank(x) <= 2)
  }

  predicate Ordered(out: seq<Out>) {
    forall i :: 0 <= i < |out| - 1 ==> Follows(out[i], out[i + 1])
  }

  /** Nothing but the role chunk and text, the role chunk first. */
  predicate OnlyText(a: Attempt) {
    && Ordered(a.out)
    && (a.roleSent <==> a.out != [])
    && (a.out != [] ==> a.out[0] == RoleChunk && Rank(a.out[|a.out| - 1]) <= 1)
    && TextOf(a.out) == a.text
  }

  lemma TextOfAppend(out: seq<Out>, chunk: Out)
    ensures TextOf(out + [chunk]) == TextOf(out) + (if chunk.TextChunk? then chunk.text else "")
  {
    assert (out + [chunk])[..|out|] == out;
  }

  lemma OrderedAppend(out: seq<Out>, chunk: Out)
    requires Ordered(out)
    requires out != [] ==> Follows(out[|out| - 1], chunk)
    ensures Ordered(out + [chunk])
  {
  }

  /** Ranks never fall, and rise past any chunk that comes once. */
  lemma {:induction false} RanksRise(out: seq<Out>, i: nat, j: nat)
    requires Ordered(out) && i < j < |out|
    ensures Rank(out[i]) <= Rank(out[j])
    ensures Rank(out[j]) >= 3 || Rank(out[i]) == 0 ==> Rank(out[i]) < Rank(out[j])
    decreases j
  {
    if i + 1 < j { RanksRise(out, i, j - 1); }
    assert Follows(out[j - 1], out[j]);
  }

  lemma SaidText(a: Attempt, text: string)
    requires OnlyText(a)
    ensures OnlyText(SayText(a, text)) && SayText(a, text).text == a.text + text
    ensures SayText(a, text).out != []
  {
    hide TextOf, Ordered, Follows;
    var led := if a.roleSent then a.out else a.out + [RoleChunk];
    if !a.roleSent {
      assert a.out == [] && led == [RoleChunk];
      TextOfAppend([], RoleChunk);
      assert [] + [RoleChunk] == [RoleChunk];
      TextOfNone();
      OrderedAppend([], RoleChunk) by { OrderedNone(); }
      assert a.text + "" == a.text;
    }
    FollowsText(led[|led| - 1], text);
    TextOfAppend(led, TextChunk(text));
    OrderedAppend(led, TextChunk(text));
  }

  lemma TextOfNone()
    ensures TextOf([]) == ""
  {
  }

  lemma OrderedNone()
    ensures Ordered([])
  {
  }

  lemma FollowsText(x: Out, text: string)
    ensures Rank(x) <= 1 ==> Follows(x, TextChunk(text))
  {
  }

  // ---- The two hold-backs in series -------------------------------------------

  /** Shown text, held text and guarded text add up to what was received. */
  predicate Tracks(config: Config, a: Attempt, contents: seq<string>) {
    && a.fed == Emits(contents)
    && a.textHold == Feed(contents).held
    && a.text + a.held == Shown(config, a.fed)
    && (a.held != "" ==> config.claudeCode && config.looksUnfinished(a.text + a.held))
  }

  predicate TracksReasoning(a: Attempt, reasonings: seq<string>) {
    a.reasoningHold == Feed(reasonings).held && a.reasoning == Feed(reasonings).released
  }

  lemma ReleaseTracks(config: Config, a: Attempt, emit: string)
    requires OnlyText(a) && a.text + a.held == Shown(config, a.fed)
    requires a.held != "" ==> config.claudeCode && config.looksUnfinished(a.text + a.held)
    ensures var b := Release(config, a, emit);
      && OnlyText(b) && b.text + b.held == Shown(config, b.fed) && b.fed == a.fed + [emit]
      && (b.held != "" ==> config.claudeCode && config.looksUnfinished(b.text + b.held))
      && b == a.(fed := b.fed, roleSent := b.roleSent, out := b.out, text := b.text, held := b.held)
  {
    hide Blank, OnlyText;
    var b := a.(fed := a.fed + [emit]);
    assert b.fed[..|a.fed|] == a.fed;
    assert OnlyText(b) by { SameOutput(a, b); }
    var content := if config.claudeCode then emit else config.markdown(b.fed);
    assert Shown(config, b.fed) == a.text + a.held + (if Shows(config, content) then content else "");
    if Shows(config, content) { PushTracks(config, b, content); } else { assert a.text + a.held + "" == a.text + a.held; }
  }

  lemma SameOutput(a: Attempt, b: Attempt)
    requires OnlyText(a) && a.out == b.out && a.roleSent == b.roleSent && a.text == b.text
    ensures OnlyText(b)
  {
  }

  lemma PushTracks(config: Config, a: Attempt, chunk: string)
    requires OnlyText(a)
    requires a.held != "" ==> config.claudeCode && config.looksUnfinished(a.text + a.held)
    ensures var b := PushVisible(config, a, chunk);
      && OnlyText(b) && b.text + b.held == a.text + a.held + chunk
      && (b.held != "" ==> config.claudeCode && config.looksUnfinished(b.text + b.held))
      && b == a.(roleSent := b.roleSent, out := b.out, text := b.text, held := b.held)
  {
    hide OnlyText;
    if chunk == "" {
      assert a.text + a.held + chunk == a.text + a.held;
    } else if ShouldHold(config, a.text + a.held + chunk, a.calls == []) {
      assert a.text + (a.held + chunk) == a.text + a.held + chunk;
      SameOutput(a, a.(held := a.held + chunk));
    } else {
      SameOutput(a, a.(held := ""));
      SaidText(a.(held := ""), a.held + chunk);
      assert a.text + (a.held + chunk) == a.text + a.held + chunk;
      assert a.text + (a.held + chunk) + "" == a.text + (a.held + chunk);
    }
  }

  lemma EmitsAppend(chunks: seq<string>, chunk: string)
    ensures Emits(chunks + [chunk]) == Emits(chunks) + AsList(Take(Feed(chunks).held, chunk).emit)
    ensures Feed(chunks + [chunk]) == StepRun(Feed(chunks), chunk)
  {
    FeedUnfold(chunks, chunk);
    assert (chunks + [chunk])[..|chunks|] == chunks;
  }

  lemma ContentTracks(config: Config, a: Attempt, contents: seq<string>, chunk: string)
    requires OnlyText(a) && Tracks(config, a, contents)
    ensures var b := TakeContent(config, a, chunk);
      && OnlyText(b) && Tracks(config, b, contents + [chunk])
      && (b.leaked <==> a.leaked || Take(Feed(contents).held, chunk).leaked)
      && b.reasoningHold == a.reasoningHold && b.reasoning == a.reasoning
      && b.calls == a.calls && b.usage == a.usage && b.finish == a.finish
      && (a.roleSent ==> b.roleSent)
  {
    hide OnlyText, Take, Emits, Feed, Release, Shown;
    EmitsAppend(contents, chunk);
    var t := Take(a.textHold, chunk);
    var b := a.(textHold := t.held);
    SameOutput(a, b);
    TakesOneWay(a.textHold, chunk);
    if t.leaked {
      SameOutput(a, ReportLeak(b, t.held));
      assert Emits(contents) + [] == Emits(contents);
    } else if t.emit.Some? {
      ReleaseTracks(config, b, t.emit.value);
      RoleStays(config, b, t.emit.value);
    } else {
      assert Emits(contents) + [] == Emits(contents);
    }
  }

  lemma TakesOneWay(held: string, chunk: string)
    ensures Take(held, chunk).leaked ==> Take(held, chunk).emit == None
  {
  }

  lemma RoleStays(config: Config, a: Attempt, emit: string)
    ensures a.roleSent ==> Release(config, a, emit).roleSent
  {
    hide Blank;
  }

  lemma ReasoningTracks(a: Attempt, reasonings: seq<string>, chunk: string)
    requires OnlyText(a) && TracksReasoning(a, reasonings)
    ensures var b := TakeReasoning(a, chunk);
      && OnlyText(b) && TracksReasoning(b, reasonings + [chunk])
      && (b.leaked <==> a.leaked || Take(Feed(reasonings).held, chunk).leaked)
      && b == a.(reasoningHold := b.reasoningHold, reasoning := b.reasoning, leaked := b.leaked, leakBlob := b.leakBlob)
  {
    hide OnlyText, Take, Feed;
    FeedUnfold(reasonings, chunk);
    TakesOneWay(a.reasoningHold, chunk);
    assert a.reasoning + "" == a.reasoning;
    SameOutput(a, TakeReasoning(a, chunk));
  }

  /** Everything an attempt knows after reading these pieces. */
  predicate Knows(config: Config, a: Attempt, pieces: seq<Piece>) {
    && OnlyText(a)
    && Tracks(config, a, Contents(pieces))
    && TracksReasoning(a, Reasonings(pieces))
    && a.calls == MergeAll([], CallDeltas(pieces))
    && (a.leaked <==> Feed(Contents(pieces)).leaked || Feed(Reasonings(pieces)).leaked)
    && (!config.trueFirstToken ==> a.roleSent)
    && a.usage == LastUsage(pieces) && a.finish == LastFinish(pieces)
  }

  lemma {:induction false} ReadingKnows(config: Config, pieces: seq<Piece>)
    ensures Knows(config, Steps(config, Start(config), pieces), pieces)
  {
    hide Knows, Steps, Step, Start;
    if pieces == [] {
      StepsNone(config, Start(config));
      StartKnows(config);
    } else {
      var front, last := pieces[..|pieces| - 1], pieces[|pieces| - 1];
      ReadingKnows(config, front);
      assert front + [last] == pieces;
      StepsAppend(config, Start(config), front, [last]);
      StepsOne(config, Steps(config, Start(config), front), last);
      StepKnows(config, Steps(config, Start(config), front), front, last);
    }
  }

  lemma StartKnows(config: Config)
    ensures Knows(config, Start(config), [])
  {
    TextOfAppend([], RoleChunk);
    assert [] + [RoleChunk] == [RoleChunk];
    assert "" + "" == "";
  }

  lemma StepKnows(config: Config, a: Attempt, front: seq<Piece>, piece: Piece)
    requires Knows(config, a, front)
    ensures Knows(config, Step(config, a, piece), front + [piece])
  {
    hide OnlyText, Feed, MergeAll, TakeContent, TakeReasoning, Take, Tracks, TracksReasoning;
    assert (front + [piece])[..|front|] == front;
    var b := Step(config, a, piece);
    match piece
    case UsagePiece(_) => Unread(config, a, b, front);
    case FinishPiece(_) => Unread(config, a, b, front);
    case ContentPiece(content) =>
      ContentTracks(config, a, Contents(front), content);
      FeedUnfold(Contents(front), content);
      SameReasoning(a, b, front);
    case ReasoningPiece(reasoning) =>
      ReasoningTracks(a, Reasonings(front), reasoning);
      FeedUnfold(Reasonings(front), reasoning);
      SameContent(config, a, b, front);
    case CallsPiece(deltas) =>
      Unread(config, a, b, front);
      MergeAllAppend([], CallDeltas(front), deltas);
  }

  lemma Unread(config: Config, a: Attempt, b: Attempt, front: seq<Piece>)
    requires Knows(config, a, front)
    requires b == a.(usage := b.usage, finish := b.finish, calls := b.calls)
    ensures OnlyText(b) && Tracks(config, b, Contents(front)) && TracksReasoning(b, Reasonings(front))
    ensures Contents(front) + [] == Contents(front) && Reasonings(front) + [] == Reasonings(front)
    ensures CallDeltas(front) + [] == CallDeltas(front)
  {
    hide OnlyText;
    SameOutput(a, b);
  }

  lemma SameReasoning(a: Attempt, b: Attempt, front: seq<Piece>)
    requires TracksReasoning(a, Reasonings(front)) && a.reasoning == b.reasoning && a.reasoningHold == b.reasoningHold
    ensures TracksReasoning(b, Reasonings(front))
    ensures Reasonings(front) + [] == Reasonings(front) && CallDeltas(front) + [] == CallDeltas(front)
  {
  }

  lemma SameContent(config: Config, a: Attempt, b: Attempt, front: seq<Piece>)
    requires Tracks(config, a, Contents(front))
    requires b == a.(reasoningHold := b.reasoningHold, reasoning := b.reasoning, leaked := b.leaked, leakBlob := b.leakBlob)
    ensures Tracks(config, b, Contents(front))
    ensures Contents(front) + [] == Contents(front) && CallDeltas(front) + [] == CallDeltas(front)
  {
  }

  lemma {:induction false} MergeAllAppend(calls: seq<CollectedCall>, front: seq<CallDelta>, back: seq<CallDelta>)
    ensures MergeAll(calls, front + back) == MergeAll(MergeAll(calls, front), back)
    decreases |front|
  {
    hide MergeOne;
    if front == [] {
      assert front + back == back;
    } else {
      assert (front + back)[1..] == front[1..] + back;
      MergeAllAppend(MergeOne(calls, front[0]), front[1..], back);
    }
  }
}
