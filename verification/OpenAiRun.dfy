/**
  What a client of the streaming loop in openai.rs can rely on, whatever the
  upstream does: laws of the events of a whole run.
*/
module OpenAiRun {
  import opened Utf8Text
  import opened DsmlGuard
  import opened DsmlGuardLaws
  import opened DsmlGuardReach
  import opened OpenAiStream
  import opened OpenAiAttempt
  import opened OpenAiLoop

  // ---- The events of a run ----------------------------------------------------

  function Flat(outs: seq<seq<Out>>): seq<Out> {
    if outs == [] then [] else Flat(outs[..|outs| - 1]) + outs[|outs| - 1]
  }

  /** The state an attempt reaches by reading a response to its end or its break. */
  function Read(config: Config, items: seq<Item>): Attempt {
    Steps(config, Start(config), Pieces(items))
  }

  /** The response was not broken, its markup if any was repaired, and there is something to answer. */
  predicate IsAnswered(config: Config, items: seq<Item>) {
    var f := Flushed(config, Read(config, items));
    Break(items).None? && !RepairPanics(f) && !Unrepaired(config, f) && Supplement(config, f).Some?
  }

  /** The response ends in a panic of the repair. */
  predicate Crashed(config: Config, response: Fetched) {
    response.Opened? && Crashes(config, Read(config, response.items), Break(response.items))
  }

  /** An answer if there is one, else a failure. */
  predicate Ends(config: Config, items: seq<Item>, last: seq<Out>) {
    if IsAnswered(config, items) then Answers(config, Flushed(config, Read(config, items)), last)
    else Fails(config, Read(config, items), Break(items), last)
  }

  /** The last thing sent: a refused fetch, the end of the last response, or what a panic left. */
  predicate Concluded(config: Config, last: seq<Out>, response: Fetched, attempt: nat) {
    match response
    case Refused(message, _) => last == [FailureChunk(message), Done]
    case Opened(items) =>
      && Retry(config, Read(config, items), Break(items), attempt) == None
      && (if Crashed(config, response) then last == Flushed(config, Read(config, items)).out
          else Closed(last) && Ends(config, items, last))
  }

  predicate AllTentative(outs: seq<seq<Out>>) {
    forall i :: 0 <= i < |outs| ==> Tentative(outs[i])
  }

  lemma FlatAppend(outs: seq<seq<Out>>, out: seq<Out>)
    ensures Flat(outs + [out]) == Flat(outs) + out
  {
    assert (outs + [out])[..|outs|] == outs;
  }

  lemma RetryIsEarly(config: Config, read: Attempt, broken: Option<string>, attempt: nat)
    ensures Retry(config, read, broken, attempt).Some? ==> attempt < MaxAttempts(config)
  {
  }

  lemma RefusalConcludes(config: Config, got: Fetched, attempt: nat)
    requires got.Refused?
    ensures Concluded(config, [FailureChunk(got.message), Done], got, attempt)
  {
  }

  // ---- One end ----------------------------------------------------------------

  /** One final or failure chunk and one end mark, and nothing after them. */
  predicate OneEnd(events: seq<Out>) {
    && |events| >= 2 && events[|events| - 1] == Done && Rank(events[|events| - 2]) == 3
    && forall i :: 0 <= i < |events| - 2 ==> Rank(events[i]) <= 2
  }

  predicate OnlyRoleAndText(events: seq<Out>) {
    forall i :: 0 <= i < |events| ==> Rank(events[i]) <= 1
  }

  /** The events of a run have one end exactly when its last response does not panic; else they have none. */
  lemma RunEndsOnce(config: Config, abandoned: seq<seq<Out>>, last: seq<Out>, response: Fetched, attempt: nat)
    requires AllTentative(abandoned) && Concluded(config, last, response, attempt)
    ensures OneEnd(Flat(abandoned) + last) <==> !Crashed(config, response)
    ensures Crashed(config, response) ==> OnlyRoleAndText(Flat(abandoned) + last)
  {
    hide AllTentative, Concluded, OneEnd, Flat, Crashed;
    TentativeRanks(abandoned);
    if Crashed(config, response) {
      CrashedHasNoEnd(config, last, response, attempt);
      NoEndBehind(Flat(abandoned), last);
    } else {
      ConcludedEndsOnce(config, last, response, attempt);
      EndsOnceBehind(Flat(abandoned), last);
    }
  }

  lemma ConcludedEndsOnce(config: Config, last: seq<Out>, response: Fetched, attempt: nat)
    requires Concluded(config, last, response, attempt) && !Crashed(config, response)
    ensures OneEnd(last)
  {
    hide Answers, Fails, Retry, Closed, OneEnd, Flushed, Read, IsAnswered, Crashed;
    if response.Opened? { ClosedEndsOnce(last); } else { RefusalEndsOnce(response.message); }
  }

  lemma RefusalEndsOnce(message: string)
    ensures OneEnd([FailureChunk(message), Done])
  {
  }

  lemma ClosedEndsOnce(out: seq<Out>)
    requires Closed(out)
    ensures OneEnd(out)
  {
    hide Ordered;
    forall i | 0 <= i < |out| - 2
      ensures Rank(out[i]) <= 2
    {
      RanksRise(out, i, |out| - 2);
    }
  }

  lemma CrashedHasNoEnd(config: Config, last: seq<Out>, response: Fetched, attempt: nat)
    requires Concluded(config, last, response, attempt) && Crashed(config, response)
    ensures OnlyRoleAndText(last)
  {
    hide Retry, Flushed, Read, Crashes, OnlyText, Settled;
    var items := response.items;
    ReadSettles(config, items);
    SettledIsText(config, Flushed(config, Read(config, items)), Pieces(items));
  }

  lemma ReadSettles(config: Config, items: seq<Item>)
    ensures Settled(config, Flushed(config, Read(config, items)), Pieces(items))
  {
    hide Settled, Flushed, Knows, Steps;
    ReadingKnows(config, Pieces(items));
    FlushSettles(config, Read(config, items), Pieces(items));
  }

  lemma SettledIsText(config: Config, f: Attempt, pieces: seq<Piece>)
    requires Settled(config, f, pieces)
    ensures OnlyRoleAndText(f.out) && TextOf(f.out) == f.text
  {
    hide TextOf, OnlyText;
    OnlyTextIsOpen(f);
  }

  lemma NoEndBehind(front: seq<Out>, last: seq<Out>)
    requires OnlyRoleAndText(front) && OnlyRoleAndText(last)
    ensures OnlyRoleAndText(front + last) && !OneEnd(front + last)
  {
  }

  lemma EndsOnceBehind(front: seq<Out>, last: seq<Out>)
    requires OneEnd(last) && OnlyRoleAndText(front)
    ensures OneEnd(front + last)
  {
    forall i | 0 <= i < |front + last| - 2
      ensures Rank((front + last)[i]) <= 2
    {
      if i >= |front| { assert (front + last)[i] == last[i - |front|]; }
    }
  }

  lemma {:induction false} TentativeRanks(abandoned: seq<seq<Out>>)
    requires AllTentative(abandoned)
    ensures OnlyRoleAndText(Flat(abandoned))
  {
    if abandoned != [] {
      TentativeRanks(abandoned[..|abandoned| - 1]);
      assert Tentative(abandoned[|abandoned| - 1]);
    }
  }

  // ---- Exact text for a client that wants it exact ----------------------------

  lemma {:induction false} ReleasedIsConcat(chunks: seq<string>)
    ensures Concat(Emits(chunks)) == Feed(chunks).released
  {
    hide Take;
    if chunks != [] {
      var front := chunks[..|chunks| - 1];
      ReleasedIsConcat(front);
      ConcatAsList(Emits(front), Take(Feed(front).held, chunks[|chunks| - 1]).emit);
    }
  }

  lemma ConcatAsList(list: seq<string>, emit: Option<string>)
    ensures Concat(list + AsList(emit)) == Concat(list) + Emitted(emit)
  {
    if emit.Some? {
      ConcatAppend(list, emit.value);
    } else {
      assert list + [] == list;
      assert Concat(list) + "" == Concat(list);
    }
  }

  lemma {:induction false} ShownIsConcat(config: Config, fed: seq<string>)
    requires config.claudeCode
    ensures Shown(config, fed) == Concat(fed)
  {
    hide Blank;
    ConcatEnd(fed);
    if fed != [] { ShownIsConcat(config, fed[..|fed| - 1]); }
  }

  lemma VisibleIsDelivered(config: Config, chunks: seq<string>)
    requires config.claudeCode
    ensures Visible(config, chunks) == Delivered(chunks)
  {
    hide Flush, Shown, Feed, Concat;
    ReleasedIsConcat(chunks);
    ConcatAsList(Emits(chunks), Flush(Feed(chunks).held).emit);
    ShownIsConcat(config, AllEmits(chunks));
    assert Visible(config, chunks) + "" == Visible(config, chunks);
  }

  /**
    An answer in which no markup was found and which is not empty carries the
    upstream's content to the byte.
  */
  lemma AnswerIsExact(config: Config, items: seq<Item>, out: seq<Out>)
    requires config.claudeCode && Answers(config, Flushed(config, Read(config, items)), out)
    requires var sent := Contents(Pieces(items)); !Feed(sent).leaked && (!Blank(Concat(sent)) || CallsOf(out) != [])
    ensures TextOf(out) == Concat(Contents(Pieces(items)))
  {
    hide Blank, Leaks, TextOf, CallsOf, Concat, Feed, Finish, Knows, Flushed, Visible, Repaired, Bridge, AsChunks;
    var sent := Contents(Pieces(items));
    var f := Flushed(config, Read(config, items));
    ReadingKnows(config, Pieces(items));
    FlushSettles(config, Read(config, items), Pieces(items));
    VisibleIsDelivered(config, sent);
    ReleasedAndHeldIsInput(sent);
    QuietFlush(sent);
    NoCallNoChunk(config, FinalCalls(config, f));
    assert f.text + f.held + "" == f.text + f.held;
  }

  /** Whatever was found in it, an answer to ClaudeCode carries what the markup guard delivers, and the supplement if it is empty. */
  lemma AnswerIsDelivered(config: Config, items: seq<Item>, out: seq<Out>)
    requires config.claudeCode && Answers(config, Flushed(config, Read(config, items)), out)
    ensures TextOf(out)
         == Delivered(Contents(Pieces(items))) + Supplement(config, Flushed(config, Read(config, items))).value
  {
    hide TextOf, CallsOf, Finish, Knows, Flushed, Visible, Supplement, Unrepaired, FinalCalls, Delivered;
    ReadingKnows(config, Pieces(items));
    FlushSettles(config, Read(config, items), Pieces(items));
    VisibleIsDelivered(config, Contents(Pieces(items)));
  }

  /** An answer says "tool_calls" exactly when it carries calls, and the final chunk is the last but the end mark. */
  lemma FinishSaysCalls(config: Config, f: Attempt, out: seq<Out>)
    requires Answers(config, f, out)
    ensures out[|out| - 2].FinalChunk?
    ensures out[|out| - 2].finish == "tool_calls" <==> CallsOf(out) != []
    ensures out[|out| - 2].finish in {"tool_calls", "length", "content_filter", "stop"}
  {
    hide Repaired, Unrepaired, Supplement, TextOf, CallsOf;
    ChunkForEachCall(config, FinalCalls(config, f));
  }

  lemma {:induction false} ChunkForEachCall(config: Config, calls: seq<CollectedCall>)
    ensures |AsChunks(config, calls)| == |calls|
  {
    hide AsChunk;
    if calls != [] { ChunkForEachCall(config, calls[..|calls| - 1]); }
  }

  lemma NoCallNoChunk(config: Config, calls: seq<CollectedCall>)
    ensures calls == [] ==> AsChunks(config, calls) == []
  {
  }

  /** A guard that reported nothing flushes everything it holds. */
  lemma {:induction false} QuietFlush(chunks: seq<string>)
    requires !Feed(chunks).leaked
    ensures !Leaks(Feed(chunks).held) && Emitted(Flush(Feed(chunks).held).emit) == Feed(chunks).held
  {
    hide Leaks, HoldLen;
    if chunks == [] {
      ShortIsClean("");
    } else {
      var before, chunk := Feed(chunks[..|chunks| - 1]), chunks[|chunks| - 1];
      QuietFlush(chunks[..|chunks| - 1]);
      if chunk != "" { HeldIsClean(before, chunk); }
    }
  }

  // ---- No invoke markup -------------------------------------------------------

  /** A client that gets exact text never sees "invoke name=", in any run over any upstream. */
  lemma InvokeNeverServed(config: Config, abandoned: seq<seq<Out>>, last: seq<Out>, response: Fetched, attempt: nat)
    requires config.claudeCode && AllTentative(abandoned) && Concluded(config, last, response, attempt)
    ensures !Contains(TextOf(Flat(abandoned) + last), INVOKE)
  {
    hide Contains, TextOf, Concluded, AllTentative;
    TextOfConcat(Flat(abandoned), last);
    BlanksHaveNoInk(abandoned);
    LastIsClean(config, last, response, attempt);
    InkFreeFront(TextOf(Flat(abandoned)), TextOf(last));
  }

  lemma {:induction false} TextOfConcat(front: seq<Out>, back: seq<Out>)
    ensures TextOf(front + back) == TextOf(front) + TextOf(back)
  {
    if back == [] {
      assert front + back == front;
      assert TextOf(front) + "" == TextOf(front);
    } else {
      assert (front + back)[..|front + back| - 1] == front + back[..|back| - 1];
      TextOfConcat(front, back[..|back| - 1]);
    }
  }

  lemma {:induction false} BlanksHaveNoInk(abandoned: seq<seq<Out>>)
    requires AllTentative(abandoned)
    ensures 'i' !in TextOf(Flat(abandoned))
  {
    hide Blank;
    if abandoned != [] {
      var front, last := abandoned[..|abandoned| - 1], abandoned[|abandoned| - 1];
      BlanksHaveNoInk(front);
      assert Tentative(last);
      TextOfConcat(Flat(front), last);
      BlankHasNone(TextOf(last), 'i');
    }
  }

  lemma InkFreeFront(front: string, back: string)
    requires 'i' !in front && !Contains(back, INVOKE)
    ensures !Contains(front + back, INVOKE)
  {
    forall i: nat | i <= |front + back|
      ensures !OccursAt(front + back, INVOKE, i)
    {
      if i >= |front| {
        AtPart(front, back, i);
      } else {
        assert (front + back)[i] == front[i] != INVOKE[0];
      }
    }
  }

  lemma LastIsClean(config: Config, last: seq<Out>, response: Fetched, attempt: nat)
    requires config.claudeCode && Concluded(config, last, response, attempt)
    ensures !Contains(TextOf(last), INVOKE)
  {
    hide Contains, Feed, Flushed, Steps, Closed, Retry, Knows, Settled, Visible, Supplement;
    match response
    case Refused(message, _) =>
      TextOfAppend([FailureChunk(message)], Done);
      assert [FailureChunk(message)] + [Done] == last;
      TextOfAppend([], FailureChunk(message));
      assert [] + [FailureChunk(message)] == [FailureChunk(message)];
      EmptyIsCovered();
    case Opened(items) =>
      var pieces := Pieces(items);
      var read := Read(config, items);
      ReadingKnows(config, pieces);
      FlushSettles(config, read, pieces);
      ReadIsClean(config, read, pieces);
      FlushedIsClean(config, Flushed(config, read), pieces);
      SettledIsText(config, Flushed(config, read), pieces);
  }

  lemma ReadIsClean(config: Config, read: Attempt, pieces: seq<Piece>)
    requires config.claudeCode && Knows(config, read, pieces)
    ensures !Contains(read.text, INVOKE)
  {
    hide Contains, Feed, OnlyText, TracksReasoning, MergeAll;
    ShownIsConcat(config, read.fed);
    ReleasedIsConcat(Contents(pieces));
    FeedIsCovered(Contents(pieces));
    PrefixIsClean(read.text, read.held);
  }

  lemma FlushedIsClean(config: Config, f: Attempt, pieces: seq<Piece>)
    requires config.claudeCode && Settled(config, f, pieces)
    ensures !Contains(f.text, INVOKE) && !Contains(f.text + f.held, INVOKE)
    ensures Supplement(config, f).Some? ==> !Contains(f.text + f.held + Supplement(config, f).value, INVOKE)
  {
    hide Contains, Feed, OnlyText, MergeAll, Visible, Delivered, FinalCalls, Blank, Leaks, Trim, MARKERS;
    VisibleIsDelivered(config, Contents(pieces));
    InvokeNeverDelivered(Contents(pieces));
    PrefixIsClean(f.text, f.held);
    var text := f.text + f.held;
    var supplement := Supplement(config, f);
    assert text + "" == text;
    if supplement.Some? && supplement.value != "" {
      BlankHasNone(text, 'i');
      SupplementIsClean(config, f);
      InkFreeFront(text, supplement.value);
    }
  }

  lemma SupplementIsClean(config: Config, f: Attempt)
    requires Supplement(config, f).Some?
    ensures !Contains(Supplement(config, f).value, INVOKE)
  {
    hide Contains, FinalCalls, Blank, Leaks, Trim, MARKERS;
    var text := f.text + f.held;
    if Bridge(text, f.reasoning).Some? {
      if Contains(f.reasoning, INVOKE) { InvokeLeaks(f.reasoning); }
      TrimIsClean(f.reasoning);
    }
    if |Supplement(config, f).value| < |INVOKE| { TooShort(Supplement(config, f).value, INVOKE); }
  }

  lemma TrimIsClean(s: string)
    requires !Contains(s, INVOKE)
    ensures !Contains(Trim(s), INVOKE)
  {
    hide Contains;
    TrimStartIsClean(s);
    TrimEndIsClean(TrimStart(s));
  }

  lemma {:induction false} TrimStartIsClean(s: string)
    requires !Contains(s, INVOKE)
    ensures !Contains(TrimStart(s), INVOKE)
    decreases |s|
  {
    hide Contains, IsWhiteSpace;
    var n := SpaceAtFront(s);
    if n != 0 {
      SuffixContains(s, n, INVOKE);
      TrimStartIsClean(s[n..]);
    }
  }

  lemma {:induction false} TrimEndIsClean(s: string)
    requires !Contains(s, INVOKE)
    ensures !Contains(TrimEnd(s), INVOKE)
    decreases |s|
  {
    hide Contains, IsWhiteSpace;
    var n := SpaceAtBack(s);
    if n != 0 {
      assert s[..|s| - n] + s[|s| - n..] == s;
      PrefixIsClean(s[..|s| - n], s[|s| - n..]);
      TrimEndIsClean(s[..|s| - n]);
    }
  }

  // ---- White space has no ink -------------------------------------------------

  predicate Printable(c: char) {
    '!' <= c <= '~'
  }

  lemma {:induction false} TrimStartKeeps(s: string, c: char)
    requires Printable(c)
    ensures c in s ==> c in TrimStart(s)
    decreases |s|
  {
    hide IsWhiteSpace;
    var n := SpaceAtFront(s);
    if n != 0 {
      SpaceHasNone(s[..n], c);
      assert s == s[..n] + s[n..];
      TrimStartKeeps(s[n..], c);
    }
  }

  lemma {:induction false} TrimEndKeeps(s: string, c: char)
    requires Printable(c)
    ensures c in s ==> c in TrimEnd(s)
    decreases |s|
  {
    hide IsWhiteSpace;
    var n := SpaceAtBack(s);
    if n != 0 {
      SpaceHasNone(s[|s| - n..], c);
      assert s == s[..|s| - n] + s[|s| - n..];
      TrimEndKeeps(s[..|s| - n], c);
    }
  }

  lemma SpaceHasNone(scalar: string, c: char)
    requires IsWhiteSpace(scalar) && Printable(c)
    ensures c !in scalar
  {
  }

  lemma BlankHasNone(s: string, c: char)
    requires Blank(s) && Printable(c)
    ensures c !in s
  {
    TrimStartKeeps(s, c);
    TrimEndKeeps(TrimStart(s), c);
  }
}
