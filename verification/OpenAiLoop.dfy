/**
  How an attempt of the streaming loop in openai.rs ends, and the loop over
  attempts: fetch, read, then answer, fail or try again.
*/
module OpenAiLoop {
  import opened Utf8Text
  import opened DsmlGuard
  import opened DsmlGuardLaws
  import opened OpenAiStream
  import opened OpenAiAttempt
  import DsmlRepair

  // ---- The end of a response --------------------------------------------------

  function FlushText(config: Config, a: Attempt): Attempt {
    var t := Flush(a.textHold);
    var b := a.(textHold := t.held);
    if t.leaked then ReportLeak(b, t.held) else if t.emit.Some? then Release(config, b, t.emit.value) else b
  }

  function FlushReasoning(a: Attempt): Attempt {
    var t := Flush(a.reasoningHold);
    var b := a.(reasoningHold := t.held);
    if t.leaked then ReportLeak(b, t.held) else b.(reasoning := a.reasoning + Emitted(t.emit))
  }

  function FlushMarkdown(config: Config, a: Attempt): Attempt {
    var tail := if config.claudeCode then "" else config.markdownEnd(a.fed);
    if tail == "" then a else SayText(a, tail)
  }

  function Flushed(config: Config, a: Attempt): Attempt {
    FlushMarkdown(config, FlushReasoning(FlushText(config, a)))
  }

  function SourceBlob(reasoning: string, text: string): string {
    if reasoning == "" then text else if text == "" then reasoning else reasoning + "\n" + text
  }

  function Markup(a: Attempt): string {
    SourceBlob(a.reasoning, a.leakBlob)
  }

  /** All the text that can hold a leaked call. */
  function Blob(a: Attempt): string {
    SourceBlob(Markup(a), a.text)
  }

  /** A repair is tried: no call was collected and there is markup. */
  predicate TriesRepair(a: Attempt) {
    a.calls == [] && Leaks(Blob(a))
  }

  predicate RepairPanics(a: Attempt) {
    TriesRepair(a) && DsmlRepair.Repair(Blob(a)).Panics?
  }

  /** The call that withheld markup can be read as, when no call was collected. */
  function Repaired(config: Config, a: Attempt): Option<CollectedCall> {
    var outcome := DsmlRepair.Repair(Blob(a));
    if !TriesRepair(a) || !outcome.Call? || Blank(outcome.name) then None
    else Some(CollectedCall(0, None, outcome.name, config.printed(outcome.input)))
  }

  function FinalCalls(config: Config, a: Attempt): seq<CollectedCall> {
    if Repaired(config, a).Some? then [Repaired(config, a).value] else a.calls
  }

  predicate Unrepaired(config: Config, a: Attempt) {
    FinalCalls(config, a) == [] && (a.leaked || Leaks(a.text) || Leaks(Markup(a)))
  }

  /** Nothing was shown and the text kept back announces a call that never came. */
  predicate Unfinished(config: Config, a: Attempt, attempt: nat) {
    && Blank(a.text) && config.claudeCode && attempt < MaxAttempts(config)
    && FinalCalls(config, a) == [] && config.offersTools && config.looksUnfinished(a.text + a.held)
  }

  function Bridge(text: string, reasoning: string): Option<string> {
    if Leaks(text) || Leaks(reasoning) || Blank(reasoning) then None
    else if Blank(text) then Some(Trim(reasoning))
    else if |Trim(reasoning)| > 300 && |Trim(text)| * 5 < |Trim(reasoning)|
      && !Contains(Trim(text), Trim(reasoning)) && !Contains(Trim(reasoning), Trim(text))
    then Some(Trim(reasoning))
    else None
  }

  function ProbeText(probe: Probe): Option<string> {
    match probe
    case NotAProbe => None
    case OkProbe => Some("ok")
    case PongProbe => Some("PONG")
    case PassProbe => Some("PASS")
  }

  /** What is put in the place of an empty answer; None if there is nothing to put there. */
  function Supplement(config: Config, a: Attempt): Option<string> {
    var text := a.text + a.held;
    if !Blank(text) || FinalCalls(config, a) != [] then Some("")
    else if Bridge(text, a.reasoning).Some? then Bridge(text, a.reasoning)
    else ProbeText(config.probe)
  }

  function EmptyMessage(a: Attempt): string {
    EMPTY_MESSAGE + " (class="
    + (if Blank(a.reasoning) then "empty_output"
       else if a.finish == Some("length") then "reasoning_only_length" else "reasoning_only") + ")"
  }

  function FinishReason(finish: Option<string>, hasCalls: bool): string {
    if hasCalls then "tool_calls"
    else if finish == Some("length") then "length"
    else if finish == Some("content_filter") then "content_filter"
    else "stop"
  }

  /** An announced call that never came is reported as a cut-off answer. */
  function Finish(config: Config, a: Attempt, text: string): string {
    var calls := FinalCalls(config, a);
    var cutOff := config.claudeCode && calls == [] && config.offersTools && config.looksUnfinished(text);
    FinishReason(if cutOff then Some("length") else a.finish, calls != [])
  }

  // ---- Call chunks ------------------------------------------------------------

  /** The id up to its first brace. */
  function BeforeBrace(id: string): string {
    if id == "" || id[0] == '{' then "" else [id[0]] + BeforeBrace(id[1..])
  }

  function Signed(i: int): string {
    if i < 0 then "-" + Decimal(-i) else Decimal(i)
  }

  function AsChunk(config: Config, call: CollectedCall): (chunk: Out)
    ensures chunk.CallChunk?
  {
    var id := if call.id.Some? then call.id.value else "call_" + Signed(call.index);
    CallChunk(call.index, BeforeBrace(id), config.canonicalName(call.name), call.arguments)
  }

  function AsChunks(config: Config, calls: seq<CollectedCall>): seq<Out> {
    if calls == [] then []
    else AsChunks(config, calls[..|calls| - 1]) + [AsChunk(config, calls[|calls| - 1])]
  }

  function CallsOf(out: seq<Out>): seq<Out> {
    if out == [] then [] else
      var last := out[|out| - 1];
      CallsOf(out[..|out| - 1]) + (if last.CallChunk? then [last] else [])
  }

  // ---- The shape of what an attempt sends -------------------------------------

  /** Nothing has been closed: a role chunk, text and calls with this content. */
  predicate Open(out: seq<Out>, text: string, calls: seq<Out>) {
    && Ordered(out)
    && (out != [] ==> out[0] == RoleChunk && Rank(out[|out| - 1]) <= 2)
    && TextOf(out) == text && CallsOf(out) == calls
  }

  /** Closed by one final or failure chunk and one end mark; an answer opens with the role. */
  predicate Closed(out: seq<Out>) {
    && Ordered(out) && |out| >= 2
    && out[|out| - 1] == Done && Rank(out[|out| - 2]) == 3
    && (out[|out| - 2].FinalChunk? ==> out[0] == RoleChunk)
  }

  /** Given up: no more than a role chunk and blank text was sent. */
  predicate Tentative(out: seq<Out>) {
    && Ordered(out) && Blank(TextOf(out))
    && forall i :: 0 <= i < |out| ==> Rank(out[i]) <= 1
  }

  lemma CallsOfAppend(out: seq<Out>, chunk: Out)
    ensures CallsOf(out + [chunk]) == CallsOf(out) + (if chunk.CallChunk? then [chunk] else [])
  {
    assert (out + [chunk])[..|out|] == out;
  }

  lemma {:induction false} TextIsNoCall(out: seq<Out>)
    requires forall i :: 0 <= i < |out| ==> Rank(out[i]) <= 1
    ensures CallsOf(out) == []
  {
    if out != [] {
      TextIsNoCall(out[..|out| - 1]);
      assert Rank(out[|out| - 1]) <= 1;
    }
  }

  lemma OnlyTextIsOpen(a: Attempt)
    requires OnlyText(a)
    ensures Open(a.out, a.text, []) && forall i :: 0 <= i < |a.out| ==> Rank(a.out[i]) <= 1
  {
    forall i | 0 <= i < |a.out|
      ensures Rank(a.out[i]) <= 1
    {
      if i < |a.out| - 1 { RanksRise(a.out, i, |a.out| - 1); }
    }
    TextIsNoCall(a.out);
  }

  lemma OnlyTextIsTentative(a: Attempt)
    requires OnlyText(a) && Blank(a.text)
    ensures Tentative(a.out)
  {
    hide Blank;
    OnlyTextIsOpen(a);
  }

  lemma Closes(out: seq<Out>, text: string, calls: seq<Out>, last: Out)
    requires Open(out, text, calls) && Rank(last) == 3
    requires last.FinalChunk? ==> out != []
    ensures Closed(out + [last, Done])
    ensures TextOf(out + [last, Done]) == text && CallsOf(out + [last, Done]) == calls
  {
    hide TextOf, CallsOf, Ordered, Follows;
    var more := out + [last];
    assert more + [Done] == out + [last, Done];
    assert out != [] ==> Follows(out[|out| - 1], last) by { RankFollows(); }
    assert Follows(last, Done) by { RankFollows(); }
    OrderedAppend(out, last);
    OrderedAppend(more, Done);
    TextOfAppend(out, last);
    TextOfAppend(more, Done);
    CallsOfAppend(out, last);
    CallsOfAppend(more, Done);
    assert text + "" == text;
    assert calls + [] == calls;
  }

  lemma RankFollows()
    ensures forall x, y :: Rank(x) < Rank(y) ==> Follows(x, y)
  {
  }

  // ---- What the flushes know --------------------------------------------------

  /** The whole response is shown or held, nothing is left in a guard. */
  predicate Settled(config: Config, f: Attempt, pieces: seq<Piece>) {
    && OnlyText(f)
    && f.text + f.held == Visible(config, Contents(pieces))
    && f.reasoning == Delivered(Reasonings(pieces))
    && f.calls == MergeAll([], CallDeltas(pieces))
    && (f.held != "" ==> config.claudeCode && config.looksUnfinished(f.text + f.held))
    && (!config.trueFirstToken ==> f.roleSent)
    && f.usage == LastUsage(pieces) && f.finish == LastFinish(pieces)
  }

  lemma FlushSettles(config: Config, a: Attempt, pieces: seq<Piece>)
    requires Knows(config, a, pieces)
    ensures Settled(config, Flushed(config, a), pieces)
  {
    hide OnlyText, Shown, Release, Flush, Feed, Emits, MergeAll, Contents, Reasonings, CallDeltas, LastUsage, LastFinish;
    var b := FlushText(config, a);
    var contents := Contents(pieces);
    TextFlushed(config, a, contents);
    var c := FlushReasoning(b);
    FlushesOneWay(b.reasoningHold);
    SameOutput(b, c);
    var tail := if config.claudeCode then "" else config.markdownEnd(AllEmits(contents));
    assert b.text + b.held == Shown(config, AllEmits(contents));
    if tail == "" {
      assert Shown(config, AllEmits(contents)) + "" == Shown(config, AllEmits(contents));
    } else {
      SaidText(c, tail);
      assert c.held == "" && c.text + c.held == c.text;
      assert SayText(c, tail).text + "" == SayText(c, tail).text;
    }
    assert b.reasoning + "" == b.reasoning;
  }

  lemma FlushesOneWay(held: string)
    ensures Flush(held).leaked ==> Flush(held).emit == None
  {
  }

  lemma TextFlushed(config: Config, a: Attempt, contents: seq<string>)
    requires OnlyText(a) && Tracks(config, a, contents)
    ensures var b := FlushText(config, a);
      && OnlyText(b) && b.fed == AllEmits(contents) && b.text + b.held == Shown(config, b.fed)
      && (b.held != "" ==> config.claudeCode && config.looksUnfinished(b.text + b.held))
      && (a.roleSent ==> b.roleSent) && b.calls == a.calls && b.usage == a.usage && b.finish == a.finish
      && b.reasoning == a.reasoning && b.reasoningHold == a.reasoningHold
  {
    hide OnlyText, Shown, Release, Flush, Feed, Emits;
    var t := Flush(a.textHold);
    var b := a.(textHold := t.held);
    FlushesOneWay(a.textHold);
    SameOutput(a, b);
    if t.leaked {
      SameOutput(b, ReportLeak(b, t.held));
      assert Emits(contents) + [] == Emits(contents);
    } else if t.emit.Some? {
      ReleaseTracks(config, b, t.emit.value);
      RoleStays(config, b, t.emit.value);
    } else {
      assert Emits(contents) + [] == Emits(contents);
    }
  }

  // ---- Ending an attempt ------------------------------------------------------

  /** Why an attempt is given up. */
  datatype Cause = StreamError | MarkupLeak | UnfinishedIntent | EmptyAnswer

  /** The answer to a response: all of its text, all of its calls, and why it stopped. */
  predicate Answers(config: Config, f: Attempt, out: seq<Out>) {
    && |out| >= 2 && !Unrepaired(config, f) && Supplement(config, f).Some?
    && TextOf(out) == f.text + f.held + Supplement(config, f).value
    && CallsOf(out) == AsChunks(config, FinalCalls(config, f))
    && out[|out| - 2] == FinalChunk(Finish(config, f, TextOf(out)), f.usage)
  }

  /** The failure of a response, after the text shown until then. */
  predicate Fails(config: Config, read: Attempt, broken: Option<string>, out: seq<Out>) {
    var f := Flushed(config, read);
    && |out| >= 2 && CallsOf(out) == []
    && if broken.Some? then TextOf(out) == read.text && out[|out| - 2] == FailureChunk(broken.value)
       else if Unrepaired(config, f) then TextOf(out) == f.text && out[|out| - 2] == FailureChunk(LEAK_MESSAGE)
       else && Supplement(config, f).None? && TextOf(out) == f.text + f.held
            && out[|out| - 2] == FailureChunk(EmptyMessage(f))
  }

  /** The repair at the end of the response panics: the stream ends where it is. */
  predicate Crashes(config: Config, read: Attempt, broken: Option<string>) {
    broken.None? && RepairPanics(Flushed(config, read))
  }

  /** The decision to give an attempt up, and why. */
  function Retry(config: Config, read: Attempt, broken: Option<string>, attempt: nat): Option<Cause> {
    var f := Flushed(config, read);
    if broken.Some? then
      if !read.roleSent && Blank(read.text) && read.calls == [] && attempt < MaxAttempts(config)
      then Some(StreamError) else None
    else if RepairPanics(f) then None
    else if Unrepaired(config, f) then
      if !f.roleSent && attempt < MaxAttempts(config) then Some(MarkupLeak) else None
    else if Unfinished(config, f, attempt) then Some(UnfinishedIntent)
    else if Supplement(config, f).None? && !f.roleSent && f.held == "" && attempt < MaxAttempts(config) then Some(EmptyAnswer)
    else None
  }

  method SendCalls(config: Config, before: Attempt, calls: seq<CollectedCall>) returns (a: Attempt)
    requires Open(before.out, before.text, []) && (before.roleSent <==> before.out != [])
    ensures Open(a.out, before.text, AsChunks(config, calls)) && (calls != [] || before.out != [] ==> a.out != [])
    ensures calls == [] ==> a.out == before.out
  {
    hide Ordered, TextOf, CallsOf, AsChunk;
    a := before;
    for i := 0 to |calls|
      invariant Open(a.out, before.text, AsChunks(config, calls[..i])) && (a.roleSent <==> a.out != [])
      invariant i > 0 || before.out != [] ==> a.out != []
      invariant i == 0 ==> a.out == before.out
    {
      assert calls[..i + 1][..i] == calls[..i];
      SaidCall(a, before.text, AsChunks(config, calls[..i]), AsChunk(config, calls[i]));
      a := Say(a, AsChunk(config, calls[i]));
    }
    assert calls[..|calls|] == calls;
  }

  lemma SaidCall(a: Attempt, text: string, calls: seq<Out>, call: Out)
    requires Open(a.out, text, calls) && (a.roleSent <==> a.out != []) && call.CallChunk?
    ensures Open(Say(a, call).out, text, calls + [call]) && Say(a, call).out != []
  {
    hide Ordered, TextOf, CallsOf;
    var led := if a.roleSent then a.out else a.out + [RoleChunk];
    if !a.roleSent {
      assert led == [RoleChunk] == [] + [RoleChunk];
      TextOfAppend([], RoleChunk);
      CallsOfAppend([], RoleChunk);
      OrderedAppend([], RoleChunk) by { OrderedNone(); }
      assert text + "" == text && calls + [] == calls;
    }
    OrderedAppend(led, call);
    TextOfAppend(led, call);
    CallsOfAppend(led, call);
    assert text + "" == text;
  }

  /** The end of an attempt whose response broke off. */
  method ConcludeBroken(config: Config, read: Attempt, message: string, attempt: nat)
    returns (out: seq<Out>, retry: Option<Cause>)
    requires OnlyText(read)
    ensures retry == Retry(config, read, Some(message), attempt)
    ensures retry.Some? ==> Tentative(out) && out == []
    ensures retry.None? ==> Closed(out) && Fails(config, read, Some(message), out)
  {
    hide Ordered, TextOf, CallsOf, Blank, Leaks, Bridge, Trim, Flushed, Follows, RepairPanics, Unrepaired, Supplement;
    if !read.roleSent && Blank(read.text) && read.calls == [] && attempt < MaxAttempts(config) {
      OnlyTextIsTentative(read);
      BlankWhenUnsent(read);
      return read.out, Some(StreamError);
    }
    OnlyTextIsOpen(read);
    Closes(read.out, read.text, [], FailureChunk(message));
    return read.out + [FailureChunk(message), Done], None;
  }

  /** The end of an attempt: give up, close the stream with an answer or a failure, or panic behind what was sent. */
  method Conclude(config: Config, read: Attempt, broken: Option<string>, attempt: nat, ghost pieces: seq<Piece>)
    returns (out: seq<Out>, retry: Option<Cause>)
    requires Knows(config, read, pieces)
    ensures retry == Retry(config, read, broken, attempt)
    ensures retry.Some? ==> Tentative(out)
    ensures retry.Some? && retry != Some(UnfinishedIntent) ==> out == []
    ensures Crashes(config, read, broken) ==> out == Flushed(config, read).out
    ensures retry.None? && !Crashes(config, read, broken) ==> Closed(out)
    ensures retry.None? && !Crashes(config, read, broken) ==>
      if broken.None? && !Unrepaired(config, Flushed(config, read)) && Supplement(config, Flushed(config, read)).Some?
      then Answers(config, Flushed(config, read), out)
      else Fails(config, read, broken, out)
  {
    hide Ordered, TextOf, CallsOf, Blank, Leaks, Bridge, Trim, Feed, MergeAll, Contents, Reasonings, CallDeltas, Flushed;
    hide Visible, AsChunks, Finish, Tracks, TracksReasoning, Repaired, Follows, RepairPanics, Supplement;
    if broken.Some? {
      out, retry := ConcludeBroken(config, read, broken.value, attempt);
      return;
    }
    FlushSettles(config, read, pieces);
    var a := Flushed(config, read);
    if RepairPanics(a) { return a.out, None; }
    if Unrepaired(config, a) {
      if !a.roleSent && attempt < MaxAttempts(config) {
        BlankWhenUnsent(a);
        OnlyTextIsTentative(a);
        return a.out, Some(MarkupLeak);
      }
      OnlyTextIsOpen(a);
      Closes(a.out, a.text, [], FailureChunk(LEAK_MESSAGE));
      return a.out + [FailureChunk(LEAK_MESSAGE), Done], None;
    }
    out, retry := ConcludeWhole(config, a, attempt);
  }

  /** The end of an attempt whose response is whole and whose markup, if any, is repaired. */
  method ConcludeWhole(config: Config, f: Attempt, attempt: nat) returns (out: seq<Out>, retry: Option<Cause>)
    requires OnlyText(f) && !Unrepaired(config, f)
    ensures retry ==
      if Unfinished(config, f, attempt) then Some(UnfinishedIntent)
      else if Supplement(config, f).None? && !f.roleSent && f.held == "" && attempt < MaxAttempts(config) then Some(EmptyAnswer)
      else None
    ensures retry.Some? ==> Tentative(out)
    ensures retry == Some(EmptyAnswer) ==> out == []
    ensures retry.None? ==> Closed(out)
    ensures retry.None? && Supplement(config, f).Some? ==> Answers(config, f, out)
    ensures retry.None? && Supplement(config, f).None? ==>
      TextOf(out) == f.text + f.held && CallsOf(out) == [] && |out| >= 2 && out[|out| - 2] == FailureChunk(EmptyMessage(f))
  {
    hide Ordered, TextOf, CallsOf, Blank, Leaks, Bridge, Trim, AsChunks, Finish, Repaired, Follows, Unrepaired, FinalCalls, Supplement;
    var calls := FinalCalls(config, f);
    if Unfinished(config, f, attempt) {
      OnlyTextIsTentative(f);
      return f.out, Some(UnfinishedIntent);
    }
    var a := f.(calls := calls);
    SameOutput(f, a);
    if a.held != "" {
      SaidText(a, a.held);
      a := SayText(a, a.held).(held := "");
      SameOutput(SayText(f.(calls := calls), f.held), a);
    }
    assert OnlyText(a) && a.text == f.text + f.held;
    out, retry := Answer(config, f, a, attempt);
  }

  lemma BlankWhenUnsent(a: Attempt)
    requires OnlyText(a)
    ensures !a.roleSent ==> a.out == []
    ensures !a.roleSent || a.out == [] ==> Blank(a.text)
  {
    TextOfNone();
    assert Blank("");
  }

  /** The last part: something in the place of an empty answer, the calls, the closing chunks. */
  method Answer(config: Config, ghost f: Attempt, shown: Attempt, attempt: nat)
    returns (out: seq<Out>, retry: Option<Cause>)
    requires OnlyText(f) && OnlyText(shown) && !Unrepaired(config, f)
    requires shown.text == f.text + f.held && shown.calls == FinalCalls(config, f)
    requires shown.reasoning == f.reasoning && shown.finish == f.finish && shown.usage == f.usage
    requires shown.roleSent <==> f.roleSent || f.held != ""
    ensures retry == if Supplement(config, f).None? && !f.roleSent && f.held == "" && attempt < MaxAttempts(config)
                     then Some(EmptyAnswer) else None
    ensures retry.Some? ==> Tentative(out) && out == []
    ensures retry.None? ==> Closed(out)
    ensures retry.None? && Supplement(config, f).Some? ==> Answers(config, f, out)
    ensures retry.None? && Supplement(config, f).None? ==>
      TextOf(out) == f.text + f.held && CallsOf(out) == [] && |out| >= 2 && out[|out| - 2] == FailureChunk(EmptyMessage(f))
  {
    hide Ordered, TextOf, CallsOf, Blank, Leaks, Bridge, AsChunks, Repaired, Follows, OnlyText, Unrepaired;
    var a := shown;
    if Blank(a.text) && a.calls == [] {
      if Bridge(a.text, a.reasoning).Some? {
        var bridge := Bridge(a.text, a.reasoning).value;
        SaidText(a, bridge);
        a := SayText(a, bridge);
      } else if ProbeText(config.probe).Some? {
        var probe := ProbeText(config.probe).value;
        SaidText(a, probe);
        a := SayText(a, probe);
      } else if !a.roleSent && attempt < MaxAttempts(config) {
        OnlyTextIsTentative(a);
        BlankWhenUnsent(a);
        return a.out, Some(EmptyAnswer);
      } else {
        OnlyTextIsOpen(a);
        Closes(a.out, a.text, [], FailureChunk(EmptyMessage(a)));
        return a.out + [FailureChunk(EmptyMessage(a)), Done], None;
      }
    } else {
      assert a.text + "" == a.text;
      BlankWhenUnsent(a);
    }
    retry := None;
    out := Close(config, f, a);
  }

  method Close(config: Config, ghost f: Attempt, a: Attempt) returns (out: seq<Out>)
    requires OnlyText(a) && !Unrepaired(config, f) && Supplement(config, f).Some?
    requires a.text == f.text + f.held + Supplement(config, f).value && a.calls == FinalCalls(config, f)
    requires a.calls != [] || a.out != []
    requires a.finish == f.finish && a.usage == f.usage
    ensures Closed(out) && Answers(config, f, out)
  {
    hide Ordered, TextOf, CallsOf, Blank, Leaks, Bridge, AsChunks, Repaired, Follows, Unrepaired, Supplement, FinalCalls;
    OnlyTextIsOpen(a);
    var b := SendCalls(config, a, a.calls);
    var finish := a.finish;
    if config.claudeCode && a.calls == [] && config.offersTools && config.looksUnfinished(a.text) {
      finish := Some("length");
    }
    var last := FinalChunk(FinishReason(finish, a.calls != []), a.usage);
    Closes(b.out, a.text, AsChunks(config, a.calls), last);
    out := b.out + [last, Done];
  }
}
