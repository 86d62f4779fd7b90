/**
  The streaming loop of openai.rs: an attempt reads one upstream response through
  two hold-back buffers in series and ends in an answer, a failure or a retry.
*/
module OpenAiStream {
  import opened Utf8Text
  import opened DsmlGuard
  import opened DsmlGuardLaws

  // ---- The upstream -----------------------------------------------------------

  datatype CallDelta = CallDelta(
    index: Option<int>, id: Option<string>, name: Option<string>, arguments: Option<string>)

  datatype Delta = Delta(
    content: Option<string>, reasoning: Option<string>, calls: Option<seq<CallDelta>>)

  datatype Choice = Choice(finish: Option<string>, delta: Option<Delta>)

  /** One item of a response stream; usage figures are kept as they come. */
  datatype Item =
    | Broken(message: string)
    | Event(usage: Option<int>, choices: Option<seq<Choice>>)

  datatype Fetched =
    | Opened(items: seq<Item>)
    | Refused(message: string, missingReasoning: bool)

  /** The request body of a fetch, by how it was rewritten from the original. */
  datatype Body =
    | Original
    | ReasoningRetry
    | CompatToolUse(of: Body)

  // ---- The client -------------------------------------------------------------

  datatype CollectedCall = CollectedCall(index: int, id: Option<string>, name: string, arguments: string)

  /** The request fits one of the channel probes that are answered locally. */
  datatype Probe = NotAProbe | OkProbe | PongProbe | PassProbe

  datatype Out =
    | RoleChunk
    | TextChunk(text: string)
    | CallChunk(index: int, id: string, name: string, arguments: string)
    | FinalChunk(finish: string, usage: Option<int>)
    | FailureChunk(message: string)
    | Done

  /** What the loop takes from the request and from code outside it. */
  datatype Config = Config(
    claudeCode: bool,
    mimo: bool,
    trueFirstToken: bool,
    offersTools: bool,
    probe: Probe,
    looksUnfinished: string -> bool,
    markdown: seq<string> -> string,
    markdownEnd: seq<string> -> string,
    printed: map<string, string> -> string,
    canonicalName: string -> string)

  const DEFAULT_ATTEMPTS: nat := 3
  const MIMO_ATTEMPTS: nat := 5
  const LEAK_MESSAGE := "upstream returned DSML tool markup in text stream"
  const EMPTY_MESSAGE := "upstream returned no assistant content or tool call"

  function MaxAttempts(config: Config): (max: nat)
    ensures max >= 3
  {
    if config.mimo then MIMO_ATTEMPTS else DEFAULT_ATTEMPTS
  }

  // ---- What an attempt has done so far ----------------------------------------

  datatype Attempt = Attempt(
    roleSent: bool,
    text: string,
    held: string,
    reasoning: string,
    fed: seq<string>,
    calls: seq<CollectedCall>,
    usage: Option<int>,
    finish: Option<string>,
    textHold: string,
    reasoningHold: string,
    leakBlob: string,
    leaked: bool,
    out: seq<Out>)

  function Start(config: Config): Attempt {
    Attempt(!config.trueFirstToken, "", "", "", [], [], None, None, "", "", "", false,
            if config.trueFirstToken then [] else [RoleChunk])
  }

  /** Sends a chunk, after the role chunk if that is still owed. */
  function Say(a: Attempt, chunk: Out): Attempt {
    a.(roleSent := true, out := (if a.roleSent then a.out else a.out + [RoleChunk]) + [chunk])
  }

  function SayText(a: Attempt, text: string): Attempt {
    Say(a, TextChunk(text)).(text := a.text + text)
  }

  predicate ShouldHold(config: Config, accumulated: string, noCalls: bool) {
    config.claudeCode && noCalls && config.offersTools && config.looksUnfinished(accumulated)
  }

  /** Text that reads like an unfinished tool intent waits; anything else goes out behind what waited. */
  function PushVisible(config: Config, a: Attempt, chunk: string): Attempt {
    if chunk == "" then a
    else if ShouldHold(config, a.text + a.held + chunk, a.calls == []) then a.(held := a.held + chunk)
    else SayText(a.(held := ""), a.held + chunk)
  }

  predicate Shows(config: Config, content: string) {
    !Blank(content) || (config.claudeCode && content != "")
  }

  /** Text the markup guard has released. */
  function Release(config: Config, a: Attempt, emit: string): Attempt {
    var b := a.(fed := a.fed + [emit]);
    var content := if config.claudeCode then emit else config.markdown(b.fed);
    if Shows(config, content) then PushVisible(config, b, content) else b
  }

  function ReportLeak(a: Attempt, markup: string): Attempt {
    a.(leaked := true, leakBlob := a.leakBlob + markup)
  }

  function TakeContent(config: Config, a: Attempt, chunk: string): Attempt {
    var t := Take(a.textHold, chunk);
    var b := a.(textHold := t.held);
    if t.leaked then ReportLeak(b, t.held) else if t.emit.Some? then Release(config, b, t.emit.value) else b
  }

  function TakeReasoning(a: Attempt, chunk: string): Attempt {
    var t := Take(a.reasoningHold, chunk);
    var b := a.(reasoningHold := t.held);
    if t.leaked then ReportLeak(b, t.held) else b.(reasoning := a.reasoning + Emitted(t.emit))
  }

  // ---- Collecting tool calls --------------------------------------------------

  function Updated(call: CollectedCall, delta: CallDelta): CollectedCall {
    CollectedCall(
      call.index,
      if call.id.None? then delta.id else call.id,
      if delta.name.Some? && delta.name.value != "" then delta.name.value else call.name,
      call.arguments + Emitted(delta.arguments))
  }

  function IndexOf(delta: CallDelta): int {
    if delta.index.Some? then delta.index.value else 0
  }

  /** The first collected call with the delta's index takes it; a new index opens a new call. */
  function MergeOne(calls: seq<CollectedCall>, delta: CallDelta): seq<CollectedCall> {
    if calls == [] then [Updated(CollectedCall(IndexOf(delta), delta.id, "", ""), delta)]
    else if calls[0].index == IndexOf(delta) then [Updated(calls[0], delta)] + calls[1..]
    else [calls[0]] + MergeOne(calls[1..], delta)
  }

  function MergeAll(calls: seq<CollectedCall>, deltas: seq<CallDelta>): seq<CollectedCall>
    decreases |deltas|
  {
    if deltas == [] then calls else MergeAll(MergeOne(calls, deltas[0]), deltas[1..])
  }

  // ---- Reading a response -----------------------------------------------------

  /** The parts of a response in the order the loop handles them. */
  datatype Piece =
    | UsagePiece(usage: int)
    | FinishPiece(finish: string)
    | ContentPiece(content: string)
    | ReasoningPiece(reasoning: string)
    | CallsPiece(deltas: seq<CallDelta>)

  function DeltaPieces(delta: Delta): seq<Piece> {
    (if delta.content.Some? then [ContentPiece(delta.content.value)] else [])
    + (if delta.reasoning.Some? then [ReasoningPiece(delta.reasoning.value)] else [])
    + (if delta.calls.Some? then [CallsPiece(delta.calls.value)] else [])
  }

  function ChoicePieces(choice: Choice): seq<Piece> {
    (if choice.finish.Some? && choice.finish.value != "" then [FinishPiece(choice.finish.value)] else [])
    + (if choice.delta.Some? then DeltaPieces(choice.delta.value) else [])
  }

  function ChoicesPieces(choices: seq<Choice>): seq<Piece> {
    if choices == [] then [] else ChoicePieces(choices[0]) + ChoicesPieces(choices[1..])
  }

  function EventPieces(item: Item): seq<Piece>
    requires item.Event?
  {
    (if item.usage.Some? then [UsagePiece(item.usage.value)] else [])
    + (if item.choices.Some? then ChoicesPieces(item.choices.value) else [])
  }

  /** Everything before the first break of the stream. */
  function Pieces(items: seq<Item>): seq<Piece> {
    if items == [] || items[0].Broken? then [] else EventPieces(items[0]) + Pieces(items[1..])
  }

  function Break(items: seq<Item>): Option<string> {
    if items == [] then None else if items[0].Broken? then Some(items[0].message) else Break(items[1..])
  }

  function Step(config: Config, a: Attempt, piece: Piece): Attempt {
    match piece
    case UsagePiece(usage) => a.(usage := Some(usage))
    case FinishPiece(finish) => a.(finish := Some(finish))
    case ContentPiece(content) => TakeContent(config, a, content)
    case ReasoningPiece(reasoning) => TakeReasoning(a, reasoning)
    case CallsPiece(deltas) => a.(calls := MergeAll(a.calls, deltas))
  }

  function Steps(config: Config, a: Attempt, pieces: seq<Piece>): Attempt
    decreases |pieces|
  {
    if pieces == [] then a else Steps(config, Step(config, a, pieces[0]), pieces[1..])
  }

  lemma {:induction false} StepsAppend(config: Config, a: Attempt, front: seq<Piece>, back: seq<Piece>)
    ensures Steps(config, a, front + back) == Steps(config, Steps(config, a, front), back)
    decreases |front|
  {
    hide Step;
    if front == [] {
      assert front + back == back;
    } else {
      assert (front + back)[1..] == front[1..] + back;
      StepsAppend(config, Step(config, a, front[0]), front[1..], back);
    }
  }

  // ---- The read loop, in place ------------------------------------------------

  method MergeDelta(calls: seq<CollectedCall>, delta: CallDelta) returns (merged: seq<CollectedCall>)
    ensures merged == MergeOne(calls, delta)
  {
    hide Updated, IndexOf;
    var k := 0;
    while k < |calls| && calls[k].index != IndexOf(delta)
      invariant k <= |calls|
      invariant MergeOne(calls, delta) == calls[..k] + MergeOne(calls[k..], delta)
    {
      assert calls[k..][0] == calls[k] && calls[k..][1..] == calls[k + 1..];
      Regroup(calls, k, MergeOne(calls[k + 1..], delta));
      k := k + 1;
    }
    if k < |calls| {
      assert calls[k..][0] == calls[k] && calls[k..][1..] == calls[k + 1..];
      merged := calls[k := Updated(calls[k], delta)];
      assert merged == calls[..k] + ([Updated(calls[k], delta)] + calls[k + 1..]);
    } else {
      assert calls[..k] == calls;
      merged := calls + [Updated(CollectedCall(IndexOf(delta), delta.id, "", ""), delta)];
    }
  }

  lemma Regroup<T>(s: seq<T>, k: nat, rest: seq<T>)
    requires k < |s|
    ensures s[..k] + ([s[k]] + rest) == s[..k + 1] + rest
  {
  }

  method MergeToolDeltas(calls: seq<CollectedCall>, deltas: seq<CallDelta>) returns (merged: seq<CollectedCall>)
    ensures merged == MergeAll(calls, deltas)
  {
    hide MergeOne;
    merged := calls;
    for i := 0 to |deltas|
      invariant MergeAll(calls, deltas) == MergeAll(merged, deltas[i..])
    {
      assert deltas[i..][0] == deltas[i] && deltas[i..][1..] == deltas[i + 1..];
      merged := MergeDelta(merged, deltas[i]);
    }
  }

  lemma StepsOne(config: Config, a: Attempt, piece: Piece)
    ensures Steps(config, a, [piece]) == Step(config, a, piece)
  {
    hide Step;
    assert Steps(config, Step(config, a, piece), [piece][1..]) == Step(config, a, piece);
  }

  method ReadDelta(config: Config, before: Attempt, delta: Delta) returns (a: Attempt)
    ensures a == Steps(config, before, DeltaPieces(delta))
  {
    hide TakeContent, TakeReasoning, MergeAll, Steps;
    a := before;
    ghost var done: seq<Piece> := [];
    assert Steps(config, before, done) == a by { StepsNone(config, before); }
    if delta.content.Some? {
      a := TakeContent(config, a, delta.content.value);
      done := Handled(config, before, done, ContentPiece(delta.content.value));
    }
    if delta.reasoning.Some? {
      a := TakeReasoning(a, delta.reasoning.value);
      done := Handled(config, before, done, ReasoningPiece(delta.reasoning.value));
    }
    if delta.calls.Some? {
      var calls := MergeToolDeltas(a.calls, delta.calls.value);
      a := a.(calls := calls);
      done := Handled(config, before, done, CallsPiece(delta.calls.value));
    }
    assert done == DeltaPieces(delta);
  }

  lemma StepsNone(config: Config, a: Attempt)
    ensures Steps(config, a, []) == a
  {
  }

  lemma Handled(config: Config, a: Attempt, front: seq<Piece>, piece: Piece) returns (pieces: seq<Piece>)
    ensures pieces == front + [piece]
    ensures Steps(config, a, pieces) == Step(config, Steps(config, a, front), piece)
  {
    hide Step, Steps;
    pieces := front + [piece];
    StepsAppend(config, a, front, [piece]);
    StepsOne(config, Steps(config, a, front), piece);
  }

  method ReadChoices(config: Config, before: Attempt, choices: seq<Choice>) returns (a: Attempt)
    ensures a == Steps(config, before, ChoicesPieces(choices))
  {
    hide Step, DeltaPieces;
    a := before;
    for i := 0 to |choices|
      invariant Steps(config, before, ChoicesPieces(choices)) == Steps(config, a, ChoicesPieces(choices[i..]))
    {
      var choice := choices[i];
      assert choices[i..][0] == choice && choices[i..][1..] == choices[i + 1..];
      StepsAppend(config, a, ChoicePieces(choice), ChoicesPieces(choices[i + 1..]));
      a := ReadChoice(config, a, choice);
    }
  }

  method ReadChoice(config: Config, before: Attempt, choice: Choice) returns (a: Attempt)
    ensures a == Steps(config, before, ChoicePieces(choice))
  {
    hide TakeContent, TakeReasoning, MergeAll, DeltaPieces;
    a := before;
    ghost var first: seq<Piece> := [];
    if choice.finish.Some? && choice.finish.value != "" {
      first := [FinishPiece(choice.finish.value)];
      a := a.(finish := choice.finish);
    }
    assert a == Steps(config, before, first);
    if choice.delta.None? {
      assert first + [] == first;
      return;
    }
    StepsAppend(config, before, first, DeltaPieces(choice.delta.value));
    a := ReadDelta(config, a, choice.delta.value);
  }

  method ReadEvent(config: Config, before: Attempt, item: Item) returns (a: Attempt)
    requires item.Event?
    ensures a == Steps(config, before, EventPieces(item))
  {
    hide TakeContent, TakeReasoning, MergeAll, ChoicesPieces;
    a := before;
    ghost var first: seq<Piece> := [];
    if item.usage.Some? {
      first := [UsagePiece(item.usage.value)];
      a := a.(usage := item.usage);
    }
    assert a == Steps(config, before, first);
    if item.choices.None? {
      assert first + [] == first;
      return;
    }
    StepsAppend(config, before, first, ChoicesPieces(item.choices.value));
    a := ReadChoices(config, a, item.choices.value);
  }

  method ReadResponse(config: Config, items: seq<Item>) returns (a: Attempt, broken: Option<string>)
    ensures a == Steps(config, Start(config), Pieces(items)) && broken == Break(items)
  {
    hide Step, EventPieces, Start;
    a := Start(config);
    for i := 0 to |items|
      invariant Steps(config, Start(config), Pieces(items)) == Steps(config, a, Pieces(items[i..]))
      invariant Break(items) == Break(items[i..])
    {
      if items[i].Broken? { return a, Some(items[i].message); }
      assert items[i..][0] == items[i] && items[i..][1..] == items[i + 1..];
      StepsAppend(config, a, EventPieces(items[i]), Pieces(items[i + 1..]));
      a := ReadEvent(config, a, items[i]);
    }
    broken := None;
  }
}
