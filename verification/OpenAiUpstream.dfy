/**
  What a response of the upstream holds, read straight off its events, and that the
  streaming loop of openai.rs takes in all of it and nothing else.
*/
module OpenAiUpstream {
  import opened Utf8Text
  import opened OpenAiStream
  import opened OpenAiAttempt

  // ---- Read off the events ----------------------------------------------------

  /** The events before the stream breaks. */
  function Heard(items: seq<Item>): seq<Item> {
    if items == [] || items[0].Broken? then [] else [items[0]] + Heard(items[1..])
  }

  /** The choices of these events, in order. */
  function ChoicesOf(events: seq<Item>): seq<Choice> {
    if events == [] then []
    else (if events[0].Event? && events[0].choices.Some? then events[0].choices.value else []) + ChoicesOf(events[1..])
  }

  function ContentIn(choice: Choice): seq<string> {
    if choice.delta.Some? && choice.delta.value.content.Some? then [choice.delta.value.content.value] else []
  }

  function ReasoningIn(choice: Choice): seq<string> {
    if choice.delta.Some? && choice.delta.value.reasoning.Some? then [choice.delta.value.reasoning.value] else []
  }

  function CallsIn(choice: Choice): seq<CallDelta> {
    if choice.delta.Some? && choice.delta.value.calls.Some? then choice.delta.value.calls.value else []
  }

  function ContentsIn(choices: seq<Choice>): seq<string> {
    if choices == [] then [] else ContentIn(choices[0]) + ContentsIn(choices[1..])
  }

  function ReasoningsIn(choices: seq<Choice>): seq<string> {
    if choices == [] then [] else ReasoningIn(choices[0]) + ReasoningsIn(choices[1..])
  }

  function AllCallsIn(choices: seq<Choice>): seq<CallDelta> {
    if choices == [] then [] else CallsIn(choices[0]) + AllCallsIn(choices[1..])
  }

  /** A choice that says why the answer stopped. */
  predicate Stops(choice: Choice) {
    choice.finish.Some? && choice.finish.value != ""
  }

  predicate LastStop(choices: seq<Choice>, i: nat)
    requires i < |choices|
  {
    Stops(choices[i]) && forall j :: i < j < |choices| ==> !Stops(choices[j])
  }

  /** The reason is the one given last, and none if none was given. */
  predicate StoppedBy(choices: seq<Choice>, finish: Option<string>) {
    if finish.None? then forall i :: 0 <= i < |choices| ==> !Stops(choices[i])
    else exists i :: 0 <= i < |choices| && LastStop(choices, i) && choices[i].finish == finish
  }

  predicate Counts(item: Item) {
    item.Event? && item.usage.Some?
  }

  predicate LastCount(events: seq<Item>, i: nat)
    requires i < |events|
  {
    Counts(events[i]) && forall j :: i < j < |events| ==> !Counts(events[j])
  }

  /** The usage is the one told last, and none if none was told. */
  predicate UsedAs(events: seq<Item>, usage: Option<int>) {
    if usage.None? then forall i :: 0 <= i < |events| ==> !Counts(events[i])
    else exists i :: 0 <= i < |events| && LastCount(events, i) && events[i].usage == usage
  }

  // ---- Pieces one behind another ----------------------------------------------

  function Later<T>(first: Option<T>, second: Option<T>): Option<T> {
    if second.Some? then second else first
  }

  lemma {:induction false} FlowAppend(a: seq<Piece>, b: seq<Piece>)
    ensures Contents(a + b) == Contents(a) + Contents(b)
    ensures Reasonings(a + b) == Reasonings(a) + Reasonings(b)
    ensures CallDeltas(a + b) == CallDeltas(a) + CallDeltas(b)
    decreases |b|
  {
    if b == [] {
      assert a + b == a;
    } else {
      assert (a + b)[..|a + b| - 1] == a + b[..|b| - 1];
      FlowAppend(a, b[..|b| - 1]);
    }
  }

  lemma {:induction false} LastsAppend(a: seq<Piece>, b: seq<Piece>)
    ensures LastFinish(a + b) == Later(LastFinish(a), LastFinish(b))
    ensures LastUsage(a + b) == Later(LastUsage(a), LastUsage(b))
    decreases |b|
  {
    if b == [] {
      assert a + b == a;
    } else {
      assert (a + b)[..|a + b| - 1] == a + b[..|b| - 1];
      LastsAppend(a, b[..|b| - 1]);
    }
  }

  lemma NoFlow()
    ensures Contents([]) == [] && Reasonings([]) == [] && CallDeltas([]) == []
    ensures LastFinish([]) == None && LastUsage([]) == None
  {
  }

  lemma OnePiece(piece: Piece)
    ensures Contents([piece]) == if piece.ContentPiece? then [piece.content] else []
    ensures Reasonings([piece]) == if piece.ReasoningPiece? then [piece.reasoning] else []
    ensures CallDeltas([piece]) == if piece.CallsPiece? then piece.deltas else []
    ensures LastFinish([piece]) == if piece.FinishPiece? then Some(piece.finish) else None
    ensures LastUsage([piece]) == if piece.UsagePiece? then Some(piece.usage) else None
  {
    assert [piece][..0] == [];
    NoFlow();
  }

  // ---- A choice, an event, a response -----------------------------------------

  lemma DeltaFlows(delta: Delta)
    ensures var pieces := DeltaPieces(delta);
      && Contents(pieces) == (if delta.content.Some? then [delta.content.value] else [])
      && Reasonings(pieces) == (if delta.reasoning.Some? then [delta.reasoning.value] else [])
      && CallDeltas(pieces) == (if delta.calls.Some? then delta.calls.value else [])
      && LastFinish(pieces) == None && LastUsage(pieces) == None
  {
    hide Contents, Reasonings, CallDeltas, LastFinish, LastUsage;
    var content := if delta.content.Some? then [ContentPiece(delta.content.value)] else [];
    var reasoning := if delta.reasoning.Some? then [ReasoningPiece(delta.reasoning.value)] else [];
    var calls := if delta.calls.Some? then [CallsPiece(delta.calls.value)] else [];
    NoFlow();
    if delta.content.Some? { OnePiece(content[0]); }
    if delta.reasoning.Some? { OnePiece(reasoning[0]); }
    if delta.calls.Some? { OnePiece(calls[0]); }
    FlowAppend(content, reasoning);
    FlowAppend(content + reasoning, calls);
    LastsAppend(content, reasoning);
    LastsAppend(content + reasoning, calls);
  }

  lemma ChoiceFlows(choice: Choice)
    ensures var pieces := ChoicePieces(choice);
      && Contents(pieces) == ContentIn(choice) && Reasonings(pieces) == ReasoningIn(choice)
      && CallDeltas(pieces) == CallsIn(choice)
      && LastFinish(pieces) == (if Stops(choice) then choice.finish else None) && LastUsage(pieces) == None
  {
    hide Contents, Reasonings, CallDeltas, LastFinish, LastUsage, DeltaPieces;
    var finish := if choice.finish.Some? && choice.finish.value != "" then [FinishPiece(choice.finish.value)] else [];
    var rest := if choice.delta.Some? then DeltaPieces(choice.delta.value) else [];
    NoFlow();
    if finish != [] { OnePiece(finish[0]); }
    if choice.delta.Some? { DeltaFlows(choice.delta.value); }
    FlowAppend(finish, rest);
    LastsAppend(finish, rest);
  }

  lemma {:induction false} ChoicesFlow(choices: seq<Choice>)
    ensures var pieces := ChoicesPieces(choices);
      && Contents(pieces) == ContentsIn(choices) && Reasonings(pieces) == ReasoningsIn(choices)
      && CallDeltas(pieces) == AllCallsIn(choices)
      && StoppedBy(choices, LastFinish(pieces)) && LastUsage(pieces) == None
    decreases |choices|
  {
    hide Contents, Reasonings, CallDeltas, LastFinish, LastUsage, ChoicePieces, ContentIn, ReasoningIn, CallsIn, StoppedBy, Stops;
    if choices == [] {
      NoFlow();
      NeverStopped();
    } else {
      var choice, rest := choices[0], choices[1..];
      ChoiceFlows(choice);
      ChoicesFlow(rest);
      FlowAppend(ChoicePieces(choice), ChoicesPieces(rest));
      LastsAppend(ChoicePieces(choice), ChoicesPieces(rest));
      StoppedOnce(choice);
      assert [choice] + rest == choices;
      StoppedAppend([choice], if Stops(choice) then choice.finish else None, rest, LastFinish(ChoicesPieces(rest)));
    }
  }

  lemma NeverStopped()
    ensures StoppedBy([], None)
  {
  }

  lemma StoppedOnce(choice: Choice)
    ensures StoppedBy([choice], if Stops(choice) then choice.finish else None)
  {
    if Stops(choice) { assert LastStop([choice], 0); }
  }

  lemma StoppedAppend(a: seq<Choice>, first: Option<string>, b: seq<Choice>, second: Option<string>)
    requires StoppedBy(a, first) && StoppedBy(b, second)
    ensures StoppedBy(a + b, Later(first, second))
  {
    hide Stops;
    var all := a + b;
    if second.Some? {
      var i :| 0 <= i < |b| && LastStop(b, i) && b[i].finish == second;
      assert all[|a| + i] == b[i];
      assert forall j :: |a| + i < j < |all| ==> all[j] == b[j - |a|];
      assert LastStop(all, |a| + i);
    } else if first.Some? {
      var i :| 0 <= i < |a| && LastStop(a, i) && a[i].finish == first;
      assert all[i] == a[i];
      assert forall j :: i < j < |all| ==> all[j] == if j < |a| then a[j] else b[j - |a|];
      assert LastStop(all, i);
    } else {
      assert forall j :: 0 <= j < |all| ==> all[j] == if j < |a| then a[j] else b[j - |a|];
    }
  }

  lemma EventFlows(item: Item)
    requires item.Event?
    ensures var pieces, choices := EventPieces(item), ChoicesOf([item]);
      && Contents(pieces) == ContentsIn(choices) && Reasonings(pieces) == ReasoningsIn(choices)
      && CallDeltas(pieces) == AllCallsIn(choices)
      && StoppedBy(choices, LastFinish(pieces)) && UsedAs([item], LastUsage(pieces))
  {
    hide Contents, Reasonings, CallDeltas, LastFinish, LastUsage, ChoicesPieces, ContentsIn, ReasoningsIn, AllCallsIn, StoppedBy;
    var usage := if item.usage.Some? then [UsagePiece(item.usage.value)] else [];
    var choices := if item.choices.Some? then item.choices.value else [];
    assert ChoicesOf([item]) == choices by { assert [item][1..] == []; assert choices + [] == choices; }
    NoFlow();
    if usage != [] { OnePiece(usage[0]); }
    ChoicesFlow(choices);
    assert item.choices.None? ==> ChoicesPieces(choices) == [] by { NoPieces(); }
    FlowAppend(usage, ChoicesPieces(choices));
    LastsAppend(usage, ChoicesPieces(choices));
    if Counts(item) { assert LastCount([item], 0); }
  }

  lemma NoPieces()
    ensures ChoicesPieces([]) == []
  {
  }

  lemma {:induction false} InAppend(a: seq<Choice>, b: seq<Choice>)
    ensures ContentsIn(a + b) == ContentsIn(a) + ContentsIn(b)
    ensures ReasoningsIn(a + b) == ReasoningsIn(a) + ReasoningsIn(b)
    ensures AllCallsIn(a + b) == AllCallsIn(a) + AllCallsIn(b)
    decreases |a|
  {
    hide ContentIn, ReasoningIn, CallsIn;
    if a == [] {
      assert a + b == b;
    } else {
      assert (a + b)[1..] == a[1..] + b;
      InAppend(a[1..], b);
    }
  }

  lemma UsedAppend(item: Item, first: Option<int>, rest: seq<Item>, second: Option<int>)
    requires UsedAs([item], first) && UsedAs(rest, second)
    ensures UsedAs([item] + rest, Later(first, second))
  {
    var all := [item] + rest;
    if second.Some? {
      var i :| 0 <= i < |rest| && LastCount(rest, i) && rest[i].usage == second;
      assert all[1 + i] == rest[i];
      assert forall j :: 1 + i < j < |all| ==> all[j] == rest[j - 1];
      assert LastCount(all, 1 + i);
    } else {
      assert forall j :: 1 <= j < |all| ==> all[j] == rest[j - 1];
      assert all[0] == [item][0];
      if first.Some? { assert LastCount(all, 0); }
    }
  }

  lemma ChoicesOfOne(item: Item, rest: seq<Item>)
    ensures ChoicesOf([item] + rest) == ChoicesOf([item]) + ChoicesOf(rest)
  {
    assert ([item] + rest)[1..] == rest && [item][1..] == [];
    assert ChoicesOf([]) == [];
    var own := if item.Event? && item.choices.Some? then item.choices.value else [];
    assert ChoicesOf([item]) == own + [] == own;
  }

  lemma HeardOne(items: seq<Item>)
    requires items != [] && items[0].Event?
    ensures Heard(items) == [items[0]] + Heard(items[1..])
    ensures ChoicesOf(Heard(items)) == ChoicesOf([items[0]]) + ChoicesOf(Heard(items[1..]))
    ensures Pieces(items) == EventPieces(items[0]) + Pieces(items[1..])
  {
    hide EventPieces;
    var rest := Heard(items[1..]);
    assert Heard(items) == [items[0]] + rest && ([items[0]] + rest)[1..] == rest;
    ChoicesOfOne(items[0], rest);
  }

  /**
    The loop takes from a response every content, reasoning and call of its choices up
    to the break, in order, and the stop reason and usage told last.
  */
  lemma {:induction false} ResponseIsHeard(items: seq<Item>)
    ensures var pieces, choices := Pieces(items), ChoicesOf(Heard(items));
      && Contents(pieces) == ContentsIn(choices) && Reasonings(pieces) == ReasoningsIn(choices)
      && CallDeltas(pieces) == AllCallsIn(choices)
      && StoppedBy(choices, LastFinish(pieces)) && UsedAs(Heard(items), LastUsage(pieces))
    decreases |items|
  {
    hide Contents, Reasonings, CallDeltas, LastFinish, LastUsage, EventPieces, ContentsIn, ReasoningsIn, AllCallsIn, StoppedBy, UsedAs;
    if items == [] || items[0].Broken? {
      NoFlow();
      NeverStopped();
      assert ContentsIn([]) == [] && ReasoningsIn([]) == [] && AllCallsIn([]) == [] && UsedAs([], None) by { NothingIn(); }
    } else {
      var first, rest := ChoicesOf([items[0]]), ChoicesOf(Heard(items[1..]));
      HeardOne(items);
      EventFlows(items[0]);
      ResponseIsHeard(items[1..]);
      FlowAppend(EventPieces(items[0]), Pieces(items[1..]));
      LastsAppend(EventPieces(items[0]), Pieces(items[1..]));
      InAppend(first, rest);
      StoppedAppend(first, LastFinish(EventPieces(items[0])), rest, LastFinish(Pieces(items[1..])));
      UsedAppend(items[0], LastUsage(EventPieces(items[0])), Heard(items[1..]), LastUsage(Pieces(items[1..])));
    }
  }

  lemma NothingIn()
    ensures ContentsIn([]) == [] && ReasoningsIn([]) == [] && AllCallsIn([]) == [] && UsedAs([], None)
  {
  }

  /** The loop stops with the message of the first break, and goes through if there is none. */
  lemma {:induction false} BreakIsFirst(items: seq<Item>)
    ensures var n := |Heard(items)|;
      && n <= |items| && Heard(items) == items[..n]
      && (forall i :: 0 <= i < n ==> items[i].Event?)
      && (if n < |items| then items[n].Broken? && Break(items) == Some(items[n].message) else Break(items) == None)
    decreases |items|
  {
    if items != [] && items[0].Event? {
      BreakIsFirst(items[1..]);
      var n := |Heard(items[1..])|;
      assert items[..n + 1] == [items[0]] + items[1..][..n];
      assert forall i :: 0 < i < n + 1 ==> items[i] == items[1..][i - 1];
    }
  }
}
