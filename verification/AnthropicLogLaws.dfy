/**
  The buffered event log of anthropic.rs read back by a client that follows the
  event order: exactly the text and the calls that were sent.
*/
module AnthropicLogLaws {
  import opened Utf8Text
  import opened AnthropicLog
  import DsmlRepair

  // ---- A client ---------------------------------------------------------------

  /** A content block as a client has it after its stop event. */
  datatype Content = Content(block: Block, content: string)

  datatype Message = Message(contents: seq<Content>, stopReason: string)

  /** The deltas of an open block up to its stop event, and the events behind it. */
  function ReadDeltas(events: seq<Event>, index: nat, content: string): (r: Option<(string, seq<Event>)>)
    ensures r.Some? ==> |r.value.1| < |events|
  {
    if events == [] then None
    else
      match events[0]
      case TextDelta(i, text) => if i == index then ReadDeltas(events[1..], index, content + text) else None
      case JsonDelta(i, piece) => if i == index then ReadDeltas(events[1..], index, content + piece) else None
      case BlockStop(i) => if i == index then Some((content, events[1..])) else None
      case _ => None
  }

  /** Blocks in order of their index, each stopped before the next starts, then the end of the message. */
  function ReadBlocks(events: seq<Event>, index: nat, contents: seq<Content>): Option<Message>
    decreases |events|
  {
    if events == [] then None
    else
      match events[0]
      case BlockStart(i, block) =>
        var deltas := ReadDeltas(events[1..], index, "");
        if i != index || deltas.None? then None
        else ReadBlocks(deltas.value.1, index + 1, contents + [Content(block, deltas.value.0)])
      case MessageDelta(stopReason) =>
        if events[1..] == [MessageStop] then Some(Message(contents, stopReason)) else None
      case _ => None
  }

  /** One start, then blocks, then one end, and nothing else. */
  function ReadMessage(events: seq<Event>): Option<Message> {
    if events == [] || events[0] != MessageStart then None else ReadBlocks(events[1..], 0, [])
  }

  // ---- What was sent ----------------------------------------------------------

  function TextContents(text: string): seq<Content> {
    if Blank(text) then [] else [Content(TextBlock, text)]
  }

  /** The input of a call as its deltas spell it; an empty object is sent as no delta at all. */
  function Spelled(input: string): string {
    if input == "{}" then "" else input
  }

  function CallContents(calls: seq<Call>): seq<Content> {
    if calls == [] then []
    else [Content(ToolBlock(calls[0].id, calls[0].name), Spelled(calls[0].input))] + CallContents(calls[1..])
  }

  lemma {:induction false} DeltasSpell(index: nat, pieces: seq<string>, rest: seq<Event>, content: string)
    ensures ReadDeltas(JsonEvents(index, pieces) + ([BlockStop(index)] + rest), index, content)
         == Some((content + Concat(pieces), rest))
    decreases |pieces|
  {
    var events := JsonEvents(index, pieces) + ([BlockStop(index)] + rest);
    if pieces == [] {
      assert events == [BlockStop(index)] + rest && events[1..] == rest;
      assert content + "" == content;
    } else {
      assert events[1..] == JsonEvents(index, pieces[1..]) + ([BlockStop(index)] + rest);
      DeltasSpell(index, pieces[1..], rest, content + pieces[0]);
      assert content + pieces[0] + Concat(pieces[1..]) == content + Concat(pieces);
    }
  }

  lemma InputIsSpelled(input: string)
    ensures Concat(InputPieces(input)) == Spelled(input)
  {
    hide Pieces;
    PiecesAreTheInput(input, 0);
    assert input[0..] == input;
  }

  lemma ReadCall(index: nat, call: Call, rest: seq<Event>, contents: seq<Content>)
    ensures ReadBlocks(CallEvents(index, call) + rest, index, contents)
         == ReadBlocks(rest, index + 1, contents + [Content(ToolBlock(call.id, call.name), Spelled(call.input))])
  {
    hide ReadDeltas, InputPieces, Spelled, JsonEvents;
    var events := CallEvents(index, call) + rest;
    assert events[1..] == JsonEvents(index, InputPieces(call.input)) + ([BlockStop(index)] + rest);
    DeltasSpell(index, InputPieces(call.input), rest, "");
    InputIsSpelled(call.input);
    assert "" + Spelled(call.input) == Spelled(call.input);
  }

  lemma {:induction false} ReadCalls(index: nat, calls: seq<Call>, rest: seq<Event>, contents: seq<Content>)
    ensures ReadBlocks(CallsEvents(index, calls) + rest, index, contents)
         == ReadBlocks(rest, index + |calls|, contents + CallContents(calls))
    decreases |calls|
  {
    hide ReadBlocks, CallEvents, Spelled;
    if calls == [] {
      assert CallsEvents(index, calls) + rest == rest && contents + [] == contents;
    } else {
      var more := CallsEvents(index + 1, calls[1..]) + rest;
      assert CallsEvents(index, calls) + rest == CallEvents(index, calls[0]) + more;
      ReadCall(index, calls[0], more, contents);
      var one := Content(ToolBlock(calls[0].id, calls[0].name), Spelled(calls[0].input));
      ReadCalls(index + 1, calls[1..], rest, contents + [one]);
      assert contents + [one] + CallContents(calls[1..]) == contents + CallContents(calls);
    }
  }

  lemma ReadText(text: string, rest: seq<Event>)
    ensures ReadBlocks(TextEvents(text) + rest, 0, [])
         == ReadBlocks(rest, if Blank(text) then 0 else 1, TextContents(text))
  {
    hide Blank;
    var events := TextEvents(text) + rest;
    if Blank(text) {
      assert events == rest;
    } else {
      assert events[0] == BlockStart(0, TextBlock);
      assert events[1..][0] == TextDelta(0, text) && events[1..][1..][0] == BlockStop(0);
      assert events[1..][1..][1..] == rest;
      ReadTextBlock(events[1..], text, rest);
      assert [] + [Content(TextBlock, text)] == [Content(TextBlock, text)];
    }
  }

  lemma ReadTextBlock(events: seq<Event>, text: string, rest: seq<Event>)
    requires |events| >= 2 && events[0] == TextDelta(0, text) && events[1..][0] == BlockStop(0) && events[1..][1..] == rest
    ensures ReadDeltas(events, 0, "") == Some((text, rest))
  {
    assert "" + text == text;
    assert ReadDeltas(events[1..], 0, text) == Some((text, rest));
  }

  lemma ReadClosing(stopReason: string, index: nat, contents: seq<Content>)
    ensures ReadBlocks(Closing(stopReason), index, contents) == Some(Message(contents, stopReason))
  {
    assert Closing(stopReason)[1..] == [MessageStop];
  }

  /**
    Reading the log gives the text, unless it is blank, and then every call that
    was sent with its whole input, under indices 0, 1, 2 and so on.
  */
  lemma LogReadsBack(text: string, sent: seq<Call>, stopReason: string)
    ensures ReadMessage(Log(text, sent, stopReason))
         == Some(Message(TextContents(text) + CallContents(sent), if sent == [] then stopReason else "tool_use"))
  {
    hide Blank, ReadBlocks, CallsEvents, TextEvents, Closing;
    var reason := if sent == [] then stopReason else "tool_use";
    var offset := if Blank(text) then 0 else 1;
    var log := Log(text, sent, stopReason);
    var calls := CallsEvents(offset, sent) + Closing(reason);
    assert log == [MessageStart] + (TextEvents(text) + calls);
    assert log[1..] == TextEvents(text) + calls;
    ReadText(text, calls);
    ReadCalls(offset, sent, Closing(reason), TextContents(text));
    ReadClosing(reason, offset + |sent|, TextContents(text) + CallContents(sent));
  }

  // ---- No call twice ----------------------------------------------------------

  predicate NoRepeat(sent: seq<Call>) {
    forall i, j :: 0 <= i < j < |sent| ==> Signature(sent[i]) != Signature(sent[j])
  }

  predicate NoneIn(sent: seq<Call>, seen: set<string>) {
    forall i :: 0 <= i < |sent| ==> Signature(sent[i]) !in seen
  }

  /** ClaudeCode is sent no call twice. */
  lemma {:induction false} SentOnce(calls: seq<Option<Call>>, seen: set<string>)
    ensures NoRepeat(Sent(true, calls, seen)) && NoneIn(Sent(true, calls, seen), seen)
    decreases |calls|
  {
    hide Signature, NoRepeat, NoneIn;
    if calls == [] {
      NothingRepeats(seen);
    } else if calls[0].None? || Signature(calls[0].value) in seen {
      SentOnce(calls[1..], seen);
    } else {
      var more := seen + {Signature(calls[0].value)};
      SentOnce(calls[1..], more);
      OneMore(calls[0].value, Sent(true, calls[1..], more), seen);
    }
  }

  lemma NothingRepeats(seen: set<string>)
    ensures NoRepeat([]) && NoneIn([], seen)
  {
  }

  lemma OneMore(call: Call, rest: seq<Call>, seen: set<string>)
    requires Signature(call) !in seen && NoRepeat(rest) && NoneIn(rest, seen + {Signature(call)})
    ensures NoRepeat([call] + rest) && NoneIn([call] + rest, seen)
  {
    hide Signature;
    var sent := [call] + rest;
    forall i, j | 0 <= i < j < |sent|
      ensures Signature(sent[i]) != Signature(sent[j])
    {
      assert sent[j] == rest[j - 1];
      if i > 0 { assert sent[i] == rest[i - 1]; }
    }
    forall i | 0 <= i < |sent|
      ensures Signature(sent[i]) !in seen
    {
      if i > 0 { assert sent[i] == rest[i - 1]; }
    }
  }

  /** Every call that can be sent is sent, or one like it was. */
  lemma {:induction false} NoneLost(calls: seq<Option<Call>>, seen: set<string>, k: nat)
    requires k < |calls| && calls[k].Some? && Signature(calls[k].value) !in seen
    ensures exists call <- Sent(true, calls, seen) :: Signature(call) == Signature(calls[k].value)
    decreases |calls|
  {
    hide Signature;
    if calls[0].None? || Signature(calls[0].value) in seen {
      assert calls[1..][k - 1] == calls[k];
      NoneLost(calls[1..], seen, k - 1);
    } else {
      var more := seen + {Signature(calls[0].value)};
      if Signature(calls[k].value) == Signature(calls[0].value) {
        assert calls[0].value in Sent(true, calls, seen);
      } else {
        assert calls[1..][k - 1] == calls[k];
        NoneLost(calls[1..], more, k - 1);
        var call :| call in Sent(true, calls[1..], more) && Signature(call) == Signature(calls[k].value);
        assert call in Sent(true, calls, seen);
      }
    }
  }

  /** Other clients are sent every call that can be sent, in order. */
  lemma {:induction false} SentAll(calls: seq<Option<Call>>, seen: set<string>)
    ensures Sent(false, calls, seen) == Present(calls)
    decreases |calls|
  {
    hide Signature;
    if calls != [] { SentAll(calls[1..], seen); }
  }

  function Present(calls: seq<Option<Call>>): seq<Call> {
    if calls == [] then [] else (if calls[0].Some? then [calls[0].value] else []) + Present(calls[1..])
  }

  // ---- Which calls are the same -----------------------------------------------

  /** The same tool, but for the case of its name, with the same input. */
  predicate SameCall(a: Call, b: Call) {
    DsmlRepair.SameLetters(a.name, b.name) && a.input == b.input
  }

  predicate NamedPlainly(call: Call) {
    ':' !in call.name
  }

  lemma LowerHasNoColon(name: string)
    requires ':' !in name
    ensures ':' !in DsmlRepair.Lower(name)
  {
    hide DsmlRepair.Lower;
    var lower := DsmlRepair.Lower(name);
    forall i | 0 <= i < |lower|
      ensures lower[i] != ':'
    {
      assert lower[i] == DsmlRepair.LowerChar(name[i]) && name[i] in name;
    }
  }

  /** Signatures tell calls apart exactly as far as they differ in tool or input. */
  lemma SignatureTellsApart(a: Call, b: Call)
    requires NamedPlainly(a) && NamedPlainly(b)
    ensures Signature(a) == Signature(b) <==> SameCall(a, b)
  {
    hide DsmlRepair.Lower;
    var lowerA, lowerB := DsmlRepair.Lower(a.name), DsmlRepair.Lower(b.name);
    LowerHasNoColon(a.name);
    LowerHasNoColon(b.name);
    DsmlRepair.LowerForgetsCase(a.name, b.name);
    if Signature(a) == Signature(b) {
      assert lowerA + [':'] + a.input == lowerB + [':'] + b.input;
      SplitUnique(lowerA, a.input, lowerB, b.input, ':');
    }
  }

  /** With a colon in a name they are told apart no more. */
  lemma ColonsConfuse(a: string, b: string, c: string)
    ensures Signature(Call("", a + ":" + b, c)) == Signature(Call("", a, DsmlRepair.Lower(b) + ":" + c))
  {
    hide DsmlRepair.Lower;
    var left := DsmlRepair.Lower(a) + ":" + DsmlRepair.Lower(b);
    assert DsmlRepair.Lower(a + ":" + b) == left by { LowerOfColon(a, b); }
    assert left + ":" + c == DsmlRepair.Lower(a) + ":" + (DsmlRepair.Lower(b) + ":" + c);
  }

  lemma LowerOfColon(a: string, b: string)
    ensures DsmlRepair.Lower(a + ":" + b) == DsmlRepair.Lower(a) + ":" + DsmlRepair.Lower(b)
  {
    hide DsmlRepair.Lower;
    var whole, parts := DsmlRepair.Lower(a + ":" + b), DsmlRepair.Lower(a) + ":" + DsmlRepair.Lower(b);
    assert |whole| == |parts|;
    forall i | 0 <= i < |whole|
      ensures whole[i] == parts[i]
    {
    }
  }

  // ---- The first of each ------------------------------------------------------

  predicate Earlier(calls: seq<Option<Call>>, k: nat, call: Call)
    requires k <= |calls|
  {
    exists i :: 0 <= i < k && calls[i].Some? && SameCall(calls[i].value, call)
  }

  /** The calls that can be sent, each only where no earlier one that can be sent is the same. */
  function Firsts(calls: seq<Option<Call>>): seq<Call> {
    if calls == [] then []
    else
      var k := |calls| - 1;
      Firsts(calls[..k]) + (if calls[k].None? || Earlier(calls, k, calls[k].value) then [] else [calls[k].value])
  }

  function Signatures(calls: seq<Option<Call>>): set<string> {
    set i | 0 <= i < |calls| && calls[i].Some? :: Signature(calls[i].value)
  }

  lemma {:induction false} SentGrows(calls: seq<Option<Call>>, last: Option<Call>, seen: set<string>)
    ensures Sent(true, calls + [last], seen)
         == Sent(true, calls, seen)
            + (if last.None? || Signature(last.value) in seen + Signatures(calls) then [] else [last.value])
    decreases |calls|
  {
    hide Signature, Signatures;
    var all := calls + [last];
    if calls == [] {
      NoSignatures();
      assert all[1..] == [];
    } else {
      assert all[0] == calls[0] && all[1..] == calls[1..] + [last];
      SignaturesOf(calls);
      SentGrows(calls[1..], last, if calls[0].None? then seen else seen + {Signature(calls[0].value)});
      if calls[0].Some? && Signature(calls[0].value) in seen {
        assert seen + {Signature(calls[0].value)} == seen;
      }
    }
  }

  lemma NoSignatures()
    ensures Signatures([]) == {}
  {
  }

  lemma SignaturesOf(calls: seq<Option<Call>>)
    requires calls != []
    ensures Signatures(calls)
         == (if calls[0].Some? then {Signature(calls[0].value)} else {}) + Signatures(calls[1..])
  {
    hide Signature;
    forall x | x in Signatures(calls)
      ensures x in (if calls[0].Some? then {Signature(calls[0].value)} else {}) + Signatures(calls[1..])
    {
      var i :| 0 <= i < |calls| && calls[i].Some? && Signature(calls[i].value) == x;
      if i > 0 { assert calls[1..][i - 1] == calls[i]; }
    }
    forall x | x in Signatures(calls[1..])
      ensures x in Signatures(calls)
    {
      var i :| 0 <= i < |calls[1..]| && calls[1..][i].Some? && Signature(calls[1..][i].value) == x;
      assert calls[i + 1] == calls[1..][i];
    }
  }

  predicate AllNamedPlainly(calls: seq<Option<Call>>) {
    forall i :: 0 <= i < |calls| && calls[i].Some? ==> NamedPlainly(calls[i].value)
  }

  lemma SignatureSeen(calls: seq<Option<Call>>, call: Call)
    requires AllNamedPlainly(calls) && NamedPlainly(call)
    ensures Signature(call) in Signatures(calls) <==> Earlier(calls, |calls|, call)
  {
    hide Signature, SameCall, NamedPlainly;
    forall i | 0 <= i < |calls| && calls[i].Some?
      ensures Signature(calls[i].value) == Signature(call) <==> SameCall(calls[i].value, call)
    {
      SignatureTellsApart(calls[i].value, call);
    }
  }

  /** ClaudeCode is sent exactly the first of the calls that are the same, in order. */
  lemma {:induction false} SentIsFirsts(calls: seq<Option<Call>>)
    requires AllNamedPlainly(calls)
    ensures Sent(true, calls, {}) == Firsts(calls)
    decreases |calls|
  {
    hide Signature, SameCall, NamedPlainly, Signatures;
    if calls != [] {
      var k := |calls| - 1;
      var front := calls[..k];
      SentIsFirsts(front);
      SentGrows(front, calls[k], {});
      assert front + [calls[k]] == calls;
      if calls[k].Some? {
        SignatureSeen(front, calls[k].value);
        EarlierInFront(calls, k, calls[k].value);
      }
      assert {} + Signatures(front) == Signatures(front);
    }
  }

  lemma EarlierInFront(calls: seq<Option<Call>>, k: nat, call: Call)
    requires k <= |calls|
    ensures Earlier(calls[..k], k, call) <==> Earlier(calls, k, call)
  {
    hide SameCall;
    if Earlier(calls, k, call) {
      var i :| 0 <= i < k && calls[i].Some? && SameCall(calls[i].value, call);
      assert calls[..k][i] == calls[i];
    }
    if Earlier(calls[..k], k, call) {
      var i :| 0 <= i < k && calls[..k][i].Some? && SameCall(calls[..k][i].value, call);
      assert calls[i] == calls[..k][i];
    }
  }

  /** So that is what ClaudeCode reads, each with its whole input, behind the text. */
  lemma ClientReadsFirsts(text: string, calls: seq<Option<Call>>, stopReason: string)
    requires AllNamedPlainly(calls)
    ensures ReadMessage(Log(text, Sent(true, calls, {}), stopReason))
         == Some(Message(TextContents(text) + CallContents(Firsts(calls)), if Firsts(calls) == [] then stopReason else "tool_use"))
  {
    hide ReadMessage, Log, Sent, Firsts, TextContents, CallContents, AllNamedPlainly;
    SentIsFirsts(calls);
    LogReadsBack(text, Firsts(calls), stopReason);
  }
}
