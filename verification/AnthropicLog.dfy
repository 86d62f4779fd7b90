/**
  The event log of a buffered Anthropic answer (anthropic.rs): one text block, one
  block a tool call, each call's input cut into pieces.
*/
module AnthropicLog {
  import opened Utf8Text
  import opened DsmlRepair

  const PIECE_BYTES: nat := 4096

  // ---- Cutting the input of a call --------------------------------------------

  /** Where characters begin: the text starts with one, and none is longer than four bytes. */
  predicate Characters(text: string) {
    && (text != "" ==> !Continues(text[0]))
    && forall i :: 0 <= i && i + 3 < |text| ==>
         !Continues(text[i]) || !Continues(text[i + 1]) || !Continues(text[i + 2]) || !Continues(text[i + 3])
  }

  /** The last boundary in the piece, or the start if there is none. */
  function BackToBoundary(text: string, start: nat, end: nat): (k: nat)
    requires start <= end <= |text|
    ensures start <= k <= end && (k == start || IsBoundary(text, k))
    ensures forall j :: k < j <= end ==> !IsBoundary(text, j)
  {
    if end > start && !IsBoundary(text, end) then BackToBoundary(text, start, end - 1) else end
  }

  /** The end of the character that starts here. */
  function NextBoundary(text: string, i: nat): (k: nat)
    requires i < |text|
    ensures i < k <= |text| && IsBoundary(text, k)
    decreases |text| - i
  {
    if IsBoundary(text, i + 1) then i + 1 else NextBoundary(text, i + 1)
  }

  function PieceEnd(text: string, start: nat): (end: nat)
    requires start < |text|
    ensures start < end <= |text| && IsBoundary(text, end)
  {
    var limit := if start + PIECE_BYTES < |text| then start + PIECE_BYTES else |text|;
    var end := BackToBoundary(text, start, limit);
    if end == start then NextBoundary(text, start) else end
  }

  function Pieces(text: string, start: nat): seq<string>
    requires start <= |text|
    decreases |text| - start
  {
    if start == |text| then [] else [text[start..PieceEnd(text, start)]] + Pieces(text, PieceEnd(text, start))
  }

  method JsonDeltaChunks(input: string) returns (chunks: seq<string>)
    ensures chunks == Pieces(input, 0)
  {
    hide IsBoundary;
    chunks := [];
    var start := 0;
    while start < |input|
      invariant start <= |input| && Pieces(input, 0) == chunks + Pieces(input, start)
    {
      var limit := if start + PIECE_BYTES < |input| then start + PIECE_BYTES else |input|;
      var end := limit;
      while end > start && !IsBoundary(input, end)
        invariant start <= end <= limit && BackToBoundary(input, start, limit) == BackToBoundary(input, start, end)
      {
        end := end - 1;
      }
      if end == start { end := NextBoundary(input, start); }
      chunks := chunks + [input[start..end]];
      start := end;
    }
  }

  /** The pieces are the input, and none is empty. */
  lemma {:induction false} PiecesAreTheInput(text: string, start: nat)
    requires start <= |text|
    ensures Concat(Pieces(text, start)) == text[start..]
    ensures forall piece <- Pieces(text, start) :: piece != ""
    decreases |text| - start
  {
    hide PieceEnd;
    if start < |text| {
      var end := PieceEnd(text, start);
      PiecesAreTheInput(text, end);
      assert text[start..end] + text[end..] == text[start..];
    }
  }

  /** Each piece is whole characters and fits its limit. */
  lemma {:induction false} PiecesFit(text: string, start: nat)
    requires Characters(text) && start <= |text| && IsBoundary(text, start)
    ensures forall piece <- Pieces(text, start) :: |piece| <= 4096 && piece != "" && !Continues(piece[0])
    decreases |text| - start
  {
    hide PieceEnd;
    if start < |text| {
      var end := PieceEnd(text, start);
      PieceFits(text, start);
      PiecesFit(text, end);
    }
  }

  /** Each piece but the last is as long as whole characters can be. */
  lemma {:induction false} PiecesAreFull(text: string, start: nat, i: nat)
    requires Characters(text) && start <= |text| && IsBoundary(text, start)
    requires i + 1 < |Pieces(text, start)|
    ensures |Pieces(text, start)[i]| >= 4093
    decreases |text| - start
  {
    hide PieceEnd;
    if start < |text| {
      PieceIsFull(text, start);
      if i > 0 { PiecesAreFull(text, PieceEnd(text, start), i - 1); }
    }
  }

  lemma PieceIsFull(text: string, start: nat)
    requires Characters(text) && start < |text|
    ensures PieceEnd(text, start) == |text| || PieceEnd(text, start) > start + PIECE_BYTES - 4
  {
    if start + PIECE_BYTES < |text| {
      var i := start + PIECE_BYTES - 3;
      assert IsBoundary(text, i) || IsBoundary(text, i + 1) || IsBoundary(text, i + 2) || IsBoundary(text, i + 3);
    }
  }

  lemma PieceFits(text: string, start: nat)
    requires Characters(text) && start < |text|
    ensures PieceEnd(text, start) <= start + PIECE_BYTES
  {
    var limit := if start + PIECE_BYTES < |text| then start + PIECE_BYTES else |text|;
    var end := BackToBoundary(text, start, limit);
    if limit < |text| {
      var i := limit - 3;
      assert IsBoundary(text, i) || IsBoundary(text, i + 1) || IsBoundary(text, i + 2) || IsBoundary(text, i + 3);
    }
  }

  // ---- The calls that are sent ------------------------------------------------

  /** A collected call as the client can take it: its input is known by its JSON text. */
  datatype Call = Call(id: string, name: string, input: string)

  function Signature(call: Call): string {
    Lower(call.name) + ":" + call.input
  }

  /** Calls that cannot be sent are left out; ClaudeCode gets no call twice. */
  function Sent(claudeCode: bool, calls: seq<Option<Call>>, seen: set<string>): seq<Call> {
    if calls == [] then []
    else if calls[0].None? || (claudeCode && Signature(calls[0].value) in seen) then Sent(claudeCode, calls[1..], seen)
    else [calls[0].value] + Sent(claudeCode, calls[1..], if claudeCode then seen + {Signature(calls[0].value)} else seen)
  }

  // ---- The log ----------------------------------------------------------------

  datatype Block = TextBlock | ToolBlock(id: string, name: string)

  datatype Event =
    | MessageStart
    | BlockStart(index: nat, block: Block)
    | TextDelta(index: nat, text: string)
    | JsonDelta(index: nat, piece: string)
    | BlockStop(index: nat)
    | MessageDelta(stopReason: string)
    | MessageStop

  function TextEvents(text: string): seq<Event> {
    if Blank(text) then [] else [BlockStart(0, TextBlock), TextDelta(0, text), BlockStop(0)]
  }

  function JsonEvents(index: nat, pieces: seq<string>): seq<Event> {
    if pieces == [] then [] else [JsonDelta(index, pieces[0])] + JsonEvents(index, pieces[1..])
  }

  function InputPieces(input: string): seq<string> {
    if input == "{}" then [] else Pieces(input, 0)
  }

  function CallEvents(index: nat, call: Call): seq<Event> {
    [BlockStart(index, ToolBlock(call.id, call.name))] + JsonEvents(index, InputPieces(call.input)) + [BlockStop(index)]
  }

  function CallsEvents(index: nat, calls: seq<Call>): seq<Event>
    decreases |calls|
  {
    if calls == [] then [] else CallEvents(index, calls[0]) + CallsEvents(index + 1, calls[1..])
  }

  function Closing(stopReason: string): seq<Event> {
    [MessageDelta(stopReason), MessageStop]
  }

  function Log(text: string, sent: seq<Call>, stopReason: string): seq<Event> {
    [MessageStart] + TextEvents(text) + CallsEvents(if Blank(text) then 0 else 1, sent)
    + Closing(if sent == [] then stopReason else "tool_use")
  }

  method SkipDuplicate(claudeCode: bool, seen: set<string>, call: Call) returns (skip: bool, after: set<string>)
    ensures skip <==> claudeCode && Signature(call) in seen
    ensures after == if claudeCode then seen + {Signature(call)} else seen
  {
    if !claudeCode { return false, seen; }
    skip, after := Signature(call) in seen, seen + {Signature(call)};
  }

  method SendCall(index: nat, call: Call) returns (events: seq<Event>)
    ensures events == CallEvents(index, call)
  {
    hide Pieces;
    events := [BlockStart(index, ToolBlock(call.id, call.name))];
    if call.input != "{}" {
      var chunks := JsonDeltaChunks(call.input);
      for i := 0 to |chunks|
        invariant events + JsonEvents(index, chunks[i..]) == [BlockStart(index, ToolBlock(call.id, call.name))] + JsonEvents(index, chunks)
      {
        assert chunks[i..][0] == chunks[i] && chunks[i..][1..] == chunks[i + 1..];
        events := events + [JsonDelta(index, chunks[i])];
      }
    }
    events := events + [BlockStop(index)];
  }

  /** The loop over the collected calls: one block for each that is sent. */
  method SendAll(calls: seq<Option<Call>>, first: nat, claudeCode: bool) returns (events: seq<Event>, blocks: nat)
    ensures events == CallsEvents(first, Sent(claudeCode, calls, {}))
    ensures blocks == |Sent(claudeCode, calls, {})|
  {
    hide Signature, CallEvents, Sent, CallsEvents;
    events, blocks := [], 0;
    var seen: set<string> := {};
    ghost var all := Sent(claudeCode, calls, {});
    assert calls[0..] == calls;
    for i := 0 to |calls|
      invariant events + CallsEvents(first + blocks, Sent(claudeCode, calls[i..], seen)) == CallsEvents(first, all)
      invariant blocks + |Sent(claudeCode, calls[i..], seen)| == |all|
    {
      SentUnfold(claudeCode, calls, i, seen);
      if calls[i].None? { continue; }
      var call := calls[i].value;
      ghost var before := seen;
      var skip;
      skip, seen := SkipDuplicate(claudeCode, seen, call);
      if skip {
        assert seen == before;
        continue;
      }
      var more := SendCall(first + blocks, call);
      CallsUnfold(events, first + blocks, call, Sent(claudeCode, calls[i + 1..], seen));
      events := events + more;
      blocks := blocks + 1;
    }
    SentNone(claudeCode, calls, seen, first + blocks);
    assert events + [] == events;
  }

  method BufferedLog(text: string, calls: seq<Option<Call>>, stopReason: string, claudeCode: bool) returns (events: seq<Event>)
    ensures events == Log(text, Sent(claudeCode, calls, {}), stopReason)
  {
    hide Blank, Sent, CallsEvents;
    events := [MessageStart];
    var hasText := !Blank(text);
    if hasText { events := events + [BlockStart(0, TextBlock), TextDelta(0, text), BlockStop(0)]; }
    assert events == [MessageStart] + TextEvents(text);
    var sent, blocks := SendAll(calls, if hasText then 1 else 0, claudeCode);
    events := events + sent + Closing(if blocks == 0 then stopReason else "tool_use");
  }

  lemma SentUnfold(claudeCode: bool, calls: seq<Option<Call>>, i: nat, seen: set<string>)
    requires i < |calls|
    ensures Sent(claudeCode, calls[i..], seen)
         == (if calls[i].None? || (claudeCode && Signature(calls[i].value) in seen)
             then Sent(claudeCode, calls[i + 1..], seen)
             else [calls[i].value]
                  + Sent(claudeCode, calls[i + 1..], if claudeCode then seen + {Signature(calls[i].value)} else seen))
  {
    hide Signature;
    assert calls[i..][0] == calls[i] && calls[i..][1..] == calls[i + 1..];
  }

  lemma SentNone(claudeCode: bool, calls: seq<Option<Call>>, seen: set<string>, index: nat)
    ensures Sent(claudeCode, calls[|calls|..], seen) == [] && CallsEvents(index, []) == []
  {
  }

  lemma CallsUnfold(events: seq<Event>, index: nat, call: Call, rest: seq<Call>)
    ensures events + CallsEvents(index, [call] + rest) == events + CallEvents(index, call) + CallsEvents(index + 1, rest)
  {
    assert ([call] + rest)[1..] == rest;
  }
}
