/**
  What the tool-call chunks of an answer hold (openai.rs): every collected call whole,
  under its id up to a brace.
*/
module OpenAiCallChunks {
  import opened Utf8Text
  import opened OpenAiStream
  import opened OpenAiAttempt
  import opened OpenAiLoop
  import opened OpenAiRun
  import opened OpenAiToolCalls

  /** The id that a call is known by: its own, or one made of its index. */
  function OwnId(call: CollectedCall): string {
    if call.id.Some? then call.id.value else "call_" + (if call.index < 0 then "-" + Decimal(-call.index) else Decimal(call.index))
  }

  /** The text up to its first brace, or all of it if it has none. */
  predicate CutAtBrace(cut: string, text: string) {
    && '{' !in cut && cut <= text
    && (cut == text || text[|cut|] == '{')
  }

  /** The chunk has the call's index and its whole arguments, its name as the client knows it, and its id up to a brace. */
  predicate Tells(config: Config, chunk: Out, call: CollectedCall) {
    && chunk.CallChunk?
    && chunk.index == call.index && chunk.arguments == call.arguments
    && chunk.name == config.canonicalName(call.name)
    && CutAtBrace(chunk.id, OwnId(call))
  }

  lemma {:induction false} BeforeBraceCuts(id: string)
    ensures CutAtBrace(BeforeBrace(id), id)
  {
    if id != "" && id[0] != '{' {
      BeforeBraceCuts(id[1..]);
      var cut := BeforeBrace(id[1..]);
      assert [id[0]] + cut <= id by { assert id == [id[0]] + id[1..]; }
      if cut != id[1..] { assert id[1..][|cut|] == id[|cut| + 1]; }
    }
  }

  lemma {:induction false} ChunksTell(config: Config, calls: seq<CollectedCall>)
    ensures |AsChunks(config, calls)| == |calls|
    ensures forall i :: 0 <= i < |calls| ==> Tells(config, AsChunks(config, calls)[i], calls[i])
  {
    hide BeforeBrace, CutAtBrace, OwnId, Signed;
    if calls != [] {
      var k := |calls| - 1;
      ChunksTell(config, calls[..k]);
      ChunkTells(config, calls[k]);
    }
  }

  lemma ChunkTells(config: Config, call: CollectedCall)
    ensures Tells(config, AsChunk(config, call), call)
  {
    hide BeforeBrace, CutAtBrace, Decimal;
    BeforeBraceCuts(OwnId(call));
  }

  /** Every answer sends one chunk for each final call, in order, and each chunk tells its call. */
  lemma AnswerTellsCalls(config: Config, f: Attempt, out: seq<Out>)
    requires Answers(config, f, out)
    ensures var calls := FinalCalls(config, f);
      && |CallsOf(out)| == |calls|
      && forall i :: 0 <= i < |calls| ==> Tells(config, CallsOf(out)[i], calls[i])
  {
    hide FinalCalls, Unrepaired, Supplement, TextOf, CallsOf, Finish, Tells;
    ChunksTell(config, FinalCalls(config, f));
  }

  /** The call that the upstream's deltas spell for an index. */
  predicate Spelled(deltas: seq<CallDelta>, call: CollectedCall) {
    && call.arguments == FragmentsFor(deltas, call.index)
    && call.id == FirstId(None, deltas, call.index)
    && call.name == LastName("", deltas, call.index)
  }

  /** Unless a leaked call was repaired, every call sent is one that the upstream's deltas spell, with all its arguments. */
  lemma AnswerSendsWhatCame(config: Config, items: seq<Item>, out: seq<Out>, i: nat) returns (call: CollectedCall)
    requires Answers(config, Flushed(config, Read(config, items)), out) && i < |CallsOf(out)|
    requires Repaired(config, Flushed(config, Read(config, items))).None?
    ensures Tells(config, CallsOf(out)[i], call) && Spelled(CallDeltas(Pieces(items)), call)
    ensures CallsOf(out)[i].CallChunk?
      && CallsOf(out)[i].arguments == FragmentsFor(CallDeltas(Pieces(items)), CallsOf(out)[i].index)
  {
    hide Unrepaired, Supplement, TextOf, CallsOf, Finish, Flushed, Repaired, Settled, MergeAll, Answers, Knows, Steps, CutAtBrace, OwnId;
    hide FragmentsFor, FirstId, LastName, Contents, Reasonings, CallDeltas;
    var f := Flushed(config, Read(config, items));
    ReadSettles(config, items);
    CallsAreMerged(config, f, Pieces(items));
    AnswerTellsCalls(config, f, out);
    call := FinalCalls(config, f)[i];
    MergedCallIs(CallDeltas(Pieces(items)), i);
  }

  lemma CallsAreMerged(config: Config, f: Attempt, pieces: seq<Piece>)
    requires Settled(config, f, pieces)
    ensures f.calls == MergeAll([], CallDeltas(pieces))
  {
    hide MergeAll, OnlyText, Visible, CallDeltas;
  }

  /** No index of the upstream's calls is left out, and the order is that in which they were first seen. */
  lemma AnswerSendsAllThatCame(config: Config, items: seq<Item>)
    requires Repaired(config, Flushed(config, Read(config, items))).None?
    ensures Indices(FinalCalls(config, Flushed(config, Read(config, items)))) == FirstSeen([], CallDeltas(Pieces(items)))
  {
    hide Flushed, Repaired, Settled, MergeAll, Knows, Steps, Indices, FirstSeen;
    var f := Flushed(config, Read(config, items));
    ReadSettles(config, items);
    CallsAreMerged(config, f, Pieces(items));
    OneCallPerIndex([], CallDeltas(Pieces(items)));
    assert Indices([]) == [] by { NoIndices(); }
  }

  lemma NoIndices()
    ensures Indices([]) == []
  {
  }
}
