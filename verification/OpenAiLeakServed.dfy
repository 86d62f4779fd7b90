/**
  A tool call that leaked into the text of a response reaches the client as a call
  (openai.rs, dsml_guard.rs, dsml_repair.rs): withheld by the guard, read back by the
  repair and sent as a chunk, with none of it shown.
*/
module OpenAiLeakServed {
  import opened Utf8Text
  import opened DsmlGuard
  import opened DsmlGuardLaws
  import DsmlRepair
  import opened DsmlRepairLaws
  import P = DsmlRepairParts
  import E = DsmlRepairElements
  import opened OpenAiStream
  import opened OpenAiAttempt
  import opened OpenAiLoop
  import opened OpenAiRun
  import opened OpenAiCrash
  import opened OpenAiCallChunks
  import opened OpenAiUpstream
  import opened OpenAiEndings

  // ---- The text twice ---------------------------------------------------------

  /** The parts of a call that is told twice, the second opening between them. */
  function Twice(name: string, pairs: seq<Pair>): seq<P.Part> {
    E.NamedParts(pairs) + [P.Between(Opening(name))] + E.NamedParts(pairs)
  }

  /** Parts without elements hold none. */
  lemma {:induction false} SaidAgain(parts: seq<P.Part>, key: string)
    requires forall i :: 0 <= i < |parts| ==> !parts[i].Plain?
    ensures P.FirstPlain(parts, key) == None
    decreases |parts|
  {
    if parts != [] { SaidAgain(parts[1..], key); }
  }

  lemma {:induction false} LastOfBoth(a: seq<P.Part>, b: seq<P.Part>, key: string)
    ensures P.LastNamed(a + b, key) == if P.LastNamed(b, key).Some? then P.LastNamed(b, key) else P.LastNamed(a, key)
    decreases |a|
  {
    if a == [] {
      assert a + b == b;
    } else {
      assert (a + b)[1..] == a[1..] + b;
      LastOfBoth(a[1..], b, key);
    }
  }

  lemma {:induction false} NoElements(pairs: seq<Pair>)
    ensures forall i :: 0 <= i < |E.NamedParts(pairs)| ==> !E.NamedParts(pairs)[i].Plain?
    decreases |pairs|
  {
    hide E.PlainTag;
    if pairs != [] { NoElements(pairs[1..]); }
  }

  lemma OpeningIsBetween(name: string)
    requires Word(name)
    ensures P.Good(P.Between(Opening(name)))
  {
    hide Word, Quiet, P.Harmless, P.Blanks;
    E.PlainTagIsGood(name);
    OpeningStarts(name);
  }

  lemma OpeningStarts(name: string)
    ensures Opening(name) != "" && Opening(name)[0] == '<'
  {
  }

  lemma TwiceIsGood(name: string, pairs: seq<Pair>)
    requires Word(name) && E.Renderable(pairs)
    ensures P.AllGood(Twice(name, pairs)) && P.AllQuiet(Twice(name, pairs))
    ensures P.TagText(E.PlainTag(DsmlRepair.INVOKE_NAME), name) + P.PartsText(Twice(name, pairs))
         == E.Render(name, pairs) + E.Render(name, pairs)
  {
    hide Word, E.Renderable, P.Good, Opening, E.PlainTag, P.TagText, E.NamedParts, E.Elements, P.PartsText;
    var named, opening := E.NamedParts(pairs), [P.Between(Opening(name))];
    E.NamedPartsAre(pairs);
    E.NamedPartsSpell(pairs);
    NoElements(pairs);
    OpeningIsBetween(name);
    E.PlainTagIsGood(name);
    E.TextsAppend(named + opening, named);
    E.TextsAppend(named, opening);
    assert P.PartsText(opening) == Opening(name) by { OnePart(Opening(name)); }
    var rest := E.Elements(pairs) + "</invoke>";
    assert E.Render(name, pairs) == Opening(name) + rest;
    assert Opening(name) + (rest + Opening(name) + rest) == (Opening(name) + rest) + (Opening(name) + rest);
  }

  lemma OnePart(text: string)
    ensures P.PartsText([P.Between(text)]) == text
  {
    assert [P.Between(text)][1..] == [];
    assert text + "" == text;
  }

  /** Repairing the rendered call told twice gives the call. */
  lemma RepairUndoesTwice(name: string, pairs: seq<Pair>)
    requires Word(name) && pairs != [] && E.Renderable(pairs)
    ensures DsmlRepair.Repair(E.Render(name, pairs) + E.Render(name, pairs)) == DsmlRepair.Call(name, AsMap(map[], pairs))
  {
    hide Word, E.Renderable, P.AllGood, P.AllQuiet, E.NamedParts, P.PartsText, P.GoodOpening, P.FirstPlain, P.LastNamed, AsMap, E.Render, DsmlRepair.Repair;
    var parts, named := Twice(name, pairs), E.NamedParts(pairs);
    TwiceIsGood(name, pairs);
    E.PlainTagIsGood(name);
    P.RepairReadsParts(E.PlainTag(DsmlRepair.INVOKE_NAME), name, parts);
    var outcome := DsmlRepair.Repair(E.Render(name, pairs) + E.Render(name, pairs));
    assert P.Reads(outcome, name, parts);
    NoElements(pairs);
    E.NamedPartsSay(pairs);
    P.AsMapIsLast(map[], named);
    forall key
      ensures P.Argument(parts, key) == P.LastNamed(named, key)
    {
      SaidAgain(parts, key);
      LastOfBoth(named + [P.Between(Opening(name))], named, key);
      LastOfBoth(named, [P.Between(Opening(name))], key);
      NoneBetween(Opening(name), key);
    }
    assert AsMap(map[], pairs) != map[] by { SomethingSaid(pairs); }
    var key :| key in AsMap(map[], pairs);
    assert P.Argument(parts, key).Some?;
    assert outcome.input == AsMap(map[], pairs);
  }

  lemma NoneBetween(text: string, key: string)
    ensures P.LastNamed([P.Between(text)], key) == None
  {
    assert [P.Between(text)][1..] == [];
  }

  lemma {:induction false} KeysStay(input: map<string, string>, pairs: seq<Pair>)
    ensures forall key <- input :: key in AsMap(input, pairs)
    decreases |pairs|
  {
    if pairs != [] { KeysStay(input[pairs[0].key := pairs[0].value], pairs[1..]); }
  }

  lemma SomethingSaid(pairs: seq<Pair>)
    requires pairs != []
    ensures AsMap(map[], pairs) != map[]
  {
    KeysStay(map[pairs[0].key := pairs[0].value], pairs[1..]);
    assert pairs[0].key in AsMap(map[], pairs);
  }

  // ---- Served -----------------------------------------------------------------

  lemma RenderedLeaks(name: string, pairs: seq<Pair>)
    ensures Leaks(E.Render(name, pairs)) && E.Render(name, pairs) != ""
    ensures Leaks(E.Render(name, pairs) + E.Render(name, pairs))
  {
    hide Contains, OccursAt, MARKERS, Leaks, E.Elements;
    var content := E.Render(name, pairs);
    var rest := "\"" + name + "\">" + E.Elements(pairs) + "</invoke>";
    assert content == "<" + INVOKE + rest;
    OccursBehind("<", INVOKE, rest);
    Occurs(content, INVOKE, 1);
    InvokeLeaks(content);
    LeaksExtends(content, content);
  }

  /** What such a response leaves: nothing shown, the call told twice, and the repair reads it. */
  lemma LeakIsCalled(config: Config, name: string, pairs: seq<Pair>)
    requires config.claudeCode && Word(name) && pairs != [] && E.Renderable(pairs)
    ensures var f := Final(config, OneDelta(E.Render(name, pairs)));
      && f.text == "" && f.held == ""
      && !RepairPanics(f)
      && FinalCalls(config, f) == [CollectedCall(0, None, name, config.printed(AsMap(map[], pairs)))]
  {
    hide Word, E.Renderable, Leaks, Flushed, Read, E.Render, AsMap, DsmlRepair.Repair, Text, Thought;
    var content := E.Render(name, pairs);
    var items := OneDelta(content);
    var f := Final(config, items);
    RenderedLeaks(name, pairs);
    WithheldTwice(config, content);
    FinalSays(config, items);
    assert Text(items) == "" by { NothingDelivered(content); }
    assert f.text == "" && f.held == "";
    assert Blob(f) == content + content;
    RepairUndoesTwice(name, pairs);
    assert !Blank(name) by { WordIsNotBlank(name); }
  }

  lemma WordIsNotBlank(name: string)
    requires Word(name)
    ensures !Blank(name)
  {
    hide Trim;
    WordIsClean(name);
  }

  lemma NothingDelivered(content: string)
    requires content != "" && Leaks(content)
    ensures Text(OneDelta(content)) == ""
  {
    hide Leaks;
    var choices := ChoicesOf(Heard(OneDelta(content)));
    OneHeard(content);
    assert [content][..0] == [];
    assert "" + content == content;
    assert Feed([]) == Run("", "", false);
    assert Feed([content]) == StepRun(Feed([]), content);
  }

  lemma OneHeard(content: string)
    ensures ContentsIn(ChoicesOf(Heard(OneDelta(content)))) == [content]
  {
    hide Contents, Reasonings, CallDeltas;
    OpenAiCrash.OnePiece(content);
    ResponseIsHeard(OneDelta(content));
    OpenAiUpstream.OnePiece(ContentPiece(content));
  }

  /**
    A rendered call that leaks in one delta is answered with that call and no text: the
    client is told its name, its arguments as printed and the reason "tool_calls".
  */
  lemma LeakedCallIsServed(config: Config, name: string, pairs: seq<Pair>, attempt: nat, last: seq<Out>)
    requires config.claudeCode && Word(name) && pairs != [] && E.Renderable(pairs)
    requires Concluded(config, last, Opened(OneDelta(E.Render(name, pairs))), attempt)
    ensures TextOf(last) == "" && |CallsOf(last)| == 1
    ensures Tells(config, CallsOf(last)[0], CollectedCall(0, None, name, config.printed(AsMap(map[], pairs))))
    ensures |last| >= 2 && last[|last| - 1] == Done && last[|last| - 2].FinalChunk? && last[|last| - 2].finish == "tool_calls"
  {
    hide Word, E.Renderable, Flushed, Read, E.Render, AsMap, TextOf, CallsOf, Tells, Retry, Leaks, RepairPanics, FinalCalls, Ordered;
    var items := OneDelta(E.Render(name, pairs));
    var f := Final(config, items);
    LeakIsCalled(config, name, pairs);
    OpenAiCrash.OnePiece(E.Render(name, pairs));
    FilledWith(config, f);
    assert Answers(config, f, last);
    AnswerTellsCalls(config, f, last);
    FinishSaysCalls(config, f, last);
  }

  /** Such a response is never given up. */
  lemma LeakedCallIsKept(config: Config, name: string, pairs: seq<Pair>, attempt: nat)
    requires config.claudeCode && Word(name) && pairs != [] && E.Renderable(pairs)
    ensures Retry(config, Read(config, OneDelta(E.Render(name, pairs))), None, attempt) == None
  {
    hide Word, E.Renderable, Flushed, Read, E.Render, AsMap, Leaks, RepairPanics, FinalCalls;
    LeakIsCalled(config, name, pairs);
    FilledWith(config, Final(config, OneDelta(E.Render(name, pairs))));
  }
}
