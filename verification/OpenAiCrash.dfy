/**
  Which responses the streaming loop in openai.rs cannot end, because the repair of
  leaked markup (dsml_repair.rs) panics on them.
*/
module OpenAiCrash {
  import opened Utf8Text
  import opened DsmlGuard
  import opened DsmlGuardLaws
  import DsmlRepair
  import opened DsmlRepairLimits
  import opened DsmlRepairLaws
  import opened OpenAiStream
  import opened OpenAiAttempt
  import opened OpenAiLoop
  import opened OpenAiRun
  import OpenAiServe

  /** What the repair is given when the response ends. */
  function LeftOver(config: Config, items: seq<Item>): string {
    Blob(Flushed(config, Read(config, items)))
  }

  /** The texts that say something, each on lines of its own. */
  function Glued(texts: seq<string>): string {
    if texts == [] then ""
    else
      var front, last := Glued(texts[..|texts| - 1]), texts[|texts| - 1];
      if last == "" then front else if front == "" then last else front + "\n" + last
  }

  /** It is given the thoughts, all markup that was reported, and the text that was shown. */
  lemma LeftOverIs(config: Config, items: seq<Item>)
    ensures var f := Flushed(config, Read(config, items));
      LeftOver(config, items) == Glued([f.reasoning, f.leakBlob, f.text])
  {
    hide Flushed, Read;
    var f := Flushed(config, Read(config, items));
    var three := [f.reasoning, f.leakBlob, f.text];
    assert three[..2] == [f.reasoning, f.leakBlob] && three[..2][..1] == [f.reasoning] && three[..2][..1][..0] == [];
    assert Glued(three[..2][..1]) == f.reasoning;
    assert Glued(three[..2]) == Markup(f);
  }

  /** Whether it is given anything: the response was not broken, and markup but no call came in it. */
  predicate Repairs(config: Config, items: seq<Item>) {
    Break(items).None? && TriesRepair(Flushed(config, Read(config, items)))
  }

  /** A response crashes exactly when what it leaves names a tool and the scan comes to a stuck parameter name. */
  lemma CrashesExactly(config: Config, items: seq<Item>)
    requires Encoded(LeftOver(config, items))
    ensures Crashed(config, Opened(items)) <==>
      && Repairs(config, items)
      && DsmlRepair.ExtractInvokeName(LeftOver(config, items)).Some?
      && SomeStuck(Turns(LeftOver(config, items)))
  {
    hide Flushed, Read, Leaks, Encoded, Turns, DsmlRepair.ExtractInvokeName, DsmlRepair.Repair;
    RepairPanicsExactly(LeftOver(config, items));
  }

  /** No attempt is left with a parameter name that white space of more than one byte follows. */
  ghost predicate NeverSpaced(config: Config, upstream: OpenAiServe.Upstream, asked: seq<OpenAiServe.Asked>) {
    forall i :: 0 <= i < |asked| && OpenAiServe.Got(upstream, asked[i]).Opened? ==>
      var left := LeftOver(config, OpenAiServe.Got(upstream, asked[i]).items); Encoded(left) && NoneSpaced(left)
  }

  /** Such runs always have their one end. */
  lemma UnspacedRunsEnd(config: Config, upstream: OpenAiServe.Upstream, events: seq<Out>,
                        abandoned: seq<seq<Out>>, last: seq<Out>, asked: seq<OpenAiServe.Asked>)
    requires OpenAiServe.Run(config, upstream, events, abandoned, last, asked) && NeverSpaced(config, upstream, asked)
    ensures OneEnd(events)
  {
    hide Concluded, OneEnd, Contains, TextOf, AllTentative, OpenAiServe.AllGivenUp, Flat, OnlyRoleAndText, Crashed, LeftOver;
    hide Encoded, NoneSpaced;
    forall i | 0 <= i < |asked|
      ensures !Crashed(config, OpenAiServe.Got(upstream, asked[i]))
    {
      UnspacedResponse(config, OpenAiServe.Got(upstream, asked[i]));
    }
  }

  lemma UnspacedResponse(config: Config, response: Fetched)
    requires response.Opened? ==>
      Encoded(LeftOver(config, response.items)) && NoneSpaced(LeftOver(config, response.items))
    ensures !Crashed(config, response)
  {
    hide Flushed, Read, Leaks, Encoded, NoneSpaced, DsmlRepair.Repair;
    if response.Opened? { UnspacedNeverPanics(LeftOver(config, response.items)); }
  }

  // ---- A response that crashes ------------------------------------------------

  function OneDelta(content: string): seq<Item> {
    [Event(None, Some([Choice(None, Some(Delta(Some(content), None, None)))]))]
  }

  lemma OnePiece(content: string)
    ensures Pieces(OneDelta(content)) == [ContentPiece(content)] && Break(OneDelta(content)) == None
  {
    var delta := Delta(Some(content), None, None);
    var choice := Choice(None, Some(delta));
    var items := OneDelta(content);
    assert items[1..] == [] && [choice][1..] == [];
    assert DeltaPieces(delta) == [ContentPiece(content)];
    assert ChoicePieces(choice) == [ContentPiece(content)];
    assert ChoicesPieces([choice]) == [ContentPiece(content)];
    assert EventPieces(items[0]) == [ContentPiece(content)];
  }

  lemma SpacedCallLeaks(name: string, space: string, back: string)
    ensures Leaks(SpacedCall(name, space, back)) && SpacedCall(name, space, back) != ""
  {
    hide Contains, OccursAt, MARKERS;
    var content := SpacedCall(name, space, back);
    var rest := "\"" + name + "\">" + "<" + DsmlRepair.PARAMETER_NAME + (space + ">" + back);
    assert content == "<" + INVOKE + rest;
    OccursBehind("<", INVOKE, rest);
    Occurs(content, INVOKE, 1);
    InvokeLeaks(content);
  }

  lemma Occurs(text: string, pattern: string, i: nat)
    requires i <= |text| && OccursAt(text, pattern, i)
    ensures Contains(text, pattern)
  {
    hide OccursAt;
  }

  /** The guard withholds a leaking chunk, and flushing what it withheld reports it once more. */
  lemma WithheldTwice(config: Config, content: string)
    requires content != "" && Leaks(content)
    ensures var f := Flushed(config, Read(config, OneDelta(content)));
      && f.calls == [] && f.reasoning == "" && f.leakBlob == content + content
  {
    hide Leaks, Read, FlushMarkdown, FlushText, FlushReasoning;
    Withheld(config, content);
    StartIsEmpty(config);
    var read := Read(config, OneDelta(content));
    FlushedAgain(config, read, content);
    var b := FlushText(config, read);
    NoReasoning(b);
    MarkdownAddsText(config, FlushReasoning(b));
  }

  lemma Withheld(config: Config, content: string)
    requires content != "" && Leaks(content)
    ensures Read(config, OneDelta(content))
         == Start(config).(textHold := content, leaked := true, leakBlob := content)
  {
    hide Leaks, Start;
    OnePiece(content);
    var start := Start(config);
    StepsOne(config, start, ContentPiece(content));
    assert start.textHold == start.leakBlob == "" by { StartIsEmpty(config); }
    assert "" + content == content;
  }

  lemma StartIsEmpty(config: Config)
    ensures var a := Start(config);
      a.textHold == a.leakBlob == a.reasoningHold == a.reasoning == "" && a.calls == []
  {
  }

  lemma FlushedAgain(config: Config, a: Attempt, content: string)
    requires a.textHold == content == a.leakBlob && content != "" && Leaks(content)
    ensures FlushText(config, a) == a.(leaked := true, leakBlob := content + content)
  {
    hide Leaks;
  }

  lemma NoReasoning(a: Attempt)
    requires a.reasoningHold == ""
    ensures FlushReasoning(a).reasoning == a.reasoning
    ensures FlushReasoning(a).calls == a.calls && FlushReasoning(a).leakBlob == a.leakBlob
  {
    assert a.reasoning + "" == a.reasoning;
  }

  lemma MarkdownAddsText(config: Config, a: Attempt)
    ensures var b := FlushMarkdown(config, a);
      b.reasoning == a.reasoning && b.calls == a.calls && b.leakBlob == a.leakBlob
  {
  }

  /** What is left begins with the call, whatever else follows. */
  lemma LeftIsSpaced(f: Attempt, name: string, space: string, back: string) returns (more: string)
    requires f.reasoning == "" && f.leakBlob == SpacedCall(name, space, back) + SpacedCall(name, space, back)
    ensures Blob(f) == SpacedCall(name, space, more)
  {
    var content := SpacedCall(name, space, back);
    more := back + content + (if f.text == "" then "" else "\n" + f.text);
    CallGoesOn(name, space, back, content);
    CallGoesOn(name, space, back + content, "\n" + f.text);
    assert content != "" && (back + content) + "" == back + content;
  }

  lemma CallGoesOn(name: string, space: string, back: string, more: string)
    ensures SpacedCall(name, space, back) + more == SpacedCall(name, space, back + more)
  {
    hide Opening;
    var front := Opening(name) + "<" + DsmlRepair.PARAMETER_NAME;
    assert front + (space + ">" + back) + more == front + (space + ">" + (back + more));
  }

  /** One delta with a call whose parameter name is such white space crashes the stream of every client. */
  lemma SpacedCallCrashes(config: Config, name: string, space: string, back: string)
    requires Word(name) && IsWhiteSpace(space) && |space| >= 2
    ensures Crashed(config, Opened(OneDelta(SpacedCall(name, space, back))))
  {
    hide Leaks, IsWhiteSpace, Flushed, Read, Word, DsmlRepair.Repair, SpacedCall, Blob;
    var content := SpacedCall(name, space, back);
    SpacedCallLeaks(name, space, back);
    WithheldTwice(config, content);
    OnePiece(content);
    var more := LeftIsSpaced(Flushed(config, Read(config, OneDelta(content))), name, space, back);
    SpacedCallLeaks(name, space, more);
    SpacedCallPanics(name, space, more);
  }

  /** An ideographic space, U+3000, for a parameter name. */
  const SMALLEST := "<invoke name=\"Bash\"><parameter name=\U{E3}\U{80}\U{80}>"

  lemma SmallestIsSpaced()
    ensures SMALLEST == SpacedCall("Bash", "\U{E3}\U{80}\U{80}", "")
  {
    hide Opening;
    OpeningOfBash();
    assert "<" + DsmlRepair.PARAMETER_NAME == "<parameter name=";
    assert "\U{E3}\U{80}\U{80}" + ">" + "" == "\U{E3}\U{80}\U{80}>";
    assert SMALLEST == "<invoke name=\"Bash\">" + "<parameter name=" + "\U{E3}\U{80}\U{80}>";
  }

  lemma OpeningOfBash()
    ensures Opening("Bash") == "<invoke name=\"Bash\">"
  {
    assert "<invoke name=\"" + "Bash" == "<invoke name=\"Bash";
  }

  /** Served that one delta, the client gets a role chunk or text, and no end. */
  lemma SmallestHasNoEnd(config: Config, upstream: OpenAiServe.Upstream, events: seq<Out>,
                         abandoned: seq<seq<Out>>, last: seq<Out>, asked: seq<OpenAiServe.Asked>)
    requires OpenAiServe.Run(config, upstream, events, abandoned, last, asked)
    requires OpenAiServe.Got(upstream, asked[0]) == Opened(OneDelta(SMALLEST))
    ensures !OneEnd(events) && OnlyRoleAndText(events)
  {
    hide Concluded, OneEnd, Contains, TextOf, AllTentative, OpenAiServe.AllGivenUp, Flat, OnlyRoleAndText, Crashed;
    SmallestIsSpaced();
    SpacedCallCrashes(config, "Bash", "\U{E3}\U{80}\U{80}", "");
  }
}
