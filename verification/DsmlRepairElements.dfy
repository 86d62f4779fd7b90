/**
  Plain elements behind the named parameters of a leaked call, whatever text they
  hold (dsml_repair.rs): unless the scan for names panics on it, every element is
  read as its content.
*/
module DsmlRepairElements {
  import opened Utf8Text
  import opened DsmlRepair
  import opened DsmlRepairLaws
  import opened DsmlRepairParts
  import opened DsmlRepairLimits

  // ---- Texts that close no parameter ------------------------------------------

  /** A text in which no closing tag of a parameter begins. */
  ghost predicate Unclosing(text: string) {
    && Free(Lower(text), "/parameter>") && Free(Lower(text), "/|dsml|parameter>")
    && Free(Lower(text), "/\U{EF}\U{BD}\U{9C}dsml\U{EF}\U{BD}\U{9C}parameter>")
  }

  lemma FreeSuffix(s: string, tag: string, i: nat)
    requires Free(s, tag) && i <= |s|
    ensures Free(s[i..], tag)
  {
    forall j: nat | j < |s[i..]| && s[i..][j] == '<'
      ensures Differs(s[i..], tag, j)
    {
      assert Differs(s, tag, i + j);
      var d :| 0 <= d < |tag| && i + j + 1 + d < |s| && s[i + j + 1 + d] != tag[d];
      DiffersAt(s[i..], tag, j, d);
    }
  }

  lemma FreeIsNowhere(s: string, tag: string)
    requires Free(s, tag)
    ensures IndexFrom(s, "<" + tag, 0) == None
  {
    hide OccursAt, IndexFrom, Free;
    forall j: nat
      ensures !OccursAt(s, "<" + tag, j)
    {
      assert s + "" == s;
      if j < |s| { FreeHasNone(s, "", tag, j); } else { TooFar(s, "<" + tag, j); }
    }
    NoneIs(s, "<" + tag);
  }

  lemma UnclosingHasNoClose(text: string)
    requires Unclosing(text)
    ensures ParameterClose(text) == None
  {
    hide Lower, Free, IndexFrom;
    NoneOfThem(text);
    CapitalsAreSmall();
    CapitalsToo(text, "</|DSML|parameter>", "</|dsml|parameter>");
    CapitalsToo(text, "</\U{EF}\U{BD}\U{9C}DSML\U{EF}\U{BD}\U{9C}parameter>", "</\U{EF}\U{BD}\U{9C}dsml\U{EF}\U{BD}\U{9C}parameter>");
  }

  lemma NoneOfThem(text: string)
    requires Unclosing(text)
    ensures IndexFrom(Lower(text), "</parameter>", 0) == None
    ensures IndexFrom(Lower(text), "</|dsml|parameter>", 0) == None
    ensures IndexFrom(Lower(text), "</\U{EF}\U{BD}\U{9C}dsml\U{EF}\U{BD}\U{9C}parameter>", 0) == None
  {
    hide Lower, Free, IndexFrom;
    FreeIsNowhere(Lower(text), "/parameter>");
    FreeIsNowhere(Lower(text), "/|dsml|parameter>");
    FreeIsNowhere(Lower(text), "/\U{EF}\U{BD}\U{9C}dsml\U{EF}\U{BD}\U{9C}parameter>");
    BracketInFront();
  }

  lemma BracketInFront()
    ensures "<" + "/parameter>" == "</parameter>"
    ensures "<" + "/|dsml|parameter>" == "</|dsml|parameter>"
    ensures "<" + "/\U{EF}\U{BD}\U{9C}dsml\U{EF}\U{BD}\U{9C}parameter>" == "</\U{EF}\U{BD}\U{9C}dsml\U{EF}\U{BD}\U{9C}parameter>"
  {
  }

  lemma CapitalsAreSmall()
    ensures Lower("</|DSML|parameter>") == "</|dsml|parameter>"
    ensures Lower("</\U{EF}\U{BD}\U{9C}DSML\U{EF}\U{BD}\U{9C}parameter>") == "</\U{EF}\U{BD}\U{9C}dsml\U{EF}\U{BD}\U{9C}parameter>"
  {
    hide Lower, SameLetters;
    PipesSpellTheSame();
    BarsSpellTheSame();
    TheyClose();
    CloseHasNoCapital("</|dsml|parameter>");
    CloseHasNoCapital("</\U{EF}\U{BD}\U{9C}dsml\U{EF}\U{BD}\U{9C}parameter>");
    SpelledIsLower("</|DSML|parameter>", "</|dsml|parameter>");
    SpelledIsLower("</\U{EF}\U{BD}\U{9C}DSML\U{EF}\U{BD}\U{9C}parameter>", "</\U{EF}\U{BD}\U{9C}dsml\U{EF}\U{BD}\U{9C}parameter>");
  }

  lemma TheyClose()
    ensures "</|dsml|parameter>" in CLOSES && "</\U{EF}\U{BD}\U{9C}dsml\U{EF}\U{BD}\U{9C}parameter>" in CLOSES
  {
  }

  lemma PipesSpellTheSame()
    ensures SameLetters("</|DSML|parameter>", "</|dsml|parameter>")
  {
  }

  lemma BarsSpellTheSame()
    ensures SameLetters("</\U{EF}\U{BD}\U{9C}DSML\U{EF}\U{BD}\U{9C}parameter>", "</\U{EF}\U{BD}\U{9C}dsml\U{EF}\U{BD}\U{9C}parameter>")
  {
  }

  lemma CapitalsToo(text: string, pattern: string, small: string)
    requires IndexFrom(Lower(text), small, 0) == None && Lower(pattern) == small
    ensures IndexFrom(text, pattern, 0) == None
  {
    hide Lower, IndexFrom;
    forall j: nat
      ensures !OccursAt(text, pattern, j)
    {
      if j + |pattern| <= |text| {
        assert !OccursAt(Lower(text), small, j);
        LowerOfSlice(text, j, j + |pattern|);
      }
    }
    NoneIs(text, pattern);
  }

  lemma LowerOfSlice(text: string, i: nat, j: nat)
    requires i <= j <= |text|
    ensures Lower(text[i..j]) == Lower(text)[i..j]
  {
    hide Lower, LowerChar;
    assert |Lower(text[i..j])| == |Lower(text)[i..j]|;
    forall k | 0 <= k < j - i
      ensures Lower(text[i..j])[k] == Lower(text)[i..j][k]
    {
    }
  }

  lemma UnclosingSuffix(text: string, i: nat)
    requires Unclosing(text) && i <= |text|
    ensures Unclosing(text[i..])
  {
    hide Lower, Free;
    LowerOfSlice(text, i, |text|);
    assert text[i..] == text[i..|text|] && Lower(text)[i..] == Lower(text)[i..|text|];
    FreeSuffix(Lower(text), "/parameter>", i);
    FreeSuffix(Lower(text), "/|dsml|parameter>", i);
    FreeSuffix(Lower(text), "/\U{EF}\U{BD}\U{9C}dsml\U{EF}\U{BD}\U{9C}parameter>", i);
  }

  lemma NothingNamed(named: string) returns (i: nat)
    requires named != "" && Unclosing(named)
    ensures var next := NextNamed(named);
      !next.Parameter? && (next.GoesOn() ==> 0 < i <= |named| && next.rest == named[i..])
  {
    hide Unclosing, ParseAttrValue, TrimStart, IndexFrom, ParameterClose;
    var trimmed := TrimStart(named);
    var v := ParseAttrValue(trimmed);
    i := 1;
    if v.Some? && v.value.0 != "" {
      TrimStartIsSuffix(named);
      var at := |named| - |trimmed| + v.value.1;
      Tails(named, |named| - |trimmed|, v.value.1);
      var gt := IndexFrom(named[at..], ">", 0);
      if gt.Some? {
        OccurrenceFits(named[at..], ">", gt.value);
        Tails(named, at, gt.value + 1);
        i := at + gt.value + 1;
        UnclosingSuffix(named, i);
        UnclosingHasNoClose(named[i..]);
      }
    }
  }

  lemma {:induction false} ScanReadsNothing(text: string, input: map<string, string>)
    requires Unclosing(text)
    ensures NamedParameters(text, input) in {None, Some(input)}
    decreases |text|, 1
  {
    assert "" + text == text;
    var k := IndexFrom(Lower(text), PARAMETER_NAME, 0);
    if k.Some? { ScanFinds("", text, k.value, input); }
  }

  /** The first name stands in text that closes no parameter. */
  lemma {:induction false} ScanFinds(front: string, text: string, k: nat, input: map<string, string>)
    requires Unclosing(text) && IndexFrom(Lower(front + text), PARAMETER_NAME, 0) == Some(k) && k >= |front|
    ensures NamedParameters(front + text, input) in {None, Some(input)}
    decreases |text|, 0
  {
    hide Unclosing, NextNamed, Lower, IndexFrom, OccursAt;
    OccurrenceFits(Lower(front + text), PARAMETER_NAME, k);
    var named := (front + text)[k + |PARAMETER_NAME|..];
    assert named == text[k - |front| + |PARAMETER_NAME|..];
    if named != "" {
      UnclosingSuffix(text, k - |front| + |PARAMETER_NAME|);
      var i := NothingNamed(named);
      if NextNamed(named).GoesOn() {
        UnclosingSuffix(named, i);
        ScanReadsNothing(named[i..], input);
      }
    }
  }

  /** Behind quiet text too the scan reads nothing: it goes through, or it panics. */
  lemma QuietThenNothing(front: string, text: string, input: map<string, string>)
    requires Quiet(front) && Unclosing(text) && (text == "" || text[0] == '<')
    ensures NamedParameters(front + text, input) in {None, Some(input)}
  {
    hide Unclosing, NextNamed, Lower, OccursAt, NamedParameters;
    if text == "" {
      assert front + text == front;
      QuietEnds(front);
      StopsThere(front, input);
    } else {
      var k := IndexFrom(Lower(front + text), PARAMETER_NAME, 0);
      if k.None? {
        StopsThere(front + text, input);
      } else {
        LowerAppend(front, text);
        LowerLast(text, 0);
        if k.value < |front| { NotAcross(Lower(front), Lower(text), PARAMETER_NAME, k.value); }
        ScanFinds(front, text, k.value, input);
      }
    }
  }

  lemma StopsThere(text: string, input: map<string, string>)
    requires NextParameter(text) == Stop
    ensures NamedParameters(text, input) == Some(input)
  {
  }

  // ---- Elements ---------------------------------------------------------------

  /** No part closes a parameter. */
  ghost predicate Closeless(parts: seq<Part>) {
    forall i :: 0 <= i < |parts| ==> !parts[i].Named? && (parts[i].Between? ==> Unclosing(parts[i].text))
  }

  lemma UnclosingAppend(a: string, b: string)
    requires Unclosing(a) && Unclosing(b)
    ensures Unclosing(a + b)
  {
    hide Lower, Free;
    LowerAppend(a, b);
    FreeAppend(Lower(a), Lower(b), "/parameter>");
    FreeAppend(Lower(a), Lower(b), "/|dsml|parameter>");
    FreeAppend(Lower(a), Lower(b), "/\U{EF}\U{BD}\U{9C}dsml\U{EF}\U{BD}\U{9C}parameter>");
  }

  lemma ElementIsFree(part: Part, close: string, d: nat)
    requires part.Plain? && Good(part) && 1 <= d <= 3 && d < |close| && close[0] == '/' && close[d] != part.key[d - 1]
    ensures Free(Lower(PartText(part)), close)
  {
    hide Lower, TAGS, SameLetters, GoodContent, PaddedText, Free, Quiet;
    var key, content := part.key, Lower(PaddedText(part.content));
    TagHasNoSpace(key);
    SpelledIsLower(part.open, key);
    SpelledIsLower(part.close, key);
    NoBracketInContent(part.content);
    LowerHasNoBracket(PaddedText(part.content));
    NoBracketIsFree(content, close);
    LowerOfPlain(part);
    var head, tail := "<" + key + ">", "</" + key + ">";
    assert head[1..] == key + ">" && tail[1..] == "/" + key + ">";
    assert head[1] == key[0] && key[0] in key;
    OneBracketIsFree(head, close, 0);
    assert tail[1 + d] == key[d - 1];
    OneBracketIsFree(tail, close, d);
    FreeAppend(head, content, close);
    FreeAppend(head + content, tail, close);
  }

  lemma ElementIsUnclosing(part: Part)
    requires part.Plain? && Good(part)
    ensures Unclosing(PartText(part))
  {
    hide Lower, TAGS, SameLetters, GoodContent, Free, PartText;
    var d := TagIsNoName(part.key);
    TagHasNoSpace(part.key);
    ElementIsFree(part, "/parameter>", d + 1);
    ElementIsFree(part, "/|dsml|parameter>", 1);
    ElementIsFree(part, "/\U{EF}\U{BD}\U{9C}dsml\U{EF}\U{BD}\U{9C}parameter>", 1);
  }

  lemma {:induction false} ElementsAreUnclosing(parts: seq<Part>)
    requires AllGood(parts) && Closeless(parts)
    ensures Unclosing(PartsText(parts))
    decreases |parts|
  {
    hide Unclosing, PartText, Good;
    if parts == [] {
      NothingIsUnclosing();
    } else {
      assert Good(parts[0]);
      RestIsGood(parts);
      ElementsAreUnclosing(parts[1..]);
      if parts[0].Plain? { ElementIsUnclosing(parts[0]); } else { TextIsPart(parts[0]); }
      UnclosingAppend(PartText(parts[0]), PartsText(parts[1..]));
    }
  }

  lemma TextIsPart(part: Part)
    requires part.Between?
    ensures PartText(part) == part.text
  {
  }

  lemma NothingIsUnclosing()
    ensures Unclosing("")
  {
  }

  lemma RestIsGood(parts: seq<Part>)
    requires AllGood(parts) && parts != []
    ensures AllGood(parts[1..])
  {
    hide Good;
    forall i | 0 <= i < |parts[1..]|
      ensures Good(parts[1..][i])
    {
      assert parts[1..][i] == parts[i + 1];
    }
  }

  // ---- Named parameters, then elements ----------------------------------------

  /** The scan reads the names, and at the elements it goes through or panics. */
  lemma {:induction false} ScanReadsTo(front: string, parts: seq<Part>, back: string, input: map<string, string>)
    requires Quiet(front) && AllGood(parts) && AllQuiet(parts) && Unclosing(back) && (back == "" || back[0] == '<')
    ensures NamedParameters(front + (PartsText(parts) + back), input) in {None, Some(AsMap(input, NamedPairs(parts)))}
    decreases |parts|
  {
    hide NextParameter, Quiet, PartText, Good, PaddedText, Unclosing;
    if parts == [] {
      QuietThenNothing(front, back, input);
      assert "" + back == back;
    } else {
      var part, rest := parts[0], PartsText(parts[1..]) + back;
      assert Good(part);
      RestIsGood(parts);
      assert PartsText(parts) + back == PartText(part) + rest;
      assert front + (PartText(part) + rest) == front + PartText(part) + rest;
      if part.Named? {
        NextIsNamed(front, part, rest);
        ScanReadsTo(part.close[1..], parts[1..], back, Put(input, part.key, part.content.value));
        PutOne(input, parts);
      } else {
        PlainIsQuiet(front, part);
        ScanReadsTo(front + PartText(part), parts[1..], back, input);
        assert [] + NamedPairs(parts[1..]) == NamedPairs(parts[1..]);
      }
    }
  }

  lemma {:induction false} TextsAppend(a: seq<Part>, b: seq<Part>)
    ensures PartsText(a + b) == PartsText(a) + PartsText(b)
    decreases |a|
  {
    hide PartText;
    if a == [] {
      assert a + b == b;
    } else {
      assert (a + b)[1..] == a[1..] + b;
      TextsAppend(a[1..], b);
    }
  }

  lemma {:induction false} NamesAppend(a: seq<Part>, b: seq<Part>)
    requires forall i :: 0 <= i < |b| ==> !b[i].Named?
    ensures NamedPairs(a + b) == NamedPairs(a)
    decreases |a| + |b|
  {
    if a == [] {
      assert a + b == b;
      if b != [] { NamesAppend([], b[1..]); assert [] + b[1..] == b[1..]; }
    } else {
      assert (a + b)[1..] == a[1..] + b;
      NamesAppend(a[1..], b);
    }
  }

  /**
    Named parameters and then elements, whatever these hold: unless the scan panics
    the call has the named parameters, and the elements whose tag was not named.
  */
  lemma RepairReadsElements(tag: Tag, name: string, named: seq<Part>, plain: seq<Part>)
    requires GoodOpening(tag, name) && AllGood(named + plain) && AllQuiet(named) && Closeless(plain)
    requires plain == [] || plain[0].Plain?
    ensures var outcome := Repair(TagText(tag, name) + PartsText(named + plain));
      outcome == Panics || Reads(outcome, name, named + plain)
  {
    hide Unclosing, Reads, Good, GoodOpening, PartText, NamedParameters, AsMap, ExtractInvokeName, WithElements;
    var front := TagText(tag, name);
    assert AllGood(named) by { forall i | 0 <= i < |named| ensures Good(named[i]) { assert named[i] == (named + plain)[i]; } }
    assert AllGood(plain) by { forall i | 0 <= i < |plain| ensures Good(plain[i]) { assert plain[i] == (named + plain)[|named| + i]; } }
    TextsAppend(named, plain);
    NamesAppend(named, plain);
    ElementsAreUnclosing(plain);
    if plain != [] { PlainOpens(plain); }
    assert Quiet(front) by { OpeningIsGood(tag, name); }
    ScanReadsTo(front, named, PartsText(plain), map[]);
    ElementsJoin(tag, name, named + plain);
  }

  lemma OpeningIsGood(tag: Tag, name: string)
    requires GoodOpening(tag, name)
    ensures Quiet(TagText(tag, name))
  {
  }

  lemma PlainOpens(parts: seq<Part>)
    requires parts != [] && parts[0].Plain?
    ensures PartsText(parts) != "" && PartsText(parts)[0] == '<'
  {
    hide PaddedText;
    assert PartText(parts[0])[0] == '<';
  }

  // ---- Round trips ------------------------------------------------------------

  /** A tag as it is rendered. */
  function PlainTag(attribute: string): Tag {
    Tag("<", attribute, "", Double, "")
  }

  /** Named parameters as a call is rendered with, the last value of a repeated key standing. */
  function Elements(pairs: seq<Pair>): string {
    if pairs == [] then ""
    else "<parameter name=\"" + pairs[0].key + "\">" + pairs[0].value + "</parameter>" + Elements(pairs[1..])
  }

  function Render(name: string, pairs: seq<Pair>): string {
    Opening(name) + Elements(pairs) + "</invoke>"
  }

  /** Words for keys, and values that carry no markup of their own and no space around them. */
  predicate Renderable(pairs: seq<Pair>) {
    forall pair <- pairs :: Word(pair.key) && Clean(pair.value) && '<' !in pair.value
  }

  function NamedParts(pairs: seq<Pair>): seq<Part> {
    if pairs == [] then [Between("</invoke>")]
    else [Named(PlainTag(PARAMETER_NAME), pairs[0].key, Padded("", pairs[0].value, ""), "</parameter>")] + NamedParts(pairs[1..])
  }

  lemma {:induction false} NamedPartsAre(pairs: seq<Pair>)
    requires Renderable(pairs)
    ensures AllGood(NamedParts(pairs)) && AllQuiet(NamedParts(pairs))
    decreases |pairs|
  {
    hide Good, Clean, Word, AllGood, AllQuiet, PlainTag;
    if pairs == [] {
      EndIsGood();
      OneIsGood(Between("</invoke>"));
    } else {
      assert pairs[0] in pairs;
      NamedPartsAre(pairs[1..]);
      NamedIsGood(pairs[0]);
      OneMoreIsGood(NamedParts(pairs)[0], NamedParts(pairs[1..]));
    }
  }

  lemma OneIsGood(part: Part)
    requires Good(part) && !part.Plain?
    ensures AllGood([part]) && AllQuiet([part])
  {
    hide Good;
  }

  lemma OneMoreIsGood(part: Part, parts: seq<Part>)
    requires Good(part) && !part.Plain? && AllGood(parts) && AllQuiet(parts)
    ensures AllGood([part] + parts) && AllQuiet([part] + parts)
  {
    hide Good, Quiet;
    var all := [part] + parts;
    forall i | 0 <= i < |all|
      ensures Good(all[i]) && (all[i].Plain? ==> Quiet(PaddedText(all[i].content)))
    {
      if i > 0 { assert all[i] == parts[i - 1]; }
    }
  }

  lemma {:induction false} NamedPartsSay(pairs: seq<Pair>)
    requires Renderable(pairs)
    ensures NamedPairs(NamedParts(pairs)) == pairs
    decreases |pairs|
  {
    hide PlainTag, Word, Clean;
    if pairs == [] {
      assert NamedParts(pairs)[1..] == [];
    } else {
      FirstIsSomething(pairs);
      NamedPartsSay(pairs[1..]);
      assert NamedParts(pairs)[1..] == NamedParts(pairs[1..]);
      assert [Pair(pairs[0].key, pairs[0].value)] + pairs[1..] == pairs;
    }
  }

  lemma {:induction false} NamedHaveNoElement(pairs: seq<Pair>, key: string)
    ensures FirstPlain(NamedParts(pairs), key) == None
    decreases |pairs|
  {
    hide PlainTag;
    if pairs == [] {
      assert NamedParts(pairs)[1..] == [];
    } else {
      NamedHaveNoElement(pairs[1..], key);
      assert NamedParts(pairs)[1..] == NamedParts(pairs[1..]);
    }
  }

  lemma {:induction false} NamedPartsSpell(pairs: seq<Pair>)
    ensures PartsText(NamedParts(pairs)) == Elements(pairs) + "</invoke>"
    decreases |pairs|
  {
    hide PlainTag, PartText, TagText;
    if pairs == [] {
      assert NamedParts(pairs)[1..] == [];
      TextIsPart(Between("</invoke>"));
    } else {
      NamedPartsSpell(pairs[1..]);
      assert NamedParts(pairs)[1..] == NamedParts(pairs[1..]);
      NamedIsSpelled(pairs[0]);
    }
  }

  lemma NamedIsSpelled(pair: Pair)
    ensures PartText(Named(PlainTag(PARAMETER_NAME), pair.key, Padded("", pair.value, ""), "</parameter>"))
         == "<parameter name=\"" + pair.key + "\">" + pair.value + "</parameter>"
  {
    hide TagText, PlainTag;
    TagOfName(pair.key);
    assert PaddedText(Padded("", pair.value, "")) == pair.value;
  }

  lemma TagOfName(key: string)
    ensures TagText(PlainTag(PARAMETER_NAME), key) == "<parameter name=\"" + key + "\">"
  {
    assert "<" + PARAMETER_NAME + "" + "\"" == "<parameter name=\"" && "\"" + "" + ">" == "\">";
  }

  lemma NamedIsGood(pair: Pair)
    requires Word(pair.key) && Clean(pair.value) && '<' !in pair.value
    ensures Good(Named(PlainTag(PARAMETER_NAME), pair.key, Padded("", pair.value, ""), "</parameter>"))
  {
    hide Clean, Word;
    assert SameLetters(PARAMETER_NAME, PARAMETER_NAME);
    assert "</parameter>" in CLOSES && SameLetters("</parameter>", "</parameter>");
  }

  lemma FirstIsSomething(pairs: seq<Pair>)
    requires pairs != [] && Renderable(pairs)
    ensures NamedParts(pairs)[0].Named? && NamedParts(pairs)[0].content.value == pairs[0].value != ""
  {
    hide Word;
    assert pairs[0] in pairs;
  }

  /** Repairing a rendered call gives its name and its parameters back. */
  lemma RepairUndoesRender(name: string, pairs: seq<Pair>)
    requires Word(name) && pairs != [] && Renderable(pairs)
    ensures Repair(Render(name, pairs)) == Call(name, AsMap(map[], pairs))
  {
    hide Repair, Word, AllGood, GoodOpening, TagText, AllQuiet, Opening, AsMap, PartsText, Elements, FirstPlain, Renderable;
    var parts := NamedParts(pairs);
    PlainTagIsGood(name);
    NamedPartsAre(pairs);
    NamedPartsSay(pairs);
    NamedPartsSpell(pairs);
    RepairReadsParts(PlainTag(INVOKE_NAME), name, parts);
    assert Render(name, pairs) == TagText(PlainTag(INVOKE_NAME), name) + PartsText(parts);
    AsMapIsLast(map[], parts);
    forall key
      ensures Argument(parts, key) == LastNamed(parts, key)
    {
      NamedHaveNoElement(pairs, key);
    }
    assert parts[0].Named? && parts[0].content.value != "" by { FirstIsSomething(pairs); }
    assert LastNamed(parts, parts[0].key).Some?;
    assert Argument(parts, parts[0].key).Some?;
    assert Repair(Render(name, pairs)).input == AsMap(map[], pairs);
  }

  /** One element after another, and the end of the call. */
  function PlainParts(pairs: seq<Pair>): seq<Part> {
    if pairs == [] then [Between("</invoke>")]
    else [DsmlRepairParts.Plain(pairs[0].key, pairs[0].key, Padded("", pairs[0].value, ""), pairs[0].key)] + PlainParts(pairs[1..])
  }

  function PlainElements(pairs: seq<Pair>): string {
    if pairs == [] then ""
    else "<" + pairs[0].key + ">" + pairs[0].value + "</" + pairs[0].key + ">" + PlainElements(pairs[1..])
  }

  /** A call that holds each parameter in an element of its own. */
  function RenderPlain(name: string, pairs: seq<Pair>): string {
    Opening(name) + PlainElements(pairs) + "</invoke>"
  }

  ghost predicate GoodPair(pair: Pair) {
    pair.key in TAGS && Clean(pair.value) && '<' !in pair.value
  }

  predicate DistinctKeys(pairs: seq<Pair>) {
    forall i, j :: 0 <= i < j < |pairs| ==> pairs[i].key != pairs[j].key
  }

  lemma {:induction false} PlainPartsAre(pairs: seq<Pair>)
    requires forall pair <- pairs :: GoodPair(pair)
    ensures AllGood(PlainParts(pairs)) && Closeless(PlainParts(pairs))
    decreases |pairs|
  {
    hide Good, GoodPair, Unclosing;
    if pairs == [] {
      EndIsGood();
    } else {
      PlainPartsAre(pairs[1..]);
      PairIsGood(pairs[0]);
    }
  }

  lemma {:induction false} PlainPartsSpell(pairs: seq<Pair>)
    ensures PartsText(PlainParts(pairs)) == PlainElements(pairs) + "</invoke>"
    decreases |pairs|
  {
    hide PartText;
    if pairs == [] {
      assert PlainParts(pairs)[1..] == [];
      TextIsPart(Between("</invoke>"));
    } else {
      PlainPartsSpell(pairs[1..]);
      assert PlainParts(pairs)[1..] == PlainParts(pairs[1..]);
      PairIsSpelled(pairs[0]);
    }
  }

  lemma PairIsSpelled(pair: Pair)
    ensures PartText(DsmlRepairParts.Plain(pair.key, pair.key, Padded("", pair.value, ""), pair.key))
         == "<" + pair.key + ">" + pair.value + "</" + pair.key + ">"
  {
    assert PaddedText(Padded("", pair.value, "")) == pair.value;
  }

  lemma PairIsGood(pair: Pair)
    requires GoodPair(pair)
    ensures Good(DsmlRepairParts.Plain(pair.key, pair.key, Padded("", pair.value, ""), pair.key))
  {
    hide TAGS, Clean;
    assert SameLetters(pair.key, pair.key);
  }

  lemma EndIsGood()
    ensures Good(Between("</invoke>")) && Unclosing("</invoke>")
  {
    EndIsQuiet();
    EndIsUnclosing();
  }

  lemma EndIsQuiet()
    ensures Quiet("</invoke>") && Harmless("</invoke>")
  {
    hide Lower, Quiet;
    NoSpaceIsQuiet("</invoke>");
  }

  lemma EndIsUnclosing()
    ensures Unclosing("</invoke>")
  {
    hide Lower, Free;
    LowerIsFixed("</invoke>");
    EndHasOneBracket();
    OneBracketIsFree("</invoke>", "/parameter>", 1);
    OneBracketIsFree("</invoke>", "/|dsml|parameter>", 1);
    OneBracketIsFree("</invoke>", "/\U{EF}\U{BD}\U{9C}dsml\U{EF}\U{BD}\U{9C}parameter>", 1);
  }

  lemma EndHasOneBracket()
    ensures '<' !in "</invoke>"[1..]
  {
    assert "</invoke>"[1..] == "/invoke>";
  }

  lemma {:induction false} NotAmong(pairs: seq<Pair>, key: string)
    requires forall pair <- pairs :: pair.key != key
    ensures FirstPlain(PlainParts(pairs), key) == None
    decreases |pairs|
  {
    if pairs == [] {
      assert PlainParts(pairs)[1..] == [];
    } else {
      NotAmong(pairs[1..], key);
      assert PlainParts(pairs)[1..] == PlainParts(pairs[1..]);
    }
  }

  lemma FirstOfPlain(pairs: seq<Pair>, key: string)
    requires pairs != [] && pairs[0].value != ""
    ensures FirstPlain(PlainParts(pairs), key)
         == if pairs[0].key == key then Some(pairs[0].value) else FirstPlain(PlainParts(pairs[1..]), key)
  {
    assert PlainParts(pairs)[1..] == PlainParts(pairs[1..]);
  }

  lemma {:induction false} AsMapOfPlain(input: map<string, string>, pairs: seq<Pair>)
    requires DistinctKeys(pairs) && forall pair <- pairs :: GoodPair(pair)
    ensures var all, parts := AsMap(input, pairs), PlainParts(pairs);
      && (forall key :: key in all <==> key in input || FirstPlain(parts, key).Some?)
      && (forall key <- all :: all[key] == if FirstPlain(parts, key).Some? then FirstPlain(parts, key).value else input[key])
    decreases |pairs|
  {
    hide GoodPair, FirstPlain, PlainParts;
    if pairs == [] {
      forall key
        ensures FirstPlain(PlainParts(pairs), key) == None
      {
        NotAmong(pairs, key);
      }
    } else {
      ValueIsSomething(pairs[0]);
      NotAmong(pairs[1..], pairs[0].key);
      AsMapOfPlain(input[pairs[0].key := pairs[0].value], pairs[1..]);
      forall key
        ensures FirstPlain(PlainParts(pairs), key)
             == if pairs[0].key == key then Some(pairs[0].value) else FirstPlain(PlainParts(pairs[1..]), key)
      {
        FirstOfPlain(pairs, key);
      }
    }
  }

  lemma {:induction false} NoneNamed(parts: seq<Part>, key: string)
    requires Closeless(parts)
    ensures LastNamed(parts, key) == None
    decreases |parts|
  {
    hide Unclosing;
    if parts != [] {
      assert Closeless(parts[1..]);
      NoneNamed(parts[1..], key);
    }
  }

  lemma {:induction false} PlainKeysAreTags(pairs: seq<Pair>, key: string)
    requires forall pair <- pairs :: GoodPair(pair)
    ensures FirstPlain(PlainParts(pairs), key).Some? ==> key in TAGS
    decreases |pairs|
  {
    hide TAGS, Clean;
    if pairs == [] {
      NotAmong(pairs, key);
    } else {
      assert GoodPair(pairs[0]);
      assert PlainParts(pairs)[1..] == PlainParts(pairs[1..]);
      PlainKeysAreTags(pairs[1..], key);
    }
  }

  lemma PlainTagIsOpening(name: string)
    ensures TagText(PlainTag(INVOKE_NAME), name) == Opening(name)
  {
    assert "<" + INVOKE_NAME + "" + "\"" == "<invoke name=\"" && "\"" + "" + ">" == "\">";
  }

  lemma PlainTagIsSpelled()
    ensures GoodTag(PlainTag(INVOKE_NAME), INVOKE_NAME)
  {
    hide EndsBare;
    assert SameLetters(INVOKE_NAME, INVOKE_NAME);
  }

  lemma OpeningIsHarmless(name: string)
    requires Word(name)
    ensures Harmless(Opening(name))
  {
    hide Word;
    WordHasNoBracket(name);
    var text, body := Opening(name), "invoke name=\"" + name + "\">";
    assert text == "<" + body && '<' !in body;
    assert text[1] == 'i';
  }

  lemma PlainTagIsGood(name: string)
    requires Word(name)
    ensures TagText(PlainTag(INVOKE_NAME), name) == Opening(name) && GoodOpening(PlainTag(INVOKE_NAME), name)
  {
    hide Word, Quiet, Harmless, GoodTag, TagText, Opening;
    OpeningIsQuiet(name);
    OpeningIsHarmless(name);
    PlainTagIsOpening(name);
    PlainTagIsSpelled();
  }

  /**
    Elements for any parameters are read back exactly, whatever their values hold,
    unless the scan for names gets stuck in one of them.
  */
  lemma RepairUndoesElements(name: string, pairs: seq<Pair>)
    requires Word(name) && pairs != [] && DistinctKeys(pairs) && forall pair <- pairs :: GoodPair(pair)
    ensures var text := RenderPlain(name, pairs);
      && Repair(text) in {Panics, Call(name, AsMap(map[], pairs))}
      && (Encoded(text) ==> (Repair(text) == Panics <==> SomeStuck(Turns(text))))
  {
    hide Repair, Word, AllGood, Closeless, GoodOpening, GoodPair, Encoded, Turns, TagText, Argument, AllQuiet, Opening, AsMap;
    var text, parts := RenderPlain(name, pairs), PlainParts(pairs);
    PlainTagIsGood(name);
    PlainPartsAre(pairs);
    PlainPartsSpell(pairs);
    assert AllQuiet([]) by { NoneToQuiet(); }
    assert [] + parts == parts;
    RepairReadsElements(PlainTag(INVOKE_NAME), name, [], parts);
    assert text == TagText(PlainTag(INVOKE_NAME), name) + PartsText(parts);
    if Repair(text) != Panics {
      ArgumentsOfPlain(pairs);
      AsMapOfPlain(map[], pairs);
      assert pairs[0].value != "" by { assert GoodPair(pairs[0]); ValueIsSomething(pairs[0]); }
      assert FirstPlain(parts, pairs[0].key).Some?;
      assert Argument(parts, pairs[0].key).Some?;
      assert Repair(text).input == AsMap(map[], pairs);
    }
    if Encoded(text) {
      NameIsRead(name, PlainElements(pairs) + "</invoke>");
      assert text == Opening(name) + (PlainElements(pairs) + "</invoke>");
      RepairPanicsExactly(text);
    }
  }

  lemma ValueIsSomething(pair: Pair)
    requires GoodPair(pair)
    ensures pair.value != ""
  {
  }

  lemma NoneToQuiet()
    ensures AllQuiet([])
  {
  }

  lemma ArgumentsOfPlain(pairs: seq<Pair>)
    requires forall pair <- pairs :: GoodPair(pair)
    ensures forall key :: Argument(PlainParts(pairs), key) == FirstPlain(PlainParts(pairs), key)
  {
    hide TAGS, GoodPair, PlainParts, AllGood, FirstPlain, LastNamed;
    PlainPartsAre(pairs);
    forall key
      ensures Argument(PlainParts(pairs), key) == FirstPlain(PlainParts(pairs), key)
    {
      NoneNamed(PlainParts(pairs), key);
      PlainKeysAreTags(pairs, key);
    }
  }
}
