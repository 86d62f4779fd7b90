/**
  When the scan for parameters in dsml_repair.rs goes on inside a character and
  panics: exactly when a parameter name that it comes to is white space outside
  ASCII with no name behind it.
*/
module DsmlRepairLimits {
  import opened Utf8Text
  import opened DsmlRepair
  import opened DsmlRepairLaws

  // ---- A turn of the scan -----------------------------------------------------

  predicate Unclosed(rest: string, quote: char) {
    rest != "" && rest[0] == quote && quote !in rest[1..]
  }

  /** A quoted name of nothing but white space. */
  predicate BlankQuoted(rest: string, quote: char) {
    rest != "" && rest[0] == quote
    && exists end :: 1 <= end < |rest| && rest[end] == quote && quote !in rest[1..end] && Blank(rest[1..end])
  }

  /** What no attribute value can be read from. */
  predicate NoName(rest: string) {
    || rest == "" || rest[0] == '>' || rest[0] == '|'
    || Unclosed(rest, '"') || Unclosed(rest, '\'') || BlankQuoted(rest, '"') || BlankQuoted(rest, '\'')
  }

  /** White space of more than one byte stands in front. */
  predicate Spaced(named: string) {
    SpaceAtFront(named) >= 2
  }

  predicate Stuck(named: string) {
    Spaced(named) && NoName(TrimStart(named))
  }

  /** The texts behind each `parameter name=` that the scan comes to. */
  function Turns(text: string): seq<string>
    decreases |text|
  {
    var k := IndexFrom(Lower(text), PARAMETER_NAME, 0);
    if k.None? || text[k.value + |PARAMETER_NAME|..] == "" then []
    else
      var named := text[k.value + |PARAMETER_NAME|..];
      var next := NextNamed(named);
      [named] + if next.GoesOn() then Turns(next.rest) else []
  }

  // ---- What has no name -------------------------------------------------------

  lemma QuoteFound(rest: string, quote: string)
    requires |quote| == 1 && rest != "" && rest[0] == quote[0]
    ensures var v := QuotedValue(rest, quote);
      v.None? || v.value.0 == "" <==> Unclosed(rest, quote[0]) || BlankQuoted(rest, quote[0])
  {
    hide Trim;
    var inner := rest[1..];
    var end := IndexFrom(inner, quote, 0);
    forall j: nat | j < |inner|
      ensures OccursAt(inner, quote, j) <==> inner[j] == quote[0]
    {
      assert inner[j..j + 1] == [inner[j]];
    }
    if end.Some? {
      QuoteAt(rest, quote[0], end.value);
    } else {
      assert quote[0] !in inner;
    }
  }

  /** The quote that closes is the only one a blank name can end at. */
  lemma QuoteAt(rest: string, quote: char, k: nat)
    requires rest != "" && rest[0] == quote && k < |rest| - 1 && rest[1..][k] == quote
    requires forall j: nat :: j < k ==> rest[1..][j] != quote
    ensures !Unclosed(rest, quote) && (BlankQuoted(rest, quote) <==> Trim(rest[1..][..k]) == "")
  {
    hide Trim;
    assert rest[1..][..k] == rest[1..k + 1];
    forall end | 1 <= end < |rest| && rest[end] == quote && quote !in rest[1..end]
      ensures end == k + 1
    {
      assert rest[1..][end - 1] == quote;
      if end > k + 1 { InSlice(rest, 1, k + 1, end); }
    }
    assert quote !in rest[1..k + 1];
    assert rest[k + 1] == quote;
  }

  lemma InSlice(s: string, lo: nat, i: nat, hi: nat)
    requires lo <= i < hi <= |s|
    ensures s[i] in s[lo..hi]
  {
    assert s[lo..hi][i - lo] == s[i];
  }

  lemma SpaceIsBehind(s: string)
    requires SpaceAtBack(s) != 0
    ensures var n := SpaceAtBack(s); n <= 3 && n <= |s| && IsWhiteSpace(s[|s| - n..])
  {
    hide IsWhiteSpace;
  }

  lemma NoSpaceInFront(s: string, n: nat)
    requires SpaceAtFront(s) == 0 && 1 <= n <= 3 && n <= |s|
    ensures !IsWhiteSpace(s[..n])
  {
    hide IsWhiteSpace;
  }

  lemma {:induction false} TrimEndKeepsFront(s: string)
    requires s != "" && SpaceAtFront(s) == 0
    ensures TrimEnd(s) != ""
    decreases |s|
  {
    hide IsWhiteSpace, SpaceAtFront, SpaceAtBack;
    var n := SpaceAtBack(s);
    if n != 0 {
      SpaceIsBehind(s);
      if n == |s| {
        assert s[|s| - n..] == s && s[..n] == s;
        NoSpaceInFront(s, n);
      }
      FrontOfPrefix(s, |s| - n);
      TrimEndKeepsFront(s[..|s| - n]);
    }
  }

  lemma FrontOfPrefix(s: string, n: nat)
    requires SpaceAtFront(s) == 0 && n <= |s|
    ensures SpaceAtFront(s[..n]) == 0
  {
    hide IsWhiteSpace;
    if n >= 1 { assert s[..n][..1] == s[..1]; }
    if n >= 2 { assert s[..n][..2] == s[..2]; }
    if n >= 3 { assert s[..n][..3] == s[..3]; }
  }

  lemma NoNameExactly(rest: string)
    requires SpaceAtFront(rest) == 0
    ensures ParseAttrValue(rest).None? || ParseAttrValue(rest).value.0 == "" <==> NoName(rest)
  {
    hide TrimEnd, SpaceAtFront, QuotedValue;
    if rest == "" || rest[0] == '>' || rest[0] == '|' {
    } else if rest[0] == '"' {
      QuoteFound(rest, "\"");
    } else if rest[0] == '\'' {
      QuoteFound(rest, "'");
    } else {
      var end := BareEnd(rest);
      FrontOfPrefix(rest, end);
      TrimEndKeepsFront(rest[..end]);
    }
  }

  lemma {:induction false} TrimmedFront(s: string)
    ensures SpaceAtFront(TrimStart(s)) == 0
    decreases |s|
  {
    hide IsWhiteSpace;
    if SpaceAtFront(s) != 0 { TrimmedFront(s[SpaceAtFront(s)..]); }
  }

  // ---- Where a turn goes wrong ------------------------------------------------

  lemma SpaceBytes(scalar: string)
    requires IsWhiteSpace(scalar)
    ensures |scalar| == 1 ==> scalar[0] < '\U{80}'
    ensures |scalar| >= 2 ==> Continues(scalar[1])
  {
  }

  lemma SpacedIsInside(named: string)
    requires Encoded(named) && named != ""
    ensures Spaced(named) ==> !IsBoundary(named, 1)
    ensures !IsBoundary(named, 1) ==> named[0] >= '\U{80}' && (Spaced(named) || SpaceAtFront(named) == 0)
  {
    hide IsWhiteSpace;
    var n := SpaceAtFront(named);
    if n != 0 {
      SpaceBytes(named[..n]);
      if n >= 2 { assert named[..n][1] == named[1]; }
    }
  }

  /** One turn panics exactly when it is stuck. */
  lemma TurnPanicsExactly(named: string)
    requires Encoded(named) && named != ""
    ensures NextNamed(named).Panic? <==> Stuck(named)
  {
    hide IsWhiteSpace, SpaceAtFront, ParseAttrValue, NextContent, Unclosed, BlankQuoted, Encoded;
    TrimmedFront(named);
    NoNameExactly(TrimStart(named));
    SpacedIsInside(named);
    if SpaceAtFront(named) == 0 && named[0] >= '\U{80}' { NothingQuoted(named); }
  }

  lemma NothingQuoted(named: string)
    requires named != "" && SpaceAtFront(named) == 0 && named[0] >= '\U{80}'
    ensures TrimStart(named) == named && !NoName(named)
  {
  }

  // ---- Suffixes ---------------------------------------------------------------

  lemma LowerOfSuffix(text: string, i: nat)
    requires i <= |text|
    ensures Lower(text[i..]) == Lower(text)[i..]
  {
    hide Lower, LowerChar;
    assert |Lower(text[i..])| == |Lower(text)[i..]|;
    forall j | 0 <= j < |text[i..]|
      ensures Lower(text[i..])[j] == Lower(text)[i..][j]
    {
    }
  }

  /** Behind an occurrence of the pattern, every text left to read is still a suffix. */
  lemma ContentIsSuffix(name: string, open: string)
    ensures var next := NextContent(name, open);
      next.GoesOn() ==> exists i: nat :: 0 < i <= |open| && next.rest == open[i..] && open[i - 1] < '\U{80}'
  {
    hide OccursAt, Trim;
    var gt := IndexFrom(open, ">", 0);
    if gt.Some? {
      CharAt(open, ">", gt.value);
      var tail := open[gt.value + 1..];
      var close := ParameterClose(tail);
      if close.Some? {
        CloseIsBracket(tail);
        Tails(open, gt.value + 1, close.value + 1);
        assert open[gt.value + 1 + close.value] == tail[close.value];
      }
    }
  }

  lemma CharAt(text: string, pattern: string, k: nat)
    requires pattern != "" && OccursAt(text, pattern, k)
    ensures k + |pattern| <= |text| && text[k] == pattern[0]
  {
    assert text[k..k + |pattern|][0] == text[k];
  }

  lemma CloseIsBracket(tail: string)
    requires ParameterClose(tail).Some?
    ensures tail[ParameterClose(tail).value] == '<'
  {
    hide OccursAt, IndexFrom, Lower;
    var lower := Lower(tail);
    var k := ParameterClose(tail).value;
    forall pattern, text | pattern != "" && pattern[0] == '<' && (text == lower || text == tail)
        && IndexFrom(text, pattern, 0) == Some(k)
      ensures text[k] == '<'
    {
      CharAt(text, pattern, k);
    }
    assert LowerChar(tail[k]) == lower[k];
  }

  lemma NamedIsSuffix(named: string)
    requires named != "" && Encoded(named)
    ensures var next := NextNamed(named);
      next.GoesOn() ==> exists i: nat :: 0 < i <= |named| && next.rest == named[i..] && IsBoundary(named, i)
  {
    hide ParseAttrValue, TrimStart, NextContent;
    var trimmed := TrimStart(named);
    var v := ParseAttrValue(trimmed);
    if v.Some? && v.value.0 != "" {
      TrimStartIsSuffix(named);
      Tails(named, |named| - |trimmed|, v.value.1);
      var at := |named| - |trimmed| + v.value.1;
      ContentIsSuffix(v.value.0, named[at..]);
      if NextNamed(named).GoesOn() {
        var i: nat :| 0 < i <= |named[at..]| && NextNamed(named).rest == named[at..][i..] && named[at..][i - 1] < '\U{80}';
        Tails(named, at, i);
        assert named[at + i - 1] == named[at..][i - 1];
      }
    }
  }

  lemma SuffixIsEncoded(text: string, i: nat)
    requires Encoded(text) && i <= |text| && IsBoundary(text, i)
    ensures Encoded(text[i..])
  {
    forall j | 0 <= j < |text[i..]| && Continues(text[i..][j])
      ensures j > 0 && text[i..][j - 1] >= '\U{80}'
    {
      assert text[i..][j] == text[i + j];
    }
  }

  /** Where a parameter name begins. */
  lemma NameIsBoundary(text: string, k: nat)
    requires Encoded(text) && OccursAt(Lower(text), PARAMETER_NAME, k)
    ensures k + |PARAMETER_NAME| <= |text| && IsBoundary(text, k + |PARAMETER_NAME|)
  {
    var last := k + |PARAMETER_NAME| - 1;
    assert Lower(text)[k..k + |PARAMETER_NAME|][|PARAMETER_NAME| - 1] == Lower(text)[last] == LowerChar(text[last]);
  }

  // ---- The whole scan ---------------------------------------------------------

  ghost predicate SomeStuck(turns: seq<string>) {
    exists i :: 0 <= i < |turns| && Stuck(turns[i])
  }

  /** The scan panics exactly when a turn that it comes to is stuck. */
  lemma {:induction false} ScanPanicsExactly(text: string, input: map<string, string>)
    requires Encoded(text)
    ensures NamedParameters(text, input).None? <==> SomeStuck(Turns(text))
    decreases |text|
  {
    hide Lower, IndexFrom, Stuck, Encoded, NextNamed, OccursAt, IsBoundary;
    var k := IndexFrom(Lower(text), PARAMETER_NAME, 0);
    if k.Some? { NameIsBoundary(text, k.value); }
    if k.Some? && text[k.value + |PARAMETER_NAME|..] != "" {
      var named := text[k.value + |PARAMETER_NAME|..];
      SuffixIsEncoded(text, k.value + |PARAMETER_NAME|);
      TurnPanicsExactly(named);
      var next := NextNamed(named);
      assert Turns(text)[0] == named;
      if next.GoesOn() {
        NamedIsSuffix(named);
        var i: nat :| 0 < i <= |named| && next.rest == named[i..] && IsBoundary(named, i);
        SuffixIsEncoded(named, i);
        ScanPanicsExactly(next.rest, if next.Skip? then input else Put(input, next.name, next.content));
        StuckInTail(named, Turns(next.rest));
      } else if next.Panic? {
        assert Stuck(Turns(text)[0]);
      }
    }
  }

  lemma StuckInTail(turn: string, turns: seq<string>)
    ensures SomeStuck([turn] + turns) <==> Stuck(turn) || SomeStuck(turns)
  {
    hide Stuck;
    var all := [turn] + turns;
    if SomeStuck(all) {
      var i :| 0 <= i < |all| && Stuck(all[i]);
      if i > 0 { assert Stuck(turns[i - 1]); }
    }
    if SomeStuck(turns) {
      var i :| 0 <= i < |turns| && Stuck(turns[i]);
      assert Stuck(all[i + 1]);
    }
    if Stuck(turn) { assert Stuck(all[0]); }
  }

  /** The repair panics exactly when the text names a tool and a turn that the scan comes to is stuck. */
  lemma RepairPanicsExactly(text: string)
    requires Encoded(text)
    ensures Repair(text).Panics? <==> ExtractInvokeName(text).Some? && SomeStuck(Turns(text))
  {
    hide ExtractInvokeName, NamedParameters, WithElements, Turns, Encoded;
    ScanPanicsExactly(text, map[]);
  }

  // ---- What a caller can check ------------------------------------------------

  /** No parameter name is directly followed by white space of more than one byte. */
  ghost predicate NoneSpaced(text: string) {
    forall k: nat :: OccursAt(Lower(text), PARAMETER_NAME, k) && k + |PARAMETER_NAME| <= |text|
      ==> !Spaced(text[k + |PARAMETER_NAME|..])
  }

  lemma NoneSpacedInSuffix(text: string, i: nat)
    requires NoneSpaced(text) && i <= |text|
    ensures NoneSpaced(text[i..])
  {
    hide Lower, Spaced;
    var suffix := text[i..];
    LowerOfSuffix(text, i);
    forall k: nat | OccursAt(Lower(suffix), PARAMETER_NAME, k) && k + |PARAMETER_NAME| <= |suffix|
      ensures !Spaced(suffix[k + |PARAMETER_NAME|..])
    {
      assert Lower(text)[i..][k..k + |PARAMETER_NAME|] == Lower(text)[i + k..i + k + |PARAMETER_NAME|];
      assert OccursAt(Lower(text), PARAMETER_NAME, i + k);
      Tails(text, i, k + |PARAMETER_NAME|);
    }
  }

  lemma {:induction false} NoneSpacedNoneStuck(text: string)
    requires NoneSpaced(text) && Encoded(text)
    ensures !SomeStuck(Turns(text))
    decreases |text|
  {
    hide Lower, IndexFrom, Spaced, Encoded, NextNamed, OccursAt, IsBoundary, NoName;
    var k := IndexFrom(Lower(text), PARAMETER_NAME, 0);
    if k.Some? { NameIsBoundary(text, k.value); }
    if k.Some? && text[k.value + |PARAMETER_NAME|..] != "" {
      var named := text[k.value + |PARAMETER_NAME|..];
      SuffixIsEncoded(text, k.value + |PARAMETER_NAME|);
      assert !Stuck(named);
      var next := NextNamed(named);
      if next.GoesOn() {
        NamedIsSuffix(named);
        var i: nat :| 0 < i <= |named| && next.rest == named[i..] && IsBoundary(named, i);
        SuffixIsEncoded(named, i);
        NoneSpacedInSuffix(text, k.value + |PARAMETER_NAME|);
        NoneSpacedInSuffix(named, i);
        NoneSpacedNoneStuck(next.rest);
        StuckInTail(named, Turns(next.rest));
      }
    }
  }

  /** Text in which no parameter name is followed by such white space is repaired or left, without a panic. */
  lemma UnspacedNeverPanics(text: string)
    requires Encoded(text) && NoneSpaced(text)
    ensures !Repair(text).Panics?
  {
    hide Repair, Turns, Encoded, NoneSpaced;
    RepairPanicsExactly(text);
    NoneSpacedNoneStuck(text);
  }

  // ---- A family that panics ---------------------------------------------------

  /** A call whose first parameter has white space outside ASCII for a name. */
  function SpacedCall(name: string, space: string, back: string): string {
    Opening(name) + "<" + PARAMETER_NAME + (space + ">" + back)
  }

  lemma SpacedCallPanics(name: string, space: string, back: string)
    requires Word(name) && IsWhiteSpace(space) && |space| >= 2
    ensures Repair(SpacedCall(name, space, back)) == Panics
  {
    hide IsWhiteSpace, Lower, IndexFrom, OccursAt, ExtractInvokeName, NextNamed;
    var rest := space + ">" + back;
    var text := SpacedCall(name, space, back);
    assert text == Opening(name) + ("<" + PARAMETER_NAME + rest);
    NameIsRead(name, "<" + PARAMETER_NAME + rest);
    OpeningIsQuiet(name);
    NameIsNext(Opening(name), rest);
    assert text[|Opening(name)| + 1 + |PARAMETER_NAME|..] == rest;
    SpacedPanics(space, back);
    assert NamedParameters(text, map[]) == None;
  }

  lemma NothingBeforeBracket(back: string)
    ensures ParseAttrValue(">" + back) == None
  {
    hide QuotedValue;
    var rest := ">" + back;
    assert BareEnd(rest) == 0 && rest[..0] == "";
  }

  lemma SpacedPanics(space: string, back: string)
    requires IsWhiteSpace(space) && |space| >= 2
    ensures NextNamed(space + ">" + back) == Panic
  {
    hide IsWhiteSpace, TrimStart, ParseAttrValue, NextContent;
    var rest := space + ">" + back;
    SpaceBytes(space);
    assert rest[1] == space[1];
    SpaceIsTrimmed(space, ">" + back);
    assert rest == space + (">" + back);
    NothingBeforeBracket(back);
  }

  lemma SpaceIsTrimmed(space: string, back: string)
    requires IsWhiteSpace(space) && |space| >= 2 && back != "" && '!' <= back[0] <= '~'
    ensures TrimStart(space + back) == back
  {
    var text := space + back;
    assert text[..|space|] == space && text[|space|..] == back;
    assert SpaceAtFront(text) == |space| by { assert text[0] == space[0] && text[1] == space[1]; }
    NoSpaceFirst(back);
  }
}
