/**
  How far the guard of dsml_guard.rs reaches: of its thirteen markers exactly one
  is withheld for every chunking. For each of the others two chunks let it through,
  because the shortest suspect suffix is the one held back.
*/
module DsmlGuardReach {
  import opened Utf8Text
  import opened DsmlGuard
  import opened DsmlGuardLaws

  /** The guard keeps a marker from every client, whatever the chunks, exactly when it is the invoke marker. */
  lemma CompleteExactlyForInvoke(m: string)
    requires m in MARKERS
    ensures (forall chunks: seq<string> :: !Contains(Delivered(chunks), m)) <==> m == INVOKE
  {
    hide Contains, Leaks, Delivered;
    if m == INVOKE {
      forall chunks: seq<string>
        ensures !Contains(Delivered(chunks), m)
      {
        InvokeNeverDelivered(chunks);
      }
    } else {
      var chunks := Gap(m);
      assert Contains(Delivered(chunks), m);
    }
  }

  /** Two chunks that bring the marker to the client whole. */
  lemma Gap(m: string) returns (chunks: seq<string>)
    requires m in MARKERS && m != INVOKE
    ensures Contains(Delivered(chunks), m)
  {
    hide Contains, Leaks, Delivered;
    if m == "DSML|tool_calls" {
      chunks := GapPipeCalls();
    } else if m == "DSML\U{EF}\U{BD}\U{9C}tool_calls" {
      chunks := GapBarCalls();
    } else if m == "\U{EF}\U{BD}\U{9C}DSML\U{EF}\U{BD}\U{9C}" {
      chunks := GapBar();
    } else if m == "|DSML|" {
      chunks := GapPipe();
    } else if m == "<\U{EF}\U{BD}\U{9C}DSML\U{EF}\U{BD}\U{9C}" {
      chunks := GapOpenBar();
    } else if m == "<|DSML|" {
      chunks := GapOpenPipe();
    } else if m == "</\U{EF}\U{BD}\U{9C}DSML\U{EF}\U{BD}\U{9C}" {
      chunks := GapCloseBar();
    } else if m == "</|DSML|" {
      chunks := GapClosePipe();
    } else if m == "<invoke name" {
      chunks := GapInvokeName();
    } else if m == "</invoke>" {
      chunks := GapInvokeClose();
    } else if m == "<parameter name=" {
      chunks := GapParameterName();
    } else {
      chunks := GapParameterClose();
    }
  }

  lemma PipePrefix()
    ensures "|DSML|" in PREFIXES && "|DSML|"[..1] == "|"
  {
  }

  lemma GapPipeCalls() returns (chunks: seq<string>)
    ensures Contains(Delivered(chunks), "DSML|tool_calls")
  {
    hide Contains, Leaks, Delivered, PREFIXES, MARKERS;
    assert "DSML|" + "tool_calls" == "DSML|tool_calls";
    assert "|" + "tool_calls" == "|tool_calls";
    ShortIsClean("DSML|");
    PlainIsClean("|tool_calls");
    PipePrefix();
    chunks := Slip("DSML|", "tool_calls", "|", "|DSML|");
  }

  lemma GapBarCalls() returns (chunks: seq<string>)
    ensures Contains(Delivered(chunks), "DSML\U{EF}\U{BD}\U{9C}tool_calls")
  {
    hide Contains, Leaks, Delivered;
    JoinBarCalls();
    WideIsClean("DSML\U{EF}\U{BD}\U{9C}");
    PlainBarCalls();
    assert "\U{EF}\U{BD}\U{9C}DSML\U{EF}\U{BD}\U{9C}" in PREFIXES;
    chunks := Slip("DSML\U{EF}\U{BD}\U{9C}", "tool_calls", "\U{EF}\U{BD}\U{9C}", "\U{EF}\U{BD}\U{9C}DSML\U{EF}\U{BD}\U{9C}");
  }

  lemma JoinBarCalls()
    ensures "DSML\U{EF}\U{BD}\U{9C}" + "tool_calls" == "DSML\U{EF}\U{BD}\U{9C}tool_calls"
  {
  }

  lemma PlainBarCalls()
    ensures !Leaks("\U{EF}\U{BD}\U{9C}" + "tool_calls")
  {
    hide Contains, Leaks;
    PlainIsClean("\U{EF}\U{BD}\U{9C}" + "tool_calls");
  }

  lemma GapBar() returns (chunks: seq<string>)
    ensures Contains(Delivered(chunks), "\U{EF}\U{BD}\U{9C}DSML\U{EF}\U{BD}\U{9C}")
  {
    hide Contains, Leaks, Delivered;
    WideIsClean("\U{EF}\U{BD}\U{9C}DSML");
    assert "\U{EF}\U{BD}\U{9C}" + "DSML" == "\U{EF}\U{BD}\U{9C}DSML";
    assert "\U{EF}\U{BD}\U{9C}DSML" + "\U{EF}\U{BD}\U{9C}" == "\U{EF}\U{BD}\U{9C}DSML\U{EF}\U{BD}\U{9C}";
    chunks := SlipDsml("\U{EF}\U{BD}\U{9C}", "\U{EF}\U{BD}\U{9C}");
  }

  lemma GapPipe() returns (chunks: seq<string>)
    ensures Contains(Delivered(chunks), "|DSML|")
  {
    hide Contains, Leaks, Delivered;
    ShortIsClean("|DSML");
    assert "|" + "DSML" == "|DSML";
    assert "|DSML" + "|" == "|DSML|";
    chunks := SlipDsml("|", "|");
  }

  lemma GapOpenBar() returns (chunks: seq<string>)
    ensures Contains(Delivered(chunks), "<\U{EF}\U{BD}\U{9C}DSML\U{EF}\U{BD}\U{9C}")
  {
    hide Contains, Leaks, Delivered;
    WideIsClean("<\U{EF}\U{BD}\U{9C}DSML");
    assert "<\U{EF}\U{BD}\U{9C}" + "DSML" == "<\U{EF}\U{BD}\U{9C}DSML";
    assert "<\U{EF}\U{BD}\U{9C}DSML" + "\U{EF}\U{BD}\U{9C}" == "<\U{EF}\U{BD}\U{9C}DSML\U{EF}\U{BD}\U{9C}";
    chunks := SlipDsml("<\U{EF}\U{BD}\U{9C}", "\U{EF}\U{BD}\U{9C}");
  }

  lemma GapOpenPipe() returns (chunks: seq<string>)
    ensures Contains(Delivered(chunks), "<|DSML|")
  {
    hide Contains, Leaks, Delivered;
    UnclosedIsClean("<|DSML");
    assert "<|" + "DSML" == "<|DSML";
    assert "<|DSML" + "|" == "<|DSML|";
    chunks := SlipDsml("<|", "|");
  }

  lemma GapCloseBar() returns (chunks: seq<string>)
    ensures Contains(Delivered(chunks), "</\U{EF}\U{BD}\U{9C}DSML\U{EF}\U{BD}\U{9C}")
  {
    hide Contains, Leaks, Delivered;
    WideIsClean("</\U{EF}\U{BD}\U{9C}DSML");
    assert "</\U{EF}\U{BD}\U{9C}" + "DSML" == "</\U{EF}\U{BD}\U{9C}DSML";
    assert "</\U{EF}\U{BD}\U{9C}DSML" + "\U{EF}\U{BD}\U{9C}" == "</\U{EF}\U{BD}\U{9C}DSML\U{EF}\U{BD}\U{9C}";
    chunks := SlipDsml("</\U{EF}\U{BD}\U{9C}", "\U{EF}\U{BD}\U{9C}");
  }

  lemma GapClosePipe() returns (chunks: seq<string>)
    ensures Contains(Delivered(chunks), "</|DSML|")
  {
    hide Contains, Leaks, Delivered;
    UnclosedIsClean("</|DSML");
    assert "</|" + "DSML" == "</|DSML";
    assert "</|DSML" + "|" == "</|DSML|";
    chunks := SlipDsml("</|", "|");
  }

  lemma InvokePrefix()
    ensures "invoke name=" in PREFIXES && "invoke name="[..1] == "i"
  {
  }

  lemma GapInvokeName() returns (chunks: seq<string>)
    ensures Contains(Delivered(chunks), "<invoke name")
  {
    hide Contains, Leaks, Delivered, PREFIXES, MARKERS;
    assert "<i" + "nvoke name" == "<invoke name";
    assert "i" + "nvoke name" == "invoke name";
    ShortIsClean("<i");
    PlainIsClean("invoke name");
    InvokePrefix();
    chunks := Slip("<i", "nvoke name", "i", "invoke name=");
  }

  lemma GapInvokeClose() returns (chunks: seq<string>)
    ensures Contains(Delivered(chunks), "</invoke>")
  {
    hide Contains, Leaks, Delivered;
    assert "</i" + "nvoke>" == "</invoke>";
    assert "i" + "nvoke>" == "invoke>";
    ShortIsClean("</i");
    PlainIsClean("invoke>");
    InvokePrefix();
    chunks := Slip("</i", "nvoke>", "i", "invoke name=");
  }

  lemma GapParameterName() returns (chunks: seq<string>)
    ensures Contains(Delivered(chunks), "<parameter name=")
  {
    hide Contains, Leaks, Delivered, HoldLen;
    assert "<parameter name" + "=" == "<parameter name=";
    ParameterIsClean("<parameter name");
    ShortIsClean("=");
    NamedParameterIsNotHeld();
    chunks := SlipUnheld("<parameter name", "=");
  }

  lemma GapParameterClose() returns (chunks: seq<string>)
    ensures Contains(Delivered(chunks), "</parameter>")
  {
    hide Contains, Leaks, Delivered, HoldLen;
    assert "</parameter" + ">" == "</parameter>";
    ParameterIsClean("</parameter");
    ShortIsClean(">");
    ClosingParameterIsNotHeld();
    chunks := SlipUnheld("</parameter", ">");
  }

  // ---- Two chunks -------------------------------------------------------------

  lemma Slip(first: string, second: string, held: string, prefix: string) returns (chunks: seq<string>)
    requires second != "" && 0 < |held| <= |first| && first[|first| - |held|..] == held
    requires prefix in PREFIXES && |held| < |prefix| && prefix[..|held|] == held
    requires |held| <= MAX_HOLD && CanStart(held[0])
    requires forall k :: 1 <= k < |held| ==> Inert(held[k])
    requires 'p' !in first && ('i' !in first || 'n' !in first)
    requires !Leaks(first) && !Leaks(held + second)
    ensures Contains(Delivered(chunks), first + second)
  {
    hide Leaks, Delivered;
    NoOpener(first);
    HoldIs(first, held, prefix);
    chunks := [first, second];
    DeliveredWhole(first, second, held);
    assert OccursAt(first + second, first + second, 0);
  }

  /** Only `DSML` is held back, so the bar that ends the marker follows it out. */
  lemma SlipDsml(front: string, bar: string) returns (chunks: seq<string>)
    requires bar == "|" || bar == "\U{EF}\U{BD}\U{9C}"
    requires 'p' !in front && 'i' !in front && !Leaks(front + "DSML")
    ensures Contains(Delivered(chunks), front + "DSML" + bar)
  {
    hide Contains, Leaks, Delivered, PREFIXES;
    DsmlPrefix(bar);
    var first := front + "DSML";
    assert first[|first| - 4..] == "DSML" && ("DSML" + bar)[..4] == "DSML";
    chunks := Slip(first, bar, "DSML", "DSML" + bar);
  }

  lemma DsmlPrefix(bar: string)
    requires bar == "|" || bar == "\U{EF}\U{BD}\U{9C}"
    ensures "DSML" + bar in PREFIXES && !Leaks("DSML" + bar)
  {
    hide Leaks, Contains;
    if bar == "|" {
      assert "DSML" + bar == "DSML|";
      ShortIsClean("DSML|");
    } else {
      assert "DSML" + bar == "DSML\U{EF}\U{BD}\U{9C}";
      WideIsClean("DSML\U{EF}\U{BD}\U{9C}");
    }
  }

  lemma SlipUnheld(first: string, second: string) returns (chunks: seq<string>)
    requires first != "" && second != "" && HoldLen(first) == 0
    requires !Leaks(first) && !Leaks(second)
    ensures Contains(Delivered(chunks), first + second)
  {
    hide Leaks, HoldLen, Delivered;
    chunks := [first, second];
    assert "" + second == second;
    DeliveredWhole(first, second, "");
    assert OccursAt(first + second, first + second, 0);
  }

  lemma DeliveredWhole(first: string, second: string, held: string)
    requires first != "" && second != "" && HoldLen(first) == |held| <= |first|
    requires held == first[|first| - |held|..]
    requires !Leaks(first) && !Leaks(held + second)
    ensures Delivered([first, second]) == first + second
  {
    hide Leaks, HoldLen, Feed, Concat;
    var one, two := Feed([first]), Feed([first, second]);
    FeedOne(first, held);
    assert [first] + [second] == [first, second];
    FeedUnfold([first], second);
    HeldIsClean(one, second);
    ReleasedAndHeldIsInput([first, second]);
    ConcatTwo(first, second);
    assert two.released + "" == two.released;
  }

  lemma FeedOne(first: string, held: string)
    requires first != "" && HoldLen(first) == |held| <= |first|
    requires held == first[|first| - |held|..] && !Leaks(first)
    ensures Feed([first]).held == held && !Feed([first]).leaked
  {
    hide Leaks, HoldLen, Feed;
    assert [] + [first] == [first];
    FeedUnfold([], first);
    EmptyFeed();
    assert "" + first == first;
  }

  lemma EmptyFeed()
    ensures Feed([]) == Run("", "", false)
  {
  }

  lemma ConcatTwo(first: string, second: string)
    ensures Concat([first, second]) == first + second
  {
    assert [first, second][1..] == [second] && [second][1..] == [];
    assert Concat([second]) == second + "" == second;
  }

  lemma HeldIsClean(run: Run, chunk: string)
    requires !Leaks(run.held + chunk) && chunk != ""
    ensures !Leaks(StepRun(run, chunk).held)
  {
    hide HoldLen, Leaks;
    var text := run.held + chunk;
    forall k | 0 <= k <= |text|
      ensures !Leaks(text[k..])
    {
      SuffixIsClean(text, k);
    }
    assert text[|text|..] == "";
  }

  lemma SuffixIsClean(text: string, k: nat)
    requires k <= |text| && !Leaks(text)
    ensures !Leaks(text[k..])
  {
    hide MARKERS;
    forall m | m in MARKERS
      ensures !Contains(text[k..], m)
    {
      SuffixContains(text, k, m);
    }
  }

  lemma SuffixContains(text: string, k: nat, m: string)
    requires k <= |text|
    ensures Contains(text[k..], m) ==> Contains(text, m)
  {
    if Contains(text[k..], m) {
      var i :| 0 <= i <= |text[k..]| && OccursAt(text[k..], m, i);
      assert text[k + i..k + i + |m|] == text[k..][i..i + |m|];
      assert OccursAt(text, m, k + i);
    }
  }

  // ---- Texts with no marker in them -------------------------------------------

  lemma AbsentByte(text: string, pattern: string, j: nat)
    requires j < |pattern| && pattern[j] !in text
    ensures !Contains(text, pattern)
  {
    forall i: nat | i + |pattern| <= |text|
      ensures !OccursAt(text, pattern, i)
    {
      assert text[i..i + |pattern|][j] == text[i + j];
    }
  }

  lemma TooShort(text: string, pattern: string)
    requires |text| < |pattern|
    ensures !Contains(text, pattern)
  {
  }

  lemma ShortIsClean(text: string)
    requires |text| < 6
    ensures !Leaks(text)
  {
    hide Contains;
    forall m | m in MARKERS
      ensures !Contains(text, m)
    {
      assert |m| >= 6;
      TooShort(text, m);
    }
  }

  lemma PlainIsClean(text: string)
    requires '<' !in text && '=' !in text && 'D' !in text
    ensures !Leaks(text)
  {
    hide Contains;
    forall m | m in MARKERS
      ensures !Contains(text, m)
    {
      var j :| 0 <= j < |m| && m[j] !in text by { HasPlainByte(m); }
      AbsentByte(text, m, j);
    }
  }

  lemma HasPlainByte(m: string)
    requires m in MARKERS
    ensures exists j :: 0 <= j < |m| && m[j] in "<=D"
  {
    var j := if m[0] == '<' || m[0] == 'D' then 0 else if m[0] == '|' then 1 else if m[0] == 'i' then 11 else 3;
    assert m[j] == '<' || m[j] == '=' || m[j] == 'D';
  }

  lemma WideIsClean(text: string)
    requires |text| < 10 && '|' !in text && '>' !in text
    ensures !Leaks(text)
  {
    hide Contains;
    forall m | m in MARKERS
      ensures !Contains(text, m)
    {
      assert |m| >= 10 || m[|m| - 1] == '|' || m[|m| - 1] == '>';
      if |m| >= 10 { TooShort(text, m); } else { AbsentByte(text, m, |m| - 1); }
    }
  }

  lemma UnclosedIsClean(text: string)
    requires |text| < 8 && forall i :: 5 <= i < |text| ==> text[i] != '|'
    ensures !Leaks(text)
  {
    hide Contains;
    forall m | m in MARKERS
      ensures !Contains(text, m)
    {
      assert |m| >= 8 || (|m| >= 6 && m[|m| - 1] == '|');
      if |m| >= 8 { TooShort(text, m); } else { NoLateByte(text, m, '|'); }
    }
  }

  lemma NoLateByte(text: string, m: string, c: char)
    requires |m| >= 6 && m[|m| - 1] == c && forall i :: 5 <= i < |text| ==> text[i] != c
    ensures !Contains(text, m)
  {
    forall i: nat | i + |m| <= |text|
      ensures !OccursAt(text, m, i)
    {
      assert text[i..i + |m|][|m| - 1] == text[i + |m| - 1];
    }
  }

  lemma ParameterIsClean(text: string)
    requires 'D' !in text && '=' !in text && 'v' !in text && '>' !in text
    ensures !Leaks(text)
  {
    hide Contains;
    forall m | m in MARKERS
      ensures !Contains(text, m)
    {
      var j :| 0 <= j < |m| && m[j] !in text by { HasParameterByte(m); }
      AbsentByte(text, m, j);
    }
  }

  lemma HasParameterByte(m: string)
    requires m in MARKERS
    ensures exists j :: 0 <= j < |m| && m[j] in "D=v>"
  {
    if 'D' !in m {
      assert m[|m| - 1] == '=' || m[|m| - 1] == '>' || m == "<invoke name";
      if m == "<invoke name" { assert m[3] == 'v'; }
    }
  }

  // ---- How much is held -------------------------------------------------------

  /** A byte at which no suspect suffix starts. */
  predicate Inert(c: char) {
    !CanStart(c) || '\U{80}' <= c < '\U{C0}'
  }

  lemma NoOpener(text: string)
    requires 'p' !in text && ('i' !in text || 'n' !in text)
    ensures OpenerHold(text, "<invoke", "invoke name", "</invoke>") == 0
    ensures OpenerHold(text, "<parameter", "parameter name", "</parameter>") == 0
  {
    hide RFindUpTo;
    AbsentByte(text, "<invoke", if 'i' !in text then 1 else 2);
    AbsentByte(text, "<parameter", 1);
  }

  lemma HoldIs(text: string, held: string, prefix: string)
    requires 0 < |held| <= |text| && text[|text| - |held|..] == held && |held| <= MAX_HOLD
    requires prefix in PREFIXES && |held| < |prefix| && prefix[..|held|] == held && CanStart(held[0])
    requires forall k :: 1 <= k < |held| ==> Inert(held[k])
    requires OpenerHold(text, "<invoke", "invoke name", "</invoke>") == 0
    requires OpenerHold(text, "<parameter", "parameter name", "</parameter>") == 0
    ensures HoldLen(text) == |held|
  {
    hide OpenerHold, PREFIXES;
    assert text[|text| - |held|] == held[0];
    assert StartsMarker(held);
    forall k: nat | 1 <= k < |held|
      ensures !Suspect(text, k)
    {
      assert text[|text| - k] == held[|held| - k];
      if !CanStart(text[|text| - k]) { NotSuspect(text, k); }
    }
    HoldFromIs(text, 1, Min(MAX_HOLD, |text|), |held|);
  }

  lemma {:induction false} NothingHeld(text: string, n: nat, max: nat)
    requires 1 <= n && max <= |text|
    requires forall k: nat :: n <= k <= max ==> !Suspect(text, k)
    ensures HoldFrom(text, n, max) == 0
    decreases max + 1 - n
  {
    hide Suspect;
    if n <= max { NothingHeld(text, n + 1, max); }
  }

  lemma NamedParameterIsNotHeld()
    ensures HoldLen("<parameter name") == 0
  {
    hide RFindUpTo;
    var text := "<parameter name";
    AbsentByte(text, "<invoke", 1);
    NamedParameterTail(text);
    forall k: nat | 1 <= k <= 15
      ensures !Suspect(text, k)
    {
      if k < 15 { NotSuspect(text, k); } else { LongIsNotSuspect(text); }
    }
    NothingHeld(text, 1, 15);
  }

  lemma NamedParameterTail(text: string)
    requires text == "<parameter name"
    ensures OpenerHold(text, "<parameter", "parameter name", "</parameter>") == 0
  {
    hide RFindUpTo, OccursAt;
    var k := RFind(text, "<parameter");
    if k.Some? {
      OnlyInFront(text, k.value);
      assert text[0..] == text;
      NameBehindBracket(text);
    }
  }

  lemma OnlyInFront(text: string, k: nat)
    requires text == "<parameter name" && OccursAt(text, "<parameter", k)
    ensures k == 0
  {
    assert text[k..k + 10][0] == '<' && text[k] == '<';
  }

  lemma NameBehindBracket(text: string)
    requires text == "<parameter name"
    ensures Contains(text, "parameter name")
  {
    assert text[1..1 + 14] == "parameter name";
    assert OccursAt(text, "parameter name", 1);
  }

  lemma LongIsNotSuspect(text: string)
    requires |text| >= 12
    ensures !Suspect(text, |text|)
  {
    assert text[0..] == text;
    forall m | m in PREFIXES
      ensures |m| <= 12
    {
    }
  }

  lemma ClosingParameterIsNotHeld()
    ensures HoldLen("</parameter") == 0
  {
    hide RFindUpTo, Suspect, Contains, OpenerHold;
    var text := "</parameter";
    AbsentByte(text, "<invoke", 1);
    NoParameterOpener(text);
    NoOpenerNoHold(text, "<invoke", "invoke name", "</invoke>");
    NoOpenerNoHold(text, "<parameter", "parameter name", "</parameter>");
    forall k: nat | 1 <= k <= 11
      ensures !Suspect(text, k)
    {
      if k < 11 { NotSuspect(text, k); } else { ClosingParameterIsNotSuspect(text); }
    }
    NothingHeld(text, 1, 11);
  }

  lemma NoOpenerNoHold(text: string, opener: string, named: string, close: string)
    requires !Contains(text, opener)
    ensures OpenerHold(text, opener, named, close) == 0
  {
    hide OccursAt;
  }

  lemma NoParameterOpener(text: string)
    requires text == "</parameter"
    ensures !Contains(text, "<parameter")
  {
    forall i: nat | i + 10 <= |text|
      ensures !OccursAt(text, "<parameter", i)
    {
      assert i <= 1;
      assert text[i..i + 10][0] == text[i] && text[i..i + 10][1] == text[i + 1];
    }
  }

  lemma ClosingParameterIsNotSuspect(text: string)
    requires text == "</parameter"
    ensures !Suspect(text, 11)
  {
    hide PREFIXES;
    assert text[0..] == text;
    forall m | m in PREFIXES && |m| > 11
      ensures m[..11] != text
    {
      LongIsNotParameter(m);
      assert m[..11][2] == m[2];
    }
  }

  lemma LongIsNotParameter(m: string)
    requires m in PREFIXES && |m| > 11
    ensures m[2] != 'p'
  {
  }

  // ---- What one chunk does ----------------------------------------------------

  /** A marker that is whole in the held text and the chunk is reported, and nothing goes out. */
  lemma MarkerIsReported(held: string, chunk: string, m: string)
    requires m in {
      "DSML|tool_calls", "DSML\U{EF}\U{BD}\U{9C}tool_calls", "\U{EF}\U{BD}\U{9C}DSML\U{EF}\U{BD}\U{9C}", "|DSML|",
      "<\U{EF}\U{BD}\U{9C}DSML\U{EF}\U{BD}\U{9C}", "<|DSML|", "</\U{EF}\U{BD}\U{9C}DSML\U{EF}\U{BD}\U{9C}", "</|DSML|",
      "invoke name=", "<invoke name", "</invoke>", "<parameter name=", "</parameter>"}
    requires chunk != "" && Contains(held + chunk, m)
    ensures Take(held, chunk) == Taken(held + chunk, None, true)
    ensures Flush(held + chunk) == Taken(held + chunk, None, true)
  {
    hide Contains;
    assert m in MARKERS;
  }

  /** The bytes that begin a marker. */
  predicate BeginsMarker(c: char) {
    c == '<' || c == '|' || c == 'D' || c == 'i' || c == '\U{EF}'
  }

  lemma PrefixBegins(m: string)
    requires m in PREFIXES
    ensures m != "" && BeginsMarker(m[0])
  {
  }

  /** Text without an opener whose last sixteen bytes begin no marker goes out at once, with what was held. */
  lemma InnocentIsReleased(held: string, chunk: string)
    requires chunk != "" && !Leaks(held + chunk)
    requires !Contains(held + chunk, "<invoke") && !Contains(held + chunk, "<parameter")
    requires forall k :: |held + chunk| - 16 <= k < |held + chunk| && k >= 0 ==> !BeginsMarker((held + chunk)[k])
    ensures Take(held, chunk) == Taken("", Some(held + chunk), false)
  {
    hide Leaks, Contains, Suspect, OpenerHold, BeginsMarker;
    var text := held + chunk;
    NoOpenerNoHold(text, "<invoke", "invoke name", "</invoke>");
    NoOpenerNoHold(text, "<parameter", "parameter name", "</parameter>");
    var max := Min(MAX_HOLD, |text|);
    forall n: nat | 1 <= n <= max
      ensures !Suspect(text, n)
    {
      InnocentEnd(text, n);
    }
    NothingHeld(text, 1, max);
  }

  lemma InnocentEnd(text: string, n: nat)
    requires 1 <= n <= |text| && !BeginsMarker(text[|text| - n])
    ensures !Suspect(text, n)
  {
    hide PREFIXES;
    var suffix := text[|text| - n..];
    assert suffix[0] == text[|text| - n];
    forall m | m in PREFIXES && |suffix| < |m|
      ensures m[..|suffix|] != suffix
    {
      PrefixBegins(m);
      assert m[..|suffix|][0] == m[0];
    }
  }

  /** Without an opener no more than sixteen bytes are held back. */
  lemma LittleIsHeld(held: string, chunk: string)
    requires chunk != "" && !Leaks(held + chunk)
    requires !Contains(held + chunk, "<invoke") && !Contains(held + chunk, "<parameter")
    ensures |Take(held, chunk).held| <= 16
  {
    hide Leaks, Contains, Suspect, OpenerHold;
    NoOpenerNoHold(held + chunk, "<invoke", "invoke name", "</invoke>");
    NoOpenerNoHold(held + chunk, "<parameter", "parameter name", "</parameter>");
  }

  /** What the markers begin with, or are. */
  const BEGINNINGS := {
    "<\U{EF}\U{BD}\U{9C}DSML\U{EF}\U{BD}\U{9C}", "<|DSML|", "</\U{EF}\U{BD}\U{9C}DSML\U{EF}\U{BD}\U{9C}", "</|DSML|",
    "<invoke", "invoke name=", "</invoke>", "<parameter", "</parameter", "DSML|", "DSML\U{EF}\U{BD}\U{9C}",
    "\U{EF}\U{BD}\U{9C}DSML\U{EF}\U{BD}\U{9C}", "|DSML|"}

  /** The last n bytes are the start, but not the whole, of one of them. */
  predicate MayBegin(text: string, n: nat)
    requires n <= |text|
  {
    IsBoundary(text, |text| - n) && exists m :: m in BEGINNINGS && text[|text| - n..] < m
  }

  lemma BeginningsAreThePrefixes()
    ensures BEGINNINGS == PREFIXES
  {
  }

  lemma OneBracketBegins()
    ensures "<invoke" in BEGINNINGS && "<" < "<invoke"
  {
  }

  lemma SuspectMayBegin(text: string, n: nat)
    requires 1 <= n <= |text|
    ensures Suspect(text, n) <==> MayBegin(text, n)
  {
    hide PREFIXES, BEGINNINGS;
    BeginningsAreThePrefixes();
    OneBracketBegins();
    var suffix := text[|text| - n..];
    forall m: string
      ensures suffix < m <==> |suffix| < |m| && m[..|suffix|] == suffix
    {
    }
  }

  lemma {:induction false} ShortestIsHeld(text: string, n: nat, max: nat)
    requires max <= |text| && n > 0
    ensures var hold := HoldFrom(text, n, max);
      && (hold > 0 ==> hold >= n && Suspect(text, hold) && forall m :: n <= m < hold ==> !Suspect(text, m))
      && (hold == 0 ==> forall m :: n <= m <= max ==> !Suspect(text, m))
    decreases max + 1 - n
  {
    hide Suspect;
    if n <= max && !Suspect(text, n) { ShortestIsHeld(text, n + 1, max); }
  }

  /** Without an opener the shortest end that a marker may begin with is held, and nothing if there is none. */
  lemma HeldIsShortest(held: string, chunk: string)
    requires chunk != "" && !Leaks(held + chunk)
    requires !Contains(held + chunk, "<invoke") && !Contains(held + chunk, "<parameter")
    ensures var text, n := held + chunk, |Take(held, chunk).held|;
      && n <= |text| && Take(held, chunk).held == text[|text| - n..]
      && (n > 0 ==> MayBegin(text, n) && forall m :: 1 <= m < n ==> !MayBegin(text, m))
      && (n == 0 ==> forall m :: 1 <= m <= 16 && m <= |text| ==> !MayBegin(text, m))
  {
    hide Leaks, Contains, Suspect, OpenerHold, MayBegin;
    var text := held + chunk;
    NoOpenerNoHold(text, "<invoke", "invoke name", "</invoke>");
    NoOpenerNoHold(text, "<parameter", "parameter name", "</parameter>");
    ShortestIsHeld(text, 1, Min(MAX_HOLD, |text|));
    forall m: nat | 1 <= m <= |text|
      ensures Suspect(text, m) <==> MayBegin(text, m)
    {
      SuspectMayBegin(text, m);
    }
    assert text[|text|..] == "" && text[0..] == text;
  }

  lemma {:induction false} LastIsFound(text: string, pattern: string, k: nat, i: nat)
    requires k <= i && OccursAt(text, pattern, k) && forall j :: k < j <= i ==> !OccursAt(text, pattern, j)
    ensures RFindUpTo(text, pattern, i) == Some(k)
    decreases i
  {
    hide OccursAt;
    if k < i { LastIsFound(text, pattern, k, i - 1); }
  }

  /** From the last invoke opener on, as long as it shows neither its name nor its close, everything is held. */
  lemma OpenerIsHeld(held: string, chunk: string, k: nat)
    requires chunk != "" && !Leaks(held + chunk) && k <= |held + chunk| && OccursAt(held + chunk, "<invoke", k)
    requires forall j :: k < j <= |held + chunk| ==> !OccursAt(held + chunk, "<invoke", j)
    requires !Contains((held + chunk)[k..], "invoke name") && !Contains((held + chunk)[k..], "</invoke>")
    ensures Take(held, chunk) == Taken((held + chunk)[k..], if k == 0 then None else Some((held + chunk)[..k]), false)
  {
    hide Leaks, Contains, OccursAt;
    var text := held + chunk;
    LastIsFound(text, "<invoke", k, |text|);
    assert k < |text| by { OpenerFits(text, "<invoke", k); }
    assert HoldLen(text) == |text| - k;
    assert text[0..] == text;
  }

  lemma OpenerFits(text: string, pattern: string, k: nat)
    requires OccursAt(text, pattern, k)
    ensures k + |pattern| <= |text|
  {
  }
}
