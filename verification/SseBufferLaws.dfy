/**
  When the line buffer of sse.rs does not depend on how the stream is cut, which
  line endings it tells apart, and what its done line ends.
*/
module SseBufferLaws {
  import opened Utf8Text
  import opened SseBuffer

  // ---- Many pushes ------------------------------------------------------------

  /** The buffer is empty after every push, so a run of pushes is a run of texts. */
  function AllOutputs(patch: Patch, chunks: seq<string>, done: bool): seq<string> {
    if chunks == [] then []
    else Outputs(patch, Lines(chunks[0]), done) + AllOutputs(patch, chunks[1..], DoneAfter(Lines(chunks[0]), done))
  }

  method PushAll(buffer: Buffer, chunks: seq<string>) returns (lines: seq<string>)
    requires buffer.bytes == ""
    modifies buffer
    ensures lines == AllOutputs(buffer.patch, chunks, old(buffer.done)) && buffer.bytes == ""
  {
    hide Outputs, DoneAfter, Lines, AllOutputs;
    lines := [];
    assert chunks[0..] == chunks;
    for i := 0 to |chunks|
      invariant buffer.bytes == ""
      invariant AllOutputs(buffer.patch, chunks, old(buffer.done)) == lines + AllOutputs(buffer.patch, chunks[i..], buffer.done)
    {
      AllUnfold(buffer.patch, chunks, i, buffer.done);
      assert "" + chunks[i] == chunks[i];
      var more := buffer.PushBytes(chunks[i]);
      lines := lines + more;
    }
    assert AllOutputs(buffer.patch, chunks[|chunks|..], buffer.done) == [] by { NoChunks(buffer.patch, chunks, buffer.done); }
  }

  lemma AllUnfold(patch: Patch, chunks: seq<string>, i: nat, done: bool)
    requires i < |chunks|
    ensures AllOutputs(patch, chunks[i..], done)
         == Outputs(patch, Lines(chunks[i]), done) + AllOutputs(patch, chunks[i + 1..], DoneAfter(Lines(chunks[i]), done))
  {
    hide Outputs, DoneAfter, Lines;
    assert chunks[i..][0] == chunks[i] && chunks[i..][1..] == chunks[i + 1..];
  }

  lemma NoChunks(patch: Patch, chunks: seq<string>, done: bool)
    ensures AllOutputs(patch, chunks[|chunks|..], done) == []
  {
  }

  lemma {:induction false} OutputsAppend(patch: Patch, a: seq<string>, b: seq<string>, done: bool)
    ensures Outputs(patch, a + b, done) == Outputs(patch, a, done) + Outputs(patch, b, DoneAfter(a, done))
    ensures DoneAfter(a + b, done) == DoneAfter(b, DoneAfter(a, done))
    decreases |a|
  {
    hide IsDoneLine, LineOut, DoneAfter;
    if a == [] {
      assert a + b == b;
      assert DoneAfter(a, done) == done by { NoLines(done); }
    } else {
      assert a + b == [a[0]] + (a[1..] + b) && a == [a[0]] + a[1..];
      LineUnfold(patch, a[0], a[1..] + b, done);
      LineUnfold(patch, a[0], a[1..], done);
      OutputsAppend(patch, a[1..], b, done || IsDoneLine(a[0]));
    }
  }

  lemma NoLines(done: bool)
    ensures DoneAfter([], done) == done
  {
  }

  // ---- Cutting a stream -------------------------------------------------------

  /** The unterminated end of a text. */
  function Left(text: string): string {
    if FirstEnd(text) == |text| then text else Left(RestOf(text))
  }

  /** A carriage return whose line feed comes in the next text. */
  predicate SplitsEnding(a: string, b: string) {
    a != "" && a[|a| - 1] == '\r' && b != "" && b[0] == '\n'
  }

  lemma {:induction false} FirstEndAppend(a: string, b: string)
    ensures FirstEnd(a) < |a| ==> FirstEnd(a + b) == FirstEnd(a)
  {
    if a != "" && !IsEnd(a[0]) {
      assert (a + b)[1..] == a[1..] + b;
      FirstEndAppend(a[1..], b);
    }
  }

  function Last(text: string): char
    requires text != ""
  {
    text[|text| - 1]
  }

  lemma RestIs(text: string)
    requires FirstEnd(text) < |text|
    ensures var ended := text[FirstEnd(text)..]; RestOf(text) == ended[EndWidth(ended)..]
  {
    hide FirstEnd, EndWidth;
  }

  lemma RestAcross(a: string, b: string)
    requires FirstEnd(a) < |a|
    ensures FirstEnd(a + b) == FirstEnd(a) && (a + b)[..FirstEnd(a)] == a[..FirstEnd(a)]
    ensures RestOf(a + b) == if RestOf(a) == "" && SplitsEnding(a, b) then b[1..] else RestOf(a) + b
    ensures RestOf(a) != "" ==> Last(RestOf(a)) == Last(a)
    ensures RestOf(a) == "" ==> IsEnd(Last(a))
  {
    hide FirstEnd, EndWidth, RestOf, SplitsEnding, IsEnd, Last;
    FrontAcross(a, b);
    RestIs(a);
    RestIs(a + b);
    var k := FirstEnd(a);
    SplitsBehind(a, k, b);
    EndAcross(a[k..], b);
  }

  lemma FrontAcross(a: string, b: string)
    requires FirstEnd(a) < |a|
    ensures var k := FirstEnd(a);
      FirstEnd(a + b) == k && (a + b)[..k] == a[..k] && (a + b)[k..] == a[k..] + b
  {
    hide FirstEnd;
    FirstEndAppend(a, b);
  }

  lemma SplitsBehind(a: string, k: nat, b: string)
    requires k < |a|
    ensures SplitsEnding(a[k..], b) == SplitsEnding(a, b) && Last(a[k..]) == Last(a)
  {
  }

  lemma EndAcross(ended: string, b: string)
    requires ended != "" && IsEnd(ended[0])
    ensures var rest := ended[EndWidth(ended)..];
      && (ended + b)[EndWidth(ended + b)..] == (if rest == "" && SplitsEnding(ended, b) then b[1..] else rest + b)
      && (if rest == "" then IsEnd(Last(ended)) else Last(rest) == Last(ended))
  {
    var w := EndWidth(ended);
    if w == |ended| && SplitsEnding(ended, b) {
      assert w == 1 && (ended + b)[2..] == b[1..];
    } else {
      assert EndWidth(ended + b) == w;
      assert (ended + b)[w..] == ended[w..] + b;
    }
  }

  lemma LinesStep(text: string)
    requires FirstEnd(text) < |text|
    ensures Lines(text) == [text[..FirstEnd(text)]] + Lines(RestOf(text)) && Left(text) == Left(RestOf(text))
  {
  }

  /** What is read behind the lines of the first text. */
  function Behind(a: string, b: string): string {
    if SplitsEnding(a, b) then b[1..] else Left(a) + b
  }

  /** What the lines of two texts together are. */
  lemma {:induction false} LinesAcross(a: string, b: string)
    ensures Lines(a + b) == Lines(a) + Lines(Behind(a, b))
    ensures SplitsEnding(a, b) ==> Left(a) == ""
    decreases |a|
  {
    hide Lines, Left, Behind, RestOf, FirstEnd, SplitsEnding;
    if FirstEnd(a) == |a| {
      LinesOfOne(a, b);
    } else {
      LinesAcrossStep(a, b);
      if !(RestOf(a) == "" && SplitsEnding(a, b)) { LinesAcross(RestOf(a), b); }
    }
  }

  lemma LinesOfOne(a: string, b: string)
    requires FirstEnd(a) == |a|
    ensures Lines(a + b) == Lines(a) + Lines(Behind(a, b)) && !SplitsEnding(a, b)
  {
    NoEndInside(a);
    assert [] + Lines(a + b) == Lines(a + b);
  }

  lemma LinesAcrossStep(a: string, b: string)
    requires FirstEnd(a) < |a|
    ensures Lines(a) == [a[..FirstEnd(a)]] + Lines(RestOf(a))
    ensures Left(a) == Left(RestOf(a))
    ensures RestOf(a) == "" && SplitsEnding(a, b) ==>
      Lines(a + b) == Lines(a) + Lines(Behind(a, b)) && Left(a) == ""
    ensures !(RestOf(a) == "" && SplitsEnding(a, b)) ==>
      && Lines(a + b) == [a[..FirstEnd(a)]] + Lines(RestOf(a) + b)
      && Behind(a, b) == Behind(RestOf(a), b) && (SplitsEnding(a, b) <==> SplitsEnding(RestOf(a), b))
  {
    hide FirstEnd, RestOf, Lines, Left;
    RestAcross(a, b);
    LinesStep(a);
    LinesStep(a + b);
    LinesOfNothing();
    assert [a[..FirstEnd(a)]] + [] == [a[..FirstEnd(a)]];
  }

  lemma NoEndInside(a: string)
    requires FirstEnd(a) == |a|
    ensures forall b :: !SplitsEnding(a, b)
  {
    assert a != "" ==> !IsEnd(a[|a| - 1]);
  }

  lemma LinesOfNothing()
    ensures Lines("") == [] && Left("") == ""
  {
  }

  /**
    The exact cuts that cannot be seen in the output: after the done line, at the
    very start, and right behind a line feed.
  */
  lemma CutIsSafeExactlyBehindLineFeed(patch: Patch, a: string, done: bool)
    ensures (forall b :: Outputs(patch, Lines(a + b), done)
                      == Outputs(patch, Lines(a), done) + Outputs(patch, Lines(b), DoneAfter(Lines(a), done)))
       <==> DoneAfter(Lines(a), done) || a == "" || a[|a| - 1] == '\n'
  {
    hide Outputs, DoneAfter, Lines, Left;
    if DoneAfter(Lines(a), done) || a == "" || a[|a| - 1] == '\n' {
      forall b
        ensures Outputs(patch, Lines(a + b), done)
             == Outputs(patch, Lines(a), done) + Outputs(patch, Lines(b), DoneAfter(Lines(a), done))
      {
        SafeCut(patch, a, b, done);
      }
    } else {
      UnsafeCut(patch, a, done);
    }
  }

  lemma SafeCut(patch: Patch, a: string, b: string, done: bool)
    requires DoneAfter(Lines(a), done) || a == "" || a[|a| - 1] == '\n'
    ensures Outputs(patch, Lines(a + b), done)
         == Outputs(patch, Lines(a), done) + Outputs(patch, Lines(b), DoneAfter(Lines(a), done))
  {
    hide Outputs, DoneAfter, Lines, Left;
    LinesAcross(a, b);
    var rest := Lines(Behind(a, b));
    OutputsAppend(patch, Lines(a), rest, done);
    if DoneAfter(Lines(a), done) {
      Silent(patch, rest);
      Silent(patch, Lines(b));
    } else {
      NothingLeft(a);
      assert "" + b == b;
    }
  }

  lemma Silent(patch: Patch, lines: seq<string>)
    ensures Outputs(patch, lines, true) == []
  {
  }

  lemma {:induction false} NothingLeft(a: string)
    ensures a == "" || IsEnd(a[|a| - 1]) <==> Left(a) == ""
    ensures Left(a) == "" || (a[|a| - 1] == Left(a)[|Left(a)| - 1] && NoEnd(Left(a)))
    decreases |a|
  {
    hide RestOf;
    if FirstEnd(a) < |a| {
      RestAcross(a, "");
      NothingLeft(RestOf(a));
    }
  }

  lemma UnsafeCut(patch: Patch, a: string, done: bool)
    requires !DoneAfter(Lines(a), done) && a != "" && a[|a| - 1] != '\n'
    ensures Outputs(patch, Lines(a + "\n"), done)
         != Outputs(patch, Lines(a), done) + Outputs(patch, Lines("\n"), DoneAfter(Lines(a), done))
  {
    hide Outputs, DoneAfter, Lines, Left, LineOut;
    LinesAcross(a, "\n");
    NothingLeft(a);
    OneLine(patch, "");
    assert "" + "\n" == "\n";
    assert LineOut(patch, "") == ["\n"] by { BlankLine(patch); }
    if a[|a| - 1] == '\r' {
      assert "\n"[1..] == "";
      LinesOfNothing();
      OutputsAppend(patch, Lines(a), [], done);
      Nothing(patch);
    } else {
      OneLine(patch, Left(a));
      OutputsAppend(patch, Lines(a), [Left(a)], done);
      NotBlank(patch, Left(a));
      SameFront(Outputs(patch, Lines(a), done), LineOut(patch, Left(a)), ["\n"]);
    }
  }

  lemma SameFront<T>(front: seq<T>, a: seq<T>, b: seq<T>)
    ensures front + a == front + b ==> a == b
  {
    assert (front + a)[|front|..] == a && (front + b)[|front|..] == b;
  }

  lemma BlankLine(patch: Patch)
    ensures LineOut(patch, "") == ["\n"]
  {
  }

  lemma NotBlank(patch: Patch, line: string)
    requires line != ""
    ensures LineOut(patch, line) != ["\n"]
  {
    if !IsDoneLine(line) && patch(line) != "" {
      assert |patch(line) + "\n"| > 1;
    }
  }

  lemma Nothing(patch: Patch)
    ensures Outputs(patch, [], false) == []
  {
  }

  lemma OneLine(patch: Patch, line: string)
    requires NoEnd(line)
    ensures Lines(line + "\n") == [line] && Outputs(patch, [line], false) == LineOut(patch, line)
  {
    hide Lines, LineOut, NoEnd;
    LinesUnfold(line, "\n");
    assert "\n"[1..] == "";
    LinesOfNothing();
    assert [line][1..] == [];
    assert LineOut(patch, line) + [] == LineOut(patch, line);
  }

  /** No chunk but the last ends inside a line, and none splits a carriage return from its line feed. */
  predicate Aligned(chunks: seq<string>) {
    |chunks| <= 1
    || ((chunks[0] == "" || IsEnd(chunks[0][|chunks[0]| - 1]))
        && !SplitsEnding(chunks[0], Concat(chunks[1..])) && Aligned(chunks[1..]))
  }

  /** Aligned chunks come out as if they had come in one piece. */
  lemma {:induction false} AlignedChunksAreOneText(patch: Patch, chunks: seq<string>, done: bool)
    requires Aligned(chunks)
    ensures AllOutputs(patch, chunks, done) == Outputs(patch, Lines(Concat(chunks)), done)
    decreases |chunks|
  {
    hide Outputs, DoneAfter, Lines, Left, SplitsEnding;
    if chunks == [] {
      LinesOfNothing();
      NoOutput(patch, done);
    } else {
      var rest := chunks[1..];
      AlignedChunksAreOneText(patch, rest, DoneAfter(Lines(chunks[0]), done));
      OutputsAppend(patch, Lines(chunks[0]), Lines(Concat(rest)), done);
      if |chunks| == 1 {
        assert Concat(rest) == "" && chunks[0] + "" == chunks[0];
        LinesOfNothing();
        assert Lines(chunks[0]) + [] == Lines(chunks[0]);
      } else {
        LinesAcross(chunks[0], Concat(rest));
        NothingLeft(chunks[0]);
        assert "" + Concat(rest) == Concat(rest);
      }
    }
  }

  lemma NoOutput(patch: Patch, done: bool)
    ensures Outputs(patch, [], done) == []
  {
  }

  // ---- Line endings -----------------------------------------------------------

  datatype Ending = LineFeed | CarriageReturn | Both

  function EndText(ending: Ending): string {
    match ending
    case LineFeed => "\n"
    case CarriageReturn => "\r"
    case Both => "\r\n"
  }

  function Written(lines: seq<string>, endings: seq<Ending>): string
    requires |lines| == |endings|
  {
    if lines == [] then "" else lines[0] + EndText(endings[0]) + Written(lines[1..], endings[1..])
  }

  predicate OneLiners(lines: seq<string>) {
    forall k, i :: 0 <= k < |lines| && 0 <= i < |lines[k]| ==> !IsEnd(lines[k][i])
  }

  /** No lone carriage return is followed by a blank line that ends in a lone line feed. */
  predicate Apart(lines: seq<string>, endings: seq<Ending>)
    requires |lines| == |endings|
  {
    |lines| <= 1
    || (!(endings[0] == CarriageReturn && lines[1] == "" && endings[1] == LineFeed) && Apart(lines[1..], endings[1..]))
  }

  /**
    Lines are read as they were written, whichever of the three endings each of
    them has, exactly when no two endings run together into one.
  */
  lemma {:induction false} EndingsReadTheSame(lines: seq<string>, endings: seq<Ending>)
    requires |lines| == |endings| && OneLiners(lines)
    ensures Lines(Written(lines, endings)) == lines <==> Apart(lines, endings)
    ensures |Lines(Written(lines, endings))| <= |lines|
    decreases |lines|
  {
    hide Lines;
    if lines == [] {
      LinesOfNothing();
    } else {
      var rest := Written(lines[1..], endings[1..]);
      WrittenUnfold(lines[0], endings[0], rest);
      FirstWritten(lines, endings);
      if endings[0] == CarriageReturn && |lines| > 1 && lines[1] == "" && endings[1] == LineFeed {
        Shorter(lines, endings);
      } else {
        EndingsReadTheSame(lines[1..], endings[1..]);
        assert lines == [lines[0]] + lines[1..];
      }
    }
  }

  lemma WrittenUnfold(line: string, ending: Ending, rest: string)
    requires NoEnd(line)
    ensures Lines(line + EndText(ending) + rest)
         == [line] + Lines(if ending == CarriageReturn && rest != "" && rest[0] == '\n' then rest[1..] else rest)
  {
    hide Lines;
    var text := EndText(ending) + rest;
    assert line + EndText(ending) + rest == line + text;
    LinesUnfold(line, text);
    assert text[1..] == EndText(ending)[1..] + rest;
    if ending.CarriageReturn? {
      assert text[1..] == rest;
      assert rest != "" ==> text[2..] == rest[1..];
    } else if ending.Both? {
      assert text[2..] == rest;
    }
  }

  lemma FirstWritten(lines: seq<string>, endings: seq<Ending>)
    requires |lines| == |endings| && lines != [] && OneLiners(lines)
    ensures var rest := Written(lines[1..], endings[1..]);
      (rest != "" && rest[0] == '\n') <==> (|lines| > 1 && lines[1] == "" && endings[1] == LineFeed)
  {
    if |lines| > 1 {
      var rest := Written(lines[1..], endings[1..]);
      assert rest == lines[1] + EndText(endings[1]) + Written(lines[1..][1..], endings[1..][1..]);
      if lines[1] != "" { assert !IsEnd(lines[1][0]) && rest[0] == lines[1][0]; }
    }
  }

  /** Two endings that run together cost a line. */
  lemma {:induction false} Shorter(lines: seq<string>, endings: seq<Ending>)
    requires |lines| == |endings| >= 2 && OneLiners(lines)
    requires endings[0] == CarriageReturn && lines[1] == "" && endings[1] == LineFeed
    ensures |Lines(Written(lines, endings))| < |lines|
    decreases |lines|, 0
  {
    hide Lines;
    var rest := Written(lines[1..], endings[1..]);
    WrittenUnfold(lines[0], endings[0], rest);
    FirstWritten(lines, endings);
    assert lines[1..][1..] == lines[2..] && endings[1..][1..] == endings[2..];
    assert rest == "" + "\n" + Written(lines[2..], endings[2..]);
    assert rest[1..] == Written(lines[2..], endings[2..]);
    EndingsReadTheSame(lines[2..], endings[2..]);
  }

  // ---- The done line ----------------------------------------------------------

  /** A patched line is never the done line, unless it was one. */
  ghost predicate KeepsDone(patch: Patch) {
    forall line :: !IsDoneLine(line) ==> patch(line) != DONE_LINE
  }

  /** The done line comes at most once, and nothing comes after it. */
  lemma {:induction false} DoneIsLast(patch: Patch, lines: seq<string>, done: bool)
    requires KeepsDone(patch)
    ensures var out := Outputs(patch, lines, done);
      forall i :: 0 <= i < |out| && out[i] == DONE_OUT ==> i == |out| - 1
    ensures var out := Outputs(patch, lines, done);
      !done ==> (DoneAfter(lines, done) <==> out != [] && out[|out| - 1] == DONE_OUT)
    decreases |lines|
  {
    hide IsDoneLine, DoneAfter, LineOut;
    if lines == [] {
      NoLines(done);
    } else if !done {
      var head, rest := LineOut(patch, lines[0]), lines[1..];
      assert lines == [lines[0]] + rest;
      LineUnfold(patch, lines[0], rest, done);
      HeadIsDone(patch, lines[0]);
      DoneIsLast(patch, rest, IsDoneLine(lines[0]));
      if IsDoneLine(lines[0]) { StaysDone(rest); Silent(patch, rest); }
    }
  }

  lemma StaysDone(lines: seq<string>)
    ensures DoneAfter(lines, true)
  {
  }

  lemma HeadIsDone(patch: Patch, line: string)
    requires KeepsDone(patch)
    ensures |LineOut(patch, line)| <= 1
    ensures IsDoneLine(line) <==> LineOut(patch, line) == [DONE_OUT]
  {
    OtherText(patch(line));
  }

  lemma OtherText(text: string)
    ensures text != DONE_LINE ==> text + "\n" != DONE_OUT
  {
    assert (text + "\n")[..|text|] == text;
    assert DONE_OUT[..12] == DONE_LINE;
  }

  /** So it is over any number of pushes. */
  lemma {:induction false} DoneIsLastOfAll(patch: Patch, chunks: seq<string>, done: bool)
    requires KeepsDone(patch)
    ensures var out := AllOutputs(patch, chunks, done);
      forall i :: 0 <= i < |out| && out[i] == DONE_OUT ==> i == |out| - 1
  {
    hide Outputs, Lines, DoneAfter, KeepsDone;
    AllIsOne(patch, chunks, done);
    DoneIsLast(patch, AllLines(chunks), done);
  }

  function AllLines(chunks: seq<string>): seq<string> {
    if chunks == [] then [] else Lines(chunks[0]) + AllLines(chunks[1..])
  }

  lemma {:induction false} AllIsOne(patch: Patch, chunks: seq<string>, done: bool)
    ensures AllOutputs(patch, chunks, done) == Outputs(patch, AllLines(chunks), done)
    decreases |chunks|
  {
    hide Outputs, Lines, DoneAfter;
    if chunks == [] {
      NoOutput(patch, done);
    } else {
      OutputsAppend(patch, Lines(chunks[0]), AllLines(chunks[1..]), done);
      AllIsOne(patch, chunks[1..], DoneAfter(Lines(chunks[0]), done));
    }
  }
}
