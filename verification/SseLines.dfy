/**
  What the line buffer of sse.rs sends for each line, and that lines which the patch
  leaves alone go through as they were written, with one kind of line ending.
*/
module SseLines {
  import opened Utf8Text
  import opened SseBuffer
  import opened SseBufferLaws

  predicate EndsStream(line: string) {
    line in {"data: [DONE]", "data:[DONE]"}
  }

  predicate Ended(lines: seq<string>) {
    exists i :: 0 <= i < |lines| && EndsStream(lines[i])
  }

  lemma EndedIsDone(lines: seq<string>)
    ensures Ended(lines) <==> DoneAfter(lines, false)
  {
  }

  lemma OneOutput(patch: Patch, line: string, done: bool)
    ensures Outputs(patch, [line], done) == if done then [] else LineOut(patch, line)
  {
    hide LineOut, IsDoneLine;
    LineUnfold(patch, line, [], done);
    assert [line] + [] == [line];
    assert Outputs(patch, [], done || IsDoneLine(line)) == [];
  }

  /**
    Each line adds its own output behind those of the lines before it: nothing once the
    stream has ended, the one spelling of the end, a blank line as it is, else what the
    patch makes of it unless that is nothing.
  */
  lemma EachLineGoesOut(patch: Patch, lines: seq<string>, i: nat)
    requires i < |lines|
    ensures var before, line := Outputs(patch, lines[..i], false), lines[i];
      Outputs(patch, lines[..i + 1], false)
      == if Ended(lines[..i]) then before
         else if EndsStream(line) then before + ["data: [DONE]\n"]
         else if line == "" then before + ["\n"]
         else if patch(line) == "" then before
         else before + [patch(line) + "\n"]
  {
    hide Outputs, DoneAfter;
    assert lines[..i + 1] == lines[..i] + [lines[i]];
    OutputsAppend(patch, lines[..i], [lines[i]], false);
    EndedIsDone(lines[..i]);
    OneOutput(patch, lines[i], DoneAfter(lines[..i], false));
    var before := Outputs(patch, lines[..i], false);
    assert before + [] == before;
  }

  function LineFeeds(n: nat): seq<Ending> {
    seq(n, i => LineFeed)
  }

  lemma {:induction false} OutputsConcat(patch: Patch, lines: seq<string>)
    requires !Ended(lines) && forall line <- lines :: patch(line) == line
    ensures Concat(Outputs(patch, lines, false)) == Written(lines, LineFeeds(|lines|))
    decreases |lines|
  {
    hide Concat, DoneAfter;
    if lines == [] {
      assert Outputs(patch, lines, false) == [];
      assert Concat([]) == "" by { NothingToConcat(); }
    } else {
      var rest := lines[1..];
      assert !Ended(rest) by { RestIsOpen(lines); }
      assert !EndsStream(lines[0]);
      OutputsConcat(patch, rest);
      assert LineFeeds(|lines|)[1..] == LineFeeds(|rest|);
      assert lines[0] in lines;
      OneConcat(lines[0] + "\n", Outputs(patch, rest, false));
      assert "" + "\n" == "\n";
    }
  }

  lemma RestIsOpen(lines: seq<string>)
    requires lines != [] && !Ended(lines)
    ensures !Ended(lines[1..])
  {
    assert forall i :: 0 <= i < |lines| - 1 ==> lines[1..][i] == lines[i + 1];
  }

  lemma NothingToConcat()
    ensures Concat([]) == ""
  {
  }

  lemma OneConcat(head: string, rest: seq<string>)
    ensures Concat([head] + rest) == head + Concat(rest)
  {
    assert ([head] + rest)[1..] == rest;
  }

  /**
    A text whose lines the patch leaves alone and none of which ends the stream goes
    out as it was written, each line ending as a line feed.
  */
  lemma LinesPassThrough(patch: Patch, lines: seq<string>, endings: seq<Ending>)
    requires |lines| == |endings| && OneLiners(lines) && Apart(lines, endings)
    requires !Ended(lines) && forall line <- lines :: patch(line) == line
    ensures Concat(Outputs(patch, Lines(Written(lines, endings)), false)) == Written(lines, LineFeeds(|lines|))
  {
    hide Lines, Outputs, Concat;
    EndingsReadTheSame(lines, endings);
    OutputsConcat(patch, lines);
  }
}
