/**
  The line buffer for server-sent events (sse.rs). Line endings are those of the
  WHATWG HTML Living Standard, section 9.2.5, "Parsing an event stream".
*/
module SseBuffer {
  import opened Utf8Text

  const DONE_LINE := "data: [DONE]"
  const DONE_OUT := "data: [DONE]\n"

  predicate IsDoneLine(line: string) {
    line == DONE_LINE || line == "data:[DONE]"
  }

  predicate IsEnd(c: char) {
    c == '\n' || c == '\r'
  }

  // ---- Lines ------------------------------------------------------------------

  predicate NoEnd(line: string) {
    forall i :: 0 <= i < |line| ==> !IsEnd(line[i])
  }

  function FirstEnd(text: string): (k: nat)
    ensures k <= |text| && (k < |text| ==> IsEnd(text[k]))
    ensures forall i :: 0 <= i < k ==> !IsEnd(text[i])
  {
    if text == "" || IsEnd(text[0]) then 0 else 1 + FirstEnd(text[1..])
  }

  /** The width of the line ending that starts the text: a carriage return takes a line feed with it. */
  function EndWidth(text: string): (n: nat)
    requires text != "" && IsEnd(text[0])
    ensures 1 <= n <= 2 && n <= |text|
  {
    if text[0] == '\r' && |text| > 1 && text[1] == '\n' then 2 else 1
  }

  /** What comes after the first line and its ending. */
  function RestOf(text: string): (rest: string)
    requires FirstEnd(text) < |text|
    ensures |rest| < |text|
  {
    var k := FirstEnd(text);
    text[k..][EndWidth(text[k..])..]
  }

  /** The terminated lines of a text, without their endings. */
  function Lines(text: string): seq<string> {
    var k := FirstEnd(text);
    if k == |text| then [] else [text[..k]] + Lines(RestOf(text))
  }

  // ---- What goes out ----------------------------------------------------------

  type Patch = string -> string

  function LineOut(patch: Patch, line: string): seq<string> {
    if IsDoneLine(line) then [DONE_OUT]
    else if line == "" then ["\n"]
    else if patch(line) == "" then []
    else [patch(line) + "\n"]
  }

  /** Everything up to the first done line goes out, that line included. */
  function Outputs(patch: Patch, lines: seq<string>, done: bool): seq<string> {
    if done || lines == [] then []
    else LineOut(patch, lines[0]) + Outputs(patch, lines[1..], IsDoneLine(lines[0]))
  }

  predicate DoneAfter(lines: seq<string>, done: bool) {
    done || exists i :: 0 <= i < |lines| && IsDoneLine(lines[i])
  }

  lemma DoneUnfold(lines: seq<string>, done: bool)
    requires lines != []
    ensures DoneAfter(lines, done) <==> DoneAfter(lines[1..], done || IsDoneLine(lines[0]))
  {
    hide IsDoneLine;
    if i :| 0 <= i < |lines| && IsDoneLine(lines[i]) {
      if i > 0 { assert lines[1..][i - 1] == lines[i]; }
    }
  }

  lemma LinesUnfold(current: string, rest: string)
    requires rest != "" && IsEnd(rest[0]) && NoEnd(current)
    ensures Lines(current + rest) == [current] + Lines(rest[EndWidth(rest)..])
  {
    var text := current + rest;
    assert text[|current|] == rest[0];
    assert forall i :: 0 <= i < |current| ==> text[i] == current[i];
    assert FirstEnd(text) == |current|;
    assert text[|current|..] == rest && text[..|current|] == current;
  }

  // ---- The buffer in place ----------------------------------------------------

  class Buffer {
    const patch: Patch
    var bytes: string
    var done: bool

    constructor (patch: Patch)
      ensures this.patch == patch && bytes == "" && !done
    {
      this.patch, bytes, done := patch, "", false;
    }

    /** Ends the current line; nothing goes out any more behind the done line. */
    method EndLine(line: string) returns (out: seq<string>)
      modifies `done
      ensures out == if old(done) then [] else LineOut(patch, line)
      ensures done == (old(done) || IsDoneLine(line))
    {
      out := [];
      if done { return; }
      if IsDoneLine(line) {
        done := true;
        out := [DONE_OUT];
      } else if line == "" {
        out := ["\n"];
      } else {
        var patched := patch(line);
        if patched != "" { out := [patched + "\n"]; }
      }
    }

    /** Takes a line ending off the front of the bytes. */
    method TakeEnd()
      requires bytes != "" && IsEnd(bytes[0])
      modifies `bytes
      ensures bytes == old(bytes)[EndWidth(old(bytes))..]
    {
      var b := bytes[0];
      bytes := bytes[1..];
      if b == '\r' && bytes != "" && bytes[0] == '\n' { bytes := bytes[1..]; }
    }

    /** Sends on every line that the bytes complete; what is left of a line is dropped. */
    method PushBytes(chunk: string) returns (lines: seq<string>)
      modifies this
      ensures bytes == ""
      ensures lines == Outputs(patch, Lines(old(bytes) + chunk), old(done))
      ensures done == DoneAfter(Lines(old(bytes) + chunk), old(done))
    {
      hide Outputs, DoneAfter, IsDoneLine, Lines, LineOut, EndWidth, NoEnd;
      bytes := bytes + chunk;
      lines := [];
      var current := "";
      ghost var text, was := bytes, done;
      assert current + bytes == text;
      assert NoEnd(current) by { EmptyHasNoEnd(); }
      while bytes != ""
        invariant NoEnd(current)
        invariant lines + Outputs(patch, Lines(current + bytes), done) == Outputs(patch, Lines(text), was)
        invariant DoneAfter(Lines(current + bytes), done) == DoneAfter(Lines(text), was)
        decreases |bytes|
      {
        if IsEnd(bytes[0]) {
          LinesUnfold(current, bytes);
          LineUnfold(patch, current, Lines(bytes[EndWidth(bytes)..]), done);
          TakeEnd();
          var out := EndLine(current);
          lines := lines + out;
          current := "";
          assert NoEnd(current) by { EmptyHasNoEnd(); }
          assert current + bytes == bytes;
        } else {
          LongerHasNoEnd(current, bytes[0]);
          assert current + [bytes[0]] + bytes[1..] == current + bytes;
          current := current + [bytes[0]];
          bytes := bytes[1..];
        }
      }
      assert current + bytes == current;
      Unterminated(patch, current, done);
    }
  }

  lemma EmptyHasNoEnd()
    ensures NoEnd("")
  {
  }

  lemma LongerHasNoEnd(line: string, c: char)
    requires NoEnd(line) && !IsEnd(c)
    ensures NoEnd(line + [c])
  {
  }

  lemma LineUnfold(patch: Patch, line: string, rest: seq<string>, done: bool)
    ensures Outputs(patch, [line] + rest, done)
         == (if done then [] else LineOut(patch, line)) + Outputs(patch, rest, done || IsDoneLine(line))
    ensures DoneAfter([line] + rest, done) == DoneAfter(rest, done || IsDoneLine(line))
    ensures done ==> Outputs(patch, rest, done) == []
  {
    hide IsDoneLine;
    assert ([line] + rest)[1..] == rest;
    DoneUnfold([line] + rest, done);
  }

  lemma Unterminated(patch: Patch, line: string, done: bool)
    requires NoEnd(line)
    ensures Outputs(patch, Lines(line), done) == [] && DoneAfter(Lines(line), done) == done
  {
    assert FirstEnd(line) == |line|;
  }
}
