/**
  Reading a tool call back out of leaked invoke markup (dsml_repair.rs): a name, and
  parameters given as named elements or as plain HTML-like elements.
*/
module DsmlRepair {
  import opened Utf8Text

  const TAGS: seq<string> := [
    "command", "description", "prompt", "subagent_type", "file_path", "content",
    "path", "query", "url", "pattern", "old_string", "new_string"]

  const INVOKE_NAME := "invoke name="
  const PARAMETER_NAME := "parameter name="

  // ---- Lower case -------------------------------------------------------------

  function LowerChar(c: char): char {
    if 'A' <= c <= 'Z' then (c as int + 32) as char else c
  }

  function Lower(s: string): (lower: string)
    ensures |lower| == |s| && forall i :: 0 <= i < |s| ==> lower[i] == LowerChar(s[i])
  {
    if s == "" then "" else [LowerChar(s[0])] + Lower(s[1..])
  }

  /** Two letters are the same but for their case. */
  predicate SameLetter(a: char, b: char) {
    || a == b
    || ('A' <= a <= 'Z' && b as int == a as int + 32)
    || ('A' <= b <= 'Z' && a as int == b as int + 32)
  }

  predicate SameLetters(s: string, t: string) {
    |s| == |t| && forall i :: 0 <= i < |s| ==> SameLetter(s[i], t[i])
  }

  /** Lower-case texts are equal exactly when the texts are the same but for the case of ASCII letters. */
  lemma LowerForgetsCase(s: string, t: string)
    ensures Lower(s) == Lower(t) <==> SameLetters(s, t)
  {
    hide Lower, SameLetter;
    forall a: char, b: char
      ensures LowerChar(a) == LowerChar(b) <==> SameLetter(a, b)
    {
      LetterForgetsCase(a, b);
    }
    if Lower(s) == Lower(t) {
      forall i | 0 <= i < |s|
        ensures SameLetter(s[i], t[i])
      {
        assert Lower(s)[i] == Lower(t)[i];
      }
    }
  }

  lemma LetterForgetsCase(a: char, b: char)
    ensures LowerChar(a) == LowerChar(b) <==> SameLetter(a, b)
  {
  }

  // ---- Attribute values -------------------------------------------------------

  /** Where an unquoted value ends: at white space, a closing bracket or a bar. */
  function BareEnd(rest: string): (end: nat)
    ensures end <= |rest|
  {
    if rest == "" || SpaceAtFront(rest) > 0 || rest[0] == '>' || rest[0] == '|' then 0 else 1 + BareEnd(rest[1..])
  }

  /** A value and how many bytes it takes up, quotes included. */
  function QuotedValue(rest: string, quote: string): (v: Option<(string, nat)>)
    requires |quote| == 1 && rest != ""
    ensures v.Some? ==> v.value.1 <= |rest|
  {
    var end := IndexFrom(rest[1..], quote, 0);
    if end.None? then None else Some((Trim(rest[1..][..end.value]), end.value + 2))
  }

  function ParseAttrValue(rest: string): (v: Option<(string, nat)>)
    ensures v.Some? ==> v.value.1 <= |rest|
  {
    if rest == "" then None
    else if rest[0] == '"' then QuotedValue(rest, "\"")
    else if rest[0] == '\'' then QuotedValue(rest, "'")
    else
      var end := BareEnd(rest);
      var name := Trim(rest[..end]);
      if name == "" then None else Some((name, end))
  }

  function ExtractInvokeName(text: string): Option<string> {
    var k := IndexFrom(Lower(text), INVOKE_NAME, 0);
    if k.None? then None
    else
      var v := ParseAttrValue(TrimStart(text[k.value + |INVOKE_NAME|..]));
      if v.None? || v.value.0 == "" then None else Some(v.value.0)
  }

  // ---- Named parameters -------------------------------------------------------

  function Earlier(a: Option<nat>, b: Option<nat>): (k: Option<nat>)
    ensures k.Some? ==> k == a || k == b
  {
    if a.None? then b else if b.None? then a else if b.value < a.value then b else a
  }

  /** The first closing tag of a parameter, in any of its spellings. */
  function ParameterClose(tail: string): (k: Option<nat>)
    ensures k.Some? ==> k.value < |tail|
  {
    var lower := Lower(tail);
    Earlier(Earlier(Earlier(Earlier(
      IndexFrom(lower, "</\U{EF}\U{BD}\U{9C}dsml\U{EF}\U{BD}\U{9C}parameter>", 0),
      IndexFrom(lower, "</|dsml|parameter>", 0)),
      IndexFrom(lower, "</parameter>", 0)),
      IndexFrom(tail, "</\U{EF}\U{BD}\U{9C}DSML\U{EF}\U{BD}\U{9C}parameter>", 0)),
      IndexFrom(tail, "</|DSML|parameter>", 0))
  }

  /**
    What the next parameter name in the text leads to. `Panic` is the scan going on
    at an offset inside a character, where slicing the source's string panics.
  */
  datatype Next =
    | Stop
    | Skip(rest: string)
    | Parameter(name: string, content: string, rest: string)
    | Panic
  {
    predicate GoesOn() {
      Skip? || Parameter?
    }
  }

  /** Behind the quoted name: the content up to the closing tag. */
  function NextContent(name: string, open: string): (next: Next)
    ensures !next.Panic? && (next.GoesOn() ==> |next.rest| < |open|)
  {
    var gt := IndexFrom(open, ">", 0);
    if gt.None? then Stop
    else
      var tail := open[gt.value + 1..];
      var close := ParameterClose(tail);
      if close.None? then Skip(tail)
      else Parameter(name, Trim(tail[..close.value]), tail[close.value + 1..])
  }

  function NextNamed(named: string): (next: Next)
    requires named != ""
    ensures next.GoesOn() ==> |next.rest| < |named|
  {
    var trimmed := TrimStart(named);
    var v := ParseAttrValue(trimmed);
    if v.Some? && v.value.0 != "" then NextContent(v.value.0, trimmed[v.value.1..])
    else if IsBoundary(named, 1) then Skip(named[1..])
    else Panic
  }

  function NextParameter(text: string): (next: Next)
    ensures next.GoesOn() ==> |next.rest| < |text|
  {
    var k := IndexFrom(Lower(text), PARAMETER_NAME, 0);
    if k.None? || text[k.value + |PARAMETER_NAME|..] == "" then Stop
    else NextNamed(text[k.value + |PARAMETER_NAME|..])
  }

  function Put(input: map<string, string>, name: string, content: string): map<string, string> {
    if content == "" then input else input[name := content]
  }

  /** The parameters read, the last of a name standing; None if the scan panics. */
  function NamedParameters(text: string, input: map<string, string>): Option<map<string, string>>
    decreases |text|
  {
    match NextParameter(text)
    case Stop => Some(input)
    case Panic => None
    case Skip(rest) => NamedParameters(rest, input)
    case Parameter(name, content, rest) => NamedParameters(rest, Put(input, name, content))
  }

  lemma Tails(text: string, i: nat, j: nat)
    requires i + j <= |text|
    ensures text[i..][j..] == text[i + j..]
  {
  }

  method ReadContent(text: string, openAt: nat, name: string) returns (next: Next, to: nat)
    requires openAt <= |text|
    ensures next == NextContent(name, text[openAt..])
    ensures next.GoesOn() ==> openAt < to <= |text| && next.rest == text[to..]
  {
    hide IndexFrom, ParameterClose, Trim, OccursAt;
    var gt := IndexFrom(text[openAt..], ">", 0);
    if gt.None? { return Stop, openAt; }
    OccurrenceFits(text[openAt..], ">", gt.value);
    var contentStart := openAt + gt.value + 1;
    Tails(text, openAt, gt.value + 1);
    var tail := text[contentStart..];
    var close := ParameterClose(tail);
    if close.None? { return Skip(tail), contentStart; }
    Tails(text, contentStart, close.value + 1);
    next := Parameter(name, Trim(tail[..close.value]), tail[close.value + 1..]);
    to := contentStart + close.value + 1;
  }

  method ReadNamed(text: string, nameAt: nat) returns (next: Next, to: nat)
    requires nameAt < |text|
    ensures next == NextNamed(text[nameAt..])
    ensures next.GoesOn() ==> nameAt < to <= |text| && next.rest == text[to..]
  {
    hide IndexFrom, ParseAttrValue, NextContent, TrimStart;
    var named := text[nameAt..];
    var trimmed := TrimStart(named);
    var v := ParseAttrValue(trimmed);
    if v.None? || v.value.0 == "" {
      Tails(text, nameAt, 1);
      if !IsBoundary(text, nameAt + 1) { return Panic, nameAt + 1; }
      return Skip(named[1..]), nameAt + 1;
    }
    TrimStartIsSuffix(named);
    var trimmedAt := nameAt + (|named| - |trimmed|);
    Tails(text, nameAt, |named| - |trimmed|);
    Tails(text, trimmedAt, v.value.1);
    next, to := ReadContent(text, trimmedAt + v.value.1, v.value.0);
  }

  /** One turn of the scan, by offsets into the text: where to go on, and the parameter read if any. */
  method ReadParameter(text: string, from: nat) returns (next: Next, to: nat)
    requires from < |text|
    ensures next == NextParameter(text[from..])
    ensures next.GoesOn() ==> from < to <= |text| && next.rest == text[to..]
  {
    hide IndexFrom, NextNamed, Lower, OccursAt;
    var rest := text[from..];
    var k := IndexFrom(Lower(rest), PARAMETER_NAME, 0);
    if k.None? { return Stop, from; }
    OccurrenceFits(Lower(rest), PARAMETER_NAME, k.value);
    var nameAt := from + k.value + |PARAMETER_NAME|;
    Tails(text, from, k.value + |PARAMETER_NAME|);
    if nameAt >= |text| { return Stop, from; }
    next, to := ReadNamed(text, nameAt);
  }

  lemma OccurrenceFits(text: string, pattern: string, k: nat)
    requires OccursAt(text, pattern, k)
    ensures k + |pattern| <= |text|
  {
  }

  /** The scan of the source; every turn moves the offset forward. */
  method ExtractNamedParameters(text: string) returns (read: Option<map<string, string>>)
    ensures read == NamedParameters(text, map[])
  {
    hide NextParameter;
    var input: map<string, string> := map[];
    var from := 0;
    assert text[0..] == text;
    while from < |text|
      invariant from <= |text|
      invariant NamedParameters(text, map[]) == NamedParameters(text[from..], input)
      decreases |text| - from
    {
      var next, to := ReadParameter(text, from);
      if next.Stop? { return Some(input); }
      if next.Panic? { return None; }
      if next.Parameter? && next.content != "" { input := input[next.name := next.content]; }
      from := to;
    }
    NothingIsNext();
    assert text[from..] == "";
    read := Some(input);
  }

  lemma NothingIsNext()
    ensures NextParameter("") == Stop
  {
  }

  lemma {:induction false} TrimStartIsSuffix(s: string)
    ensures TrimStart(s) == s[|s| - |TrimStart(s)|..]
    decreases |s|
  {
    hide IsWhiteSpace;
    var n := SpaceAtFront(s);
    if n != 0 { TrimStartIsSuffix(s[n..]); }
  }

  // ---- Elements ---------------------------------------------------------------

  function ExtractElement(text: string, tag: string): Option<string> {
    var k := IndexFrom(Lower(text), "<" + tag, 0);
    if k.None? then None
    else
      var gt := IndexFrom(text[k.value..], ">", 0);
      if gt.None? then None
      else
        var tail := text[k.value..][gt.value + 1..];
        var close := IndexFrom(Lower(tail), Lower("</" + tag + ">"), 0);
        if close.None? || Trim(tail[..close.value]) == "" then None else Some(Trim(tail[..close.value]))
  }

  /** Elements fill in parameters that were not named. */
  function WithElements(text: string, tags: seq<string>, input: map<string, string>): map<string, string>
    decreases |tags|
  {
    if tags == [] then input
    else
      var value := ExtractElement(text, tags[0]);
      WithElements(text, tags[1..], if tags[0] in input || value.None? then input else input[tags[0] := value.value])
  }

  datatype Outcome =
    | Panics
    | NoCall
    | Call(name: string, input: map<string, string>)

  /** The tool name and its arguments, if the text is a call and the scan for parameters does not panic. */
  function Repair(text: string): Outcome {
    var name := ExtractInvokeName(text);
    if name.None? then NoCall
    else
      var named := NamedParameters(text, map[]);
      if named.None? then Panics
      else
        var input := WithElements(text, TAGS, named.value);
        if input == map[] then NoCall else Call(name.value, input)
  }

  method FillInElements(text: string, named: map<string, string>) returns (input: map<string, string>)
    ensures input == WithElements(text, TAGS, named)
  {
    hide ExtractElement, WithElements, TAGS;
    input := named;
    for i := 0 to |TAGS|
      invariant WithElements(text, TAGS, named) == WithElements(text, TAGS[i..], input)
    {
      ElementsStep(text, TAGS, i, input);
      if TAGS[i] in input { continue; }
      var value := ExtractElement(text, TAGS[i]);
      if value.Some? { input := input[TAGS[i] := value.value]; }
    }
    ElementsEnd(text, TAGS, input);
  }

  lemma ElementsStep(text: string, tags: seq<string>, i: nat, input: map<string, string>)
    requires i < |tags|
    ensures var value := ExtractElement(text, tags[i]);
      WithElements(text, tags[i..], input)
      == WithElements(text, tags[i + 1..], if tags[i] in input || value.None? then input else input[tags[i] := value.value])
  {
    hide ExtractElement;
    assert tags[i..][0] == tags[i] && tags[i..][1..] == tags[i + 1..];
  }

  lemma ElementsEnd(text: string, tags: seq<string>, input: map<string, string>)
    ensures WithElements(text, tags[|tags|..], input) == input
  {
  }

  method RepairInvokeLeak(text: string) returns (outcome: Outcome)
    ensures outcome == Repair(text)
  {
    hide ExtractInvokeName, NamedParameters, WithElements;
    var name := ExtractInvokeName(text);
    if name.None? { return NoCall; }
    var named := ExtractNamedParameters(text);
    if named.None? { return Panics; }
    var input := FillInElements(text, named.value);
    outcome := if input == map[] then NoCall else Call(name.value, input);
  }
}
