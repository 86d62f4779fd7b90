/**
  Finding names in the text of a leaked call (dsml_repair.rs): where a pattern occurs
  first, what a quoted word is read as, and the name of the tool.
*/
module DsmlRepairLaws {
  import opened Utf8Text
  import opened DsmlRepair

  // ---- Rendering --------------------------------------------------------------

  datatype Pair = Pair(key: string, value: string)

  function Opening(name: string): string {
    "<invoke name=\"" + name + "\">"
  }

  predicate IsWordByte(c: char) {
    'a' <= c <= 'z' || 'A' <= c <= 'Z' || '0' <= c <= '9' || c == '_' || c == '-'
  }

  predicate Word(s: string) {
    s != "" && forall i :: 0 <= i < |s| ==> IsWordByte(s[i])
  }

  /** The last value of a repeated key wins. */
  function AsMap(input: map<string, string>, pairs: seq<Pair>): map<string, string>
    decreases |pairs|
  {
    if pairs == [] then input else AsMap(input[pairs[0].key := pairs[0].value], pairs[1..])
  }

  // ---- Small facts ------------------------------------------------------------

  lemma WordIsClean(s: string)
    requires Word(s)
    ensures Trim(s) == s && Clean(s)
  {
    assert IsWordByte(s[0]) && IsWordByte(s[|s| - 1]);
    NoSpaceFirst(s);
    NoSpaceLast(s);
    CleanIsTrimmed(s);
  }

  /** A text that starts with a printable ASCII byte starts with no white space. */
  lemma NoSpaceFirst(s: string)
    requires s != "" && '!' <= s[0] <= '~'
    ensures SpaceAtFront(s) == 0 && TrimStart(s) == s
  {
    hide IsWhiteSpace;
    if |s| >= 1 { NotSpace(s[..1], 0); }
    if |s| >= 2 { NotSpace(s[..2], 0); }
    if |s| >= 3 { NotSpace(s[..3], 0); }
  }

  lemma NoSpaceLast(s: string)
    requires s != "" && '!' <= s[|s| - 1] <= '~'
    ensures SpaceAtBack(s) == 0
  {
    hide IsWhiteSpace;
    if |s| >= 1 { NotSpace(s[|s| - 1..], 0); }
    if |s| >= 2 { NotSpace(s[|s| - 2..], 1); }
    if |s| >= 3 { NotSpace(s[|s| - 3..], 2); }
  }

  lemma NotSpace(scalar: string, i: nat)
    requires i < |scalar| && '!' <= scalar[i] <= '~'
    ensures !IsWhiteSpace(scalar)
  {
  }

  lemma FirstIs(text: string, pattern: string, k: nat)
    requires OccursAt(text, pattern, k) && forall j :: 0 <= j < k ==> !OccursAt(text, pattern, j)
    ensures IndexFrom(text, pattern, 0) == Some(k)
  {
    hide OccursAt;
  }

  lemma NoneIs(text: string, pattern: string)
    requires forall j: nat :: !OccursAt(text, pattern, j)
    ensures IndexFrom(text, pattern, 0) == None
  {
    hide OccursAt;
  }

  lemma OccursBehind(front: string, pattern: string, back: string)
    ensures OccursAt(front + pattern + back, pattern, |front|)
  {
  }

  /** A pattern that starts with a byte can only occur where that byte is. */
  lemma StartsWith(text: string, pattern: string, j: nat)
    requires pattern != ""
    ensures OccursAt(text, pattern, j) ==> j < |text| && text[j] == pattern[0]
  {
    if OccursAt(text, pattern, j) { assert text[j..j + |pattern|][0] == text[j]; }
  }

  lemma {:induction false} LowerAppend(a: string, b: string)
    ensures Lower(a + b) == Lower(a) + Lower(b)
  {
    hide Lower, LowerChar;
    assert |Lower(a + b)| == |Lower(a) + Lower(b)|;
    forall i | 0 <= i < |a + b|
      ensures Lower(a + b)[i] == (Lower(a) + Lower(b))[i]
    {
    }
  }

  lemma {:induction false} LowerIsFixed(s: string)
    requires forall i :: 0 <= i < |s| ==> !('A' <= s[i] <= 'Z')
    ensures Lower(s) == s
  {
  }

  lemma LowerHasNoBracket(s: string)
    requires '<' !in s
    ensures '<' !in Lower(s)
  {
    forall i | 0 <= i < |s|
      ensures Lower(s)[i] != '<'
    {
      assert s[i] in s;
    }
  }

  /** No occurrence of a pattern can lie across a byte that the pattern does not have. */
  lemma NotAcross(front: string, back: string, pattern: string, j: nat)
    requires back != "" && back[0] !in pattern && j <= |front|
    ensures OccursAt(front + back, pattern, j) ==> OccursAt(front, pattern, j)
  {
    if j + |pattern| <= |front| {
      assert front[j..j + |pattern|] == (front + back)[j..j + |pattern|];
    } else if j + |pattern| <= |front + back| {
      var here := (front + back)[j..j + |pattern|];
      assert here[|front| - j] == back[0] && pattern[|front| - j] in pattern;
    }
  }

  /** What may come before the next element: no parameter is named in it. */
  ghost predicate Quiet(front: string) {
    forall j: nat :: !OccursAt(Lower(front), PARAMETER_NAME, j)
  }

  // ---- A quoted word -----------------------------------------------------------

  lemma QuotedWord(word: string, back: string)
    requires Word(word)
    ensures ParseAttrValue("\"" + word + "\"" + back) == Some((word, |word| + 2))
    ensures TrimStart("\"" + word + "\"" + back) == "\"" + word + "\"" + back
  {
    hide OccursAt, IndexFrom, Trim, TrimStart, Clean;
    var rest := "\"" + word + "\"" + back;
    assert rest[1..] == word + "\"" + back;
    NoSpaceFirst(rest);
    OccursBehind(word, "\"", back);
    forall j | 0 <= j < |word|
      ensures !OccursAt(rest[1..], "\"", j)
    {
      StartsWith(rest[1..], "\"", j);
      assert IsWordByte(word[j]);
    }
    FirstIs(rest[1..], "\"", |word|);
    WordIsClean(word);
    assert rest[1..][..|word|] == word;
  }

  /** A closing tag is found no earlier than the first bracket. */
  lemma NotBeforeBracket(text: string, pattern: string, n: nat)
    requires pattern != "" && pattern[0] == '<' && n <= |text|
    requires forall j: nat :: j < n ==> text[j] != '<'
    ensures forall j: nat :: j < n ==> !OccursAt(text, pattern, j)
    ensures IndexFrom(text, pattern, 0).Some? ==> IndexFrom(text, pattern, 0).value >= n
  {
    hide OccursAt;
    forall j: nat | j < n
      ensures !OccursAt(text, pattern, j)
    {
      StartsWith(text, pattern, j);
    }
  }

  lemma NameIsNext(front: string, rest: string)
    requires Quiet(front)
    ensures IndexFrom(Lower(front + "<" + PARAMETER_NAME + rest), PARAMETER_NAME, 0) == Some(|front| + 1)
  {
    hide OccursAt, IndexFrom, Lower;
    LowerNamed(front, rest);
    FirstBehind(Lower(front), PARAMETER_NAME, Lower(rest));
  }

  lemma LowerNamed(front: string, rest: string)
    ensures Lower(front + "<" + PARAMETER_NAME + rest) == Lower(front) + "<" + PARAMETER_NAME + Lower(rest)
  {
    hide Lower;
    LowerAppend(front + "<" + PARAMETER_NAME, rest);
    LowerAppend(front + "<", PARAMETER_NAME);
    LowerAppend(front, "<");
    LowerIsFixed("<");
    LowerIsFixed(PARAMETER_NAME);
  }

  lemma FirstBehind(front: string, pattern: string, rest: string)
    requires '<' !in pattern && forall j: nat :: !OccursAt(front, pattern, j)
    ensures IndexFrom(front + "<" + pattern + rest, pattern, 0) == Some(|front| + 1)
  {
    hide OccursAt, IndexFrom;
    var back := "<" + pattern + rest;
    var text := front + "<" + pattern + rest;
    OccursBehind(front + "<", pattern, rest);
    assert text == front + back;
    forall j: nat | j <= |front|
      ensures !OccursAt(text, pattern, j)
    {
      NotAcross(front, back, pattern, j);
    }
    FirstIs(text, pattern, |front| + 1);
  }

  lemma TooFar(text: string, pattern: string, j: nat)
    requires j + |pattern| > |text|
    ensures !OccursAt(text, pattern, j)
  {
  }

  // ---- The name ---------------------------------------------------------------

  lemma OpeningIsQuiet(name: string)
    requires Word(name)
    ensures Quiet(Opening(name))
  {
    hide Lower;
    var lower := Lower(Opening(name));
    forall j: nat
      ensures !OccursAt(lower, PARAMETER_NAME, j)
    {
      if j + |PARAMETER_NAME| <= |lower| {
        assert lower[j..j + |PARAMETER_NAME|][9] == lower[j + 9];
        OneSpace(name, j + 9);
      }
    }
  }

  lemma OneSpace(name: string, i: nat)
    requires Word(name) && 9 <= i < |Opening(name)|
    ensures Lower(Opening(name))[i] != ' '
  {
    hide Lower;
    var text := Opening(name);
    if 14 <= i < 14 + |name| {
      assert text[i] == name[i - 14];
      assert IsWordByte(name[i - 14]);
    } else if i >= 14 + |name| {
      assert text[i] == "\">"[i - 14 - |name|];
    } else {
      assert text[i] == "<invoke name=\""[i];
    }
  }

  lemma OpeningParts(name: string, back: string)
    ensures Opening(name) + back == "<" + INVOKE_NAME + ("\"" + name + "\"" + (">" + back))
  {
    assert "<" + INVOKE_NAME + "\"" == "<invoke name=\"" && "\"" + ">" == "\">";
  }

  lemma NameStarts(rest: string)
    ensures IndexFrom(Lower("<" + INVOKE_NAME + rest), INVOKE_NAME, 0) == Some(1)
  {
    hide OccursAt, IndexFrom, Lower;
    var text := "<" + INVOKE_NAME + rest;
    LowerAppend("<" + INVOKE_NAME, rest);
    LowerIsFixed("<" + INVOKE_NAME);
    OccursBehind("<", INVOKE_NAME, Lower(rest));
    StartsWith(Lower(text), INVOKE_NAME, 0);
    assert Lower(text)[0] == '<';
    FirstIs(Lower(text), INVOKE_NAME, 1);
  }

  lemma NameIsRead(name: string, back: string)
    requires Word(name)
    ensures ExtractInvokeName(Opening(name) + back) == Some(name)
  {
    hide OccursAt, IndexFrom, Lower, ParseAttrValue, TrimStart, Opening, Word;
    var text := Opening(name) + back;
    var rest := "\"" + name + "\"" + (">" + back);
    OpeningParts(name, back);
    NameStarts(rest);
    assert text[1 + |INVOKE_NAME|..] == rest;
    QuotedWord(name, ">" + back);
    WordIsSomething(name);
  }

  lemma WordIsSomething(name: string)
    requires Word(name)
    ensures name != ""
  {
  }

  lemma WordHasNoBracket(s: string)
    requires Word(s)
    ensures '<' !in s
  {
    forall i | 0 <= i < |s|
      ensures s[i] != '<'
    {
      assert IsWordByte(s[i]);
    }
  }
}
