/**
  Which texts the path walker of proxy/mod.rs takes for a path, printed or not: keys
  behind dots, indices in brackets with leading zeros or a plus sign, and nothing else.
*/
module MarkerWalk {
  import opened Utf8Text
  import opened Json
  import opened MarkerPaths
  import opened MarkerPathLaws

  predicate Digits(text: string) {
    text != "" && forall c <- text :: IsDigit(c)
  }

  /** Digits for the index, a plus sign before them or not. */
  predicate Numeral(text: string, index: nat) {
    || (Digits(text) && DecimalValue(text) == index)
    || (text != "" && text[0] == '+' && Digits(text[1..]) && DecimalValue(text[1..]) == index)
  }

  /** The text is a part of a path. */
  predicate Spells(part: Part, text: string) {
    match part
    case Key(key) => PlainKey(key) && text == "." + key
    case Index(index) => |text| >= 2 && index < WORD && Numeral(text[1..|text| - 1], index) && text == "[" + text[1..|text| - 1] + "]"
  }

  /** The text is the parts of the path, one after another. */
  predicate SpellsPath(path: Path, text: string)
    decreases |path|
  {
    if path == [] then text == ""
    else exists n :: 0 <= n <= |text| && Spells(path[0], text[..n]) && SpellsPath(path[1..], text[n..])
  }

  lemma Parses(text: string, index: nat)
    requires index < WORD
    ensures ParseIndex(text) == Some(index) <==> Numeral(text, index)
  {
    hide DecimalValue;
    if text != "" && text[0] == '+' {
      assert !IsDigit('+') && '+' in text;
      assert (exists c <- text[1..] :: !IsDigit(c)) <==> !forall c <- text[1..] :: IsDigit(c);
    } else {
      assert (exists c <- text :: !IsDigit(c)) <==> !forall c <- text :: IsDigit(c);
    }
  }

  lemma ParsedFits(text: string)
    ensures ParseIndex(text).Some? ==> ParseIndex(text).value < WORD
  {
    hide DecimalValue;
  }

  lemma NumeralHasNoBracket(text: string, index: nat)
    requires Numeral(text, index)
    ensures ']' !in text
  {
    hide DecimalValue;
    assert !IsDigit(']');
    if !Digits(text) { assert text == [text[0]] + text[1..]; }
  }

  lemma {:induction false} BracketBehind(inner: string, rest: string)
    requires ']' !in inner
    ensures Bracket(inner + "]" + rest) == Some(|inner|)
  {
    if inner == "" {
      assert inner + "]" + rest == "]" + rest;
    } else {
      assert (inner + "]" + rest)[1..] == inner[1..] + "]" + rest;
      BracketBehind(inner[1..], rest);
    }
  }

  // ---- What is walked ---------------------------------------------------------

  lemma PathStartsPart(path: Path, text: string)
    requires SpellsPath(path, text)
    ensures StartsPart(text)
  {
    if path != [] {
      var n :| 0 <= n <= |text| && Spells(path[0], text[..n]) && SpellsPath(path[1..], text[n..]);
      assert text[..n] != "" && text[..n][0] == text[0];
    }
  }

  /** A part in front of others is walked as the part. */
  lemma WalksPart(current: Value, part: Part, text: string, rest: string)
    requires Spells(part, text) && StartsPart(rest)
    ensures Walk(current, text + rest) == if Child(current, part).None? then None else Walk(Child(current, part).value, rest)
  {
    hide KeyEnd, Bracket, ParseIndex, Find, Numeral;
    match part
    case Key(key) =>
      assert (text + rest)[1..] == key + rest;
      KeyEndsAtPart(key, rest);
      assert (key + rest)[..|key|] == key && (key + rest)[|key|..] == rest;
    case Index(index) =>
      var inner := text[1..|text| - 1];
      assert (text + rest)[1..] == inner + "]" + rest;
      NumeralHasNoBracket(inner, index);
      BracketBehind(inner, rest);
      Parses(inner, index);
      assert (inner + "]" + rest)[..|inner|] == inner && (inner + "]" + rest)[|inner| + 1..] == rest;
  }

  /** A text that spells a path is walked along that path. */
  lemma {:induction false} WalksAlong(root: Value, path: Path, text: string)
    requires SpellsPath(path, text)
    ensures Walk(root, text) == At(root, path)
    decreases |path|
  {
    hide Walk, Child, Spells;
    if path == [] {
      WalkNowhere(root);
    } else {
      var n :| 0 <= n <= |text| && Spells(path[0], text[..n]) && SpellsPath(path[1..], text[n..]);
      PathStartsPart(path[1..], text[n..]);
      assert text[..n] + text[n..] == text;
      WalksPart(root, path[0], text[..n], text[n..]);
      if Child(root, path[0]).Some? { WalksAlong(Child(root, path[0]).value, path[1..], text[n..]); }
    }
  }

  lemma {:induction false} KeyIsPlain(text: string)
    ensures PlainKey(text[..KeyEnd(text)])
  {
    if text != "" && text[0] != '.' && text[0] != '[' {
      KeyIsPlain(text[1..]);
      assert text[..KeyEnd(text)] == [text[0]] + text[1..][..KeyEnd(text[1..])];
    }
  }

  lemma {:induction false} BracketIsThere(text: string)
    ensures Bracket(text).Some? ==> text[Bracket(text).value] == ']'
  {
    if text != "" && text[0] != ']' { BracketIsThere(text[1..]); }
  }

  lemma SpellsMore(part: Part, path: Path, text: string, n: nat)
    requires n <= |text| && Spells(part, text[..n]) && SpellsPath(path, text[n..])
    ensures SpellsPath([part] + path, text)
  {
    hide Spells;
    assert ([part] + path)[0] == part && ([part] + path)[1..] == path;
  }

  /** The first part that a walk takes, if it takes one. */
  lemma FirstPart(current: Value, text: string) returns (part: Part, n: nat)
    requires text != "" && Walk(current, text).Some?
    ensures 0 < n <= |text| && Spells(part, text[..n]) && Child(current, part).Some?
    ensures Walk(current, text) == Walk(Child(current, part).value, text[n..])
  {
    hide KeyEnd, Bracket, ParseIndex, Find, Numeral;
    var rest := text[1..];
    if text[0] == '.' {
      var end := KeyEnd(rest);
      KeyIsPlain(rest);
      part, n := Key(rest[..end]), 1 + end;
      assert text[..n] == "." + rest[..end] && text[n..] == rest[end..];
    } else {
      var end := Bracket(rest).value;
      var inner := rest[..end];
      BracketIsThere(rest);
      ParsedFits(inner);
      part, n := Index(ParseIndex(inner).value), end + 2;
      Parses(inner, ParseIndex(inner).value);
      assert text[..n] == "[" + inner + "]" && text[..n][1..n - 1] == inner;
      assert text[n..] == rest[end + 1..];
    }
  }

  /** Whatever a walk finds, its text spells a path there. */
  lemma {:induction false} WalkSpells(root: Value, text: string) returns (path: Path)
    requires Walk(root, text).Some?
    ensures SpellsPath(path, text) && At(root, path) == Walk(root, text)
    decreases |text|
  {
    hide Walk, Child, Spells;
    if text == "" {
      path := [];
      WalkNowhere(root);
    } else {
      var part, n := FirstPart(root, text);
      var more := WalkSpells(Child(root, part).value, text[n..]);
      path := [part] + more;
      SpellsMore(part, more, text, n);
      assert path[1..] == more;
    }
  }

  /** A walk finds a value exactly when its text spells a path to it. */
  lemma WalkFindsExactly(root: Value, text: string, found: Value)
    ensures Walk(root, text) == Some(found) <==> exists path: Path :: SpellsPath(path, text) && At(root, path) == Some(found)
  {
    hide Walk, At, SpellsPath;
    if Walk(root, text) == Some(found) {
      var path := WalkSpells(root, text);
    }
    forall path: Path | SpellsPath(path, text) && At(root, path) == Some(found)
      ensures Walk(root, text) == Some(found)
    {
      WalksAlong(root, path, text);
    }
  }

  lemma PrintOne(part: Part, path: Path)
    ensures PrintParts([part] + path) == PrintPart(part) + PrintParts(path)
  {
    hide PrintPart;
    assert ([part] + path)[1..] == path;
  }

  /** The location of a part of a message, say "$.messages[0].content[1]". */
  lemma LocationOfPart(list: string, i: nat, parts: string, j: nat)
    ensures Print([Key(list), Index(i)] + [Key(parts), Index(j)])
         == "$" + (("." + list) + (("[" + Decimal(i) + "]") + (("." + parts) + ("[" + Decimal(j) + "]"))))
  {
    hide PrintParts, Decimal;
    var path := [Key(list), Index(i)] + [Key(parts), Index(j)];
    assert path == [Key(list)] + ([Index(i)] + ([Key(parts)] + ([Index(j)] + [])));
    PrintOne(Key(list), [Index(i)] + ([Key(parts)] + ([Index(j)] + [])));
    PrintOne(Index(i), [Key(parts)] + ([Index(j)] + []));
    PrintOne(Key(parts), [Index(j)] + []);
    PrintOne(Index(j), []);
    assert PrintParts([]) == "" by { NoParts(); }
    var last := "[" + Decimal(j) + "]";
    assert last + "" == last;
  }

  lemma NoParts()
    ensures PrintParts([]) == ""
  {
  }
}
