/**
  The locations of cache markers in a request body (proxy/mod.rs): one function
  prints the path of every marked object, the other walks a printed path.
*/
module MarkerPaths {
  import opened Utf8Text
  import opened Json

  datatype Part = Key(key: string) | Index(index: nat)
  type Path = seq<Part>

  const MARKER := "cache_control"

  // ---- Paths ------------------------------------------------------------------

  function Child(value: Value, part: Part): Option<Value> {
    match part
    case Key(key) => Get(value, key)
    case Index(index) => GetIndex(value, index)
  }

  /** The value at a path, step by step. */
  function At(root: Value, path: Path): Option<Value> {
    if path == [] then Some(root)
    else if Child(root, path[0]).None? then None
    else At(Child(root, path[0]).value, path[1..])
  }

  predicate Marked(value: Value) {
    Get(value, MARKER).Some?
  }

  function PrintPart(part: Part): string {
    match part
    case Key(key) => "." + key
    case Index(index) => "[" + Decimal(index) + "]"
  }

  function PrintParts(path: Path): string {
    if path == [] then "" else PrintPart(path[0]) + PrintParts(path[1..])
  }

  function Print(path: Path): string {
    "$" + PrintParts(path)
  }

  // ---- Collecting the marked objects ------------------------------------------

  function Under(part: Part, paths: seq<Path>): seq<Path> {
    if paths == [] then [] else [[part] + paths[0]] + Under(part, paths[1..])
  }

  /** The paths of all marked objects, an object before what is inside it. */
  function Marks(value: Value): seq<Path>
    decreases value, 1, 0
  {
    if value.Object? then (if Marked(value) then [[]] else []) + FieldMarks(value, 0)
    else if value.Array? then ItemMarks(value, 0)
    else []
  }

  function FieldMarks(value: Value, i: nat): seq<Path>
    requires value.Object? && i <= |value.fields|
    decreases value, 0, |value.fields| - i
  {
    if i == |value.fields| then []
    else Under(Key(value.fields[i].key), Marks(value.fields[i].value)) + FieldMarks(value, i + 1)
  }

  function ItemMarks(value: Value, i: nat): seq<Path>
    requires value.Array? && i <= |value.items|
    decreases value, 0, |value.items| - i
  {
    if i == |value.items| then []
    else Under(Index(i), Marks(value.items[i])) + ItemMarks(value, i + 1)
  }

  function Located(at: string, paths: seq<Path>): seq<string> {
    if paths == [] then [] else [at + PrintParts(paths[0])] + Located(at, paths[1..])
  }

  lemma {:induction false} LocatedAppend(at: string, a: seq<Path>, b: seq<Path>)
    ensures Located(at, a + b) == Located(at, a) + Located(at, b)
  {
    if a == [] {
      assert a + b == b;
    } else {
      assert (a + b)[1..] == a[1..] + b;
      LocatedAppend(at, a[1..], b);
    }
  }

  lemma {:induction false} LocatedUnder(at: string, part: Part, paths: seq<Path>)
    ensures Located(at, Under(part, paths)) == Located(at + PrintPart(part), paths)
  {
    hide PrintPart;
    if paths != [] {
      var path := [part] + paths[0];
      assert path[0] == part && path[1..] == paths[0];
      assert at + (PrintPart(part) + PrintParts(paths[0])) == at + PrintPart(part) + PrintParts(paths[0]);
      LocatedUnder(at, part, paths[1..]);
      assert Under(part, paths)[1..] == Under(part, paths[1..]);
    }
  }

  /** The collector: pushes the location of each marked object in the tree. */
  method Collect(value: Value, at: string, locations: seq<string>) returns (collected: seq<string>)
    ensures collected == locations + Located(at, Marks(value))
    decreases value
  {
    hide Marked, PrintPart, Under;
    collected := locations;
    match value
    case Object(fields) =>
      if Get(value, MARKER).Some? { collected := collected + [at]; }
      ghost var own := if Marked(value) then [[]] else [];
      assert collected == locations + Located(at, own) by { PushOwn(value, at, locations); }
      LocatedAppend(at, own, FieldMarks(value, 0));
      assert locations + (Located(at, own) + Located(at, FieldMarks(value, 0)))
          == collected + Located(at, FieldMarks(value, 0));
      for i := 0 to |fields|
        invariant locations + Located(at, Marks(value)) == collected + Located(at, FieldMarks(value, i))
      {
        StepInto(at, collected, Key(fields[i].key), Marks(fields[i].value), FieldMarks(value, i + 1));
        collected := Collect(fields[i].value, at + PrintPart(Key(fields[i].key)), collected);
      }
    case Array(items) =>
      for i := 0 to |items|
        invariant locations + Located(at, Marks(value)) == collected + Located(at, ItemMarks(value, i))
      {
        StepInto(at, collected, Index(i), Marks(items[i]), ItemMarks(value, i + 1));
        collected := Collect(items[i], at + PrintPart(Index(i)), collected);
      }
    case _ =>
  }

  lemma PushOwn(value: Value, at: string, locations: seq<string>)
    ensures locations + Located(at, if Marked(value) then [[]] else [])
         == if Get(value, MARKER).Some? then locations + [at] else locations
  {
    assert at + "" == at;
  }

  lemma StepInto(at: string, collected: seq<string>, part: Part, inner: seq<Path>, rest: seq<Path>)
    ensures collected + Located(at, Under(part, inner) + rest)
         == collected + Located(at + PrintPart(part), inner) + Located(at, rest)
  {
    LocatedAppend(at, Under(part, inner), rest);
    LocatedUnder(at, part, inner);
  }

  // ---- Walking a printed path -------------------------------------------------

  /** Where a key ends in the text: at the next dot or bracket. */
  function KeyEnd(text: string): (end: nat)
    ensures end <= |text|
  {
    if text == "" || text[0] == '.' || text[0] == '[' then 0 else 1 + KeyEnd(text[1..])
  }

  function Bracket(text: string): (end: Option<nat>)
    ensures end.Some? ==> end.value < |text|
  {
    if text == "" then None
    else if text[0] == ']' then Some(0)
    else if Bracket(text[1..]).None? then None
    else Some(1 + Bracket(text[1..]).value)
  }

  /** A machine word in decimal, with an optional plus sign. */
  function ParseIndex(text: string): Option<nat> {
    var digits := if text != "" && text[0] == '+' then text[1..] else text;
    if digits == "" || exists c <- digits :: !IsDigit(c) then None
    else if DecimalValue(digits) >= WORD then None
    else Some(DecimalValue(digits))
  }

  function Walk(current: Value, rest: string): Option<Value>
    decreases |rest|
  {
    if rest == "" then Some(current)
    else if rest[0] == '.' then
      var end := KeyEnd(rest[1..]);
      var next := Get(current, rest[1..][..end]);
      if next.None? then None else Walk(next.value, rest[1..][end..])
    else if rest[0] == '[' then
      var end := Bracket(rest[1..]);
      if end.None? then None
      else
        var index := ParseIndex(rest[1..][..end.value]);
        if index.None? then None
        else
          var next := GetIndex(current, index.value);
          if next.None? then None else Walk(next.value, rest[1..][end.value + 1..])
    else None
  }

  method ValueAtPath(root: Value, path: string) returns (found: Option<Value>)
    ensures found == if path != "" && path[0] == '$' then Walk(root, path[1..]) else None
  {
    hide KeyEnd, Bracket, ParseIndex;
    if path == "" || path[0] != '$' { return None; }
    var current, rest := root, path[1..];
    while rest != ""
      invariant Walk(root, path[1..]) == Walk(current, rest)
      decreases |rest|
    {
      if rest[0] == '.' {
        var next := rest[1..];
        var end := KeyEnd(next);
        var child := Get(current, next[..end]);
        if child.None? { return None; }
        current, rest := child.value, next[end..];
        continue;
      }
      if rest[0] == '[' {
        var next := rest[1..];
        var end := Bracket(next);
        if end.None? { return None; }
        var index := ParseIndex(next[..end.value]);
        if index.None? { return None; }
        var child := GetIndex(current, index.value);
        if child.None? { return None; }
        current, rest := child.value, next[end.value + 1..];
        continue;
      }
      return None;
    }
    found := Some(current);
  }
}
