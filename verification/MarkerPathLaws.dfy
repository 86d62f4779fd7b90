/**
  Printer and walker of marker locations (proxy/mod.rs) against each other: which
  locations are collected, and for which paths walking undoes printing.
*/
module MarkerPathLaws {
  import opened Utf8Text
  import opened Json
  import opened MarkerPaths

  // ---- Exactly the marked objects ---------------------------------------------

  lemma {:induction false} InUnder(part: Part, paths: seq<Path>, path: Path)
    ensures path in Under(part, paths) <==> path != [] && path[0] == part && path[1..] in paths
  {
    if paths != [] {
      InUnder(part, paths[1..], path);
      var head := [part] + paths[0];
      assert head[1..] == paths[0];
      if path != [] && path[0] == part && path[1..] == paths[0] { assert path == head; }
    }
  }

  /** A path is collected exactly when it leads to a marked object. */
  lemma {:induction false} MarksAreTheMarked(value: Value, path: Path)
    requires WellFormed(value)
    ensures path in Marks(value) <==> At(value, path).Some? && Marked(At(value, path).value)
    decreases value, 1, 0
  {
    hide Marked;
    if value.Object? {
      FieldMarksAreTheMarked(value, 0, path);
      if path == [] { OnlyObjectsAreMarked(value); }
    } else if value.Array? {
      ItemMarksAreTheMarked(value, 0, path);
      OnlyObjectsAreMarked(value);
    } else {
      OnlyObjectsAreMarked(value);
    }
  }

  lemma OnlyObjectsAreMarked(value: Value)
    ensures Marked(value) ==> value.Object?
  {
  }

  lemma {:induction false} FieldMarksAreTheMarked(value: Value, i: nat, path: Path)
    requires value.Object? && WellFormed(value) && i <= |value.fields|
    ensures path in FieldMarks(value, i) <==>
      && path != [] && path[0].Key? && Find(value.fields, path[0].key, i).Some?
      && var child := value.fields[Find(value.fields, path[0].key, i).value].value;
         At(child, path[1..]).Some? && Marked(At(child, path[1..]).value)
    decreases value, 0, |value.fields| - i
  {
    hide Marked, Marks, At;
    if i < |value.fields| {
      var field := value.fields[i];
      FieldMarksAreTheMarked(value, i + 1, path);
      InUnder(Key(field.key), Marks(field.value), path);
      if path != [] && path[0] == Key(field.key) {
        assert field in value.fields;
        MarksAreTheMarked(field.value, path[1..]);
        assert Find(value.fields, field.key, i + 1).None?;
      }
    }
  }

  lemma {:induction false} ItemMarksAreTheMarked(value: Value, i: nat, path: Path)
    requires value.Array? && WellFormed(value) && i <= |value.items|
    ensures path in ItemMarks(value, i) <==>
      && path != [] && path[0].Index? && i <= path[0].index < |value.items|
      && At(value.items[path[0].index], path[1..]).Some?
      && Marked(At(value.items[path[0].index], path[1..]).value)
    decreases value, 0, |value.items| - i
  {
    hide Marked, Marks, At;
    if i < |value.items| {
      ItemMarksAreTheMarked(value, i + 1, path);
      InUnder(Index(i), Marks(value.items[i]), path);
      if path != [] && path[0] == Index(i) {
        assert value.items[i] in value.items;
        MarksAreTheMarked(value.items[i], path[1..]);
      }
    }
  }

  // ---- Each once --------------------------------------------------------------

  predicate Distinct<T(==)>(s: seq<T>) {
    s == [] || (s[0] !in s[1..] && Distinct(s[1..]))
  }

  lemma {:induction false} DistinctAppend<T>(a: seq<T>, b: seq<T>)
    requires Distinct(a) && Distinct(b) && forall x <- a :: x !in b
    ensures Distinct(a + b)
  {
    if a == [] {
      assert a + b == b;
    } else {
      assert (a + b)[1..] == a[1..] + b;
      DistinctAppend(a[1..], b);
    }
  }

  lemma {:induction false} DistinctUnder(part: Part, paths: seq<Path>)
    requires Distinct(paths)
    ensures Distinct(Under(part, paths))
  {
    if paths != [] {
      DistinctUnder(part, paths[1..]);
      assert Under(part, paths)[1..] == Under(part, paths[1..]);
      var head := [part] + paths[0];
      InUnder(part, paths[1..], head);
      assert head[1..] == paths[0];
    }
  }

  /** No marked object is collected twice. */
  lemma {:induction false} MarksAreDistinct(value: Value)
    requires WellFormed(value)
    ensures Distinct(Marks(value))
    decreases value, 1, 0
  {
    hide Marked;
    if value.Object? {
      FieldMarksAreDistinct(value, 0);
      FieldMarksAreTheMarked(value, 0, []);
      var own: seq<Path> := if Marked(value) then [[]] else [];
      DistinctAppend(own, FieldMarks(value, 0));
    } else if value.Array? {
      ItemMarksAreDistinct(value, 0);
    }
  }

  lemma {:induction false} FieldMarksAreDistinct(value: Value, i: nat)
    requires value.Object? && WellFormed(value) && i <= |value.fields|
    ensures Distinct(FieldMarks(value, i))
    decreases value, 0, |value.fields| - i
  {
    hide Marks, Distinct;
    if i == |value.fields| {
      DistinctNone<Path>();
    } else {
      var field := value.fields[i];
      assert field in value.fields;
      MarksAreDistinct(field.value);
      DistinctUnder(Key(field.key), Marks(field.value));
      FieldMarksAreDistinct(value, i + 1);
      forall path <- Under(Key(field.key), Marks(field.value))
        ensures path !in FieldMarks(value, i + 1)
      {
        InUnder(Key(field.key), Marks(field.value), path);
        FieldMarksAreTheMarked(value, i + 1, path);
        assert Find(value.fields, field.key, i + 1).None?;
      }
      DistinctAppend(Under(Key(field.key), Marks(field.value)), FieldMarks(value, i + 1));
    }
  }

  lemma DistinctNone<T>()
    ensures Distinct<T>([])
  {
  }

  lemma {:induction false} ItemMarksAreDistinct(value: Value, i: nat)
    requires value.Array? && WellFormed(value) && i <= |value.items|
    ensures Distinct(ItemMarks(value, i))
    decreases value, 0, |value.items| - i
  {
    hide Marks, Distinct;
    if i == |value.items| {
      DistinctNone<Path>();
    } else {
      assert value.items[i] in value.items;
      MarksAreDistinct(value.items[i]);
      DistinctUnder(Index(i), Marks(value.items[i]));
      ItemMarksAreDistinct(value, i + 1);
      forall path <- Under(Index(i), Marks(value.items[i]))
        ensures path !in ItemMarks(value, i + 1)
      {
        InUnder(Index(i), Marks(value.items[i]), path);
        ItemMarksAreTheMarked(value, i + 1, path);
      }
      DistinctAppend(Under(Index(i), Marks(value.items[i])), ItemMarks(value, i + 1));
    }
  }

  // ---- Walking undoes printing ------------------------------------------------

  /** A key that the walker reads whole. */
  predicate PlainKey(key: string) {
    '.' !in key && '[' !in key
  }

  predicate PlainPart(part: Part) {
    part.Key? ==> PlainKey(part.key)
  }

  predicate PlainPath(path: Path) {
    forall part <- path :: PlainPart(part)
  }

  predicate InMemory(path: Path) {
    forall part <- path :: part.Index? ==> part.index < WORD
  }

  /** The rest of a printed path: nothing, or another part. */
  predicate StartsPart(text: string) {
    text == "" || text[0] == '.' || text[0] == '['
  }

  lemma PrintedStartsPart(path: Path)
    ensures StartsPart(PrintParts(path))
  {
    if path != [] {
      var part := path[0];
      assert PrintPart(part)[0] == '.' || PrintPart(part)[0] == '[';
      assert PrintParts(path)[0] == PrintPart(part)[0];
    }
  }

  lemma {:induction false} KeyEndsAtPart(key: string, rest: string)
    requires PlainKey(key) && StartsPart(rest)
    ensures KeyEnd(key + rest) == |key|
  {
    if key == "" {
      assert key + rest == rest;
    } else {
      assert (key + rest)[1..] == key[1..] + rest;
      KeyEndsAtPart(key[1..], rest);
    }
  }

  lemma {:induction false} SplitKeyEndsEarly(key: string, rest: string)
    requires !PlainKey(key)
    ensures KeyEnd(key + rest) < |key|
  {
    if key[0] != '.' && key[0] != '[' {
      assert (key + rest)[1..] == key[1..] + rest;
      SplitKeyEndsEarly(key[1..], rest);
    }
  }

  lemma {:induction false} BracketAfterDigits(digits: string, rest: string)
    requires forall c <- digits :: IsDigit(c)
    ensures Bracket(digits + "]" + rest) == Some(|digits|)
  {
    if digits == "" {
      assert digits + "]" + rest == "]" + rest;
    } else {
      assert (digits + "]" + rest)[1..] == digits[1..] + "]" + rest;
      assert digits[0] in digits;
      BracketAfterDigits(digits[1..], rest);
    }
  }

  lemma ParsesBack(index: nat)
    requires index < WORD
    ensures ParseIndex(Decimal(index)) == Some(index)
  {
    hide Decimal;
    var text := Decimal(index);
    assert text[0] in text;
    DecimalRoundTrip(index);
  }

  lemma WalkPart(current: Value, part: Part, rest: string)
    requires PlainPart(part) && StartsPart(rest) && (part.Index? ==> part.index < WORD)
    ensures Walk(current, PrintPart(part) + rest)
         == if Child(current, part).None? then None else Walk(Child(current, part).value, rest)
  {
    hide Walk, Child, PrintPart;
    if part.Key? { WalkKey(current, part.key, rest); } else { WalkIndex(current, part.index, rest); }
  }

  lemma WalkKey(current: Value, key: string, rest: string)
    requires PlainPart(Key(key)) && StartsPart(rest)
    ensures Walk(current, PrintPart(Key(key)) + rest)
         == if Child(current, Key(key)).None? then None else Walk(Child(current, Key(key)).value, rest)
  {
    hide KeyEnd, Bracket, ParseIndex, Find;
    var text := PrintPart(Key(key)) + rest;
    assert text[1..] == key + rest;
    KeyEndsAtPart(key, rest);
    assert (key + rest)[..|key|] == key && (key + rest)[|key|..] == rest;
  }

  lemma WalkIndex(current: Value, index: nat, rest: string)
    requires index < WORD
    ensures Walk(current, PrintPart(Index(index)) + rest)
         == if Child(current, Index(index)).None? then None else Walk(Child(current, Index(index)).value, rest)
  {
    hide Decimal, KeyEnd, Bracket, ParseIndex, Find;
    var text := PrintPart(Index(index)) + rest;
    var digits := Decimal(index);
    assert text[1..] == digits + "]" + rest;
    BracketAfterDigits(digits, rest);
    ParsesBack(index);
    assert (digits + "]" + rest)[..|digits|] == digits && (digits + "]" + rest)[|digits| + 1..] == rest;
  }

  /** For paths with plain keys, walking the printed path is following the path. */
  lemma {:induction false} WalkFollows(root: Value, path: Path)
    requires PlainPath(path) && InMemory(path)
    ensures Walk(root, PrintParts(path)) == At(root, path)
    decreases |path|
  {
    hide Walk, PrintPart, Child;
    if path == [] {
      WalkNowhere(root);
    } else {
      assert path[0] in path;
      PrintedStartsPart(path[1..]);
      WalkPart(root, path[0], PrintParts(path[1..]));
      if Child(root, path[0]).Some? { WalkFollows(Child(root, path[0]).value, path[1..]); }
    }
  }

  lemma WalkNowhere(root: Value)
    ensures Walk(root, "") == Some(root)
  {
  }

  /** A value in which only this path exists. */
  function Chain(path: Path): Value {
    if path == [] then Bool(true)
    else
      match path[0]
      case Key(key) => Object([Field(key, Chain(path[1..]))])
      case Index(index) => Array(seq(index, i => Null) + [Chain(path[1..])])
  }

  lemma ChainChild(path: Path)
    requires path != []
    ensures Child(Chain(path), path[0]) == Some(Chain(path[1..]))
  {
    if path[0].Key? {
      assert Find(Chain(path).fields, path[0].key, 0) == Some(0);
    }
  }

  lemma {:induction false} ChainIsThere(path: Path)
    ensures At(Chain(path), path).Some?
    decreases |path|
  {
    hide Chain, Child;
    if path != [] {
      ChainChild(path);
      ChainIsThere(path[1..]);
    }
  }

  lemma {:induction false} ChainIsLost(path: Path)
    requires InMemory(path) && !PlainPath(path)
    ensures Walk(Chain(path), PrintParts(path)) == None
    decreases |path|
  {
    hide Walk, PrintPart, Chain, Child;
    if !PlainPart(path[0]) {
      SplitKeyIsLost(path);
    } else {
      assert path[0] in path;
      PrintedStartsPart(path[1..]);
      WalkPart(Chain(path), path[0], PrintParts(path[1..]));
      ChainChild(path);
      ChainIsLost(path[1..]);
    }
  }

  lemma SplitKeyIsLost(path: Path)
    requires path != [] && !PlainPart(path[0])
    ensures Walk(Chain(path), PrintParts(path)) == None
  {
    hide KeyEnd, Bracket, ParseIndex;
    var key, rest := path[0].key, PrintParts(path[1..]);
    var text := PrintPart(path[0]) + rest;
    assert text[1..] == key + rest;
    SplitKeyEndsEarly(key, rest);
    var read := text[1..][..KeyEnd(text[1..])];
    assert |read| < |key|;
    assert Find(Chain(path).fields, read, 0) == None;
  }

  /**
    The exact reach of the walker: whatever value has this path, walking the
    printed path finds the same as following it, exactly when no key on the path
    has a dot or an opening bracket in it.
  */
  lemma WalkUndoesPrintExactlyWhenPlain(path: Path)
    requires InMemory(path)
    ensures (forall root :: At(root, path).Some? ==> Walk(root, PrintParts(path)) == At(root, path)) <==> PlainPath(path)
  {
    hide Walk, At, PlainPath, Chain;
    if PlainPath(path) {
      forall root
        ensures Walk(root, PrintParts(path)) == At(root, path)
      {
        WalkFollows(root, path);
      }
    } else {
      ChainIsThere(path);
      ChainIsLost(path);
    }
  }

  // ---- What is collected can be found again -----------------------------------

  lemma {:induction false} OnlyThisPath(path: Path, other: Path)
    requires At(Chain(path), other) == Some(Bool(true))
    ensures path == other
    decreases |path|
  {
    if path == [] {
    } else {
      assert other != [];
      if path[0].Key? {
        assert Find(Chain(path).fields, other[0].key, 0).Some? ==> other[0] == path[0];
      }
      ChainChild(path);
      assert other[0] == path[0];
      OnlyThisPath(path[1..], other[1..]);
      assert path == [path[0]] + path[1..] && other == [other[0]] + other[1..];
    }
  }

  lemma {:induction false} ChainEnds(path: Path)
    ensures At(Chain(path), path) == Some(Bool(true))
    decreases |path|
  {
    hide Child;
    if path != [] {
      ChainChild(path);
      ChainEnds(path[1..]);
    }
  }

  /** Two plain paths that print the same are the same. */
  lemma PrintIsInjective(p: Path, q: Path)
    requires PlainPath(p) && PlainPath(q) && InMemory(p) && InMemory(q)
    requires Print(p) == Print(q)
    ensures p == q
  {
    hide Walk, At, Chain, PrintParts;
    assert Print(p)[1..] == PrintParts(p) && Print(q)[1..] == PrintParts(q);
    ChainEnds(p);
    WalkFollows(Chain(p), p);
    WalkFollows(Chain(p), q);
    OnlyThisPath(p, q);
  }

  /** No key in the whole value has a dot or an opening bracket in it. */
  predicate PlainKeys(value: Value) {
    match value
    case Array(items) => forall item <- items :: PlainKeys(item)
    case Object(fields) => forall field <- fields :: PlainKey(field.key) && PlainKeys(field.value)
    case _ => true
  }

  lemma {:induction false} PathsArePlain(value: Value, path: Path)
    requires WellFormed(value) && PlainKeys(value) && At(value, path).Some?
    ensures PlainPath(path) && InMemory(path)
    decreases |path|
  {
    hide At, PlainKey;
    if path != [] {
      var child := FirstStep(value, path);
      PathsArePlain(child, path[1..]);
      assert path == [path[0]] + path[1..];
    }
  }

  lemma FirstStep(value: Value, path: Path) returns (child: Value)
    requires WellFormed(value) && PlainKeys(value) && At(value, path).Some? && path != []
    ensures WellFormed(child) && PlainKeys(child) && At(child, path[1..]).Some?
    ensures PlainPart(path[0]) && (path[0].Index? ==> path[0].index < WORD)
  {
    hide PlainKey, At;
    assert Child(value, path[0]).Some? && At(Child(value, path[0]).value, path[1..]).Some? by { AtStep(value, path); }
    child := Child(value, path[0]).value;
    match path[0]
    case Key(key) =>
      var field := value.fields[Find(value.fields, key, 0).value];
      assert field in value.fields;
    case Index(index) =>
      assert value.items[index] in value.items;
  }

  lemma AtStep(value: Value, path: Path)
    requires path != [] && At(value, path).Some?
    ensures Child(value, path[0]).Some? && At(Child(value, path[0]).value, path[1..]).Some?
  {
  }

  /** Walking a collected location finds the marked object it was collected for. */
  lemma LocationsFindTheMarked(value: Value, path: Path)
    requires WellFormed(value) && PlainKeys(value) && path in Marks(value)
    ensures Walk(value, Print(path)[1..]) == At(value, path)
    ensures At(value, path).Some? && Marked(At(value, path).value)
  {
    hide Walk, At, Marks, Marked, PrintParts;
    MarksAreTheMarked(value, path);
    PathsArePlain(value, path);
    WalkFollows(value, path);
    assert Print(path)[1..] == PrintParts(path);
  }

  /** The collected locations are pairwise distinct texts. */
  lemma LocationsAreDistinct(value: Value)
    requires WellFormed(value) && PlainKeys(value)
    ensures Distinct(Located("$", Marks(value)))
  {
    hide Marks, Marked, PlainPath, InMemory, Located, Distinct;
    MarksAreDistinct(value);
    forall path <- Marks(value)
      ensures PlainPath(path) && InMemory(path)
    {
      MarksAreTheMarked(value, path);
      PathsArePlain(value, path);
    }
    DistinctTexts(Marks(value));
  }

  lemma {:induction false} DistinctTexts(paths: seq<Path>)
    requires Distinct(paths) && forall path <- paths :: PlainPath(path) && InMemory(path)
    ensures Distinct(Located("$", paths))
  {
    hide PlainPath, InMemory, PrintParts;
    if paths != [] {
      DistinctTexts(paths[1..]);
      OwnText(paths[0], paths[1..]);
      assert Located("$", paths)[1..] == Located("$", paths[1..]);
    }
  }

  lemma {:induction false} OwnText(path: Path, others: seq<Path>)
    requires path !in others && PlainPath(path) && InMemory(path)
    requires forall other <- others :: PlainPath(other) && InMemory(other)
    ensures Print(path) !in Located("$", others)
  {
    hide PlainPath, InMemory, PrintParts;
    if others != [] {
      OwnText(path, others[1..]);
      assert others[0] in others;
      if Print(path) == Print(others[0]) { PrintIsInjective(path, others[0]); }
    }
  }
}
