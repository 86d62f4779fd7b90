/**
  Counting the markers of a tree, and what each single edit of canonical/mod.rs
  does to the count.
*/
module CacheMarkerCount {
  import opened Utf8Text
  import opened Json
  import opened MarkerPaths
  import opened CacheBreakpoints
  import StableSplit

  // ---- The number of marked objects -------------------------------------------

  function Count(value: Value): nat
    decreases value, 1, 0
  {
    if value.Object? then (if Marked(value) then 1 else 0) + CountFields(value, 0)
    else if value.Array? then CountItems(value, 0)
    else 0
  }

  function CountFields(value: Value, i: nat): nat
    requires value.Object? && i <= |value.fields|
    decreases value, 0, |value.fields| - i
  {
    if i == |value.fields| then 0 else Count(value.fields[i].value) + CountFields(value, i + 1)
  }

  function CountItems(value: Value, i: nat): nat
    requires value.Array? && i <= |value.items|
    decreases value, 0, |value.items| - i
  {
    if i == |value.items| then 0 else Count(value.items[i]) + CountItems(value, i + 1)
  }

  /** The count is the number of locations that are reported. */
  lemma {:induction false} CountIsLocations(value: Value)
    ensures |Marks(value)| == Count(value) == |Located("$", Marks(value))|
    decreases value, 1, 0
  {
    hide Marked;
    if value.Object? {
      CountFieldLocations(value, 0);
    } else if value.Array? {
      CountItemLocations(value, 0);
    }
    LocatedLength("$", Marks(value));
  }

  lemma {:induction false} CountFieldLocations(value: Value, i: nat)
    requires value.Object? && i <= |value.fields|
    ensures |FieldMarks(value, i)| == CountFields(value, i)
    decreases value, 0, |value.fields| - i
  {
    hide Marks, Count, Under;
    if i < |value.fields| {
      CountIsLocations(value.fields[i].value);
      UnderLength(Key(value.fields[i].key), Marks(value.fields[i].value));
      CountFieldLocations(value, i + 1);
    }
  }

  lemma {:induction false} CountItemLocations(value: Value, i: nat)
    requires value.Array? && i <= |value.items|
    ensures |ItemMarks(value, i)| == CountItems(value, i)
    decreases value, 0, |value.items| - i
  {
    hide Marks, Count, Under;
    if i < |value.items| {
      CountIsLocations(value.items[i]);
      UnderLength(Index(i), Marks(value.items[i]));
      CountItemLocations(value, i + 1);
    }
  }

  lemma {:induction false} UnderLength(part: Part, paths: seq<Path>)
    ensures |Under(part, paths)| == |paths|
  {
    if paths != [] { UnderLength(part, paths[1..]); }
  }

  lemma {:induction false} LocatedLength(at: string, paths: seq<Path>)
    ensures |Located(at, paths)| == |paths|
  {
    hide PrintParts;
    if paths != [] { LocatedLength(at, paths[1..]); }
  }

  // ---- Replacing one part -----------------------------------------------------

  lemma {:induction false} CountItemReplaced(items: seq<Value>, k: nat, item: Value, i: nat)
    requires k < |items| && i <= |items|
    ensures CountItems(Array(items[k := item]), i) + (if i <= k then Count(items[k]) else 0)
         == CountItems(Array(items), i) + (if i <= k then Count(item) else 0)
    decreases |items| - i
  {
    hide Count;
    if i < |items| { CountItemReplaced(items, k, item, i + 1); }
  }

  lemma {:induction false} CountFieldReplaced(owner: Value, k: nat, value: Value, i: nat)
    requires owner.Object? && k < |owner.fields| && i <= |owner.fields|
    ensures CountFields(SetField(owner, k, value), i) + (if i <= k then Count(owner.fields[k].value) else 0)
         == CountFields(owner, i) + (if i <= k then Count(value) else 0)
    decreases |owner.fields| - i
  {
    hide Count;
    if i < |owner.fields| { CountFieldReplaced(owner, k, value, i + 1); }
  }

  lemma {:induction false} FindIgnoresValues(fields: seq<Field>, k: nat, value: Value, key: string, i: nat)
    requires k < |fields| && i <= |fields|
    ensures Find(fields[k := Field(fields[k].key, value)], key, i) == Find(fields, key, i)
    decreases |fields| - i
  {
    if i < |fields| { FindIgnoresValues(fields, k, value, key, i + 1); }
  }

  lemma CountSetField(owner: Value, k: nat, value: Value)
    requires owner.Object? && k < |owner.fields|
    ensures Count(SetField(owner, k, value)) + Count(owner.fields[k].value) == Count(owner) + Count(value)
  {
    CountFieldReplaced(owner, k, value, 0);
    FindIgnoresValues(owner.fields, k, value, MARKER, 0);
  }

  lemma CountSetItem(items: seq<Value>, k: nat, item: Value)
    requires k < |items|
    ensures Count(Array(items[k := item])) + Count(items[k]) == Count(Array(items)) + Count(item)
  {
    CountItemReplaced(items, k, item, 0);
  }

  lemma {:induction false} ItemAtMostAll(items: seq<Value>, k: nat, i: nat)
    requires i <= k < |items|
    ensures Count(items[k]) <= CountItems(Array(items), i)
    decreases k - i
  {
    hide Count;
    if i < k { ItemAtMostAll(items, k, i + 1); }
  }

  lemma ItemInside(items: seq<Value>, k: nat)
    requires k < |items|
    ensures Count(items[k]) <= Count(Array(items))
  {
    ItemAtMostAll(items, k, 0);
  }

  lemma {:induction false} FieldAtMostAll(owner: Value, k: nat, i: nat)
    requires owner.Object? && i <= k < |owner.fields|
    ensures Count(owner.fields[k].value) <= CountFields(owner, i)
    decreases k - i
  {
    hide Count;
    if i < k { FieldAtMostAll(owner, k, i + 1); }
  }

  lemma FieldInside(owner: Value, k: nat)
    requires owner.Object? && k < |owner.fields|
    ensures Count(owner.fields[k].value) <= Count(owner)
  {
    FieldAtMostAll(owner, k, 0);
  }

  // ---- Adding a marker --------------------------------------------------------

  lemma {:induction false} CountFieldsAppend(fields: seq<Field>, field: Field, i: nat)
    requires i <= |fields|
    ensures CountFields(Object(fields + [field]), i) == CountFields(Object(fields), i) + Count(field.value)
    decreases |fields| - i
  {
    hide Count;
    if i < |fields| {
      CountFieldsAppend(fields, field, i + 1);
    } else {
      assert CountFields(Object(fields + [field]), |fields| + 1) == 0;
    }
  }

  lemma {:induction false} FindAppended(fields: seq<Field>, field: Field, key: string, i: nat)
    requires i <= |fields|
    ensures Find(fields, key, i).Some? ==> Find(fields + [field], key, i) == Find(fields, key, i)
    ensures Find(fields, key, i).None? ==>
      Find(fields + [field], key, i) == if field.key == key then Some(|fields|) else None
    decreases |fields| - i
  {
    if i < |fields| {
      FindAppended(fields, field, key, i + 1);
    } else {
      assert Find(fields + [field], key, |fields| + 1) == None;
    }
  }

  lemma EphemeralIsClear()
    ensures Count(EPHEMERAL) == 0
  {
    assert CountFields(EPHEMERAL, 1) == 0;
    assert Find(EPHEMERAL.fields, MARKER, 1) == None;
  }

  /** A marker goes onto an object exactly once. */
  lemma AddMarkerCounts(owner: Value)
    requires owner.Object?
    ensures AddMarker(owner).added <==> !Marked(owner)
    ensures Count(AddMarker(owner).value) == Count(owner) + (if AddMarker(owner).added then 1 else 0)
  {
    hide Find, CountFields, EPHEMERAL;
    if !Marked(owner) {
      var field := Field(MARKER, EPHEMERAL);
      EphemeralIsClear();
      CountFieldsAppend(owner.fields, field, 0);
      FindAppended(owner.fields, field, MARKER, 0);
      CountUnfold(owner);
      CountUnfold(AddMarker(owner).value);
    }
  }

  lemma CountUnfold(owner: Value)
    requires owner.Object?
    ensures Count(owner) == (if Marked(owner) then 1 else 0) + CountFields(owner, 0)
  {
  }

  lemma MarkLastCounts(items: seq<Value>)
    ensures Count(Array(MarkLastObject(items).value)) == Count(Array(items)) + (if MarkLastObject(items).added then 1 else 0)
    ensures |MarkLastObject(items).value| == |items|
  {
    hide AddMarker, LastObject, Count;
    var k := LastObject(items);
    if k.Some? {
      AddMarkerCounts(items[k.value]);
      CountSetItem(items, k.value, AddMarker(items[k.value]).value);
    }
  }

  lemma TextPartCounts(text: string, marked: bool)
    ensures Count(TextPart(text, marked)) == if marked then 1 else 0
  {
    hide CountFields, Find;
    var bare := TextPart(text, false);
    BareTextPart(text);
    if marked {
      assert !Marked(bare);
      AddMarkerCounts(bare);
      assert TextPart(text, true) == AddMarker(bare).value;
    }
  }

  lemma BareTextPart(text: string)
    ensures Count(TextPart(text, false)) == 0 && !Marked(TextPart(text, false))
  {
    var bare := TextPart(text, false);
    CountScalar(bare.fields[0].value);
    CountScalar(bare.fields[1].value);
    assert CountFields(bare, 2) == 0;
    assert CountFields(bare, 1) == 0;
    assert CountFields(bare, 0) == 0;
    assert Find(bare.fields, MARKER, 2) == None;
    assert Find(bare.fields, MARKER, 1) == None;
    assert Find(bare.fields, MARKER, 0) == None;
  }

  lemma TextPartsCount(first: Value, rest: seq<Value>)
    ensures Count(Array([first] + rest)) == Count(first) + Count(Array(rest))
  {
    hide Count;
    CountItemsShift(first, rest, 0);
    CountArray([first] + rest);
    CountArray(rest);
  }

  lemma CountArray(items: seq<Value>)
    ensures Count(Array(items)) == CountItems(Array(items), 0)
  {
  }

  lemma {:induction false} CountItemsShift(first: Value, rest: seq<Value>, i: nat)
    requires i <= |rest|
    ensures CountItems(Array([first] + rest), i + 1) == CountItems(Array(rest), i)
    decreases |rest| - i
  {
    hide Count;
    if i < |rest| { CountItemsShift(first, rest, i + 1); }
  }

  lemma ChunkedTextCounts(text: string)
    ensures Count(ChunkedText(text)) == 1 && Count(Array([TextPart(text, true)])) == 1
  {
    hide TextPart, Count, CountItems;
    var k := StableSplit.Cut(text);
    assert Count(Array([])) == 0 by { CountNoItems(); }
    TextPartCounts(text, true);
    TextPartsCount(TextPart(text, true), []);
    assert [TextPart(text, true)] + [] == [TextPart(text, true)];
    if k.Some? {
      var stable, tail := TextPart(text[..k.value], true), TextPart(text[k.value..], false);
      TextPartCounts(text[..k.value], true);
      TextPartCounts(text[k.value..], false);
      TextPartsCount(tail, []);
      TextPartsCount(stable, [tail]);
      assert [tail] + [] == [tail] && [stable] + [tail] == [stable, tail];
    }
  }

  lemma CountNoItems()
    ensures Count(Array([])) == 0
  {
  }

  lemma MarkContentCounts(content: Value, chunked: bool)
    ensures Count(MarkContent(content, chunked).value) == Count(content) + (if MarkContent(content, chunked).added then 1 else 0)
  {
    hide Count, AddMarker, MarkLastObject, ChunkedText, TextPart;
    match content
    case Array(items) => MarkLastCounts(items);
    case String(text) =>
      ChunkedTextCounts(text);
      assert Count(content) == 0 by { CountScalar(content); }
    case Object(_) => AddMarkerCounts(content);
    case _ =>
  }

  lemma CountScalar(value: Value)
    requires !value.Array? && !value.Object?
    ensures Count(value) == 0
  {
  }

  /** Marking a message adds one marker if it says so and none if not; an unmarked message always takes one. */
  lemma MarkMessageCounts(message: Value, chunked: bool)
    requires message.Object?
    ensures Count(MarkMessage(message, chunked).value) == Count(message) + (if MarkMessage(message, chunked).added then 1 else 0)
    ensures Count(message) == 0 ==> MarkMessage(message, chunked).added
  {
    hide Count, AddMarker, MarkContent, Find;
    var k := Find(message.fields, "content", 0);
    if k.Some? {
      var content := message.fields[k.value].value;
      MarkContentCounts(content, chunked);
      CountSetField(message, k.value, MarkContent(content, chunked).value);
    }
    AddMarkerCounts(message);
    CountUnfold(message);
  }
}
