/**
  What a request says: its values without cache markers, with the text parts of
  each message run together. No edit of canonical/mod.rs changes it.
*/
module CacheReading {
  import opened Utf8Text
  import opened Json
  import opened MarkerPaths
  import opened CacheBreakpoints
  import opened CacheMarkerCount
  import StableSplit

  // ---- Without markers --------------------------------------------------------

  function Erase(value: Value): Value
    decreases value, 1, 0
  {
    if value.Object? then Object(EraseFields(value, 0))
    else if value.Array? then Array(EraseItems(value, 0))
    else value
  }

  function EraseFields(value: Value, i: nat): seq<Field>
    requires value.Object? && i <= |value.fields|
    decreases value, 0, |value.fields| - i
  {
    if i == |value.fields| then []
    else if value.fields[i].key == MARKER then EraseFields(value, i + 1)
    else [Field(value.fields[i].key, Erase(value.fields[i].value))] + EraseFields(value, i + 1)
  }

  function EraseItems(value: Value, i: nat): seq<Value>
    requires value.Array? && i <= |value.items|
    decreases value, 0, |value.items| - i
  {
    if i == |value.items| then [] else [Erase(value.items[i])] + EraseItems(value, i + 1)
  }

  lemma {:induction false} EraseIgnoresMarker(fields: seq<Field>, field: Field, i: nat)
    requires i <= |fields| && field.key == MARKER
    ensures EraseFields(Object(fields + [field]), i) == EraseFields(Object(fields), i)
    decreases |fields| - i
  {
    hide Erase;
    if i < |fields| {
      EraseIgnoresMarker(fields, field, i + 1);
    } else {
      assert EraseFields(Object(fields + [field]), |fields| + 1) == [];
    }
  }

  lemma EraseAddMarker(owner: Value)
    requires owner.Object?
    ensures Erase(AddMarker(owner).value) == Erase(owner)
  {
    EraseIgnoresMarker(owner.fields, Field(MARKER, EPHEMERAL), 0);
  }

  lemma {:induction false} EraseItemReplaced(items: seq<Value>, k: nat, item: Value, i: nat)
    requires k < |items| && i <= |items| && Erase(item) == Erase(items[k])
    ensures EraseItems(Array(items[k := item]), i) == EraseItems(Array(items), i)
    decreases |items| - i
  {
    hide Erase;
    if i < |items| { EraseItemReplaced(items, k, item, i + 1); }
  }

  lemma {:induction false} EraseFieldReplaced(owner: Value, k: nat, value: Value, i: nat)
    requires owner.Object? && k < |owner.fields| && i <= |owner.fields|
    requires Erase(value) == Erase(owner.fields[k].value)
    ensures EraseFields(SetField(owner, k, value), i) == EraseFields(owner, i)
    decreases |owner.fields| - i
  {
    hide Erase;
    if i < |owner.fields| { EraseFieldReplaced(owner, k, value, i + 1); }
  }

  lemma EraseSetField(owner: Value, k: nat, value: Value)
    requires owner.Object? && k < |owner.fields| && Erase(value) == Erase(owner.fields[k].value)
    ensures Erase(SetField(owner, k, value)) == Erase(owner)
  {
    EraseFieldReplaced(owner, k, value, 0);
  }

  lemma EraseMarkLast(items: seq<Value>)
    ensures EraseItems(Array(MarkLastObject(items).value), 0) == EraseItems(Array(items), 0)
  {
    hide Erase, AddMarker, LastObject;
    var k := LastObject(items);
    if k.Some? {
      EraseAddMarker(items[k.value]);
      EraseItemReplaced(items, k.value, AddMarker(items[k.value]).value, 0);
    }
  }

  // ---- Reading a message ------------------------------------------------------

  datatype Chunk = Text(text: string) | Other(value: Value)

  /** A text part, its two fields in either order. */
  predicate IsText(part: Value) {
    && part.Object? && |part.fields| == 2 && Get(part, "type") == Some(String("text"))
    && Get(part, "text").Some? && Get(part, "text").value.String?
  }

  /** A text part reads as its text, anything else as itself. */
  function AsChunk(part: Value): Chunk {
    if IsText(part) then Text(Get(part, "text").value.text) else Other(part)
  }

  function AsChunks(parts: seq<Value>): seq<Chunk> {
    if parts == [] then [] else [AsChunk(parts[0])] + AsChunks(parts[1..])
  }

  /** Runs of text read as one text. */
  function Join(chunks: seq<Chunk>): seq<Chunk>
    decreases |chunks|
  {
    if |chunks| <= 1 then chunks
    else if chunks[0].Text? && chunks[1].Text? then Join([Text(chunks[0].text + chunks[1].text)] + chunks[2..])
    else [chunks[0]] + Join(chunks[1..])
  }

  function Read(content: Value): seq<Chunk> {
    match content
    case String(text) => [Text(text)]
    case Array(_) => Join(AsChunks(EraseItems(content, 0)))
    case _ => [Other(Erase(content))]
  }

  /** A message without its content, and what its content says. */
  datatype Reading = Reading(frame: Value, content: Option<seq<Chunk>>)

  function ReadMessage(message: Value): Reading {
    if !message.Object? || Find(message.fields, "content", 0).None? then Reading(Erase(message), None)
    else
      var k := Find(message.fields, "content", 0).value;
      Reading(Erase(SetField(message, k, Null)), Some(Read(message.fields[k].value)))
  }

  lemma ErasedTextPart(text: string, marked: bool)
    ensures Erase(TextPart(text, marked)) == TextPart(text, false)
  {
    hide Erase, Find;
    var bare := TextPart(text, false);
    BareTextPart(text);
    ErasedBarePart(text);
    if marked {
      EraseAddMarker(bare);
      assert TextPart(text, true) == AddMarker(bare).value;
    }
  }

  lemma ErasedBarePart(text: string)
    ensures Erase(TextPart(text, false)) == TextPart(text, false)
  {
    var bare := TextPart(text, false);
    assert EraseFields(bare, 2) == [];
    assert EraseFields(bare, 1) == [bare.fields[1]];
    assert EraseFields(bare, 0) == [bare.fields[0], bare.fields[1]];
  }

  /** One part and two parts with the same text in them read the same as the text alone. */
  lemma ChunkedTextReads(text: string)
    ensures Read(ChunkedText(text)) == [Text(text)] == Read(Array([TextPart(text, true)]))
  {
    hide TextPart, Erase;
    OnePartReads(text);
    var k := StableSplit.Cut(text);
    if k.Some? {
      var stable, tail := text[..k.value], text[k.value..];
      assert stable + tail == text;
      TwoPartsRead(stable, tail);
    }
  }

  lemma OnePartReads(text: string)
    ensures Read(Array([TextPart(text, true)])) == [Text(text)]
  {
    hide TextPart, Erase;
    var parts := Array([TextPart(text, true)]);
    ErasedTextPart(text, true);
    assert EraseItems(parts, 1) == [];
    assert EraseItems(parts, 0) == [TextPart(text, false)];
    PartReads(text);
    assert AsChunks([TextPart(text, false)][1..]) == [];
  }

  lemma TwoPartsRead(stable: string, tail: string)
    ensures Read(Array([TextPart(stable, true), TextPart(tail, false)])) == [Text(stable + tail)]
  {
    hide TextPart, Erase;
    var parts := Array([TextPart(stable, true), TextPart(tail, false)]);
    ErasedTextPart(stable, true);
    ErasedTextPart(tail, false);
    assert EraseItems(parts, 2) == [];
    assert EraseItems(parts, 1) == [TextPart(tail, false)];
    var erased := [TextPart(stable, false), TextPart(tail, false)];
    assert EraseItems(parts, 0) == erased;
    PartReads(stable);
    PartReads(tail);
    assert erased[1..] == [TextPart(tail, false)] && erased[1..][1..] == [];
    assert AsChunks(erased[1..][1..]) == [];
    assert AsChunks(erased[1..]) == [Text(tail)];
    assert AsChunks(erased) == [Text(stable), Text(tail)];
    JoinTwo(stable, tail);
  }

  lemma JoinTwo(a: string, b: string)
    ensures Join([Text(a), Text(b)]) == [Text(a + b)]
  {
    var chunks := [Text(a), Text(b)];
    assert chunks[2..] == [];
    assert [Text(chunks[0].text + chunks[1].text)] + chunks[2..] == [Text(a + b)];
    assert Join([Text(a + b)]) == [Text(a + b)];
  }

  lemma PartReads(text: string)
    ensures AsChunk(TextPart(text, false)) == Text(text)
  {
    var fields := [Field("type", String("text")), Field("text", String(text))];
    assert TextPart(text, false) == Object(fields) by { assert fields + [] == fields; }
    assert "type" != "text" && fields[0].key == "type" && fields[1].key == "text";
    assert Find(fields, "type", 0) == Some(0);
    assert Find(fields, "text", 0) == Find(fields, "text", 1) == Some(1);
  }

  lemma MarkContentReads(content: Value, chunked: bool)
    ensures Read(MarkContent(content, chunked).value) == Read(content)
  {
    hide AddMarker, MarkLastObject, ChunkedText, TextPart, Erase, EraseItems;
    match content
    case Array(items) => EraseMarkLast(items);
    case String(text) =>
      ChunkedTextReads(text);
      ChunkedIsArray(text);
    case Object(_) =>
      EraseAddMarker(content);
      assert AddMarker(content).value.Object? by { MarkedIsObject(content); }
    case _ =>
  }

  lemma ChunkedIsArray(text: string)
    ensures ChunkedText(text).Array?
  {
  }

  lemma MarkedIsObject(owner: Value)
    requires owner.Object?
    ensures AddMarker(owner).value.Object?
  {
  }

  /** Marking a message changes neither what it says nor its role. */
  lemma MarkMessageReads(message: Value, chunked: bool)
    requires message.Object?
    ensures ReadMessage(MarkMessage(message, chunked).value) == ReadMessage(message)
    ensures RoleOf(MarkMessage(message, chunked).value) == RoleOf(message)
  {
    hide AddMarker, MarkContent, Erase, Read, Find;
    var k := Find(message.fields, "content", 0);
    if k.None? || !MarkContent(message.fields[k.value].value, chunked).added {
      AddMarkerReads(message);
    } else {
      var content := MarkContent(message.fields[k.value].value, chunked).value;
      MarkContentReads(message.fields[k.value].value, chunked);
      FindIgnoresValues(message.fields, k.value, content, "content", 0);
      FindIgnoresValues(message.fields, k.value, content, "role", 0);
      var marked := SetField(message, k.value, content);
      assert SetField(marked, k.value, Null) == SetField(message, k.value, Null);
    }
  }

  lemma AddMarkerReads(message: Value)
    requires message.Object?
    ensures ReadMessage(AddMarker(message).value) == ReadMessage(message)
    ensures RoleOf(AddMarker(message).value) == RoleOf(message)
  {
    hide Erase, Read, Find, EPHEMERAL;
    if Marked(message) { return; }
    var marker := Field(MARKER, EPHEMERAL);
    FindAppended(message.fields, marker, "content", 0);
    FindAppended(message.fields, marker, "role", 0);
    var k := Find(message.fields, "content", 0);
    if k.None? {
      EraseAddMarker(message);
    } else {
      var bare := SetField(message, k.value, Null);
      var marked := AddMarker(message).value;
      assert SetField(marked, k.value, Null) == Object(bare.fields + [marker]);
      AppendedErases(bare, marker);
    }
  }

  lemma AppendedErases(bare: Value, marker: Field)
    requires bare.Object? && marker.key == MARKER
    ensures Erase(Object(bare.fields + [marker])) == Erase(bare)
  {
    EraseIgnoresMarker(bare.fields, marker, 0);
  }

  // ---- Stripping an unmarked message ------------------------------------------

  lemma {:induction false} WithoutAbsent(fields: seq<Field>, key: string, i: nat)
    requires i <= |fields| && Find(fields, key, i).None?
    ensures Without(fields[i..], key) == fields[i..]
    decreases |fields| - i
  {
    if i < |fields| {
      assert fields[i..][1..] == fields[i + 1..];
      WithoutAbsent(fields, key, i + 1);
    }
  }

  lemma UnmarkClear(value: Value)
    requires Count(value) == 0
    ensures Unmark(value) == value
  {
    hide Without, Find;
    if value.Object? {
      WithoutAbsent(value.fields, MARKER, 0);
      assert value.fields[0..] == value.fields;
    }
  }

  lemma {:induction false} UnmarkItemsClear(items: seq<Value>)
    requires forall k :: 0 <= k < |items| ==> Count(items[k]) == 0
    ensures UnmarkItems(items) == items
  {
    hide Unmark, Count;
    if items != [] {
      UnmarkClear(items[0]);
      UnmarkItemsClear(items[1..]);
    }
  }

  /** Stripping a message without markers leaves it alone. */
  lemma StripClear(message: Value)
    requires message.Object? && Count(message) == 0
    ensures StripMessage(message) == message
  {
    hide Unmark, Count, Find, UnmarkItems;
    UnmarkClear(message);
    var k := Find(message.fields, "content", 0);
    if k.Some? {
      var content := message.fields[k.value].value;
      FieldInside(message, k.value);
      UnmarkClear(content);
      if content.Array? {
        forall j | 0 <= j < |content.items|
          ensures Count(content.items[j]) == 0
        {
          ItemInside(content.items, j);
        }
        UnmarkItemsClear(content.items);
      }
      assert SetField(message, k.value, content) == message;
    }
  }
}
