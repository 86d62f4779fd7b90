/**
  What the placing of cache markers makes of the content of a message
  (canonical/mod.rs): how long it counts as, whether it holds code, where its marker
  goes, and what is left when its markers are taken away.
*/
module CacheContents {
  import opened Utf8Text
  import opened Json
  import opened MarkerPaths
  import opened CacheBreakpoints
  import opened CacheUserMarks
  import opened CacheBreakpointLaws
  import opened CacheMarkerCount
  import opened CacheReading
  import StableSplit

  // ---- Length -----------------------------------------------------------------

  /** An item at the end of a list of parts adds its own length. */
  lemma {:induction false} LengthGrows(items: seq<Value>, item: Value)
    ensures ContentLength(Array([])) == 0
    ensures ContentLength(Array(items + [item])) == ContentLength(Array(items)) + ContentLength(item)
  {
    var more := items + [item];
    assert Array(more).items == more;
    ItemsGrow(Array(items), Array(more), 0);
    assert ItemsLength(Array([]), 0) == 0;
  }

  lemma {:induction false} ItemsGrow(a: Value, b: Value, i: nat)
    requires a.Array? && b.Array? && |b.items| == |a.items| + 1 && a.items == b.items[..|a.items|] && i <= |a.items|
    ensures ItemsLength(b, i) == ItemsLength(a, i) + ContentLength(b.items[|a.items|])
    decreases |a.items| - i
  {
    hide ContentLength;
    if i < |a.items| {
      assert b.items[i] == a.items[i];
      ItemsGrow(a, b, i + 1);
    }
  }

  /** A text counts its bytes, a part those of its text, anything else nothing. */
  lemma PlainLengths(text: string, part: Value, key: string, content: Value)
    requires part.Object?
    ensures ContentLength(String(text)) == |text|
    ensures Get(part, "text") == Some(String(text)) ==> ContentLength(part) == |text|
    ensures (Get(part, "text").None? || !Get(part, "text").value.String?) ==> ContentLength(part) == 0
    ensures ContentLength(Null) == ContentLength(Bool(true)) == ContentLength(Number(key)) == 0
  {
  }

  // ---- Code -------------------------------------------------------------------

  /** The message says this text: as its content, or as a part of it. */
  predicate Says(message: Value, text: string) {
    var content := Get(message, "content");
    content.Some? &&
    (content.value == String(text)
     || (content.value.Array? && exists item <- content.value.items :: Get(item, "text") == Some(String(text))))
  }

  /** A message holds code exactly when a text it says opens a block of Rust. */
  lemma CodeExactly(message: Value)
    ensures HasBulkFixture(message) <==> exists text: string :: Says(message, text) && Contains(text, "```rust")
  {
    hide Contains, Find;
    var content := Get(message, "content");
    if HasBulkFixture(message) {
      match content.value
      case String(text) => assert Says(message, text);
      case Array(items) =>
        var item :| item in items && HasFence(Get(item, "text"));
        assert Says(message, Get(item, "text").value.text);
    }
    forall text: string | Says(message, text) && Contains(text, "```rust")
      ensures HasBulkFixture(message)
    {
      if content.value.Array? {
        var item :| item in content.value.items && Get(item, "text") == Some(String(text));
        assert HasFence(Get(item, "text"));
      }
    }
  }

  // ---- The message itself -----------------------------------------------------

  /** A message whose content takes no marker is marked itself, behind its fields. */
  lemma MessageIsMarked(message: Value, chunked: bool)
    requires message.Object? && !Marked(message)
    requires Get(message, "content").None? || Get(message, "content").value in {Null, Bool(true), Bool(false)}
    ensures MarkMessage(message, chunked) == Edit(Object(message.fields + CACHED), true)
  {
    hide Find, Marked;
    assert MARKER == "cache_control";
  }

  /** A content that is one object is marked itself, and in its message nothing else. */
  lemma ObjectContentIsMarked(message: Value, k: nat, chunked: bool)
    requires message.Object? && Find(message.fields, "content", 0) == Some(k)
    requires message.fields[k].value.Object? && !Marked(message.fields[k].value)
    ensures var marked := Object(message.fields[k].value.fields + CACHED);
      MarkMessage(message, chunked) == Edit(Object(message.fields[k := Field("content", marked)]), true)
  {
    hide Find, Marked;
    assert MARKER == "cache_control";
  }

  // ---- Taking markers away ----------------------------------------------------

  lemma {:induction false} WithoutHasNone(fields: seq<Field>, key: string)
    ensures forall field <- Without(fields, key) :: field.key != key && field in fields
    ensures forall field <- fields :: field.key != key ==> field in Without(fields, key)
  {
    if fields != [] {
      WithoutHasNone(fields[1..], key);
      assert fields == [fields[0]] + fields[1..];
    }
  }

  lemma Unmarks(value: Value)
    ensures !Marked(Unmark(value))
    ensures value.Object? ==> Unmark(value).Object?
    ensures value.Object? ==> forall field :: field in Unmark(value).fields <==> field in value.fields && field.key != MARKER
    ensures !value.Object? ==> Unmark(value) == value
  {
    if value.Object? { WithoutHasNone(value.fields, MARKER); }
  }

  lemma {:induction false} UnmarkedItems(items: seq<Value>)
    ensures |UnmarkItems(items)| == |items|
    ensures forall i :: 0 <= i < |items| ==> UnmarkItems(items)[i] == Unmark(items[i])
  {
    hide Unmark;
    if items != [] { UnmarkedItems(items[1..]); }
  }

  lemma ContentIsUnmarked(content: Value)
    ensures var bare := StripContent(content);
      && !Marked(bare)
      && (content.Array? ==> bare.Array? && |bare.items| == |content.items| && forall i :: 0 <= i < |bare.items| ==> !Marked(bare.items[i]) && bare.items[i] == Unmark(content.items[i]))
  {
    hide Unmark, Marked;
    if content.Array? {
      UnmarkedItems(content.items);
      forall i | 0 <= i < |content.items|
        ensures !Marked(Unmark(content.items[i]))
      {
        Unmarks(content.items[i]);
      }
      ArrayIsUnmarked(StripContent(content));
    } else {
      Unmarks(content);
    }
  }

  lemma ArrayIsUnmarked(value: Value)
    requires value.Array?
    ensures !Marked(value)
  {
  }

  /** A stripped message has no marker of its own, on its content or on a part of it. */
  lemma StrippedIsClear(message: Value)
    requires message.Object?
    ensures var bare := StripMessage(message); var content := Get(bare, "content");
      && bare.Object? && !Marked(bare)
      && (content.Some? ==> !Marked(content.value))
      && (content.Some? && content.value.Array? ==> forall item <- content.value.items :: !Marked(item))
  {
    hide Unmark, Marked, StripContent;
    var bare := Unmark(message);
    Unmarks(message);
    var k := Find(bare.fields, "content", 0);
    if k.Some? {
      var content := bare.fields[k.value].value;
      ContentIsUnmarked(content);
      FieldIsSet(bare, k.value, StripContent(content));
      StrippedItems(content);
    }
  }

  lemma StrippedItems(content: Value)
    ensures StripContent(content).Array? ==> forall item <- StripContent(content).items :: !Marked(item)
  {
    hide Unmark, Marked;
    ContentIsUnmarked(content);
    if !content.Array? { Unmarks(content); }
  }

  /** Setting the content moves no other field, so it unmarks nothing and marks nothing. */
  lemma FieldIsSet(owner: Value, k: nat, value: Value)
    requires owner.Object? && Find(owner.fields, "content", 0) == Some(k) && !Marked(owner)
    ensures Get(SetField(owner, k, value), "content") == Some(value) && !Marked(SetField(owner, k, value))
  {
    FindIgnoresValues(owner.fields, k, value, "content", 0);
    FindIgnoresValues(owner.fields, k, value, MARKER, 0);
  }

  // ---- What stays as it is ----------------------------------------------------

  /**
    In a conversation of several turns no user message is touched but the opening one,
    the latest one if it is a short follow-up, and else the longest one if it is not
    the latest.
  */
  lemma OtherUsersStay(messages: seq<Value>, budget: nat, first: nat, last: nat, p: nat, i: nat)
    requires IsFirst(messages, first) && IsLast(messages, last) && IsPrimary(messages, p) && first < last
    requires UsersAreClear(messages) && i < |messages| && IsUser(messages[i])
    requires i != first && (EndsShort(messages) ==> i != last) && (!EndsShort(messages) ==> i != p || p == last)
    ensures MarkUsers(messages, budget).messages[i] == messages[i]
  {
    hide Count, RoleOf, MarkAt, PinOpening, MarkTurn, Longest, MessageLength, HasBulkFixture, Users, UsersAreClear;
    var users := Users(messages);
    EndsOfUsers(messages, first, last);
    PrimaryIsLongest(messages, p);
    var short := ShortFollowup(messages, users);
    var pinned := PinOpening(Marking(messages, 0), users);
    PinLeaves(messages, users, i);
    TurnKeeps(messages, users, short, i);
    var turned := if pinned.applied < budget then MarkTurn(pinned, users, short) else pinned;
    assert budget > 0 ==> turned.messages[i] == messages[i];
    if MarksPrimary(users, p, short) && i != p { MarkAway(turned, p, i); }
  }

  lemma MarkAway(m: Marking, k: nat, i: nat)
    requires k < |m.messages| && i < |m.messages| && i != k
    ensures MarkAt(m, k, true).messages[i] == m.messages[i] && MarkAt(m, k, false).messages[i] == m.messages[i]
  {
    hide MarkMessage;
  }

  lemma PinLeaves(messages: seq<Value>, users: seq<nat>, i: nat)
    requires users != [] && Within(users, |messages|) && i < |messages| && i != users[0]
    ensures PinOpening(Marking(messages, 0), users).messages[i] == messages[i]
  {
    hide MarkAt;
    MarkAway(Marking(messages, 0), users[0], i);
  }

  lemma TurnKeeps(messages: seq<Value>, users: seq<nat>, short: bool, i: nat)
    requires users == Users(messages) && |users| > 1 && i < |messages| && RoleOf(messages[i]) == Some("user")
    requires UsersAreClear(messages) && i != users[0] && (short ==> i != users[|users| - 1])
    ensures MarkTurn(PinOpening(Marking(messages, 0), users), users, short).messages[i] == messages[i]
  {
    hide Count, RoleOf, MarkAt, PinOpening, Anchor, StripMessage, Users;
    var pinned, last := PinOpening(Marking(messages, 0), users), users[|users| - 1];
    PinLeaves(messages, users, i);
    if short {
      MarkAway(pinned, last, i);
    } else {
      var anchor := Anchor(pinned.messages, last);
      if anchor.Some? { MarkAway(pinned, anchor.value, i); }
      UserIsObject(messages[i]);
      StripClear(messages[i]);
    }
  }
}
