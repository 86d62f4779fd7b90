/**
  Placing cache markers in a request body (canonical/mod.rs): the tree is edited
  under a budget of four markers.
*/
module CacheBreakpoints {
  import opened Utf8Text
  import opened Json
  import opened MarkerPaths
  import StableSplit

  const MAX_BREAKPOINTS: nat := 4
  const SHORT_FOLLOWUP_MAX: nat := 8192

  const EPHEMERAL := Object([Field("type", String("ephemeral"))])

  // ---- One marker -------------------------------------------------------------

  /** An edited value and whether a marker was added. */
  datatype Edit<T> = Edit(value: T, added: bool)

  function AddMarker(owner: Value): Edit<Value>
    requires owner.Object?
  {
    if Marked(owner) then Edit(owner, false)
    else Edit(Object(owner.fields + [Field(MARKER, EPHEMERAL)]), true)
  }

  function LastObject(items: seq<Value>): (k: Option<nat>)
    ensures k.Some? ==> k.value < |items| && items[k.value].Object?
    ensures k.Some? ==> forall j :: k.value < j < |items| ==> !items[j].Object?
    ensures k.None? ==> forall j :: 0 <= j < |items| ==> !items[j].Object?
  {
    if items == [] then None
    else if items[|items| - 1].Object? then Some(|items| - 1)
    else LastObject(items[..|items| - 1])
  }

  function MarkLastObject(items: seq<Value>): Edit<seq<Value>> {
    var k := LastObject(items);
    if k.None? then Edit(items, false)
    else var edit := AddMarker(items[k.value]); Edit(items[k.value := edit.value], edit.added)
  }

  function TextPart(text: string, marked: bool): Value {
    Object([Field("type", String("text")), Field("text", String(text))]
           + (if marked then [Field(MARKER, EPHEMERAL)] else []))
  }

  /** A user text becomes one marked part, or a marked stable part and an unmarked tail. */
  function ChunkedText(text: string): Value {
    var k := StableSplit.Cut(text);
    if k.None? then Array([TextPart(text, true)])
    else Array([TextPart(text[..k.value], true), TextPart(text[k.value..], false)])
  }

  function MarkContent(content: Value, chunked: bool): Edit<Value> {
    match content
    case Array(items) => var edit := MarkLastObject(items); Edit(Array(edit.value), edit.added)
    case String(text) => Edit(if chunked then ChunkedText(text) else Array([TextPart(text, true)]), true)
    case Object(_) => AddMarker(content)
    case _ => Edit(content, false)
  }

  function SetField(owner: Value, k: nat, value: Value): Value
    requires owner.Object? && k < |owner.fields|
  {
    Object(owner.fields[k := Field(owner.fields[k].key, value)])
  }

  /** Marks the content of a message if it can be marked, else the message itself. */
  function MarkMessage(message: Value, chunked: bool): Edit<Value>
    requires message.Object?
  {
    var k := Find(message.fields, "content", 0);
    if k.None? || !MarkContent(message.fields[k.value].value, chunked).added then AddMarker(message)
    else Edit(SetField(message, k.value, MarkContent(message.fields[k.value].value, chunked).value), true)
  }

  // ---- Taking markers away ----------------------------------------------------

  function Without(fields: seq<Field>, key: string): seq<Field> {
    if fields == [] then []
    else (if fields[0].key == key then [] else [fields[0]]) + Without(fields[1..], key)
  }

  function Unmark(value: Value): Value {
    if value.Object? then Object(Without(value.fields, MARKER)) else value
  }

  function UnmarkItems(items: seq<Value>): seq<Value> {
    if items == [] then [] else [Unmark(items[0])] + UnmarkItems(items[1..])
  }

  function StripContent(content: Value): Value {
    if content.Array? then Array(UnmarkItems(content.items)) else Unmark(content)
  }

  function StripMessage(message: Value): Value
    requires message.Object?
  {
    var bare := Unmark(message);
    var k := Find(bare.fields, "content", 0);
    if k.None? then bare else SetField(bare, k.value, StripContent(bare.fields[k.value].value))
  }

  // ---- Choosing messages ------------------------------------------------------

  function RoleOf(message: Value): Option<string> {
    var role := Get(message, "role");
    if role.Some? && role.value.String? then Some(role.value.text) else None
  }

  function LastWithRole(messages: seq<Value>, role: string): (k: Option<nat>)
    ensures k.Some? ==> k.value < |messages| && RoleOf(messages[k.value]) == Some(role) && messages[k.value].Object?
    ensures k.None? ==> forall j :: 0 <= j < |messages| ==> RoleOf(messages[j]) != Some(role)
  {
    if messages == [] then None
    else if RoleOf(messages[|messages| - 1]) == Some(role) then Some(|messages| - 1)
    else LastWithRole(messages[..|messages| - 1], role)
  }

  function Users(messages: seq<Value>): (users: seq<nat>)
    ensures forall i :: 0 <= i < |users| ==> users[i] < |messages| && RoleOf(messages[users[i]]) == Some("user")
    ensures forall i, j :: 0 <= i < j < |users| ==> users[i] < users[j]
  {
    if messages == [] then []
    else
      var last := |messages| - 1;
      Users(messages[..last]) + (if RoleOf(messages[last]) == Some("user") then [last] else [])
  }

  /** The last assistant or tool message before the position. */
  function Anchor(messages: seq<Value>, before: nat): (k: Option<nat>)
    requires before <= |messages|
    ensures k.Some? ==> k.value < before && RoleOf(messages[k.value]) in {Some("assistant"), Some("tool")}
  {
    if before == 0 then None
    else if RoleOf(messages[before - 1]) in {Some("assistant"), Some("tool")} then Some(before - 1)
    else Anchor(messages, before - 1)
  }

  function ContentLength(content: Value): nat
    decreases content, 1, 0
  {
    match content
    case String(text) => |text|
    case Array(items) => ItemsLength(content, 0)
    case Object(_) => var text := Get(content, "text"); if text.Some? && text.value.String? then |text.value.text| else 0
    case _ => 0
  }

  function ItemsLength(content: Value, i: nat): nat
    requires content.Array? && i <= |content.items|
    decreases content, 0, |content.items| - i
  {
    if i == |content.items| then 0 else ContentLength(content.items[i]) + ItemsLength(content, i + 1)
  }

  function MessageLength(message: Value): nat {
    var content := Get(message, "content");
    if content.Some? then ContentLength(content.value) else 0
  }

  predicate Within(indices: seq<nat>, n: nat) {
    forall i :: 0 <= i < |indices| ==> indices[i] < n
  }

  /** The longest of these messages, the last one among equals. */
  function Longest(messages: seq<Value>, among: seq<nat>): (k: nat)
    requires among != [] && Within(among, |messages|)
    ensures k in among && k < |messages|
    ensures forall i :: 0 <= i < |among| ==> MessageLength(messages[among[i]]) <= MessageLength(messages[k])
  {
    var last := among[|among| - 1];
    if |among| == 1 then last
    else
      var best := Longest(messages, among[..|among| - 1]);
      if MessageLength(messages[last]) >= MessageLength(messages[best]) then last else best
  }

  predicate HasFence(text: Option<Value>) {
    text.Some? && text.value.String? && Contains(text.value.text, StableSplit.FENCE)
  }

  predicate HasBulkFixture(message: Value) {
    var content := Get(message, "content");
    content.Some? &&
    match content.value
    case String(_) => HasFence(content)
    case Array(items) => exists item <- items :: HasFence(Get(item, "text"))
    case _ => false
  }

  // ---- The user breakpoints ---------------------------------------------------

  /** Messages after some edits, and how many markers were added. */
  datatype Marking = Marking(messages: seq<Value>, applied: nat)

  function MarkAt(m: Marking, k: nat, chunked: bool): (next: Marking)
    requires k < |m.messages|
    ensures |next.messages| == |m.messages| && m.applied <= next.applied <= m.applied + 1
  {
    if !m.messages[k].Object? then m
    else
      var edit := MarkMessage(m.messages[k], chunked);
      Marking(m.messages[k := edit.value], m.applied + (if edit.added then 1 else 0))
  }

  function StripAt(m: Marking, k: nat): (next: Marking)
    requires k < |m.messages|
    ensures |next.messages| == |m.messages| && m.applied == next.applied
  {
    if m.messages[k].Object? then m.(messages := m.messages[k := StripMessage(m.messages[k])]) else m
  }

  predicate ShortFollowup(messages: seq<Value>, users: seq<nat>)
    requires users != [] && Within(users, |messages|)
  {
    var last := users[|users| - 1];
    && |users| > 1 && MessageLength(messages[last]) <= SHORT_FOLLOWUP_MAX
    && !HasBulkFixture(messages[Longest(messages, users)]) && !HasBulkFixture(messages[last])
  }

  /** The opening user message stays pinned in a conversation of several turns. */
  function PinOpening(m: Marking, users: seq<nat>): (next: Marking)
    requires users != [] && Within(users, |m.messages|)
    ensures |next.messages| == |m.messages| && m.applied <= next.applied <= m.applied + 1
  {
    if |users| > 1 && users[0] != users[|users| - 1] then MarkAt(m, users[0], true) else m
  }

  /** Then a short follow-up is marked itself; before a long one its anchor is. */
  function MarkTurn(m: Marking, users: seq<nat>, short: bool): (next: Marking)
    requires users != [] && Within(users, |m.messages|)
    ensures |next.messages| == |m.messages| && m.applied <= next.applied <= m.applied + 1
  {
    var last := users[|users| - 1];
    if |users| <= 1 then m
    else if short then MarkAt(m, last, false)
    else
      var anchor := Anchor(m.messages, last);
      StripAt(if anchor.Some? then MarkAt(m, anchor.value, false) else m, last)
  }

  predicate MarksPrimary(users: seq<nat>, primary: nat, short: bool)
    requires users != []
  {
    |users| == 1 || (primary != users[|users| - 1] && primary != users[0] && !short)
  }

  function MarkUsers(messages: seq<Value>, budget: nat): (m: Marking)
    ensures |m.messages| == |messages| && m.applied <= budget
  {
    var users := Users(messages);
    if users == [] || budget == 0 then Marking(messages, 0)
    else
      var primary := Longest(messages, users);
      var short := ShortFollowup(messages, users);
      var pinned := PinOpening(Marking(messages, 0), users);
      var turned := if pinned.applied < budget then MarkTurn(pinned, users, short) else pinned;
      if turned.applied < budget && MarksPrimary(users, primary, short)
      then MarkAt(turned, primary, true) else turned
  }

  // ---- The whole body ---------------------------------------------------------

  function MarkSystem(messages: seq<Value>): (m: Marking)
    ensures |m.messages| == |messages| && m.applied <= 1
  {
    var k := LastWithRole(messages, "system");
    if k.None? then Marking(messages, 0) else MarkAt(Marking(messages, 0), k.value, false)
  }

  function MarkMessages(messages: seq<Value>, budget: nat): (m: Marking)
    requires budget > 0
    ensures |m.messages| == |messages| && m.applied <= budget
  {
    var system := MarkSystem(messages);
    var users := MarkUsers(system.messages, budget - system.applied);
    Marking(users.messages, system.applied + users.applied)
  }

  /** The position of a field that holds an array. */
  function ArrayField(body: Value, key: string): (k: Option<nat>)
    ensures k.Some? ==> body.Object? && k.value < |body.fields| && body.fields[k.value].key == key
    ensures k.Some? ==> body.fields[k.value].value.Array?
  {
    if !body.Object? then None
    else
      var k := Find(body.fields, key, 0);
      if k.Some? && body.fields[k.value].value.Array? then k else None
  }

  function MarkTools(body: Value): Edit<Value> {
    var k := ArrayField(body, "tools");
    if k.None? then Edit(body, false)
    else
      var edit := MarkLastObject(body.fields[k.value].value.items);
      Edit(SetField(body, k.value, Array(edit.value)), edit.added)
  }

  datatype MarkedTree = MarkedTree(body: Value, applied: nat)

  function MarkBody(body: Value, flash: bool): (m: MarkedTree)
    ensures m.applied <= MAX_BREAKPOINTS
  {
    if !flash then MarkedTree(body, 0)
    else
      var tools := MarkTools(body);
      var applied := if tools.added then 1 else 0;
      var k := ArrayField(tools.value, "messages");
      if k.None? then MarkedTree(tools.value, applied)
      else
        var m := MarkMessages(tools.value.fields[k.value].value.items, MAX_BREAKPOINTS - applied);
        MarkedTree(SetField(tools.value, k.value, Array(m.messages)), applied + m.applied)
  }

  // ---- Editing the message list in place --------------------------------------

  method AddToLastRole(messages: array<Value>, role: string) returns (added: bool)
    modifies messages
    ensures var k := LastWithRole(old(messages[..]), role);
      if k.None? then messages[..] == old(messages[..]) && !added
      else var edit := MarkMessage(old(messages[..])[k.value], false);
        messages[..] == old(messages[..])[k.value := edit.value] && added == edit.added
  {
    hide RoleOf, MarkMessage;
    var i := messages.Length;
    assert messages[..i] == messages[..];
    while i > 0
      invariant i <= messages.Length && messages[..] == old(messages[..])
      invariant LastWithRole(messages[..i], role) == LastWithRole(messages[..], role)
    {
      i := i - 1;
      assert messages[..i + 1][..i] == messages[..i];
      if RoleOf(messages[i]) == Some(role) {
        var edit := MarkMessage(messages[i], false);
        messages[i], added := edit.value, edit.added;
        return;
      }
    }
    added := false;
  }

  method UserIndices(messages: array<Value>) returns (users: seq<nat>)
    ensures users == Users(messages[..])
  {
    hide RoleOf;
    users := [];
    for i := 0 to messages.Length
      invariant users == Users(messages[..i])
    {
      assert messages[..i + 1][..i] == messages[..i];
      if RoleOf(messages[i]) == Some("user") { users := users + [i]; }
    }
    assert messages[..messages.Length] == messages[..];
  }

  method MarkInPlace(messages: array<Value>, k: nat, chunked: bool, applied: nat) returns (more: nat)
    requires k < messages.Length
    modifies messages
    ensures Marking(messages[..], more) == MarkAt(Marking(old(messages[..]), applied), k, chunked)
  {
    hide MarkMessage;
    more := applied;
    if messages[k].Object? {
      var edit := MarkMessage(messages[k], chunked);
      messages[k] := edit.value;
      if edit.added { more := more + 1; }
    }
  }

  method MarkTurnInPlace(messages: array<Value>, users: seq<nat>, short: bool, applied: nat) returns (more: nat)
    requires users != [] && Within(users, messages.Length)
    modifies messages
    ensures Marking(messages[..], more) == MarkTurn(Marking(old(messages[..]), applied), users, short)
  {
    hide MarkAt, Anchor, StripMessage;
    more := applied;
    var last := users[|users| - 1];
    if |users| <= 1 { return; }
    if short {
      more := MarkInPlace(messages, last, false, applied);
      return;
    }
    var anchor := Anchor(messages[..], last);
    if anchor.Some? { more := MarkInPlace(messages, anchor.value, false, applied); }
    if messages[last].Object? { messages[last] := StripMessage(messages[last]); }
  }

  method ApplyUserBreakpoints(messages: array<Value>, budget: nat) returns (applied: nat)
    modifies messages
    ensures Marking(messages[..], applied) == MarkUsers(old(messages[..]), budget)
  {
    hide Users, Longest, ShortFollowup, MarkTurn, MarkAt;
    applied := 0;
    var users := UserIndices(messages);
    if users == [] || budget == 0 { return; }
    var primary := Longest(messages[..], users);
    var short := ShortFollowup(messages[..], users);
    if |users| > 1 && users[0] != users[|users| - 1] {
      applied := MarkInPlace(messages, users[0], true, 0);
    }
    if applied < budget {
      applied := MarkTurnInPlace(messages, users, short, applied);
    }
    if applied < budget && MarksPrimary(users, primary, short) {
      applied := MarkInPlace(messages, primary, true, applied);
    }
  }

  method ApplyToMessages(messages: array<Value>, budget: nat) returns (applied: nat)
    requires budget > 0
    modifies messages
    ensures Marking(messages[..], applied) == MarkMessages(old(messages[..]), budget)
  {
    hide MarkUsers, MarkMessage;
    var added := AddToLastRole(messages, "system");
    applied := if added then 1 else 0;
    var users := ApplyUserBreakpoints(messages, budget - applied);
    applied := applied + users;
  }

  method ApplyStableBreakpoints(body: Value, flash: bool) returns (marked: Value, applied: nat)
    ensures MarkedTree(marked, applied) == MarkBody(body, flash)
    ensures !flash ==> marked == body && applied == 0
  {
    hide MarkTools, MarkMessages, ArrayField;
    if !flash { return body, 0; }
    var tools := MarkTools(body);
    marked, applied := tools.value, if tools.added then 1 else 0;
    var k := ArrayField(marked, "messages");
    if k.None? { return; }
    var items := marked.fields[k.value].value.items;
    var messages := new Value[|items|](i requires 0 <= i < |items| => items[i]);
    assert messages[..] == items;
    var more := ApplyToMessages(messages, MAX_BREAKPOINTS - applied);
    marked, applied := SetField(marked, k.value, Array(messages[..])), applied + more;
  }
}
