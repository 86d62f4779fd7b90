/**
  Which messages of a body carry a cache marker afterwards (canonical/mod.rs): the
  one user message of a first turn, the longest one of a long conversation, the last
  tool and the last system message.
*/
module CacheUserMarks {
  import opened Utf8Text
  import opened Json
  import opened MarkerPaths
  import opened MarkerPathLaws
  import opened CacheBreakpoints
  import opened CacheMarkerCount
  import opened CacheReading
  import opened CacheBreakpointLaws
  import StableSplit

  // ---- The user messages ------------------------------------------------------

  predicate IsUser(message: Value) {
    RoleOf(message) == Some("user")
  }

  lemma {:induction false} UsersExactly(messages: seq<Value>, k: nat)
    ensures k in Users(messages) <==> k < |messages| && IsUser(messages[k])
  {
    hide RoleOf;
    if messages != [] {
      var last := |messages| - 1;
      UsersExactly(messages[..last], k);
    }
  }

  /** The first user message. */
  ghost predicate IsFirst(messages: seq<Value>, k: nat) {
    k < |messages| && IsUser(messages[k]) && forall i :: 0 <= i < k ==> !IsUser(messages[i])
  }

  /** The last one. */
  ghost predicate IsLast(messages: seq<Value>, k: nat) {
    k < |messages| && IsUser(messages[k]) && forall i :: k < i < |messages| ==> !IsUser(messages[i])
  }

  /** The longest one, the last among equals. */
  ghost predicate IsPrimary(messages: seq<Value>, k: nat) {
    && k < |messages| && IsUser(messages[k])
    && forall i :: 0 <= i < |messages| && IsUser(messages[i]) ==>
         && MessageLength(messages[i]) <= MessageLength(messages[k])
         && (i > k ==> MessageLength(messages[i]) < MessageLength(messages[k]))
  }

  /** The conversation ends in a short follow-up. */
  predicate EndsShort(messages: seq<Value>) {
    Users(messages) != [] && ShortFollowup(messages, Users(messages))
  }

  lemma EndsOfUsers(messages: seq<Value>, first: nat, last: nat)
    requires IsFirst(messages, first) && IsLast(messages, last)
    ensures var users := Users(messages); users != [] && users[0] == first && users[|users| - 1] == last
  {
    hide Users, IsUser;
    var users := Users(messages);
    UsersExactly(messages, first);
    UsersExactly(messages, last);
    forall i | 0 <= i < |users|
      ensures IsUser(messages[users[i]])
    {
      UsersExactly(messages, users[i]);
    }
    var i :| 0 <= i < |users| && users[i] == first;
    var j :| 0 <= j < |users| && users[j] == last;
  }

  lemma {:induction false} LongestIs(messages: seq<Value>, among: seq<nat>, p: nat)
    requires among != [] && Within(among, |messages|) && p in among
    requires forall i, j :: 0 <= i < j < |among| ==> among[i] < among[j]
    requires forall i :: 0 <= i < |among| ==>
      && MessageLength(messages[among[i]]) <= MessageLength(messages[p])
      && (among[i] > p ==> MessageLength(messages[among[i]]) < MessageLength(messages[p]))
    ensures Longest(messages, among) == p
  {
    hide MessageLength;
    var front, last := among[..|among| - 1], among[|among| - 1];
    if |among| > 1 {
      if last == p {
        assert forall i :: 0 <= i < |front| ==> MessageLength(messages[front[i]]) <= MessageLength(messages[p]);
      } else {
        assert p in front;
        LongestIs(messages, front, p);
      }
    }
  }

  lemma PrimaryIsLongest(messages: seq<Value>, p: nat)
    requires IsPrimary(messages, p)
    ensures Users(messages) != [] && Longest(messages, Users(messages)) == p
  {
    hide Users, IsUser, MessageLength;
    var users := Users(messages);
    UsersExactly(messages, p);
    forall i | 0 <= i < |users|
      ensures IsUser(messages[users[i]])
    {
      UsersExactly(messages, users[i]);
    }
    LongestIs(messages, users, p);
  }

  // ---- One marker on one message ----------------------------------------------

  lemma MarkedOnce(m: Marking, k: nat, chunked: bool)
    requires k < |m.messages| && Count(m.messages[k]) == 0 && m.messages[k].Object?
    ensures var next := MarkAt(m, k, chunked);
      && Count(next.messages[k]) == 1 && next.applied == m.applied + 1
      && forall i :: 0 <= i < |m.messages| && i != k ==> next.messages[i] == m.messages[i]
  {
    hide Count, MarkMessage;
    MarkMessageCounts(m.messages[k], chunked);
  }

  lemma UserIsObject(message: Value)
    requires RoleOf(message).Some?
    ensures message.Object?
  {
  }

  /** In a first turn the one user message is marked, and nothing else of the list. */
  lemma SingleTurnIsMarked(messages: seq<Value>, budget: nat, k: nat)
    requires IsFirst(messages, k) && IsLast(messages, k) && Count(messages[k]) == 0 && budget > 0
    ensures var out := MarkUsers(messages, budget).messages;
      && Count(out[k]) == 1
      && forall i :: 0 <= i < |messages| && i != k ==> out[i] == messages[i]
  {
    hide Count, Users, Longest, ShortFollowup, RoleOf, MarkAt, PinOpening, MarkTurn;
    var users := Users(messages);
    EndsOfUsers(messages, k, k);
    assert |users| == 1;
    UserIsObject(messages[k]);
    SingleParts(messages, users, budget);
    MarkedOnce(Marking(messages, 0), k, true);
  }

  lemma SingleParts(messages: seq<Value>, users: seq<nat>, budget: nat)
    requires users == Users(messages) && |users| == 1 && budget > 0
    ensures MarkUsers(messages, budget) == MarkAt(Marking(messages, 0), users[0], true)
  {
    hide Users, MarkAt, ShortFollowup;
    assert Longest(messages, users) in users;
  }

  // ---- A long conversation ----------------------------------------------------

  /** What the opening and the turn leave of the messages that they do not mark. */
  lemma TurnLeaves(messages: seq<Value>, first: nat, last: nat)
    requires IsFirst(messages, first) && IsLast(messages, last) && first < last && UsersAreClear(messages)
    ensures var users := Users(messages);
      && |users| > 1 && users[0] == first && users[|users| - 1] == last
      && var turned := MarkTurn(PinOpening(Marking(messages, 0), users), users, false);
        && turned.applied <= 2 && Count(turned.messages[first]) == 1
        && forall i :: 0 <= i < |messages| && IsUser(messages[i]) && i != first ==> turned.messages[i] == messages[i]
  {
    hide Count, Users, RoleOf, MarkAt, Anchor, StripMessage;
    var users := Users(messages);
    EndsOfUsers(messages, first, last);
    UserIsObject(messages[first]);
    UserIsObject(messages[last]);
    MarkedOnce(Marking(messages, 0), first, true);
    var pinned := PinOpening(Marking(messages, 0), users);
    var anchor := Anchor(pinned.messages, last);
    if anchor.Some? {
      AnchorIsNoUserThere(messages, pinned.messages, first, anchor.value);
      MarkAtElsewhere(pinned, anchor.value);
    }
    StripClear(messages[last]);
  }

  lemma AnchorIsNoUserThere(messages: seq<Value>, pinned: seq<Value>, first: nat, k: nat)
    requires first < |messages| == |pinned| && k < |messages|
    requires pinned == MarkAt(Marking(messages, 0), first, true).messages
    requires IsUser(messages[first]) && RoleOf(pinned[k]) in {Some("assistant"), Some("tool")}
    ensures k != first && !IsUser(messages[k])
  {
    hide RoleOf, MarkMessage, ReadMessage;
    UserIsObject(messages[first]);
    MarkMessageReads(messages[first], true);
  }

  lemma MarkAtElsewhere(m: Marking, k: nat)
    requires k < |m.messages|
    ensures forall i :: 0 <= i < |m.messages| && i != k ==> MarkAt(m, k, false).messages[i] == m.messages[i]
  {
    hide MarkMessage;
  }

  /**
    With a budget of three the longest user message of a conversation that does not
    end in a short follow-up is marked, besides the opening one; no other is touched.
  */
  lemma PrimaryIsMarked(messages: seq<Value>, budget: nat, first: nat, last: nat, p: nat)
    requires IsFirst(messages, first) && IsLast(messages, last) && IsPrimary(messages, p) && p != first && p != last
    requires UsersAreClear(messages) && !EndsShort(messages) && budget >= 3
    ensures var out := MarkUsers(messages, budget).messages;
      && Count(out[p]) == 1 && Count(out[first]) == 1
      && forall i :: 0 <= i < |messages| && IsUser(messages[i]) && i != first && i != p ==> out[i] == messages[i]
  {
    hide Count, Users, RoleOf, MarkAt, PinOpening, MarkTurn, EndsShort, Longest, MarkUsers, UsersAreClear, MessageLength;
    var users := Users(messages);
    TurnLeaves(messages, first, last);
    PrimaryParts(messages, budget, first, last, p);
    UserIsObject(messages[p]);
    PrimaryWasClear(messages, p);
    MarkedOnce(MarkTurn(PinOpening(Marking(messages, 0), users), users, false), p, true);
  }

  lemma PrimaryWasClear(messages: seq<Value>, p: nat)
    requires UsersAreClear(messages) && p < |messages| && IsUser(messages[p])
    ensures Count(messages[p]) == 0
  {
    hide Count, RoleOf;
  }

  lemma PrimaryParts(messages: seq<Value>, budget: nat, first: nat, last: nat, p: nat)
    requires IsFirst(messages, first) && IsLast(messages, last) && IsPrimary(messages, p) && p != first && p != last
    requires !EndsShort(messages) && budget >= 3
    ensures var users := Users(messages);
      && users != []
      && MarkUsers(messages, budget) == MarkAt(MarkTurn(PinOpening(Marking(messages, 0), users), users, false), p, true)
  {
    hide Users, IsUser, MarkAt, PinOpening, MarkTurn, ShortFollowup, Longest, MessageLength;
    EndsOfUsers(messages, first, last);
    PrimaryIsLongest(messages, p);
    if first == last { OnlyUser(messages, first, p); }
  }

  lemma OnlyUser(messages: seq<Value>, k: nat, p: nat)
    requires IsFirst(messages, k) && IsLast(messages, k) && p < |messages| && IsUser(messages[p])
    ensures p == k
  {
    hide IsUser;
  }

  // ---- What counts as a short follow-up ---------------------------------------

  /** For messages that are plain texts: the last one is at most 8192 bytes long, and neither it nor the longest holds a Rust fence. */
  lemma ShortExactly(messages: seq<Value>, first: nat, last: nat, p: nat, lastText: string, longText: string)
    requires IsFirst(messages, first) && IsLast(messages, last) && IsPrimary(messages, p) && first < last
    requires Get(messages[last], "content") == Some(String(lastText))
    requires Get(messages[p], "content") == Some(String(longText))
    ensures EndsShort(messages)
      <==> |lastText| <= 8192 && !Contains(lastText, "```rust") && !Contains(longText, "```rust")
  {
    hide Users, RoleOf, Longest, Contains, Find;
    EndsOfUsers(messages, first, last);
    PrimaryIsLongest(messages, p);
  }

  // ---- Where the marker of a text goes ----------------------------------------

  /** A text part of a content list. */
  function Part(text: string): seq<Field> {
    [Field("type", String("text")), Field("text", String(text))]
  }

  const CACHED: seq<Field> := [Field("cache_control", Object([Field("type", String("ephemeral"))]))]

  /** A user text that is cut has its marker on the stable part, which comes first; one that is not cut is one marked part. */
  lemma StablePartIsMarked(text: string)
    ensures MarkContent(String(text), true)
         == Edit(Array(if StableSplit.Cut(text).None? then [Object(Part(text) + CACHED)]
                       else [Object(Part(text[..StableSplit.Cut(text).value]) + CACHED),
                             Object(Part(text[StableSplit.Cut(text).value..]))]),
                 true)
    ensures MarkContent(String(text), false) == Edit(Array([Object(Part(text) + CACHED)]), true)
  {
    hide StableSplit.Cut;
    forall t: string
      ensures Part(t) + [] == Part(t)
    {
    }
    assert MARKER == "cache_control";
  }

  /** In a list of parts the marker goes behind the fields of the last part that is an object. */
  lemma LastPartIsMarked(items: seq<Value>, k: nat, chunked: bool)
    requires k < |items| && items[k].Object? && !Marked(items[k])
    requires forall j :: k < j < |items| ==> !items[j].Object?
    ensures MarkContent(Array(items), chunked) == Edit(Array(items[k := Object(items[k].fields + CACHED)]), true)
  {
    hide Marked;
    assert LastObject(items) == Some(k);
    assert MARKER == "cache_control";
  }

  // ---- Whole bodies -----------------------------------------------------------

  /** The messages of a body. */
  function MessagesOf(body: Value): seq<Value> {
    var k := ArrayField(body, "messages");
    if k.None? then [] else body.fields[k.value].value.items
  }

  function ToolsOf(body: Value): seq<Value> {
    var k := ArrayField(body, "tools");
    if k.None? then [] else body.fields[k.value].value.items
  }

  /** What is left of the four markers for the messages. */
  function Left(body: Value): (budget: nat)
    ensures 3 <= budget <= 4
  {
    if exists tool <- ToolsOf(body) :: tool.Object? then 3 else 4
  }

  /** The last system message. */
  ghost predicate IsLastSystem(messages: seq<Value>, k: nat) {
    && k < |messages| && RoleOf(messages[k]) == Some("system")
    && forall i :: k < i < |messages| ==> RoleOf(messages[i]) != Some("system")
  }

  lemma ToolsAdd(body: Value)
    requires Count(body) == 0
    ensures MarkTools(body).added <==> exists tool <- ToolsOf(body) :: tool.Object?
    ensures Left(body) == MAX_BREAKPOINTS - (if MarkTools(body).added then 1 else 0)
  {
    hide Count, ArrayField, AddMarker;
    var k := ArrayField(body, "tools");
    if k.Some? {
      var items := body.fields[k.value].value.items;
      FieldInside(body, k.value);
      var last := LastObject(items);
      if last.Some? {
        ItemInside(items, last.value);
        ClearIsMarked(items[last.value]);
        assert items[last.value] in ToolsOf(body);
      }
    }
  }

  lemma ClearIsMarked(item: Value)
    requires item.Object? && Count(item) == 0
    ensures AddMarker(item).added && Count(AddMarker(item).value) == 1 && !Marked(item)
  {
    hide Marked, Count, AddMarker;
    AddMarkerCounts(item);
    CountUnfold(item);
    assert AddMarker(item).added <==> !Marked(item) by { AddMarkerAdds(item); }
  }

  lemma AddMarkerAdds(item: Value)
    requires item.Object?
    ensures AddMarker(item).added <==> !Marked(item)
  {
    hide Marked;
  }

  /** The messages of a marked body are its messages, marked with what is left of the budget. */
  lemma BodyMarksMessages(body: Value)
    requires Count(body) == 0 && ArrayField(body, "messages").Some?
    ensures MessagesOf(MarkBody(body, true).body) == MarkMessages(MessagesOf(body), Left(body)).messages
    ensures Count(Array(MessagesOf(body))) == 0
  {
    hide Count, MarkTools, MarkMessages, ReadBody, Find, Left;
    ToolsAdd(body);
    MarkToolsReads(body);
    var k := ArrayField(body, "messages").value;
    FieldInside(body, k);
    var tools := MarkTools(body).value;
    var m := MarkMessages(tools.fields[k].value.items, Left(body));
    FindIgnoresValues(tools.fields, k, Array(m.messages), "messages", 0);
  }

  lemma SystemParts(messages: seq<Value>, s: nat)
    requires IsLastSystem(messages, s)
    ensures LastWithRole(messages, "system") == Some(s)
  {
    hide RoleOf;
    LastSystemIs(messages, s);
  }

  lemma {:induction false} LastSystemIs(messages: seq<Value>, s: nat)
    requires IsLastSystem(messages, s)
    ensures LastWithRole(messages, "system") == Some(s)
  {
    hide RoleOf;
    if s < |messages| - 1 { LastSystemIs(messages[..|messages| - 1], s); }
  }

  /** Marking the system message changes no user message and takes one marker if there is a system message. */
  lemma SystemLeavesUsers(messages: seq<Value>)
    requires Count(Array(messages)) == 0
    ensures var out := MarkSystem(messages);
      && out.applied <= 1
      && (out.applied == 1 <==> exists k :: 0 <= k < |messages| && RoleOf(messages[k]) == Some("system"))
      && forall i :: 0 <= i < |messages| ==>
           && RoleOf(out.messages[i]) == RoleOf(messages[i])
           && (RoleOf(messages[i]) != Some("system") ==> out.messages[i] == messages[i])
           && (IsLastSystem(messages, i) ==> Count(out.messages[i]) == 1)
  {
    hide Count, RoleOf, MarkAt, LastWithRole, ReadMessage;
    var k := LastWithRole(messages, "system");
    if k.Some? {
      ItemInside(messages, k.value);
      MarkedOnce(Marking(messages, 0), k.value, false);
      SystemKeepsRole(messages, k.value);
    }
    forall i | 0 <= i < |messages| && IsLastSystem(messages, i)
      ensures k == Some(i)
    {
      SystemParts(messages, i);
    }
  }

  lemma SystemKeepsRole(messages: seq<Value>, k: nat)
    requires k < |messages| && messages[k].Object?
    ensures RoleOf(MarkAt(Marking(messages, 0), k, false).messages[k]) == RoleOf(messages[k])
  {
    hide RoleOf, MarkMessage, ReadMessage;
    MarkMessageReads(messages[k], false);
  }

  lemma UsersStayClear(messages: seq<Value>)
    requires Count(Array(messages)) == 0
    ensures UsersAreClear(MarkSystem(messages).messages)
    ensures forall i :: 0 <= i < |messages| ==> Count(messages[i]) == 0
  {
    hide Count, RoleOf, MarkSystem;
    SystemLeavesUsers(messages);
    forall i | 0 <= i < |messages|
      ensures Count(messages[i]) == 0
    {
      ItemInside(messages, i);
    }
  }

  /** A first turn is cached: its one user message carries a marker in the body that goes out. */
  lemma SingleTurnOfBody(body: Value, k: nat)
    requires Count(body) == 0 && ArrayField(body, "messages").Some?
    requires IsFirst(MessagesOf(body), k) && IsLast(MessagesOf(body), k)
    ensures k < |MessagesOf(MarkBody(body, true).body)| && Count(MessagesOf(MarkBody(body, true).body)[k]) == 1
  {
    hide Count, RoleOf, MarkUsers, MarkSystem, MarkBody, MessagesOf, Left, ArrayField;
    var messages := MessagesOf(body);
    BodyMarksMessages(body);
    SystemLeavesUsers(messages);
    UsersStayClear(messages);
    var system := MarkSystem(messages);
    SingleTurnIsMarked(system.messages, Left(body) - system.applied, k);
  }

  /** The last system message carries one marker in the body that goes out. */
  lemma SystemOfBody(body: Value, s: nat)
    requires Count(body) == 0 && ArrayField(body, "messages").Some? && IsLastSystem(MessagesOf(body), s)
    ensures s < |MessagesOf(MarkBody(body, true).body)| && Count(MessagesOf(MarkBody(body, true).body)[s]) == 1
  {
    hide Count, RoleOf, MarkUsers, MarkSystem, MarkBody, MessagesOf, Left, ArrayField;
    var messages := MessagesOf(body);
    BodyMarksMessages(body);
    SystemLeavesUsers(messages);
    UsersStayClear(messages);
    var system := MarkSystem(messages);
    UsersLeaveSystem(system.messages, Left(body) - system.applied, s);
  }

  /** The user edits touch user messages and the anchor before the last one, an assistant or tool message. */
  lemma UsersLeaveSystem(messages: seq<Value>, budget: nat, s: nat)
    requires UsersAreClear(messages) && s < |messages| && RoleOf(messages[s]) == Some("system")
    ensures MarkUsers(messages, budget).messages[s] == messages[s]
  {
    hide Count, RoleOf, Longest, ShortFollowup, StripMessage, MarkMessage, Users, Anchor, UsersAreClear;
    var users := Users(messages);
    if users != [] && budget > 0 {
      var pinned := PinOpening(Marking(messages, 0), users);
      assert pinned.messages[s] == messages[s];
      var anchor := Anchor(pinned.messages, users[|users| - 1]);
      assert anchor.Some? ==> anchor.value != s;
    }
  }

  /**
    In a long conversation the longest user message is marked as well, unless both a
    tool and a system message have taken a marker.
  */
  lemma PrimaryOfBody(body: Value, first: nat, last: nat, p: nat)
    requires Count(body) == 0 && ArrayField(body, "messages").Some?
    requires IsFirst(MessagesOf(body), first) && IsLast(MessagesOf(body), last) && IsPrimary(MessagesOf(body), p)
    requires p != first && p != last && !EndsShort(MessagesOf(body))
    requires Left(body) == 4 || forall m <- MessagesOf(body) :: RoleOf(m) != Some("system")
    ensures p < |MessagesOf(MarkBody(body, true).body)| && Count(MessagesOf(MarkBody(body, true).body)[p]) == 1
  {
    hide Count, RoleOf, MarkUsers, MarkSystem, MarkBody, MessagesOf, Left, ArrayField, ShortFollowup, Users, MessageLength;
    var messages := MessagesOf(body);
    BodyMarksMessages(body);
    SystemLeavesUsers(messages);
    UsersStayClear(messages);
    var system := MarkSystem(messages);
    assert forall i :: 0 <= i < |messages| && IsUser(messages[i]) ==> system.messages[i] == messages[i];
    SameUsers(messages, system.messages);
    assert Left(body) - system.applied >= 3 by { if system.applied == 1 { assert exists m <- messages :: RoleOf(m) == Some("system"); } }
    PrimaryIsMarked(system.messages, Left(body) - system.applied, first, last, p);
  }

  lemma SameUsers(a: seq<Value>, b: seq<Value>)
    requires |a| == |b| && forall i :: 0 <= i < |a| ==> RoleOf(b[i]) == RoleOf(a[i]) && (IsUser(a[i]) ==> b[i] == a[i])
    ensures Users(b) == Users(a)
    ensures EndsShort(b) == EndsShort(a)
  {
    hide RoleOf, MessageLength, HasBulkFixture;
    UsersByRole(a, b);
    if Users(a) != [] { SameLongest(a, b, Users(a)); }
  }

  lemma {:induction false} UsersByRole(a: seq<Value>, b: seq<Value>)
    requires |a| == |b| && forall i :: 0 <= i < |a| ==> RoleOf(b[i]) == RoleOf(a[i])
    ensures Users(b) == Users(a)
  {
    hide RoleOf;
    if a != [] { UsersByRole(a[..|a| - 1], b[..|b| - 1]); }
  }

  lemma {:induction false} SameLongest(a: seq<Value>, b: seq<Value>, among: seq<nat>)
    requires |a| == |b| && among != [] && Within(among, |a|)
    requires forall i :: 0 <= i < |among| ==> b[among[i]] == a[among[i]]
    ensures Longest(b, among) == Longest(a, among)
  {
    hide MessageLength;
    if |among| > 1 { SameLongest(a, b, among[..|among| - 1]); }
  }

  /** The last tool that is an object carries one marker in the body that goes out, and no other tool is touched. */
  lemma ToolOfBody(body: Value, t: nat)
    requires Count(body) == 0 && t < |ToolsOf(body)| && ToolsOf(body)[t].Object?
    requires forall i :: t < i < |ToolsOf(body)| ==> !ToolsOf(body)[i].Object?
    ensures var tools := ToolsOf(MarkBody(body, true).body);
      && |tools| == |ToolsOf(body)| && Count(tools[t]) == 1
      && forall i :: 0 <= i < |tools| && i != t ==> tools[i] == ToolsOf(body)[i]
  {
    hide Count, MarkMessages, AddMarker, Find;
    var k := ArrayField(body, "tools").value;
    var items := body.fields[k].value.items;
    FieldInside(body, k);
    ItemInside(items, t);
    ClearIsMarked(items[t]);
    assert LastObject(items) == Some(t);
    var marked := Array(MarkLastObject(items).value);
    var tools := MarkTools(body).value;
    FindIgnoresValues(body.fields, k, marked, "tools", 0);
    var j := ArrayField(tools, "messages");
    if j.Some? {
      var m := MarkMessages(tools.fields[j.value].value.items, MAX_BREAKPOINTS - (if MarkTools(body).added then 1 else 0));
      FindIgnoresValues(tools.fields, j.value, Array(m.messages), "tools", 0);
    }
  }
}
