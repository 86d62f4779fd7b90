/**
  What placing cache markers keeps (canonical/mod.rs): as many markers as are
  reported, at most four, and a body that says what it said before.
*/
module CacheBreakpointLaws {
  import opened Utf8Text
  import opened Json
  import opened MarkerPaths
  import opened CacheBreakpoints
  import opened CacheMarkerCount
  import opened CacheReading

  // ---- Message lists ----------------------------------------------------------

  /** The edits so far: every marker is accounted for, and every message says what it said. */
  ghost predicate Faithful(before: seq<Value>, m: Marking) {
    && |m.messages| == |before|
    && Count(Array(m.messages)) == Count(Array(before)) + m.applied
    && forall i :: 0 <= i < |before| ==> SaysTheSame(before[i], m.messages[i])
  }

  predicate SaysTheSame(before: Value, after: Value) {
    ReadMessage(after) == ReadMessage(before) && RoleOf(after) == RoleOf(before)
  }

  lemma MarkAtIsFaithful(before: seq<Value>, m: Marking, k: nat, chunked: bool)
    requires Faithful(before, m) && k < |m.messages|
    ensures Faithful(before, MarkAt(m, k, chunked))
    ensures forall i :: 0 <= i < |before| && i != k ==> MarkAt(m, k, chunked).messages[i] == m.messages[i]
  {
    hide Count, ReadMessage, RoleOf, MarkMessage;
    if m.messages[k].Object? {
      var edit := MarkMessage(m.messages[k], chunked);
      MarkMessageCounts(m.messages[k], chunked);
      CountSetItem(m.messages, k, edit.value);
      MarkMessageReads(m.messages[k], chunked);
    }
  }

  lemma StripAtIsFaithful(before: seq<Value>, m: Marking, k: nat)
    requires Faithful(before, m) && k < |m.messages| && Count(m.messages[k]) == 0
    ensures Faithful(before, StripAt(m, k))
  {
    hide Count, ReadMessage, RoleOf, StripMessage;
    if m.messages[k].Object? {
      StripClear(m.messages[k]);
      assert m.messages[k := m.messages[k]] == m.messages;
    }
  }

  lemma MarkTurnIsFaithful(before: seq<Value>, m: Marking, users: seq<nat>, short: bool)
    requires users != [] && Within(users, |m.messages|) && Faithful(before, m)
    requires Count(m.messages[users[|users| - 1]]) == 0
    ensures Faithful(before, MarkTurn(m, users, short))
  {
    hide Count, Faithful, MarkAt, StripAt;
    var last := users[|users| - 1];
    if |users| > 1 {
      if short {
        MarkAtIsFaithful(before, m, last, false);
      } else {
        var anchor := Anchor(m.messages, last);
        var marked := if anchor.Some? then MarkAt(m, anchor.value, false) else m;
        if anchor.Some? {
          MarkAtIsFaithful(before, m, anchor.value, false);
          MarkElsewhere(m, anchor.value, last);
        }
        StripAtIsFaithful(before, marked, last);
      }
    }
  }

  lemma MarkElsewhere(m: Marking, k: nat, i: nat)
    requires k < |m.messages| && i < |m.messages| && i != k
    ensures MarkAt(m, k, false).messages[i] == m.messages[i]
    ensures MarkAt(m, k, true).messages[i] == m.messages[i]
  {
  }

  lemma NothingYet(messages: seq<Value>)
    ensures Faithful(messages, Marking(messages, 0))
  {
    hide Count, ReadMessage, RoleOf;
  }

  lemma MarkUsersIsFaithful(messages: seq<Value>, budget: nat)
    requires forall k :: 0 <= k < |messages| && RoleOf(messages[k]) == Some("user") ==> Count(messages[k]) == 0
    ensures Faithful(messages, MarkUsers(messages, budget))
  {
    hide Count, Faithful, MarkAt, MarkTurn, Longest, ShortFollowup, RoleOf;
    NothingYet(messages);
    var users := Users(messages);
    if users == [] || budget == 0 { return; }
    var start := Marking(messages, 0);
    var last := users[|users| - 1];
    var pinned := PinOpening(start, users);
    if |users| > 1 && users[0] != last {
      MarkAtIsFaithful(messages, start, users[0], true);
      MarkElsewhere(start, users[0], last);
    }
    var short := ShortFollowup(messages, users);
    if pinned.applied < budget { MarkTurnIsFaithful(messages, pinned, users, short); }
    var turned := if pinned.applied < budget then MarkTurn(pinned, users, short) else pinned;
    var primary := Longest(messages, users);
    if turned.applied < budget && MarksPrimary(users, primary, short) {
      MarkAtIsFaithful(messages, turned, primary, true);
    }
  }

  lemma FaithfulTwice(a: seq<Value>, b: Marking, c: Marking)
    requires Faithful(a, b) && Faithful(b.messages, c)
    ensures Faithful(a, Marking(c.messages, b.applied + c.applied))
  {
    hide Count, ReadMessage, RoleOf;
  }

  lemma MarkMessagesIsFaithful(messages: seq<Value>, budget: nat)
    requires budget > 0 && Count(Array(messages)) == 0
    ensures Faithful(messages, MarkMessages(messages, budget))
  {
    hide Count, Faithful, MarkAt, MarkUsers, RoleOf;
    NothingYet(messages);
    var system := MarkSystem(messages);
    var k := LastWithRole(messages, "system");
    if k.Some? { MarkAtIsFaithful(messages, Marking(messages, 0), k.value, false); }
    forall i | 0 <= i < |messages| && RoleOf(system.messages[i]) == Some("user")
      ensures Count(system.messages[i]) == 0
    {
      UserIsClear(messages, system, i);
      ItemInside(messages, i);
    }
    MarkUsersIsFaithful(system.messages, budget - system.applied);
    FaithfulTwice(messages, system, MarkUsers(system.messages, budget - system.applied));
  }

  lemma UserIsClear(messages: seq<Value>, system: Marking, i: nat)
    requires system == MarkSystem(messages) && Faithful(messages, system) && i < |messages|
    requires RoleOf(system.messages[i]) == Some("user")
    ensures system.messages[i] == messages[i]
  {
    hide Count, ReadMessage, RoleOf, MarkMessage;
    assert SaysTheSame(messages[i], system.messages[i]);
  }

  // ---- Bodies -----------------------------------------------------------------

  function ReadMessages(messages: seq<Value>): seq<Reading> {
    if messages == [] then [] else [ReadMessage(messages[0])] + ReadMessages(messages[1..])
  }

  /** A body without its messages, and what its messages say. */
  datatype BodyReading = BodyReading(frame: Value, messages: seq<Reading>)

  function ReadBody(body: Value): BodyReading {
    var k := ArrayField(body, "messages");
    if k.None? then BodyReading(Erase(body), [])
    else BodyReading(Erase(SetField(body, k.value, Null)), ReadMessages(body.fields[k.value].value.items))
  }

  lemma {:induction false} FaithfulReads(before: seq<Value>, after: seq<Value>)
    requires |before| == |after| && forall i :: 0 <= i < |before| ==> SaysTheSame(before[i], after[i])
    ensures ReadMessages(after) == ReadMessages(before)
  {
    hide ReadMessage, RoleOf;
    if before != [] {
      assert SaysTheSame(before[0], after[0]);
      FaithfulReads(before[1..], after[1..]);
    }
  }

  lemma MarkToolsCounts(body: Value)
    ensures Count(MarkTools(body).value) == Count(body) + (if MarkTools(body).added then 1 else 0)
  {
    hide Count, MarkLastObject, ArrayField, SetField;
    var k := ArrayField(body, "tools");
    if k.Some? {
      var items := body.fields[k.value].value.items;
      MarkLastCounts(items);
      CountSetField(body, k.value, Array(MarkLastObject(items).value));
    }
  }

  /** Marking the tools leaves the messages alone, and everything else but for the marker. */
  lemma MarkToolsReads(body: Value)
    ensures ArrayField(MarkTools(body).value, "messages") == ArrayField(body, "messages")
    ensures ReadBody(MarkTools(body).value) == ReadBody(body)
    ensures var k := ArrayField(body, "messages");
      k.Some? ==> MarkTools(body).value.fields[k.value] == body.fields[k.value]
  {
    hide MarkLastObject, Erase, ReadMessages, Find;
    var t := ArrayField(body, "tools");
    if t.None? { return; }
    var items := body.fields[t.value].value.items;
    var tools := Array(MarkLastObject(items).value);
    assert Erase(tools) == Erase(Array(items)) by { EraseTools(items); }
    FindIgnoresValues(body.fields, t.value, tools, "messages", 0);
    var k := ArrayField(body, "messages");
    if k.None? {
      EraseSetField(body, t.value, tools);
    } else {
      var bare := SetField(body, k.value, Null);
      EraseSetField(bare, t.value, tools);
      assert SetField(bare, t.value, tools) == SetField(SetField(body, t.value, tools), k.value, Null);
    }
  }

  lemma EraseTools(items: seq<Value>)
    ensures Erase(Array(MarkLastObject(items).value)) == Erase(Array(items))
  {
    EraseMarkLast(items);
  }

  /**
    On a body without markers: exactly the reported number of markers is in the
    tree afterwards, at most four, and the body says what it said before.
  */
  lemma BreakpointsKeepTheBody(body: Value, flash: bool)
    requires Count(body) == 0
    ensures Count(MarkBody(body, flash).body) == MarkBody(body, flash).applied <= 4
    ensures |Located("$", Marks(MarkBody(body, flash).body))| == MarkBody(body, flash).applied
    ensures ReadBody(MarkBody(body, flash).body) == ReadBody(body)
  {
    hide Count, MarkTools, MarkMessages, ReadBody, ArrayField, SetField, Marks, Located;
    CountIsLocations(MarkBody(body, flash).body);
    if !flash { return; }
    var tools := MarkTools(body);
    MarkToolsCounts(body);
    MarkToolsReads(body);
    var k := ArrayField(tools.value, "messages");
    if k.Some? { MessagesKeepTheBody(body, k.value, MAX_BREAKPOINTS - (if tools.added then 1 else 0)); }
  }

  lemma MessagesKeepTheBody(body: Value, k: nat, budget: nat)
    requires Count(body) == 0 && budget > 0 && ArrayField(body, "messages") == Some(k)
    ensures ArrayField(MarkTools(body).value, "messages") == Some(k)
    ensures var tools := MarkTools(body).value;
      var m := MarkMessages(tools.fields[k].value.items, budget);
      var marked := SetField(tools, k, Array(m.messages));
      && Count(marked) == Count(tools) + m.applied && ReadBody(marked) == ReadBody(tools)
  {
    hide Count, MarkTools, MarkMessages, Faithful, Erase, Find, ReadMessages;
    MarkToolsReads(body);
    var tools := MarkTools(body).value;
    var items := tools.fields[k].value.items;
    FieldInside(body, k);
    MarkMessagesIsFaithful(items, budget);
    var m := MarkMessages(items, budget);
    CountSetField(tools, k, Array(m.messages));
    FaithfulParts(items, m);
    FaithfulReads(items, m.messages);
    FindIgnoresValues(tools.fields, k, Array(m.messages), "messages", 0);
    assert SetField(SetField(tools, k, Array(m.messages)), k, Null) == SetField(tools, k, Null);
  }

  lemma FaithfulParts(before: seq<Value>, m: Marking)
    requires Faithful(before, m)
    ensures |m.messages| == |before| && Count(Array(m.messages)) == Count(Array(before)) + m.applied
    ensures forall i :: 0 <= i < |before| ==> SaysTheSame(before[i], m.messages[i])
  {
  }

  // ---- Which turns are marked -------------------------------------------------

  ghost predicate UsersAreClear(messages: seq<Value>) {
    forall k :: 0 <= k < |messages| && RoleOf(messages[k]) == Some("user") ==> Count(messages[k]) == 0
  }

  predicate SeveralTurns(messages: seq<Value>) {
    |Users(messages)| > 1
  }

  function Opening(messages: seq<Value>): (k: nat)
    requires SeveralTurns(messages)
    ensures k < |messages| && RoleOf(messages[k]) == Some("user") && messages[k].Object?
  {
    Users(messages)[0]
  }

  function Latest(messages: seq<Value>): (k: nat)
    requires SeveralTurns(messages)
    ensures Opening(messages) < k < |messages| && RoleOf(messages[k]) == Some("user") && messages[k].Object?
  {
    Users(messages)[|Users(messages)| - 1]
  }

  lemma PinnedParts(messages: seq<Value>)
    requires SeveralTurns(messages) && UsersAreClear(messages)
    ensures var users, first := Users(messages), Opening(messages);
      var pinned := PinOpening(Marking(messages, 0), users);
      && pinned.applied == 1 && |pinned.messages| == |messages|
      && pinned.messages[first] == MarkMessage(messages[first], true).value
      && pinned.messages[Latest(messages)] == messages[Latest(messages)]
      && RoleOf(pinned.messages[first]) == Some("user")
      && forall k :: 0 <= k < |messages| && k != first ==> pinned.messages[k] == messages[k]
  {
    hide MarkMessage, Count, RoleOf, Users;
    var first := Opening(messages);
    MarkMessageCounts(messages[first], true);
    MarkMessageReads(messages[first], true);
  }

  /** In a conversation of several turns the opening user message is marked, so later turns still find it in the cache. */
  lemma OpeningStaysPinned(messages: seq<Value>, budget: nat)
    requires SeveralTurns(messages) && UsersAreClear(messages) && budget > 0
    ensures MarkUsers(messages, budget).messages[Opening(messages)] == MarkMessage(messages[Opening(messages)], true).value
    ensures Count(MarkUsers(messages, budget).messages[Opening(messages)]) == 1
  {
    hide MarkMessage, Count, RoleOf, Users, Longest, ShortFollowup, StripMessage, Anchor;
    PinnedParts(messages);
    MarkMessageCounts(messages[Opening(messages)], true);
  }

  /** Where the conversation last had an assistant or tool message before the latest turn. */
  predicate IsAnchor(messages: seq<Value>, k: nat)
    requires SeveralTurns(messages)
  {
    && k < Latest(messages) && RoleOf(messages[k]) in {Some("assistant"), Some("tool")}
    && forall i :: k < i < Latest(messages) ==> RoleOf(messages[i]) !in {Some("assistant"), Some("tool")}
  }

  /** A long latest turn is not marked itself: it stays as it is. */
  lemma LongTurnStaysOpen(messages: seq<Value>, budget: nat)
    requires SeveralTurns(messages) && UsersAreClear(messages)
    requires !ShortFollowup(messages, Users(messages))
    ensures MarkUsers(messages, budget).messages[Latest(messages)] == messages[Latest(messages)]
  {
    hide MarkMessage, Count, RoleOf, Users, Longest, ShortFollowup, StripMessage, Anchor;
    PinnedParts(messages);
    StripClear(messages[Latest(messages)]);
  }

  /** Its anchor is marked instead, if the budget reaches past the opening turn. */
  lemma AnchorIsMarked(messages: seq<Value>, budget: nat, k: nat)
    requires SeveralTurns(messages) && UsersAreClear(messages) && budget > 1
    requires !ShortFollowup(messages, Users(messages)) && k < |messages| && IsAnchor(messages, k)
    ensures MarkUsers(messages, budget).messages[k] == MarkMessage(messages[k], false).value
  {
    hide MarkMessage, RoleOf, Users, Longest, ShortFollowup, PinOpening, UsersAreClear, IsAnchor, MarkTurn;
    var users := Users(messages);
    TurnMarksIt(messages, k);
    AnchorIsNoUser(messages, k);
    assert RoleOf(messages[Longest(messages, users)]) == Some("user");
    assert PinOpening(Marking(messages, 0), users).applied < budget;
  }

  lemma TurnMarksIt(messages: seq<Value>, k: nat)
    requires SeveralTurns(messages) && UsersAreClear(messages) && k < |messages| && IsAnchor(messages, k)
    ensures var users := Users(messages);
      MarkTurn(PinOpening(Marking(messages, 0), users), users, false).messages[k] == MarkMessage(messages[k], false).value
  {
    hide MarkMessage, RoleOf, Users, Anchor, PinOpening, UsersAreClear, IsAnchor, MarkTurn, Latest;
    var users := Users(messages);
    var pinned := PinOpening(Marking(messages, 0), users);
    AnchorIsNoUser(messages, k);
    PinnedAnchor(messages, k);
    LatestIsLast(messages);
    var m := pinned.messages;
    assert |m| == |messages| && m[k] == messages[k];
    assert Anchor(m, users[|users| - 1]) == Some(k);
    TurnMarksAnchor(pinned, users, k);
  }

  lemma LatestIsLast(messages: seq<Value>)
    requires SeveralTurns(messages)
    ensures var users := Users(messages);
      |users| > 1 && Within(users, |messages|) && Latest(messages) == users[|users| - 1]
  {
    hide Users;
  }

  lemma TurnMarksAnchor(m: Marking, users: seq<nat>, k: nat)
    requires |users| > 1 && Within(users, |m.messages|) && k < users[|users| - 1]
    requires Anchor(m.messages, users[|users| - 1]) == Some(k) && m.messages[k].Object?
    ensures MarkTurn(m, users, false).messages[k] == MarkMessage(m.messages[k], false).value
  {
    hide MarkMessage, StripMessage, Anchor;
  }

  lemma AnchorIsNoUser(messages: seq<Value>, k: nat)
    requires SeveralTurns(messages) && k < |messages| && IsAnchor(messages, k)
    ensures k < Latest(messages) && RoleOf(messages[k]) != Some("user") && messages[k].Object?
  {
  }

  /** Pinning the opening turn moves no anchor. */
  lemma PinnedAnchor(messages: seq<Value>, k: nat)
    requires SeveralTurns(messages) && UsersAreClear(messages) && k < |messages| && IsAnchor(messages, k)
    ensures var pinned := PinOpening(Marking(messages, 0), Users(messages)).messages;
      Anchor(pinned, Latest(messages)) == Some(k) && pinned[k] == messages[k]
  {
    hide RoleOf, Users, Anchor, PinOpening, UsersAreClear, MarkMessage;
    var pinned := PinOpening(Marking(messages, 0), Users(messages)).messages;
    PinnedParts(messages);
    assert k != Opening(messages) by { AnchorIsNoUser(messages, k); }
    assert forall i :: k < i < Latest(messages) ==> RoleOf(pinned[i]) !in {Some("assistant"), Some("tool")};
    AnchorIs(pinned, Latest(messages), k);
  }

  lemma {:induction false} AnchorIs(messages: seq<Value>, before: nat, k: nat)
    requires k < before <= |messages| && RoleOf(messages[k]) in {Some("assistant"), Some("tool")}
    requires forall i :: k < i < before ==> RoleOf(messages[i]) !in {Some("assistant"), Some("tool")}
    ensures Anchor(messages, before) == Some(k)
  {
    hide RoleOf;
    if k < before - 1 { AnchorIs(messages, before - 1, k); }
  }

  /** A short follow-up is marked itself. */
  lemma ShortTurnIsMarked(messages: seq<Value>, budget: nat)
    requires SeveralTurns(messages) && UsersAreClear(messages) && budget > 1
    requires ShortFollowup(messages, Users(messages))
    ensures MarkUsers(messages, budget).messages[Latest(messages)] == MarkMessage(messages[Latest(messages)], false).value
    ensures Count(MarkUsers(messages, budget).messages[Latest(messages)]) == 1
  {
    hide MarkMessage, Count, RoleOf, Users, Longest, ShortFollowup, StripMessage, Anchor;
    PinnedParts(messages);
    MarkMessageCounts(messages[Latest(messages)], false);
  }
}
