/**
  What the canonicalizer keeps on every history, tidy or not, and short
  histories on which the pairing fails because an id is padded or repeated.
*/
module ToolHistoryLimits {
  import opened Utf8Text
  import opened ToolHistory
  import opened ToolHistoryBlocks
  import opened ToolHistoryFirstPass
  import opened ToolHistoryRefinement
  import opened ToolHistoryLaws

  // ---- Conservation -----------------------------------------------------------

  function ToolCount(m: Message): nat {
    if m.role == Tool then 1 else 0
  }

  function Tools(messages: seq<Message>): nat {
    if messages == [] then 0 else ToolCount(messages[0]) + Tools(messages[1..])
  }

  function Calls(messages: seq<Message>): nat {
    if messages == [] then 0 else CallCount(messages[0]) + Calls(messages[1..])
  }

  predicate ToolsCarryNoCalls(messages: seq<Message>) {
    forall i :: 0 <= i < |messages| && messages[i].role == Tool ==> messages[i].toolCalls.None?
  }

  lemma {:induction false} TotalsAfterUpdate(messages: seq<Message>, i: nat, m: Message)
    requires i < |messages|
    ensures Tools(messages[i := m]) + ToolCount(messages[i]) == Tools(messages) + ToolCount(m)
    ensures Calls(messages[i := m]) + CallCount(messages[i]) == Calls(messages) + CallCount(m)
  {
    var after := messages[i := m];
    if i == 0 {
      assert after[1..] == messages[1..];
    } else {
      assert after[1..] == messages[1..][i - 1 := m];
      TotalsAfterUpdate(messages[1..], i - 1, m);
    }
  }

  lemma {:induction false} DropsConserve(messages: seq<Message>, gone: seq<Pending>, policy: Policy)
    ensures Tools(DropCalls(messages, gone, policy)) == Tools(messages)
    ensures Calls(DropCalls(messages, gone, policy)) + DroppedCalls(messages, gone, policy) == Calls(messages)
    ensures ToolsCarryNoCalls(messages) ==> ToolsCarryNoCalls(DropCalls(messages, gone, policy))
    decreases |gone|
  {
    hide ContentWithoutCalls;
    if gone != [] {
      var p := gone[0];
      if p.at < |messages| {
        var m := DropCall(messages[p.at], p.id, policy);
        TotalsAfterUpdate(messages, p.at, m);
        DropsConserve(messages[p.at := m], gone[1..], policy);
      } else {
        DropsConserve(messages, gone[1..], policy);
      }
    }
  }

  predicate Conserves(s: Scan, s': Scan) {
    && Tools(s'.messages) + s'.repair.downgradedResults == Tools(s.messages) + s.repair.downgradedResults
    && (ToolsCarryNoCalls(s.messages) ==>
          && ToolsCarryNoCalls(s'.messages)
          && Calls(s'.messages) + s'.repair.downgradedCalls == Calls(s.messages) + s.repair.downgradedCalls)
  }

  lemma SettleConserves(s: Scan, policy: Policy)
    ensures Conserves(s, Settle(s, policy))
  {
    DropsConserve(s.messages, Unresolved(s.pending), policy);
  }

  lemma StepConserves(s: Scan, i: nat, policy: Policy)
    requires i < |s.messages|
    ensures s.messages[i].role == Assistant ==> Conserves(s, StepAssistant(s, i))
    ensures s.messages[i].role == Tool ==> Conserves(s, StepTool(s, i, policy))
  {
    hide Conserves, StepAssistant, StepTool;
    if s.messages[i].role == Assistant { AssistantConserves(s, i); }
    if s.messages[i].role == Tool { ToolConserves(s, i, policy); }
  }

  lemma AssistantConserves(s: Scan, i: nat)
    requires i < |s.messages| && s.messages[i].role == Assistant
    ensures Conserves(s, StepAssistant(s, i))
  {
    hide FillId;
    TotalsAfterUpdate(s.messages, i, StepAssistant(s, i).messages[i]);
  }

  lemma ToolConserves(s: Scan, i: nat, policy: Policy)
    requires i < |s.messages| && s.messages[i].role == Tool
    ensures Conserves(s, StepTool(s, i, policy))
  {
    hide MatchPending, AlreadyCarries, Preview;
    TotalsAfterUpdate(s.messages, i, StepTool(s, i, policy).messages[i]);
  }

  lemma {:induction false} ScanConserves(s: Scan, i: nat, policy: Policy)
    requires i <= |s.messages|
    ensures Conserves(s, ScanFrom(s, i, policy))
    decreases |s.messages| - i
  {
    hide Settle, StepAssistant, StepTool, ToolsCarryNoCalls;
    SettleConserves(s, policy);
    if i < |s.messages| {
      var s1 := if s.messages[i].role != Tool && !AllUsed(s.pending) then Settle(s, policy) else s;
      SettleKeepsRoles(s, policy);
      StepConserves(s1, i, policy);
      ScanConserves(ScanStep(s, i, policy), i + 1, policy);
    }
  }

  lemma SettleKeepsRoles(s: Scan, policy: Policy)
    ensures forall i :: 0 <= i < |s.messages| ==> Settle(s, policy).messages[i].role == s.messages[i].role
  {
    SettleKeepsRole(s.messages, Unresolved(s.pending), policy);
  }

  lemma {:induction false} StabilizeConserves(rest: seq<Message>, i: nat, ids: map<string, string>)
    ensures Tools(StabilizeFrom(rest, i, ids)) == Tools(rest) && Calls(StabilizeFrom(rest, i, ids)) == Calls(rest)
    decreases |rest|
  {
    hide IdsAfter, StableCall;
    if rest != [] {
      var ids' := IdsAfter(ids, rest[0], i);
      StabilizeConserves(rest[1..], i + 1, ids');
    }
  }

  /**
    On every history, every tool message lost is a reported downgrade; and every
    call lost is one too, unless a tool message itself carried calls.
  */
  lemma CanonicalConserves(messages: seq<Message>, policy: Policy)
    ensures |Canonical(messages, policy)| == |messages|
    ensures Tools(Canonical(messages, policy)) + CanonicalRepair(messages, policy).downgradedResults == Tools(messages)
    ensures ToolsCarryNoCalls(messages) ==>
              Calls(Canonical(messages, policy)) + CanonicalRepair(messages, policy).downgradedCalls == Calls(messages)
  {
    hide ScanFrom, StabilizeFrom, ChangedFrom, Tools, Calls, ToolsCarryNoCalls;
    ScanConserves(Scan(messages, [], NO_REPAIR), 0, policy);
    StabilizeConserves(Paired(messages, policy).messages, 0, map[]);
  }

  // ---- Padded and repeated ids ------------------------------------------------

  function History(calls: seq<ToolCall>, raw: string, content: Content): seq<Message> {
    [Message(Assistant, Null, Some(calls), None, None), Message(Tool, content, None, Some(raw), None)]
  }

  /** A result whose id is the call's id in white space keeps that id, which no call of the result carries. */
  lemma PaddedIdDangles(call: ToolCall, raw: string, content: Content, policy: Policy)
    requires call.id.Some? && Clean(call.id.value)
    requires Trim(raw) == call.id.value && raw != call.id.value
    ensures var out := Canonical(History([call], raw, content), policy);
            && out[1].role == Tool && out[1].toolCallId == Some(raw)
            && !WellPaired(out)
  {
    hide SyntheticId, Trim, Clean, Blank;
    var messages := History([call], raw, content);
    var id := call.id.value;
    CleanIsTrimmed(id);
    TrimOfBlank(raw);
    assert FillIds([call], 0) == [call];
    var entry := Pending(id, 0, false);
    assert PendingOf([call], 0) == [entry];
    assert MatchPending([entry], Some(raw)) == Some(0);
    var s0 := Scan(messages, [], NO_REPAIR);
    assert messages[0 := messages[0]] == messages;
    var s1 := ScanStep(s0, 0, policy);
    assert MissingIds([call], 0) == 0;
    assert [] + [entry] == [entry];
    assert s1.messages == messages && s1.pending == [entry];
    var s2 := ScanStep(s1, 1, policy);
    assert s2.messages == messages && s2.pending == [entry.(used := true)];
    assert ScanFrom(s0, 0, policy) == ScanFrom(s1, 1, policy) == ScanFrom(s2, 2, policy) == Settle(s2, policy);
    assert Unresolved(s2.pending) == [] by { assert s2.pending[1..] == []; }
    assert Paired(messages, policy).messages == messages;
    TwoStabilized(call, raw, content, policy);
  }

  lemma TrimOfBlank(raw: string)
    ensures Trim(raw) != "" ==> !Blank(raw)
  {
  }

  lemma TwoStabilized(call: ToolCall, raw: string, content: Content, policy: Policy)
    requires call.id.Some? && raw != call.id.value && Trim(raw) != raw
    ensures var out := StabilizeFrom(History([call], raw, content), 0, map[]);
            out[1].role == Tool && out[1].toolCallId == Some(raw) && !WellPaired(out)
  {
    hide SyntheticId, Trim, Clean, Blank;
    var messages := History([call], raw, content);
    var out := StabilizeFrom(messages, 0, map[]);
    var ids := IdsAfter(map[], messages[0], 0);
    assert MapIds(map[], [call], 0, 0) == map[];
    assert raw !in ids;
    assert messages[1..] == [messages[1]] && [messages[1]][1..] == [];
    assert StabilizeFrom([], 2, ids) == [];
    assert StabilizeFrom(messages[1..], 1, ids) == [Stabilized(messages[1], 1, ids)];
    assert out[0] == Stabilized(messages[0], 0, ids) && out[1] == Stabilized(messages[1], 1, ids);
    SyntheticIdClean(0, 0, call);
    CleanIsTrimmed(SyntheticId(0, 0, call));
    assert forall a: nat, k: nat :: !Answers(out, 1, a, k);
  }

  /** Of two calls under one id, the answer takes the first, and the second stays open. */
  lemma RepeatedScan(first: ToolCall, second: ToolCall, messages: seq<Message>, content: Content, policy: Policy) returns (s: Scan)
    requires first.id.Some? && Clean(first.id.value) && second.id == first.id
    requires messages == History([first, second], first.id.value, content)
    ensures ScanFrom(Scan(messages, [], NO_REPAIR), 0, policy) == Settle(s, policy)
    ensures s.messages == messages && Unresolved(s.pending) == [Pending(first.id.value, 0, false)]
  {
    hide SyntheticId, Trim, Clean, Blank, Settle, Unresolved;
    var id := first.id.value;
    var calls := [first, second];
    CleanIsTrimmed(id);
    assert FillIds(calls, 0) == calls;
    var entry := Pending(id, 0, false);
    assert PendingOf(calls, 0) == [entry, entry];
    assert MatchPending([entry, entry], Some(id)) == Some(0);
    var s0 := Scan(messages, [], NO_REPAIR);
    assert messages[0 := messages[0]] == messages;
    var s1 := ScanStep(s0, 0, policy);
    assert [] + [entry, entry] == [entry, entry];
    assert s1.messages == messages && s1.pending == [entry, entry];
    s := ScanStep(s1, 1, policy);
    assert s.messages == messages && s.pending == [entry.(used := true), entry];
    assert ScanFrom(s0, 0, policy) == ScanFrom(s1, 1, policy) == ScanFrom(s, 2, policy) == Settle(s, policy);
    SecondIsOpen(entry);
  }

  lemma SecondIsOpen(entry: Pending)
    requires !entry.used
    ensures Unresolved([entry.(used := true), entry]) == [entry]
  {
    assert [entry][1..] == [] && [entry.(used := true), entry][1..] == [entry];
    assert Unresolved([entry]) == [entry] + Unresolved([]) == [entry];
  }

  /** The first pass over two calls under one id, of which one is answered, drops both. */
  lemma RepeatedIsEmptied(first: ToolCall, second: ToolCall, content: Content, policy: Policy)
    requires first.id.Some? && Clean(first.id.value) && second.id == first.id
    ensures var paired := Paired(History([first, second], first.id.value, content), policy).messages;
      |paired| == 2 && paired[0].toolCalls.None?
      && paired[1] == Message(Tool, content, None, first.id, None)
  {
    hide ScanFrom, Clean, Unresolved, DropCalls;
    var messages := History([first, second], first.id.value, content);
    var s := RepeatedScan(first, second, messages, content, policy);
    DropsBoth(first, second, messages, policy);
  }

  lemma DropsBoth(first: ToolCall, second: ToolCall, messages: seq<Message>, policy: Policy)
    requires first.id.Some? && second.id == first.id && |messages| == 2 && messages[0].toolCalls == Some([first, second])
    ensures var out := DropCalls(messages, [Pending(first.id.value, 0, false)], policy);
      |out| == 2 && out[0].toolCalls.None? && out[1] == messages[1]
  {
    hide ContentWithoutCalls;
    var id := first.id.value;
    assert Without([second], id) == [] by { assert [second][1..] == []; }
    assert Without([first, second], id) == [] by { assert [first, second][1..] == [second]; }
    assert [Pending(id, 0, false)][1..] == [];
  }

  /** Two calls under one id, of which one is answered, are both dropped, and the result stays behind. */
  lemma RepeatedIdDangles(first: ToolCall, second: ToolCall, content: Content, policy: Policy)
    requires first.id.Some? && Clean(first.id.value) && second.id == first.id
    ensures var out := Canonical(History([first, second], first.id.value, content), policy);
            && |out| == 2 && out[0].toolCalls.None? && out[1].role == Tool
            && !WellPaired(out)
  {
    hide Trim, Clean, Blank, Paired, Stabilized, IdsAfter, Settle, WellPaired;
    RepeatedIsEmptied(first, second, content, policy);
    var paired := Paired(History([first, second], first.id.value, content), policy).messages;
    var out := StabilizeFrom(paired, 0, map[]);
    var ids := IdsAfter(map[], paired[0], 0);
    assert paired[1..] == [paired[1]];
    var more := IdsAfter(ids, paired[1], 1);
    assert out[0] == Stabilized(paired[0], 0, ids) && out[1..] == StabilizeFrom(paired[1..], 1, ids);
    assert StabilizeFrom(paired[1..], 1, ids)[0] == Stabilized(paired[1], 1, more);
    assert out[1] == out[1..][0];
    StabilizedKeeps(paired[0], 0, ids);
    StabilizedKeeps(paired[1], 1, more);
    NoCallsNoAnswers(out);
  }

  lemma StabilizedKeeps(m: Message, i: nat, ids: map<string, string>)
    ensures var after := Stabilized(m, i, ids);
      after.role == m.role && (m.toolCalls.None? ==> after.toolCalls.None?)
  {
  }

  lemma NoCallsNoAnswers(out: seq<Message>)
    requires |out| == 2 && out[0].toolCalls.None? && out[1].role == Tool
    ensures !WellPaired(out)
  {
    assert forall a: nat, k: nat :: !Answers(out, 1, a, k);
  }
}
