/**
  What the canonicalizer of translate.rs does to each message, whatever it pairs:
  nothing is lost that a reader would miss, and the counters count what changed.
*/
module ToolHistoryTexts {
  import opened Utf8Text
  import opened ToolHistory
  import opened ToolHistoryBlocks
  import opened ToolHistoryFirstPass
  import opened ToolHistoryRefinement
  import opened ToolHistorySettled

  // ---- Calls in order, some left out ------------------------------------------

  /** A call without its id. */
  function Body(call: ToolCall): ToolCall {
    call.(id := None)
  }

  /** The calls are some of the others, in order, but for their ids. */
  predicate SomeOf(calls: seq<ToolCall>, others: seq<ToolCall>)
    decreases |others|
  {
    calls == [] ||
    (others != [] && ((Body(calls[0]) == Body(others[0]) && SomeOf(calls[1..], others[1..])) || SomeOf(calls, others[1..])))
  }

  lemma {:induction false} SomeOfSame(calls: seq<ToolCall>, others: seq<ToolCall>)
    requires |calls| == |others| && forall k :: 0 <= k < |calls| ==> Body(calls[k]) == Body(others[k])
    ensures SomeOf(calls, others)
  {
    if calls != [] { SomeOfSame(calls[1..], others[1..]); }
  }

  lemma {:induction false} SomeOfSome(a: seq<ToolCall>, b: seq<ToolCall>, c: seq<ToolCall>)
    requires SomeOf(a, b) && SomeOf(b, c)
    ensures SomeOf(a, c)
    decreases |b| + |c|
  {
    if a != [] {
      if SomeOf(b, c[1..]) {
        SomeOfSome(a, b, c[1..]);
      } else if SomeOf(a, b[1..]) {
        SomeOfSome(a, b[1..], c[1..]);
      } else {
        SomeOfSome(a[1..], b[1..], c[1..]);
      }
    }
  }

  lemma {:induction false} WithoutIsSome(calls: seq<ToolCall>, id: string)
    ensures SomeOf(Without(calls, id), calls)
  {
    if calls != [] {
      WithoutIsSome(calls[1..], id);
      if calls[0].id != Some(id) {
        assert Without(calls, id)[0] == calls[0] && Without(calls, id)[1..] == Without(calls[1..], id);
      } else {
        assert [] + Without(calls[1..], id) == Without(calls[1..], id);
      }
    }
  }

  // ---- What a reader finds ----------------------------------------------------

  function CallsIn(m: Message): seq<ToolCall> {
    if m.toolCalls.Some? then m.toolCalls.value else []
  }

  /** The text of a content; structured content is shown as its JSON. */
  function Shown(content: Content): string {
    match content
    case Text(text) => text
    case Null => "null"
    case Structured(json) => json
  }

  predicate SaysNothing(content: Content) {
    content.Null? || (content.Text? && Trim(content.text) == "")
  }

  /** The content of a message whose calls are all gone: its own, or a note where it says nothing. */
  function Recovered(content: Content, policy: Policy): Content {
    if !SaysNothing(content) then content
    else if policy == Strict then Text("")
    else Text("[Tool call recovered as plain context: matching tool result missing]")
  }

  /**
    A message keeps its role, reasoning and content and some of its calls in order.
    One that loses all its calls keeps what it says; a tool message that answers no
    call becomes a user message with all of its text.
  */
  predicate ReadsAs(before: Message, after: Message, policy: Policy) {
    && after.reasoning == before.reasoning
    && (if after.role == before.role then
          && SomeOf(CallsIn(after), CallsIn(before))
          && (before.toolCalls.None? ==> after.toolCalls.None?)
          && (before.role != Tool ==> after.toolCallId == before.toolCallId)
          && after.content
             == (if before.toolCalls.Some? && after.toolCalls.None? then Recovered(before.content, policy) else before.content)
        else
          && before.role == Tool && after.role == User && after.toolCalls.None? && after.toolCallId.None?
          && after.content
             == Text((if policy == Compat
                      then "[Tool result recovered as plain context: original tool_call_id missing or invalid]\n" else "")
                     + Shown(before.content)))
  }

  predicate AllReadAs(before: seq<Message>, after: seq<Message>, policy: Policy) {
    |after| == |before| && forall i :: 0 <= i < |before| ==> ReadsAs(before[i], after[i], policy)
  }

  lemma ReadsAsItself(m: Message, policy: Policy)
    ensures ReadsAs(m, m, policy)
  {
    SomeOfSame(CallsIn(m), CallsIn(m));
  }

  lemma DropReads(a: Message, m: Message, id: string, policy: Policy)
    requires ReadsAs(a, m, policy) && PlacedMessage(a)
    ensures ReadsAs(a, DropCall(m, id, policy), policy)
  {
    hide Trim;
    if m.toolCalls.Some? {
      WithoutIsSome(m.toolCalls.value, id);
      SomeOfSome(Without(m.toolCalls.value, id), m.toolCalls.value, CallsIn(a));
    }
  }

  lemma {:induction false} DropsRead(before: seq<Message>, messages: seq<Message>, gone: seq<Pending>, policy: Policy)
    requires AllReadAs(before, messages, policy) && Placed(before)
    ensures AllReadAs(before, DropCalls(messages, gone, policy), policy)
    decreases |gone|
  {
    hide ReadsAs, DropCall, PlacedMessage;
    if gone != [] {
      var p := gone[0];
      if p.at < |messages| {
        DropReads(before[p.at], messages[p.at], p.id, policy);
        DropsRead(before, messages[p.at := DropCall(messages[p.at], p.id, policy)], gone[1..], policy);
      } else {
        DropsRead(before, messages, gone[1..], policy);
      }
    }
  }

  lemma FillReads(a: Message, m: Message, i: nat, policy: Policy)
    requires ReadsAs(a, m, policy) && m.toolCalls.Some?
    ensures ReadsAs(a, m.(toolCalls := Some(FillIds(m.toolCalls.value, i))), policy)
  {
    hide HasId, SyntheticId, Trim;
    var filled := FillIds(m.toolCalls.value, i);
    SomeOfSame(filled, m.toolCalls.value);
    SomeOfSome(filled, m.toolCalls.value, CallsIn(a));
  }

  lemma DowngradeReads(a: Message, m: Message, policy: Policy)
    requires ReadsAs(a, m, policy) && PlacedMessage(a) && m.role == Tool
    ensures ReadsAs(a, DowngradeTool(m, policy), policy)
    ensures forall id: string :: ReadsAs(a, m.(toolCallId := Some(id)), policy)
  {
    hide SomeOf;
    assert "" + Shown(a.content) == Shown(a.content);
  }

  lemma StepReads(before: seq<Message>, s: Scan, i: nat, policy: Policy)
    requires AllReadAs(before, s.messages, policy) && Placed(before) && i < |s.messages|
    ensures AllReadAs(before, ScanStep(s, i, policy).messages, policy)
  {
    hide ReadsAs, FillIds, PendingOf, MatchPending, DowngradeTool, DropCalls, DroppedCalls, Unresolved, PlacedMessage, AlreadyCarries;
    var s1 := if s.messages[i].role != Tool && !AllUsed(s.pending) then Settle(s, policy) else s;
    DropsRead(before, s.messages, Unresolved(s.pending), policy);
    assert AllReadAs(before, s1.messages, policy);
    var m := s1.messages[i];
    if s.messages[i].role == Assistant && m.toolCalls.Some? { FillReads(before[i], m, i, policy); }
    if s.messages[i].role == Tool { DowngradeReads(before[i], m, policy); }
  }

  lemma {:induction false} ScanReads(before: seq<Message>, s: Scan, i: nat, policy: Policy)
    requires AllReadAs(before, s.messages, policy) && Placed(before) && i <= |s.messages|
    ensures AllReadAs(before, ScanFrom(s, i, policy).messages, policy)
    decreases |s.messages| - i
  {
    hide AllReadAs, ScanStep, Placed, DropCalls, DroppedCalls, Unresolved;
    if i == |s.messages| {
      DropsRead(before, s.messages, Unresolved(s.pending), policy);
    } else {
      StepReads(before, s, i, policy);
      ScanReads(before, ScanStep(s, i, policy), i + 1, policy);
    }
  }

  lemma StabilizedReads(a: Message, m: Message, i: nat, ids: map<string, string>, policy: Policy)
    requires ReadsAs(a, m, policy)
    ensures ReadsAs(a, Stabilized(m, i, ids), policy)
  {
    hide SyntheticId, Trim;
    if m.toolCalls.Some? {
      var stable := StableCalls(m.toolCalls.value, i);
      SomeOfSame(stable, m.toolCalls.value);
      SomeOfSome(stable, m.toolCalls.value, CallsIn(a));
    }
  }

  lemma {:induction false} StabilizeReads(before: seq<Message>, rest: seq<Message>, i: nat, ids: map<string, string>, policy: Policy)
    requires AllReadAs(before, rest, policy)
    ensures AllReadAs(before, StabilizeFrom(rest, i, ids), policy)
    decreases |rest|
  {
    hide ReadsAs, Stabilized, IdsAfter;
    if rest != [] {
      var ids' := IdsAfter(ids, rest[0], i);
      StabilizedReads(before[0], rest[0], i, ids', policy);
      StabilizeReads(before[1..], rest[1..], i + 1, ids', policy);
    }
  }

  /** In the canonical history every message reads as it did. */
  lemma CanonicalReads(messages: seq<Message>, policy: Policy)
    requires Placed(messages)
    ensures AllReadAs(messages, Canonical(messages, policy), policy)
  {
    hide ReadsAs, ScanFrom, StabilizeFrom, Placed;
    forall i | 0 <= i < |messages|
      ensures ReadsAs(messages[i], messages[i], policy)
    {
      ReadsAsItself(messages[i], policy);
    }
    ScanReads(messages, Scan(messages, [], NO_REPAIR), 0, policy);
    StabilizeReads(messages, Paired(messages, policy).messages, 0, map[], policy);
  }

  // ---- The counters -----------------------------------------------------------

  /** How many of the calls carry no id, or a blank one. */
  function Nameless(calls: seq<ToolCall>): nat {
    if calls == [] then 0
    else (if calls[0].id.None? || Trim(calls[0].id.value) == "" then 1 else 0) + Nameless(calls[1..])
  }

  function AllNameless(messages: seq<Message>): nat {
    if messages == [] then 0 else Nameless(CallsIn(messages[0])) + AllNameless(messages[1..])
  }

  lemma {:induction false} NamelessGrow(calls: seq<ToolCall>, call: ToolCall)
    ensures Nameless(calls + [call]) == Nameless(calls) + (if call.id.None? || Trim(call.id.value) == "" then 1 else 0)
  {
    hide Trim;
    var all := calls + [call];
    if calls == [] {
      assert all[1..] == [];
    } else {
      assert all[0] == calls[0] && all[1..] == calls[1..] + [call];
      NamelessGrow(calls[1..], call);
    }
  }

  lemma {:induction false} MissingAreNameless(calls: seq<ToolCall>, n: nat)
    requires n <= |calls|
    ensures MissingIds(calls, n) == Nameless(calls[..n])
  {
    hide Trim, Nameless;
    if n > 0 {
      MissingAreNameless(calls, n - 1);
      assert calls[..n - 1] + [calls[n - 1]] == calls[..n];
      NamelessGrow(calls[..n - 1], calls[n - 1]);
    } else {
      NoneNameless();
    }
  }

  lemma NoneNameless()
    ensures Nameless([]) == 0 && AllNameless([]) == 0
  {
  }

  lemma {:induction false} RunNamesNothing(open: seq<Pending>, tools: seq<Message>)
    ensures RunRepair(open, tools).syntheticIds == RunRepair(open, tools).stabilizedIds == 0
    decreases |tools|
  {
    hide MatchPending, AlreadyCarries;
    if tools != [] { RunNamesNothing(NextOpen(open, tools[0]), tools[1..]); }
  }

  lemma {:induction false} ToolsAreNamed(tools: seq<Message>, more: seq<Message>)
    requires forall t :: 0 <= t < |tools| ==> tools[t].toolCalls.None?
    ensures AllNameless(tools + more) == AllNameless(more)
    decreases |tools|
  {
    if tools == [] {
      assert tools + more == more;
    } else {
      assert (tools + more)[0] == tools[0] && (tools + more)[1..] == tools[1..] + more;
      ToolsAreNamed(tools[1..], more);
    }
  }

  lemma {:induction false} BlocksCountNameless(rest: seq<Message>, a: nat)
    requires Placed(rest)
    ensures RawRepair(rest, a).syntheticIds == AllNameless(rest) && RawRepair(rest, a).stabilizedIds == 0
    decreases |rest|
  {
    hide ToolsAfter, AfterRun, RunRepair, PairRun, OpenOf, Nameless, MissingIds, RawDropped, FillIds;
    if rest == [] {
    } else if IsHead(rest[0]) {
      var tools, more := ToolsAfter(rest), AfterRun(rest);
      var calls := rest[0].toolCalls.value;
      HeadSplits(rest);
      assert Placed(more) by { assert forall i :: 0 <= i < |more| ==> more[i] == rest[1 + |tools| + i]; }
      BlocksCountNameless(more, a + 1 + |tools|);
      RunNamesNothing(OpenOf(rest[0], a), tools);
      MissingAreNameless(calls, |calls|);
      assert calls[..|calls|] == calls;
      ToolsAreNamed(tools, more);
    } else {
      BlocksCountNameless(rest[1..], a + 1);
      assert PlacedMessage(rest[0]);
      NoneNameless();
    }
  }

  lemma HeadSplits(rest: seq<Message>)
    requires rest != [] && Placed(rest)
    ensures rest[1..] == ToolsAfter(rest) + AfterRun(rest)
    ensures 1 + |ToolsAfter(rest)| + |AfterRun(rest)| == |rest|
    ensures forall i :: 0 <= i < |AfterRun(rest)| ==> AfterRun(rest)[i] == rest[1 + |ToolsAfter(rest)| + i]
    ensures forall t :: 0 <= t < |ToolsAfter(rest)| ==> ToolsAfter(rest)[t].toolCalls.None?
  {
    forall t | 0 <= t < |ToolsAfter(rest)|
      ensures ToolsAfter(rest)[t].toolCalls.None?
    {
      assert PlacedMessage(rest[1 + t]);
    }
  }

  /** How many tool messages stay tool messages under another id. */
  function Renamed(before: seq<Message>, after: seq<Message>): nat
    decreases |before|
  {
    if before == [] || after == [] then 0
    else
      (if before[0].role == Tool && after[0].role == Tool && before[0].toolCallId != after[0].toolCallId then 1 else 0)
      + Renamed(before[1..], after[1..])
  }

  lemma {:induction false} RenamedSplit(a: seq<Message>, b: seq<Message>, c: seq<Message>, d: seq<Message>)
    requires |a| == |b|
    ensures Renamed(a + c, b + d) == Renamed(a, b) + Renamed(c, d)
    decreases |a|
  {
    if a == [] {
      assert a + c == c && b + d == d;
    } else {
      assert (a + c)[1..] == a[1..] + c && (b + d)[1..] == b[1..] + d;
      RenamedSplit(a[1..], b[1..], c, d);
    }
  }

  predicate CleanIds(open: seq<Pending>) {
    forall k :: 0 <= k < |open| ==> Clean(open[k].id)
  }

  lemma RenamedOne(open: seq<Pending>, m: Message, policy: Policy)
    requires m.role == Tool && CleanIds(open)
    ensures var after := RawTool(m, MatchPending(open, m.toolCallId), open, policy);
      ToolRepair(open, m).pairedResults == Renamed([m], [after])
  {
    hide MatchPending, Trim, Clean;
    var k := MatchPending(open, m.toolCallId);
    if k.Some? { CleanIsTrimmed(open[k.value].id); }
  }

  lemma {:induction false} RunCountsRenamed(open: seq<Pending>, tools: seq<Message>, policy: Policy)
    requires CleanIds(open) && forall t :: 0 <= t < |tools| ==> tools[t].role == Tool
    ensures RunRepair(open, tools).pairedResults == Renamed(tools, RawTools(open, tools, policy))
    decreases |tools|
  {
    hide MatchPending, Clean, RawTool, Renamed, ToolRepair;
    if tools == [] {
      NoneRenamed();
    } else {
      var next := NextOpen(open, tools[0]);
      RunCountsRenamed(next, tools[1..], policy);
      RenamedOne(open, tools[0], policy);
      var after := RawTool(tools[0], MatchPending(open, tools[0].toolCallId), open, policy);
      RenamedSplit([tools[0]], [after], tools[1..], RawTools(next, tools[1..], policy));
      assert [tools[0]] + tools[1..] == tools;
    }
  }

  lemma NoneRenamed()
    ensures Renamed([], []) == 0
  {
  }

  lemma OpenIsClean(head: Message, a: nat)
    requires IsHead(head) && TidyMessage(head, a)
    ensures CleanIds(OpenOf(head, a))
  {
    hide Clean, SyntheticId, Blank;
    var calls := head.toolCalls.value;
    forall k | 0 <= k < |calls|
      ensures Clean(OpenOf(head, a)[k].id)
    {
      assert calls[k] in calls;
      SyntheticIdClean(a, k, calls[k]);
    }
  }

  lemma {:induction false} BlocksCountRenamed(rest: seq<Message>, a: nat, policy: Policy)
    requires TidyFrom(rest, a)
    ensures RawRepair(rest, a).pairedResults == Renamed(rest, RawBlocks(rest, a, policy))
    decreases |rest|
  {
    hide ToolsAfter, AfterRun, RunRepair, PairRun, OpenOf, MissingIds, RawDropped, FillIds, RawTools, RawHead, Renamed, TidyMessage, TidyFrom;
    if rest == [] {
      NoneRenamed();
    } else if IsHead(rest[0]) {
      var tools, more := ToolsAfter(rest), AfterRun(rest);
      TidyParts(rest, a);
      OpenIsClean(rest[0], a);
      RunCountsRenamed(OpenOf(rest[0], a), tools, policy);
      BlocksCountRenamed(more, a + 1 + |tools|, policy);
      var block, rawMore := RawBlock(rest[0], tools, a, policy), RawBlocks(more, a + 1 + |tools|, policy);
      BlockSplits(rest, tools, more);
      RenamedSplit([rest[0]] + tools, block, more, rawMore);
      HeadIsNoResult(rest[0], tools, block);
    } else {
      TidyParts(rest, a);
      BlocksCountRenamed(rest[1..], a + 1, policy);
      RenamedSplit([rest[0]], [PassThrough(rest[0], policy)], rest[1..], RawBlocks(rest[1..], a + 1, policy));
      PassedIsNoResult(rest[0], policy);
      assert [rest[0]] + rest[1..] == rest;
    }
  }

  lemma BlockSplits(rest: seq<Message>, tools: seq<Message>, more: seq<Message>)
    requires rest != [] && tools == ToolsAfter(rest) && more == AfterRun(rest)
    ensures rest == [rest[0]] + tools + more
  {
  }

  lemma HeadIsNoResult(head: Message, tools: seq<Message>, block: seq<Message>)
    requires head.role == Assistant && |block| == 1 + |tools|
    ensures Renamed([head] + tools, block) == Renamed(tools, block[1..])
  {
    assert ([head] + tools)[1..] == tools;
  }

  lemma PassedIsNoResult(m: Message, policy: Policy)
    ensures Renamed([m], [PassThrough(m, policy)]) == 0
  {
    assert [m][1..] == [];
  }

  /** How many ids differ between two forms of a message. */
  function Differing(before: seq<ToolCall>, after: seq<ToolCall>): nat {
    if before == [] || after == [] then 0
    else (if before[0].id == after[0].id then 0 else 1) + Differing(before[1..], after[1..])
  }

  function IdsChanged(before: seq<Message>, after: seq<Message>): nat
    decreases |before|
  {
    if before == [] || after == [] then 0
    else
      Differing(CallsIn(before[0]), CallsIn(after[0]))
      + (if before[0].toolCallId == after[0].toolCallId then 0 else 1)
      + IdsChanged(before[1..], after[1..])
  }

  lemma {:induction false} DifferingGrow(a: seq<ToolCall>, b: seq<ToolCall>, x: ToolCall, y: ToolCall)
    requires |a| == |b|
    ensures Differing(a + [x], b + [y]) == Differing(a, b) + (if x.id == y.id then 0 else 1)
  {
    if a == [] {
      assert ([] + [x])[1..] == [] && a + [x] == [x] && b + [y] == [y];
    } else {
      assert (a + [x])[1..] == a[1..] + [x] && (b + [y])[1..] == b[1..] + [y];
      DifferingGrow(a[1..], b[1..], x, y);
    }
  }

  lemma {:induction false} ChangedAreDiffering(calls: seq<ToolCall>, i: nat, n: nat)
    requires n <= |calls|
    ensures ChangedCalls(calls, i, n) == Differing(calls[..n], StableCalls(calls, i)[..n])
  {
    hide SyntheticId, Differing;
    if n > 0 {
      ChangedAreDiffering(calls, i, n - 1);
      var stable := StableCalls(calls, i);
      assert calls[..n - 1] + [calls[n - 1]] == calls[..n] && stable[..n - 1] + [stable[n - 1]] == stable[..n];
      DifferingGrow(calls[..n - 1], stable[..n - 1], calls[n - 1], stable[n - 1]);
    } else {
      NoneDiffers();
    }
  }

  lemma NoneDiffers()
    ensures Differing([], []) == 0
  {
  }

  lemma {:induction false} ChangedCount(rest: seq<Message>, i: nat, ids: map<string, string>)
    ensures ChangedFrom(rest, i, ids) == IdsChanged(rest, StabilizeFrom(rest, i, ids))
    decreases |rest|
  {
    hide SyntheticId, IdsAfter, Differing, StableCalls, ChangedCalls;
    if rest != [] {
      var m := rest[0];
      ChangedCount(rest[1..], i + 1, IdsAfter(ids, m, i));
      if m.toolCalls.Some? {
        var calls := m.toolCalls.value;
        ChangedAreDiffering(calls, i, |calls|);
        StableLength(calls, i);
        assert calls[..|calls|] == calls && StableCalls(calls, i)[..|calls|] == StableCalls(calls, i);
      } else {
        NoneDiffers();
      }
    }
  }

  lemma StableLength(calls: seq<ToolCall>, i: nat)
    ensures |StableCalls(calls, i)| == |calls|
  {
  }

  /** Made-up ids are counted one for each call without an id; stable ids one for each id the second pass changes. */
  lemma CountersCount(messages: seq<Message>, policy: Policy)
    requires Placed(messages)
    ensures CanonicalRepair(messages, policy).syntheticIds == AllNameless(messages)
    ensures CanonicalRepair(messages, policy).stabilizedIds == IdsChanged(Paired(messages, policy).messages, Canonical(messages, policy))
  {
    hide ScanFrom, StabilizeFrom, Placed, ChangedFrom, RawRepair, RawBlocks;
    FirstPassIsBlocks(messages, policy);
    BlocksCountNameless(messages, 0);
    ChangedCount(Paired(messages, policy).messages, 0, map[]);
  }

  /** On a tidy history paired results are the tool messages that the first pass gives another id. */
  lemma PairedCountsRenamed(messages: seq<Message>, policy: Policy)
    requires Tidy(messages)
    ensures CanonicalRepair(messages, policy).pairedResults == Renamed(messages, Paired(messages, policy).messages)
  {
    hide ScanFrom, ChangedFrom, RawRepair, RawBlocks, TidyFrom, Sound;
    TidyIsSound(messages);
    FirstPassIsBlocks(messages, policy);
    BlocksCountRenamed(messages, 0, policy);
  }

  // ---- On every history -------------------------------------------------------

  /** A message that is no tool message keeps its role and its id, and every message its reasoning. */
  predicate Keeps(before: Message, after: Message) {
    && after.reasoning == before.reasoning
    && (before.role != Tool ==> after.role == before.role && after.toolCallId == before.toolCallId)
    && (before.role != Tool && before.toolCalls.None? ==> after == before)
    && (before.role == Tool ==> after.role in {Tool, User})
  }

  predicate AllKeep(before: seq<Message>, after: seq<Message>) {
    |after| == |before| && forall i :: 0 <= i < |before| ==> Keeps(before[i], after[i])
  }

  lemma {:induction false} DropsKeep(before: seq<Message>, messages: seq<Message>, gone: seq<Pending>, policy: Policy)
    requires AllKeep(before, messages)
    ensures AllKeep(before, DropCalls(messages, gone, policy))
    decreases |gone|
  {
    hide Without, ContentWithoutCalls;
    if gone != [] {
      var p := gone[0];
      var next := if p.at < |messages| then messages[p.at := DropCall(messages[p.at], p.id, policy)] else messages;
      assert AllKeep(before, next);
      DropsKeep(before, next, gone[1..], policy);
    }
  }

  lemma StepKeeps(before: seq<Message>, s: Scan, i: nat, policy: Policy)
    requires AllKeep(before, s.messages) && i < |s.messages|
    ensures AllKeep(before, ScanStep(s, i, policy).messages)
  {
    hide DropCalls, DroppedCalls, MatchPending, FillIds, AlreadyCarries, Preview, Unresolved, AllUsed, MissingIds, PendingOf;
    DropsKeep(before, s.messages, Unresolved(s.pending), policy);
  }

  lemma {:induction false} ScanKeeps(before: seq<Message>, s: Scan, i: nat, policy: Policy)
    requires AllKeep(before, s.messages) && i <= |s.messages|
    ensures AllKeep(before, ScanFrom(s, i, policy).messages)
    decreases |s.messages| - i
  {
    hide ScanStep, DropCalls, DroppedCalls, Unresolved, Keeps;
    if i == |s.messages| {
      DropsKeep(before, s.messages, Unresolved(s.pending), policy);
    } else {
      StepKeeps(before, s, i, policy);
      ScanKeeps(before, ScanStep(s, i, policy), i + 1, policy);
    }
  }

  lemma {:induction false} StabilizeKeeps(before: seq<Message>, rest: seq<Message>, i: nat, ids: map<string, string>)
    requires AllKeep(before, rest)
    ensures AllKeep(before, StabilizeFrom(rest, i, ids))
    decreases |rest|
  {
    hide StableCalls, IdsAfter;
    if rest != [] {
      assert AllKeep(before[1..], rest[1..]);
      StabilizeKeeps(before[1..], rest[1..], i + 1, IdsAfter(ids, rest[0], i));
    }
  }

  /**
    Whatever the history: reasoning stays, only tool messages change role, to user, or
    id, and a message without calls that is no tool message stays as it is.
  */
  lemma CanonicalKeeps(messages: seq<Message>, policy: Policy)
    ensures AllKeep(messages, Canonical(messages, policy))
  {
    hide ScanFrom, StabilizeFrom, Keeps;
    assert AllKeep(messages, messages) by {
      forall i | 0 <= i < |messages|
        ensures Keeps(messages[i], messages[i])
      {
        ItselfKeeps(messages[i]);
      }
    }
    ScanKeeps(messages, Scan(messages, [], NO_REPAIR), 0, policy);
    StabilizeKeeps(messages, Paired(messages, policy).messages, 0, map[]);
  }

  lemma ItselfKeeps(m: Message)
    ensures Keeps(m, m)
  {
  }
}
