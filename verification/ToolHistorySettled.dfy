/**
  What a canonical history looks like, and that it is a fixed point: every block
  pairs its calls and tool messages one to one under positional ids, and running
  the canonicalizer on such a history changes nothing and repairs nothing.
*/
module ToolHistorySettled {
  import opened Utf8Text
  import opened ToolHistory
  import opened ToolHistoryBlocks
  import opened ToolHistoryFirstPass
  import opened ToolHistoryRefinement

  // ---- Settled blocks and histories -------------------------------------------

  predicate StableIds(calls: seq<ToolCall>, a: nat) {
    forall k :: 0 <= k < |calls| ==> calls[k].id == Some(SyntheticId(a, k, calls[k]))
  }

  predicate NamesCall(calls: seq<ToolCall>, id: Option<string>) {
    exists k :: 0 <= k < |calls| && calls[k].id == id
  }

  /** As many tool messages as calls, each naming a call of its own. */
  predicate OneToOne(calls: seq<ToolCall>, tools: seq<Message>) {
    && |tools| == |calls|
    && (forall s, t :: 0 <= s < t < |tools| ==> tools[s].toolCallId != tools[t].toolCallId)
    && (forall t :: 0 <= t < |tools| ==> NamesCall(calls, tools[t].toolCallId))
  }

  predicate BlockSettled(head: Message, tools: seq<Message>, a: nat) {
    && IsHead(head) && head.toolCallId.None?
    && (forall t :: 0 <= t < |tools| ==> tools[t].role == Tool && tools[t].toolCalls.None?)
    && StableIds(head.toolCalls.value, a)
    && OneToOne(head.toolCalls.value, tools)
  }

  predicate Plain(m: Message) {
    m.role != Tool && m.toolCalls.None? && m.toolCallId.None?
  }

  /** The list, whose first message is at position a, falls into settled blocks and plain messages. */
  predicate Settled(rest: seq<Message>, a: nat)
    decreases |rest|
  {
    rest == [] ||
    if IsHead(rest[0]) then
      && BlockSettled(rest[0], ToolsAfter(rest), a)
      && Settled(AfterRun(rest), a + 1 + |ToolsAfter(rest)|)
    else Plain(rest[0]) && Settled(rest[1..], a + 1)
  }

  // ---- Pairing by exact ids ---------------------------------------------------

  predicate DistinctPending(open: seq<Pending>) {
    forall j, k :: 0 <= j < k < |open| ==> open[j].id != open[k].id
  }

  lemma {:induction false} FindExact(open: seq<Pending>, k: nat, from: nat)
    requires from <= k < |open| && DistinctPending(open) && !open[k].used
    ensures FindUnused(open, Some(open[k].id), from) == Some(k)
    decreases |open| - from
  {
    if from < k { FindExact(open, k, from + 1); }
  }

  lemma MatchExact(open: seq<Pending>, k: nat)
    requires k < |open| && DistinctPending(open) && !open[k].used && Clean(open[k].id)
    ensures MatchPending(open, Some(open[k].id)) == Some(k)
    ensures AlreadyCarries(Some(open[k].id), open[k].id)
  {
    FindExact(open, k, 0);
    CleanIsTrimmed(open[k].id);
  }

  /** Each tool message names an entry of its own that is still unused. */
  predicate Exact(open: seq<Pending>, tools: seq<Message>) {
    && DistinctPending(open)
    && (forall k :: 0 <= k < |open| ==> Clean(open[k].id))
    && (forall s, t :: 0 <= s < t < |tools| ==> tools[s].toolCallId != tools[t].toolCallId)
    && (forall t :: 0 <= t < |tools| ==> NamesUnused(open, tools[t].toolCallId))
  }

  predicate NamesUnused(open: seq<Pending>, id: Option<string>) {
    exists k :: 0 <= k < |open| && !open[k].used && id == Some(open[k].id)
  }

  lemma ExactStep(open: seq<Pending>, tools: seq<Message>) returns (k: nat)
    requires tools != [] && Exact(open, tools)
    ensures k < |open| && MatchPending(open, tools[0].toolCallId) == Some(k)
    ensures tools[0].toolCallId == Some(open[k].id) && AlreadyCarries(tools[0].toolCallId, open[k].id)
    ensures Exact(MarkUsed(open, k), tools[1..])
  {
    hide Clean, MatchPending, AlreadyCarries;
    assert NamesUnused(open, tools[0].toolCallId);
    k :| 0 <= k < |open| && !open[k].used && tools[0].toolCallId == Some(open[k].id);
    MatchExact(open, k);
    var marked := MarkUsed(open, k);
    assert forall j :: 0 <= j < |open| ==> marked[j].id == open[j].id;
    forall t | 0 <= t < |tools[1..]|
      ensures NamesUnused(marked, tools[1..][t].toolCallId)
    {
      assert tools[1..][t] == tools[1 + t] && NamesUnused(open, tools[1 + t].toolCallId);
      var j :| 0 <= j < |open| && !open[j].used && tools[1 + t].toolCallId == Some(open[j].id);
      assert j != k && marked[j] == open[j];
    }
  }

  /** The tool message and the call it answers name the same id. */
  predicate AnswersByName(open: seq<Pending>, m: Message, answer: Option<nat>) {
    answer.Some? && answer.value < |open| && m.toolCallId == Some(open[answer.value].id)
  }

  lemma RunOfNone(open: seq<Pending>)
    ensures RunRepair(open, []) == NO_REPAIR && PairRun(open, []) == Pairing(open, [])
  {
  }

  lemma RunStep(open: seq<Pending>, tools: seq<Message>, k: nat)
    requires tools != [] && k < |open| && MatchPending(open, tools[0].toolCallId) == Some(k)
    requires AlreadyCarries(tools[0].toolCallId, open[k].id)
    ensures RunRepair(open, tools) == RunRepair(MarkUsed(open, k), tools[1..])
    ensures var rest := PairRun(MarkUsed(open, k), tools[1..]);
            PairRun(open, tools) == Pairing(rest.open, [Some(k)] + rest.answers)
  {
    hide MatchPending, AlreadyCarries, Plus;
    assert NextOpen(open, tools[0]) == MarkUsed(open, k) && ToolRepair(open, tools[0]) == NO_REPAIR;
    PlusAssoc(RunRepair(MarkUsed(open, k), tools[1..]), NO_REPAIR, NO_REPAIR);
  }

  /** When every tool message names its own call, each answers the call it names and nothing is repaired. */
  lemma {:induction false} ExactRun(open: seq<Pending>, tools: seq<Message>)
    requires Exact(open, tools)
    ensures RunRepair(open, tools) == NO_REPAIR
    ensures forall t :: 0 <= t < |tools| ==> AnswersByName(open, tools[t], PairRun(open, tools).answers[t])
    decreases |tools|
  {
    hide MatchPending, AlreadyCarries, Exact, RunRepair, PairRun;
    if tools == [] {
      RunOfNone(open);
    } else {
      var k := ExactStep(open, tools);
      var marked := MarkUsed(open, k);
      RunStep(open, tools, k);
      var tail := tools[1..];
      ExactRun(marked, tail);
      var rest := PairRun(marked, tail);
      forall t | 0 <= t < |tools|
        ensures AnswersByName(open, tools[t], ([Some(k)] + rest.answers)[t])
      {
        if t > 0 {
          assert AnswersByName(marked, tail[t - 1], rest.answers[t - 1]);
          assert tail[t - 1] == tools[t];
        }
      }
    }
  }

  // ---- Counting ---------------------------------------------------------------

  function Answered(answers: seq<Option<nat>>): nat {
    if answers == [] then 0 else (if answers[0].Some? then 1 else 0) + Answered(answers[1..])
  }

  lemma {:induction false} UnresolvedAfterMark(open: seq<Pending>, k: nat)
    requires k < |open| && !open[k].used
    ensures |Unresolved(MarkUsed(open, k))| + 1 == |Unresolved(open)|
  {
    var marked := MarkUsed(open, k);
    if k == 0 {
      assert marked[1..] == open[1..];
    } else {
      assert marked[1..] == MarkUsed(open[1..], k - 1);
      UnresolvedAfterMark(open[1..], k - 1);
    }
  }

  /** Each answer uses up exactly one entry. */
  lemma {:induction false} AnswersUseUp(open: seq<Pending>, tools: seq<Message>)
    ensures |Unresolved(PairRun(open, tools).open)| + Answered(PairRun(open, tools).answers) == |Unresolved(open)|
    decreases |tools|
  {
    hide MatchPending, Unresolved;
    if tools != [] {
      var k := MatchPending(open, tools[0].toolCallId);
      if k.Some? { UnresolvedAfterMark(open, k.value); }
      AnswersUseUp(NextOpen(open, tools[0]), tools[1..]);
    }
  }

  lemma {:induction false} AnsweredAll(answers: seq<Option<nat>>, n: nat)
    requires n <= |answers|
    requires forall t :: 0 <= t < n ==> answers[t].Some?
    requires forall t :: n <= t < |answers| ==> answers[t].None?
    ensures Answered(answers) == n
  {
    if answers != [] { AnsweredAll(answers[1..], if n == 0 then 0 else n - 1); }
  }

  lemma {:induction false} UnresolvedOfFresh(open: seq<Pending>)
    requires forall k :: 0 <= k < |open| ==> !open[k].used
    ensures Unresolved(open) == open
  {
    if open != [] { UnresolvedOfFresh(open[1..]); }
  }

  // ---- Settled blocks are fixed points ----------------------------------------

  lemma StableIdsAreClean(calls: seq<ToolCall>, a: nat)
    requires StableIds(calls, a)
    ensures forall k :: 0 <= k < |calls| ==> HasId(calls[k]) && Clean(calls[k].id.value)
    ensures DistinctIds(calls)
  {
    hide SyntheticId, Blank, Clean;
    forall k | 0 <= k < |calls| ensures HasId(calls[k]) && Clean(calls[k].id.value) {
      SyntheticIdClean(a, k, calls[k]);
    }
    forall s, t | 0 <= s < t < |calls| ensures calls[s].id != calls[t].id {
      if calls[s].id == calls[t].id {
        SyntheticIdInjective(a, s, calls[s], a, t, calls[t]);
      }
    }
  }

  lemma {:induction false} NoMissingIds(calls: seq<ToolCall>, n: nat)
    requires n <= |calls| && forall k :: 0 <= k < |calls| ==> HasId(calls[k])
    ensures MissingIds(calls, n) == 0
  {
    hide HasId;
    if n > 0 { NoMissingIds(calls, n - 1); }
  }

  lemma FillKeepsStable(calls: seq<ToolCall>, a: nat)
    requires forall k :: 0 <= k < |calls| ==> HasId(calls[k])
    ensures FillIds(calls, a) == calls && MissingIds(calls, |calls|) == 0
  {
    hide SyntheticId, HasId;
    NoMissingIds(calls, |calls|);
  }

  lemma OpenOfSettled(head: Message, a: nat)
    requires IsHead(head) && StableIds(head.toolCalls.value, a)
    ensures FillIds(head.toolCalls.value, a) == head.toolCalls.value
    ensures Aligned(head.toolCalls.value, OpenOf(head, a), a)
    ensures forall k :: 0 <= k < |OpenOf(head, a)| ==> !OpenOf(head, a)[k].used && Clean(OpenOf(head, a)[k].id)
    ensures DistinctPending(OpenOf(head, a)) && DistinctIds(head.toolCalls.value)
  {
    hide SyntheticId, Blank, Clean;
    var calls := head.toolCalls.value;
    StableIdsAreClean(calls, a);
    FillKeepsStable(calls, a);
  }

  lemma SettledIsExact(head: Message, tools: seq<Message>, a: nat)
    requires BlockSettled(head, tools, a)
    ensures Exact(OpenOf(head, a), tools)
  {
    hide SyntheticId, Clean, OpenOf, DistinctPending, StableIds, FillIds;
    var calls, open := head.toolCalls.value, OpenOf(head, a);
    OpenOfSettled(head, a);
    forall t | 0 <= t < |tools| ensures NamesUnused(open, tools[t].toolCallId) {
      var k :| 0 <= k < |calls| && calls[k].id == tools[t].toolCallId;
      assert !open[k].used && tools[t].toolCallId == Some(open[k].id);
    }
  }

  /** In a settled block every call is answered, by name, and nothing is repaired. */
  lemma SettledRun(head: Message, tools: seq<Message>, a: nat)
    requires BlockSettled(head, tools, a)
    ensures var open := OpenOf(head, a);
            && RunRepair(open, tools) == NO_REPAIR
            && AllUsed(PairRun(open, tools).open) && Unresolved(PairRun(open, tools).open) == []
            && forall t :: 0 <= t < |tools| ==> AnswersByName(open, tools[t], PairRun(open, tools).answers[t])
  {
    hide OpenOf, Exact, PairRun, RunRepair, StableIds, OneToOne, BlockSettled, Unresolved, AllUsed;
    SettledParts(head, tools, a);
    var open := OpenOf(head, a);
    var r := PairRun(open, tools);
    SettledIsExact(head, tools, a);
    ExactRun(open, tools);
    OpenOfSettled(head, a);
    AnswersUseUp(open, tools);
    assert forall t :: 0 <= t < |tools| ==> AnswersByName(open, tools[t], r.answers[t]);
    AnsweredAll(r.answers, |tools|);
    UnresolvedOfFresh(open);
    UnresolvedMembers(r.open);
  }

  lemma SettledParts(head: Message, tools: seq<Message>, a: nat)
    requires BlockSettled(head, tools, a)
    ensures IsHead(head) && head.role == Assistant && head.toolCallId.None?
    ensures StableIds(head.toolCalls.value, a) && |tools| == |head.toolCalls.value|
    ensures forall t :: 0 <= t < |tools| ==> tools[t].role == Tool && tools[t].toolCalls.None?
  {
  }

  lemma {:induction false} RankAllUsed(open: seq<Pending>, k: nat)
    requires k <= |open| && AllUsed(open)
    ensures Rank(open, k) == k
  {
    if k > 0 {
      assert open[k - 1] in open;
      RankAllUsed(open, k - 1);
    }
  }

  lemma StableCallsSame(calls: seq<ToolCall>, a: nat)
    requires StableIds(calls, a)
    ensures StableCalls(calls, a) == calls
  {
    hide SyntheticId;
  }

  lemma SettledTool(head: Message, tools: seq<Message>, a: nat, policy: Policy, t: nat)
    requires BlockSettled(head, tools, a) && t < |tools|
    ensures var open := OpenOf(head, a);
            var r := PairRun(open, tools);
            && PairedTools(open, tools, policy)[t] == tools[t]
            && StableTool(tools[t], r.answers[t], head.toolCalls.value, r.open, a, policy) == tools[t]
  {
    hide SyntheticId, OpenOf, PairRun, RunRepair, DowngradeTool, OneToOne, BlockSettled, AllUsed, Unresolved;
    SettledParts(head, tools, a);
    var calls := head.toolCalls.value;
    var open := OpenOf(head, a);
    var r := PairRun(open, tools);
    SettledRun(head, tools, a);
    OpenOfSettled(head, a);
    PairedToolsAt(open, tools, policy, t);
    assert AnswersByName(open, tools[t], r.answers[t]);
    var k := r.answers[t].value;
    RankAllUsed(r.open, k);
    assert calls[k].id == Some(open[k].id);
  }

  lemma SettledBlockFixed(head: Message, tools: seq<Message>, a: nat, policy: Policy)
    requires BlockSettled(head, tools, a)
    ensures PairBlock(head, tools, a, policy) == [head] + tools
    ensures CanonBlock(head, tools, a, policy) == [head] + tools
    ensures BlockRepair(head, tools, a) == NO_REPAIR
  {
    hide SyntheticId, OpenOf, PairRun, PairedTools, StableTool, RunRepair, OneToOne, BlockSettled, AllUsed,
         Unresolved, FillIds, StableIds, StableCalls, Kept, DistinctIds, DistinctPending, Aligned, Clean, MissingIds;
    SettledParts(head, tools, a);
    var calls := head.toolCalls.value;
    var open := OpenOf(head, a);
    var r := PairRun(open, tools);
    OpenOfSettled(head, a);
    SettledRun(head, tools, a);
    StableCallsSame(calls, a);
    StableIdsAreClean(calls, a);
    FillKeepsStable(calls, a);
    forall t | 0 <= t < |tools|
      ensures PairedTools(open, tools, policy)[t] == tools[t]
      ensures StableTools(tools, r.answers, calls, r.open, a, policy)[t] == tools[t]
    {
      SettledTool(head, tools, a, policy, t);
    }
    assert PairedTools(open, tools, policy) == tools;
    assert StableTools(tools, r.answers, calls, r.open, a, policy) == tools;
  }

  lemma SettledHeadTidy(head: Message, tools: seq<Message>, a: nat)
    requires BlockSettled(head, tools, a)
    ensures TidyMessage(head, a)
    ensures forall t :: 0 <= t < |tools| ==> TidyMessage(tools[t], a + 1 + t)
  {
    hide SyntheticId, Blank, Clean, OneToOne;
    var calls := head.toolCalls.value;
    StableIdsAreClean(calls, a);
    FillKeepsStable(calls, a);
    forall c | c in calls ensures c.id.Some? && Clean(c.id.value) {
      var k :| 0 <= k < |calls| && calls[k] == c;
    }
    forall t | 0 <= t < |tools| ensures TidyMessage(tools[t], a + 1 + t) {
      SettledToolId(head, tools, a, t);
    }
  }

  lemma SettledToolId(head: Message, tools: seq<Message>, a: nat, t: nat)
    requires BlockSettled(head, tools, a) && t < |tools|
    ensures tools[t].toolCallId.Some? && Clean(tools[t].toolCallId.value)
  {
    hide SyntheticId, Blank, Clean;
    var calls := head.toolCalls.value;
    StableIdsAreClean(calls, a);
    var id := tools[t].toolCallId;
    var k :| 0 <= k < |calls| && calls[k].id == id;
  }

  // ---- Settled histories are fixed points -------------------------------------

  lemma RestParts(rest: seq<Message>)
    requires rest != []
    ensures [rest[0]] + ToolsAfter(rest) + AfterRun(rest) == rest
  {
  }

  lemma TidyJoin(head: Message, tools: seq<Message>, more: seq<Message>, a: nat)
    requires TidyMessage(head, a) && forall t :: 0 <= t < |tools| ==> TidyMessage(tools[t], a + 1 + t)
    requires TidyFrom(more, a + 1 + |tools|)
    ensures TidyFrom([head] + tools + more, a)
  {
    hide TidyMessage;
    var all := [head] + tools + more;
    forall i | 0 <= i < |all| ensures TidyMessage(all[i], a + i) {
      if i == 0 {
      } else if i <= |tools| {
        assert TidyMessage(tools[i - 1], a + 1 + (i - 1));
      } else {
        assert TidyMessage(more[i - 1 - |tools|], a + 1 + |tools| + (i - 1 - |tools|));
      }
    }
  }

  lemma {:induction false} SettledFixed(rest: seq<Message>, a: nat, policy: Policy)
    requires Settled(rest, a)
    ensures TidyFrom(rest, a)
    ensures PairBlocks(rest, a, policy) == rest && CanonBlocks(rest, a, policy) == rest
    ensures BlocksRepair(rest, a) == NO_REPAIR
    decreases |rest|
  {
    hide BlockSettled, PairBlock, CanonBlock, BlockRepair, TidyMessage, TidyFrom, ToolsAfter, AfterRun,
         PairBlocks, CanonBlocks, BlocksRepair, Plus;
    PlusAssoc(NO_REPAIR, NO_REPAIR, NO_REPAIR);
    if rest == [] {
      BlocksAtEnd(a, policy);
      CanonAtEnd(a, policy);
      TidyEmpty(a);
    } else if IsHead(rest[0]) {
      var head, tools, more := rest[0], ToolsAfter(rest), AfterRun(rest);
      SettledFixed(more, a + 1 + |tools|, policy);
      SettledBlockFixed(head, tools, a, policy);
      SettledHeadTidy(head, tools, a);
      BlocksAtHead(rest, a, policy);
      CanonAtHead(rest, a, policy);
      TidyJoin(head, tools, more, a);
      RestParts(rest);
    } else {
      SettledFixed(rest[1..], a + 1, policy);
      BlocksElsewhere(rest, a, policy);
      CanonElsewhere(rest, a, policy);
      PlainTidy(rest[0], a);
      TidyJoin(rest[0], [], rest[1..], a);
      assert [rest[0]] + [] + rest[1..] == [rest[0]] + rest[1..] == rest;
    }
  }

  lemma TidyEmpty(a: nat)
    ensures TidyFrom([], a)
  {
  }

  lemma PlainTidy(m: Message, a: nat)
    requires Plain(m)
    ensures TidyMessage(m, a) && PassThrough(m, Strict) == m == PassThrough(m, Compat) && PassRepair(m) == NO_REPAIR
  {
  }

  lemma {:induction false} SameCallsUnchanged(calls: seq<ToolCall>, a: nat, n: nat)
    requires n <= |calls| && StableIds(calls, a)
    ensures ChangedCalls(calls, a, n) == 0
  {
    hide SyntheticId;
    if n > 0 { SameCallsUnchanged(calls, a, n - 1); }
  }

  lemma SameMessageUnchanged(m: Message, i: nat, ids: map<string, string>)
    requires Stabilized(m, i, ids) == m
    ensures ChangedIds(m, i, ids) == 0
  {
    hide SyntheticId;
    if m.toolCalls.Some? {
      var calls := m.toolCalls.value;
      forall k | 0 <= k < |calls| ensures calls[k].id == Some(SyntheticId(i, k, calls[k])) {
        assert StableCalls(calls, i)[k] == calls[k];
      }
      SameCallsUnchanged(calls, i, |calls|);
    }
  }

  lemma {:induction false} SameHistoryUnchanged(rest: seq<Message>, i: nat, ids: map<string, string>)
    requires StabilizeFrom(rest, i, ids) == rest
    ensures ChangedFrom(rest, i, ids) == 0
    decreases |rest|
  {
    hide Stabilized, ChangedIds, IdsAfter;
    if rest != [] {
      var ids' := IdsAfter(ids, rest[0], i);
      var tail := StabilizeFrom(rest[1..], i + 1, ids');
      assert rest[0] == ([Stabilized(rest[0], i, ids')] + tail)[0];
      assert rest[1..] == ([Stabilized(rest[0], i, ids')] + tail)[1..] == tail;
      SameMessageUnchanged(rest[0], i, ids');
      SameHistoryUnchanged(rest[1..], i + 1, ids');
    }
  }

  lemma SettledUnchanged(messages: seq<Message>, policy: Policy)
    requires Tidy(messages) && PairBlocks(messages, 0, policy) == messages && CanonBlocks(messages, 0, policy) == messages
    ensures ChangedFrom(messages, 0, map[]) == 0
  {
    hide TidyFrom, PairBlocks, CanonBlocks, StabilizeFrom, ChangedFrom;
    TidyIsSound(messages);
    StabilizeIsBlocks(messages, 0, policy, map[]);
    SameHistoryUnchanged(messages, 0, map[]);
  }

  /** A settled history is tidy, and canonicalizing it changes nothing and repairs nothing. */
  lemma SettledIsFixed(messages: seq<Message>, policy: Policy)
    requires Settled(messages, 0)
    ensures Tidy(messages)
    ensures Canonical(messages, policy) == messages && CanonicalRepair(messages, policy) == NO_REPAIR
  {
    hide Settled, TidyFrom, Canonical, CanonicalRepair, PairBlocks, CanonBlocks, BlocksRepair, ChangedFrom, Plus;
    PlusAssoc(NO_REPAIR, NO_REPAIR, NO_REPAIR);
    SettledFixed(messages, 0, policy);
    TidyIsSound(messages);
    CanonicalIsBlocks(messages, policy);
    SettledUnchanged(messages, policy);
  }

  // ---- Canonical histories are settled ----------------------------------------

  lemma {:induction false} ToolRunOf(tools: seq<Message>, more: seq<Message>)
    requires forall t :: 0 <= t < |tools| ==> tools[t].role == Tool
    requires more != [] ==> more[0].role != Tool
    ensures ToolRun(tools + more) == |tools|
  {
    if tools == [] {
      assert tools + more == more;
    } else {
      assert (tools + more)[1..] == tools[1..] + more;
      ToolRunOf(tools[1..], more);
    }
  }

  lemma {:induction false} SettledAfterPlain(plain: seq<Message>, more: seq<Message>, a: nat)
    requires forall t :: 0 <= t < |plain| ==> Plain(plain[t])
    requires Settled(more, a + |plain|)
    ensures Settled(plain + more, a)
    decreases |plain|
  {
    if plain == [] {
      assert plain + more == more;
    } else {
      assert (plain + more)[1..] == plain[1..] + more;
      SettledAfterPlain(plain[1..], more, a + 1);
    }
  }

  lemma JoinParts(head: Message, tools: seq<Message>, rest: seq<Message>)
    requires forall t :: 0 <= t < |tools| ==> tools[t].role == Tool
    requires rest != [] ==> rest[0].role != Tool
    ensures ToolsAfter([head] + (tools + rest)) == tools && AfterRun([head] + (tools + rest)) == rest
  {
    ToolRunOf(tools, rest);
    assert ([head] + (tools + rest))[1..] == tools + rest;
  }

  /** A settled block in front of plain messages and a settled rest. */
  lemma SettledJoin(head: Message, tools: seq<Message>, plain: seq<Message>, more: seq<Message>, a: nat)
    requires BlockSettled(head, tools, a)
    requires forall t :: 0 <= t < |plain| ==> Plain(plain[t])
    requires Settled(more, a + 1 + |tools| + |plain|) && (more != [] ==> more[0].role != Tool)
    ensures Settled([head] + tools + plain + more, a)
  {
    hide BlockSettled, Settled, Plain;
    SettledAfterPlain(plain, more, a + 1 + |tools|);
    PlainStarts(plain, more);
    SettledBlockFirst(head, tools, plain + more, a);
    Reassociate([head], tools, plain, more);
  }

  lemma SettledBlockFirst(head: Message, tools: seq<Message>, rest: seq<Message>, a: nat)
    requires BlockSettled(head, tools, a) && Settled(rest, a + 1 + |tools|) && (rest != [] ==> rest[0].role != Tool)
    ensures Settled([head] + (tools + rest), a)
  {
    hide BlockSettled, Settled, ToolsAfter, AfterRun;
    SettledParts(head, tools, a);
    JoinParts(head, tools, rest);
    SettledAtHead([head] + (tools + rest), a);
  }

  lemma PlainStarts(plain: seq<Message>, more: seq<Message>)
    requires forall t :: 0 <= t < |plain| ==> Plain(plain[t])
    requires more != [] ==> more[0].role != Tool
    ensures plain + more != [] ==> (plain + more)[0].role != Tool
  {
  }

  lemma Reassociate<T>(a: seq<T>, b: seq<T>, c: seq<T>, d: seq<T>)
    ensures a + b + c + d == a + (b + (c + d))
  {
  }

  lemma SettledAtHead(rest: seq<Message>, a: nat)
    requires rest != [] && IsHead(rest[0]) && BlockSettled(rest[0], ToolsAfter(rest), a)
    requires Settled(AfterRun(rest), a + 1 + |ToolsAfter(rest)|)
    ensures Settled(rest, a)
  {
  }

  lemma CanonStartsBlock(rest: seq<Message>, a: nat, policy: Policy)
    requires rest != []
    ensures CanonBlocks(rest, a, policy)[0].role != Tool
  {
    hide PairRun, Kept;
  }

  lemma OpenIsFresh(head: Message, a: nat)
    requires IsHead(head)
    ensures forall k :: 0 <= k < |OpenOf(head, a)| ==> !OpenOf(head, a)[k].used
  {
  }

  /** The answered tool messages come first, and there are as many of them as kept calls. */
  lemma AnsweredFirst(calls: seq<ToolCall>, open: seq<Pending>, tools: seq<Message>) returns (n: nat)
    requires |calls| == |open| && forall k :: 0 <= k < |open| ==> !open[k].used
    ensures var r := PairRun(open, tools);
            && n <= |tools| && n == |Kept(calls, r.open)|
            && (forall t :: 0 <= t < n ==> r.answers[t].Some?)
            && (forall t :: n <= t < |tools| ==> r.answers[t].None?)
  {
    hide PairRun, Kept, Unresolved;
    var r := PairRun(open, tools);
    PairRunInjective(open, tools);
    n := 0;
    while n < |tools| && r.answers[n].Some?
      invariant n <= |tools| && forall t :: 0 <= t < n ==> r.answers[t].Some?
    {
      n := n + 1;
    }
    AnsweredAll(r.answers, n);
    AnswersUseUp(open, tools);
    UnresolvedOfFresh(open);
    KeptCount(calls, r.open);
  }

  /** The tool messages of a block, answered under stable ids, and the kept calls match one to one. */
  lemma KeptOneToOne(calls: seq<ToolCall>, r: Pairing, open: seq<Pending>, tools: seq<Message>, n: nat, a: nat, policy: Policy)
    requires |calls| == |open| == |r.open| && |r.answers| == |tools|
    requires Injective(open, tools, r)
    requires n <= |tools| && n == |Kept(calls, r.open)| && forall t :: 0 <= t < n ==> r.answers[t].Some?
    ensures OneToOne(StableCalls(Kept(calls, r.open), a), StableTools(tools, r.answers, calls, r.open, a, policy)[..n])
  {
    hide SyntheticId, DowngradeTool, Kept, Rank, Injective;
    var kept := StableCalls(Kept(calls, r.open), a);
    var out := StableTools(tools, r.answers, calls, r.open, a, policy)[..n];
    forall t | 0 <= t < n
      ensures NamesCall(kept, out[t].toolCallId)
    {
      var j := AnswerRank(calls, r, open, tools, t);
      assert kept[Rank(r.open, j)].id == out[t].toolCallId;
    }
    forall s, t | 0 <= s < t < n ensures out[s].toolCallId != out[t].toolCallId {
      var i := AnswerRank(calls, r, open, tools, s);
      var j := AnswerRank(calls, r, open, tools, t);
      if out[s].toolCallId == out[t].toolCallId {
        SyntheticIdInjective(a, Rank(r.open, i), calls[i], a, Rank(r.open, j), calls[j]);
        AnswersDiffer(calls, r, open, tools, s, t);
      }
    }
    assert |out| == |kept|;
  }

  lemma AnswerRank(calls: seq<ToolCall>, r: Pairing, open: seq<Pending>, tools: seq<Message>, t: nat) returns (k: nat)
    requires |calls| == |open| && Injective(open, tools, r) && t < |tools| && r.answers[t].Some?
    ensures k < |calls| && r.answers[t] == Some(k) && r.open[k].used
    ensures Rank(r.open, k) < |Kept(calls, r.open)| && Kept(calls, r.open)[Rank(r.open, k)] == calls[k]
  {
    k := r.answers[t].value;
    KeptAtRank(calls, r.open, k);
  }

  lemma AnswersDiffer(calls: seq<ToolCall>, r: Pairing, open: seq<Pending>, tools: seq<Message>, s: nat, t: nat)
    requires |calls| == |open| && Injective(open, tools, r)
    requires s < t < |tools| && r.answers[s].Some? && r.answers[t].Some?
    ensures r.answers[s].value < |open| && r.answers[t].value < |open|
    ensures Rank(r.open, r.answers[s].value) != Rank(r.open, r.answers[t].value)
  {
    var i := AnswerRank(calls, r, open, tools, s);
    var j := AnswerRank(calls, r, open, tools, t);
    if i < j { RankRises(r.open, i, j); } else { RankRises(r.open, j, i); }
  }

  lemma {:induction false} RankRises(open: seq<Pending>, i: nat, j: nat)
    requires i < j <= |open| && open[i].used
    ensures Rank(open, i) < Rank(open, j)
    decreases j
  {
    if i + 1 < j { RankRises(open, i, j - 1); }
  }

  /** A canonical block is a settled one followed by plain messages, or plain altogether. */
  lemma CanonBlockSettles(head: Message, tools: seq<Message>, a: nat, policy: Policy) returns (n: nat)
    requires IsHead(head) && PlacedMessage(head)
    requires forall t :: 0 <= t < |tools| ==> tools[t].role == Tool && tools[t].toolCalls.None?
    ensures var out := CanonBlock(head, tools, a, policy);
            && n <= |tools|
            && (forall t :: 1 + n <= t < |out| ==> Plain(out[t]))
            && (if IsHead(out[0]) then BlockSettled(out[0], out[1..1 + n], a) else n == 0 && Plain(out[0]))
  {
    hide SyntheticId, PairRun, Kept, FillIds, Rank, Injective, StableCalls, ContentWithoutCalls, OneToOne,
         Aligned, OpenOf;
    var calls := FillIds(head.toolCalls.value, a);
    var open := OpenOf(head, a);
    var r := PairRun(open, tools);
    var stable := StableTools(tools, r.answers, calls, r.open, a, policy);
    var out := CanonBlock(head, tools, a, policy);
    HeadIsAligned(head, a, tools);
    PairRunInjective(open, tools);
    OpenIsFresh(head, a);
    n := AnsweredFirst(calls, open, tools);
    KeptOneToOne(calls, r, open, tools, n, a, policy);
    assert out[1..1 + n] == stable[..n];
    assert forall t :: 0 <= t < |tools| ==> out[1 + t] == stable[t];
    if AllUsed(r.open) { KeptAll(calls, r.open); }
    StableCallsStable(Kept(calls, r.open), a);
    StableRoles(tools, r, calls, open, n, a, policy);
  }

  lemma StableCallsStable(calls: seq<ToolCall>, a: nat)
    ensures StableIds(StableCalls(calls, a), a)
  {
    hide StableHash;
  }

  lemma StableRoles(tools: seq<Message>, r: Pairing, calls: seq<ToolCall>, open: seq<Pending>, n: nat, a: nat, policy: Policy)
    requires |calls| == |open| && Injective(open, tools, r) && n <= |tools|
    requires forall t :: 0 <= t < |tools| ==> tools[t].role == Tool && tools[t].toolCalls.None?
    requires forall t :: 0 <= t < n ==> r.answers[t].Some?
    requires forall t :: n <= t < |tools| ==> r.answers[t].None?
    ensures var stable := StableTools(tools, r.answers, calls, r.open, a, policy);
            && (forall t :: 0 <= t < n ==> stable[t].role == Tool && stable[t].toolCalls.None?)
            && (forall t :: n <= t < |tools| ==> Plain(stable[t]))
  {
    hide SyntheticId;
  }

  lemma {:induction false} CanonBlocksSettled(rest: seq<Message>, a: nat, policy: Policy)
    requires Placed(rest)
    ensures Settled(CanonBlocks(rest, a, policy), a)
    decreases |rest|
  {
    hide Placed, PlacedMessage, ToolsAfter, AfterRun, CanonBlock, CanonBlocks, BlockSettled, Plain, Settled;
    if rest == [] {
      CanonAtEnd(a, policy);
      SettledEmpty(a);
    } else {
      PlacedParts(rest);
      if IsHead(rest[0]) {
        var tools := ToolsAfter(rest);
        var block := CanonBlock(rest[0], tools, a, policy);
        var more := CanonBlocks(AfterRun(rest), a + 1 + |tools|, policy);
        CanonBlocksSettled(AfterRun(rest), a + 1 + |tools|, policy);
        var n := CanonBlockSettles(rest[0], tools, a, policy);
        if AfterRun(rest) != [] { CanonStartsBlock(AfterRun(rest), a + 1 + |tools|, policy); }
        CanonAtHead(rest, a, policy);
        SettledBlockJoin(block, n, more, a);
      } else {
        var passed := PassThrough(rest[0], policy);
        CanonBlocksSettled(rest[1..], a + 1, policy);
        CanonElsewhere(rest, a, policy);
        PassedIsPlain(rest[0], a, policy);
        SettledAfterPlain([passed], CanonBlocks(rest[1..], a + 1, policy), a);
      }
    }
  }

  lemma SettledEmpty(a: nat)
    ensures Settled([], a)
  {
  }

  lemma PassedIsPlain(m: Message, a: nat, policy: Policy)
    requires PlacedMessage(m) && !IsHead(m)
    ensures Plain(PassThrough(m, policy))
  {
  }

  lemma SettledBlockJoin(block: seq<Message>, n: nat, more: seq<Message>, a: nat)
    requires 1 + n <= |block|
    requires forall t :: 1 + n <= t < |block| ==> Plain(block[t])
    requires if IsHead(block[0]) then BlockSettled(block[0], block[1..1 + n], a) else n == 0 && Plain(block[0])
    requires Settled(more, a + |block|) && (more != [] ==> more[0].role != Tool)
    ensures Settled(block + more, a)
  {
    hide BlockSettled, Plain, Settled;
    if IsHead(block[0]) {
      SettledJoin(block[0], block[1..1 + n], block[1 + n..], more, a);
      assert [block[0]] + block[1..1 + n] + block[1 + n..] == block;
    } else {
      SettledAfterPlain(block, more, a);
    }
  }
}
