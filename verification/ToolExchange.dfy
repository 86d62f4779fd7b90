/**
  Histories in which every call has its result: the canonicalizer drops nothing
  and keeps each result with the call it answers.
*/
module ToolExchange {
  import opened Utf8Text
  import opened ToolHistory
  import opened ToolHistoryBlocks
  import opened ToolHistoryFirstPass
  import opened ToolHistoryRefinement
  import opened ToolHistorySettled
  import opened ToolHistoryLaws

  // ---- Exchanges --------------------------------------------------------------

  /** Every call has an id of its own, without surrounding white space. */
  predicate NamedIds(calls: seq<ToolCall>) {
    (forall k :: 0 <= k < |calls| ==> calls[k].id.Some? && Clean(calls[k].id.value)) && DistinctIds(calls)
  }

  /** The tool messages behind a head answer each of its calls by id, once. */
  predicate BlockExchanged(head: Message, tools: seq<Message>) {
    && IsHead(head) && head.toolCallId.None?
    && (forall t :: 0 <= t < |tools| ==> tools[t].role == Tool && tools[t].toolCalls.None?)
    && NamedIds(head.toolCalls.value)
    && OneToOne(head.toolCalls.value, tools)
  }

  predicate Exchanged(rest: seq<Message>)
    decreases |rest|
  {
    rest == [] ||
    if IsHead(rest[0]) then BlockExchanged(rest[0], ToolsAfter(rest)) && Exchanged(AfterRun(rest))
    else Plain(rest[0]) && Exchanged(rest[1..])
  }

  // ---- One block --------------------------------------------------------------

  lemma ExchangedParts(head: Message, tools: seq<Message>)
    requires BlockExchanged(head, tools)
    ensures IsHead(head) && head.toolCallId.None? && NamedIds(head.toolCalls.value)
    ensures |tools| == |head.toolCalls.value| && OneToOne(head.toolCalls.value, tools)
    ensures forall t :: 0 <= t < |tools| ==> tools[t].role == Tool && tools[t].toolCalls.None?
  {
  }

  lemma OpenOfNamed(head: Message, a: nat)
    requires IsHead(head) && NamedIds(head.toolCalls.value)
    ensures var calls, open := head.toolCalls.value, OpenOf(head, a);
      && FillIds(calls, a) == calls && MissingIds(calls, |calls|) == 0 && Aligned(calls, open, a)
      && DistinctPending(open) && forall k :: 0 <= k < |open| ==> !open[k].used && Clean(open[k].id)
  {
    hide SyntheticId, Blank, Clean;
    var calls := head.toolCalls.value;
    forall k | 0 <= k < |calls|
      ensures HasId(calls[k])
    {
      CleanIsTrimmed(calls[k].id.value);
    }
    FillKeepsStable(calls, a);
  }

  lemma ExchangedIsExact(head: Message, tools: seq<Message>, a: nat)
    requires BlockExchanged(head, tools)
    ensures Exact(OpenOf(head, a), tools)
  {
    hide Clean, OpenOf, DistinctPending, FillIds, NamedIds;
    ExchangedParts(head, tools);
    var calls, open := head.toolCalls.value, OpenOf(head, a);
    OpenOfNamed(head, a);
    forall t | 0 <= t < |tools| ensures NamesUnused(open, tools[t].toolCallId) {
      var k :| 0 <= k < |calls| && calls[k].id == tools[t].toolCallId;
      assert !open[k].used && tools[t].toolCallId == Some(open[k].id);
    }
  }

  lemma ExchangedRun(head: Message, tools: seq<Message>, a: nat)
    requires BlockExchanged(head, tools)
    ensures var open := OpenOf(head, a);
            && RunRepair(open, tools) == NO_REPAIR
            && AllUsed(PairRun(open, tools).open) && Unresolved(PairRun(open, tools).open) == []
            && forall t :: 0 <= t < |tools| ==> AnswersByName(open, tools[t], PairRun(open, tools).answers[t])
  {
    hide OpenOf, Exact, PairRun, RunRepair, NamedIds, OneToOne, BlockExchanged, Unresolved, AllUsed;
    ExchangedParts(head, tools);
    var open := OpenOf(head, a);
    var r := PairRun(open, tools);
    ExchangedIsExact(head, tools, a);
    ExactRun(open, tools);
    OpenOfNamed(head, a);
    AnswersUseUp(open, tools);
    assert forall t :: 0 <= t < |tools| ==> AnswersByName(open, tools[t], r.answers[t]);
    AnsweredAll(r.answers, |tools|);
    UnresolvedOfFresh(open);
    UnresolvedMembers(r.open);
  }

  /** A result under the id that its call gets. */
  function Renamed(tool: Message, a: nat, k: nat, call: ToolCall): Message {
    tool.(toolCallId := Some(SyntheticId(a, k, call)))
  }

  lemma ExchangedHead(head: Message, tools: seq<Message>, a: nat, policy: Policy)
    requires BlockExchanged(head, tools)
    ensures CanonBlock(head, tools, a, policy)[0] == head.(toolCalls := Some(StableCalls(head.toolCalls.value, a)))
    ensures BlockRepair(head, tools, a) == NO_REPAIR
  {
    hide SyntheticId, OpenOf, PairRun, StableTools, RunRepair, OneToOne, BlockExchanged, AllUsed, Unresolved, FillIds,
         StableCalls, Kept, DistinctIds, DistinctPending, Aligned, Clean, MissingIds, NamedIds;
    ExchangedParts(head, tools);
    OpenOfNamed(head, a);
    ExchangedRun(head, tools, a);
  }

  lemma SameCall(calls: seq<ToolCall>, n: nat, k: nat)
    requires NamedIds(calls) && n < |calls| && k < |calls| && calls[n].id == calls[k].id
    ensures n == k
  {
    hide Clean;
  }

  /** A tool message takes the call it names, and all calls are taken. */
  lemma ExchangedAnswer(head: Message, tools: seq<Message>, a: nat, t: nat, k: nat)
    requires BlockExchanged(head, tools) && t < |tools| && k < |head.toolCalls.value|
    requires tools[t].toolCallId == head.toolCalls.value[k].id
    ensures var r := PairRun(OpenOf(head, a), tools); r.answers[t] == Some(k) && Rank(r.open, k) == k
  {
    hide OpenOf, PairRun, RunRepair, OneToOne, BlockExchanged, AllUsed, Unresolved, NamedIds, DistinctPending, FillIds,
         Clean, MissingIds;
    ExchangedParts(head, tools);
    var calls, open := head.toolCalls.value, OpenOf(head, a);
    var r := PairRun(open, tools);
    ExchangedRun(head, tools, a);
    OpenOfNamed(head, a);
    assert AnswersByName(open, tools[t], r.answers[t]);
    var n := r.answers[t].value;
    assert calls[n].id == Some(open[n].id) == calls[k].id;
    SameCall(calls, n, k);
    RankAllUsed(r.open, k);
  }

  lemma CanonToolAt(head: Message, tools: seq<Message>, a: nat, policy: Policy, t: nat)
    requires IsHead(head) && t < |tools|
    ensures var p := PairRun(OpenOf(head, a), tools);
      CanonBlock(head, tools, a, policy)[1 + t]
      == StableTool(tools[t], p.answers[t], FillIds(head.toolCalls.value, a), p.open, a, policy)
  {
    hide StableTools, StableTool, StableHead, PairRun, OpenOf, FillIds;
    var p := PairRun(OpenOf(head, a), tools);
    StableToolsAt(tools, p.answers, FillIds(head.toolCalls.value, a), p.open, a, policy, t);
  }

  lemma StableToolsAt(tools: seq<Message>, answers: seq<Option<nat>>, calls: seq<ToolCall>, open: seq<Pending>,
                      a: nat, policy: Policy, t: nat)
    requires |calls| == |open| && |answers| == |tools| && t < |tools|
    ensures StableTools(tools, answers, calls, open, a, policy)[t] == StableTool(tools[t], answers[t], calls, open, a, policy)
  {
    hide StableTool;
  }

  lemma ExchangedTool(head: Message, tools: seq<Message>, a: nat, policy: Policy, t: nat, k: nat)
    requires BlockExchanged(head, tools) && t < |tools| && k < |head.toolCalls.value|
    requires tools[t].toolCallId == head.toolCalls.value[k].id
    ensures CanonBlock(head, tools, a, policy)[1 + t] == Renamed(tools[t], a, k, head.toolCalls.value[k])
  {
    hide SyntheticId, OpenOf, PairRun, DowngradeTool, BlockExchanged, CanonBlock, NamedIds, DistinctPending, FillIds,
         Clean, MissingIds, Aligned, OneToOne;
    ExchangedParts(head, tools);
    OpenOfNamed(head, a);
    ExchangedAnswer(head, tools, a, t, k);
    CanonToolAt(head, tools, a, policy, t);
  }

  // ---- Whole histories --------------------------------------------------------

  lemma ExchangedBlockTidy(head: Message, tools: seq<Message>, a: nat)
    requires BlockExchanged(head, tools)
    ensures TidyMessage(head, a)
    ensures forall t :: 0 <= t < |tools| ==> TidyMessage(tools[t], a + 1 + t)
  {
    hide SyntheticId, Blank, Clean, OneToOne, FillIds, MissingIds;
    ExchangedParts(head, tools);
    var calls := head.toolCalls.value;
    OpenOfNamed(head, a);
    forall t | 0 <= t < |tools| ensures TidyMessage(tools[t], a + 1 + t) {
      ExchangedToolId(head, tools, t);
    }
  }

  lemma ExchangedToolId(head: Message, tools: seq<Message>, t: nat)
    requires BlockExchanged(head, tools) && t < |tools|
    ensures tools[t].toolCallId.Some? && Clean(tools[t].toolCallId.value)
  {
    hide Clean;
    var calls, id := head.toolCalls.value, tools[t].toolCallId;
    var k :| 0 <= k < |calls| && calls[k].id == id;
  }

  lemma {:induction false} ExchangedRepairsNothing(rest: seq<Message>, a: nat)
    requires Exchanged(rest)
    ensures TidyFrom(rest, a) && BlocksRepair(rest, a) == NO_REPAIR
    decreases |rest|
  {
    hide BlockExchanged, BlockRepair, TidyMessage, TidyFrom, ToolsAfter, AfterRun, BlocksRepair, PairBlocks, PairBlock, Plus;
    PlusAssoc(NO_REPAIR, NO_REPAIR, NO_REPAIR);
    if rest == [] {
      BlocksAtEnd(a, Strict);
      TidyEmpty(a);
    } else if IsHead(rest[0]) {
      var head, tools, more := rest[0], ToolsAfter(rest), AfterRun(rest);
      ExchangedRepairsNothing(more, a + 1 + |tools|);
      ExchangedHead(head, tools, a, Strict);
      ExchangedBlockTidy(head, tools, a);
      BlocksAtHead(rest, a, Strict);
      TidyJoin(head, tools, more, a);
      RestParts(rest);
    } else {
      ExchangedRepairsNothing(rest[1..], a + 1);
      BlocksElsewhere(rest, a, Strict);
      PlainTidy(rest[0], a);
      TidyJoin(rest[0], [], rest[1..], a);
      assert [rest[0]] + [] + rest[1..] == [rest[0]] + rest[1..] == rest;
    }
  }

  /** Result j of the output still answers call k of message h, and both are what they were but for the id. */
  predicate StaysAttached(messages: seq<Message>, out: seq<Message>, j: nat, h: nat, k: nat)
    requires Answers(messages, j, h, k)
  {
    && Answers(out, j, h, k)
    && out[h].toolCalls.value[k] == messages[h].toolCalls.value[k].(id := out[j].toolCallId)
    && out[j] == messages[j].(toolCallId := out[j].toolCallId)
    && |out[h].toolCalls.value| == |messages[h].toolCalls.value|
  }

  lemma AttachedInBlock(rest: seq<Message>, out: seq<Message>, a: nat, policy: Policy, j: nat, k: nat)
    requires rest != [] && IsHead(rest[0]) && BlockExchanged(rest[0], ToolsAfter(rest)) && Answers(rest, j, 0, k)
    requires |out| == |rest| && j <= |ToolsAfter(rest)|
    requires forall i :: 0 <= i <= |ToolsAfter(rest)| ==> out[i] == CanonBlock(rest[0], ToolsAfter(rest), a, policy)[i]
    ensures StaysAttached(rest, out, j, 0, k)
  {
    hide BlockExchanged, CanonBlock, SyntheticId, StableCalls;
    var head, tools := rest[0], ToolsAfter(rest);
    ExchangedHead(head, tools, a, policy);
    AtTool(rest, j - 1);
    ExchangedTool(head, tools, a, policy, j - 1, k);
    assert out[j] == Renamed(rest[j], a, k, head.toolCalls.value[k]);
    StableCallAt(head.toolCalls.value, a, k);
    forall i | 0 < i < j
      ensures out[i].role == Tool
    {
      AtTool(rest, i - 1);
      var n := ExchangedName(head, tools, i - 1);
      ExchangedTool(head, tools, a, policy, i - 1, n);
    }
  }

  lemma ExchangedName(head: Message, tools: seq<Message>, t: nat) returns (k: nat)
    requires BlockExchanged(head, tools) && t < |tools|
    ensures k < |head.toolCalls.value| && tools[t].toolCallId == head.toolCalls.value[k].id
  {
    var calls, id := head.toolCalls.value, tools[t].toolCallId;
    k :| 0 <= k < |calls| && calls[k].id == id;
  }

  lemma StableCallAt(calls: seq<ToolCall>, a: nat, k: nat)
    requires k < |calls|
    ensures |StableCalls(calls, a)| == |calls|
    ensures StableCalls(calls, a)[k] == calls[k].(id := Some(SyntheticId(a, k, calls[k])))
  {
    hide SyntheticId;
  }

  lemma AttachedInTail(rest: seq<Message>, out: seq<Message>, tail: seq<Message>, outTail: seq<Message>, n: nat, j: nat, h: nat, k: nat)
    requires n + |tail| == |rest| && rest[n..] == tail && n + |outTail| == |out| && out[n..] == outTail
    requires Answers(tail, j, h, k) && StaysAttached(tail, outTail, j, h, k)
    ensures Answers(rest, n + j, n + h, k) && StaysAttached(rest, out, n + j, n + h, k)
  {
    AnswersInTail(rest, tail, n, j, h, k);
    AnswersInTail(out, outTail, n, j, h, k);
    assert rest[n + j] == tail[j] && rest[n + h] == tail[h] && out[n + j] == outTail[j] && out[n + h] == outTail[h];
  }

  lemma AnswersHead(rest: seq<Message>, j: nat, k: nat)
    requires Answers(rest, j, 0, k)
    ensures 0 < j < |rest| && forall i :: 0 < i <= j ==> rest[i].role == Tool
  {
  }

  lemma HeadIsNoTool(rest: seq<Message>, j: nat, h: nat, k: nat)
    requires rest != [] && IsHead(rest[0]) && Answers(rest, j, h, k) && h > 0
    ensures h > |ToolsAfter(rest)|
  {
    hide ToolsAfter;
    if h <= |ToolsAfter(rest)| { AtTool(rest, h - 1); }
  }

  lemma HeadHasCalls(rest: seq<Message>, j: nat, h: nat, k: nat)
    requires Answers(rest, j, h, k)
    ensures h < j < |rest| && (!IsHead(rest[0]) ==> h > 0)
  {
  }

  /** Past the first block, or the first message if it is no head, everything is as in the tail alone. */
  lemma TailAnswers(rest: seq<Message>, a: nat, policy: Policy, j: nat, h: nat, k: nat) returns (n: nat)
    requires Exchanged(rest) && Answers(rest, j, h, k) && (IsHead(rest[0]) ==> h > 0)
    ensures 0 < n <= h < j < |rest| && Exchanged(rest[n..]) && Answers(rest[n..], j - n, h - n, k)
    ensures CanonBlocks(rest, a, policy)[n..] == CanonBlocks(rest[n..], a + n, policy)
  {
    hide BlockExchanged, AfterRun, ToolsAfter, CanonBlocks, CanonBlock, Answers, Plain;
    HeadHasCalls(rest, j, h, k);
    if IsHead(rest[0]) {
      n := 1 + |ToolsAfter(rest)|;
      TailIsAfterRun(rest);
      CanonAtHead(rest, a, policy);
      HeadIsNoTool(rest, j, h, k);
    } else {
      n := 1;
      CanonElsewhere(rest, a, policy);
    }
    AnswersFromTail(rest, rest[n..], n, j, h, k);
  }

  lemma {:induction false} ExchangedStaysAttached(rest: seq<Message>, a: nat, policy: Policy, j: nat, h: nat, k: nat)
    requires Exchanged(rest) && Answers(rest, j, h, k)
    ensures StaysAttached(rest, CanonBlocks(rest, a, policy), j, h, k)
    decreases |rest|
  {
    hide BlockExchanged, ToolsAfter, CanonBlocks, CanonBlock, StaysAttached, Answers, Exchanged;
    HeadHasCalls(rest, j, h, k);
    var out := CanonBlocks(rest, a, policy);
    if IsHead(rest[0]) && h == 0 {
      HeadAttached(rest, a, policy, j, k);
    } else {
      var n := TailAnswers(rest, a, policy, j, h, k);
      ExchangedStaysAttached(rest[n..], a + n, policy, j - n, h - n, k);
      AttachedInTail(rest, out, rest[n..], out[n..], n, j - n, h - n, k);
    }
  }

  lemma HeadAttached(rest: seq<Message>, a: nat, policy: Policy, j: nat, k: nat)
    requires Exchanged(rest) && Answers(rest, j, 0, k) && IsHead(rest[0])
    ensures StaysAttached(rest, CanonBlocks(rest, a, policy), j, 0, k)
  {
    hide BlockExchanged, AfterRun, ToolsAfter, CanonBlocks, CanonBlock, StaysAttached, Answers, Plain;
    AnswersHead(rest, j, k);
    TailIsAfterRun(rest);
    CanonAtHead(rest, a, policy);
    RunIsMaximal(rest, j);
    AttachedInBlock(rest, CanonBlocks(rest, a, policy), a, policy, j, k);
  }

  lemma NamedInBlock(rest: seq<Message>, t: nat, k: nat)
    requires rest != [] && IsHead(rest[0]) && BlockExchanged(rest[0], ToolsAfter(rest))
    requires t < |ToolsAfter(rest)| && k < |rest[0].toolCalls.value|
    requires ToolsAfter(rest)[t].toolCallId == rest[0].toolCalls.value[k].id
    ensures Answers(rest, 1 + t, 0, k)
  {
    hide BlockExchanged, Clean, ToolsAfter;
    ExchangedToolId(rest[0], ToolsAfter(rest), t);
    AtTool(rest, t);
    forall i | 0 < i < 1 + t ensures rest[i].role == Tool {
      AtTool(rest, i - 1);
    }
  }

  /** Every result answers, by its own id, one call of the head in front of it. */
  lemma {:induction false} ResultAnswers(rest: seq<Message>, x: nat) returns (h: nat, k: nat)
    requires Exchanged(rest) && x < |rest| && rest[x].role == Tool
    ensures Answers(rest, x, h, k)
    decreases |rest|
  {
    hide BlockExchanged, Answers, AfterRun, ToolsAfter;
    if IsHead(rest[0]) {
      var tools, more := ToolsAfter(rest), AfterRun(rest);
      var n := 1 + |tools|;
      TailIsAfterRun(rest);
      if x < n {
        AtTool(rest, x - 1);
        h := 0;
        k := ExchangedName(rest[0], tools, x - 1);
        NamedInBlock(rest, x - 1, k);
      } else {
        AtRest(rest, x - n);
        h, k := ResultAnswers(more, x - n);
        AnswersInTail(rest, more, n, x - n, h, k);
        h := n + h;
      }
    } else {
      h, k := ResultAnswers(rest[1..], x - 1);
      AnswersInTail(rest, rest[1..], 1, x - 1, h, k);
      h := 1 + h;
    }
  }

  /**
    When every call has its result, nothing is downgraded or given a made-up id,
    and every result stays with the call that has the same name and arguments.
  */
  lemma ExchangeIsKept(messages: seq<Message>, policy: Policy)
    requires Exchanged(messages)
    ensures Tidy(messages)
    ensures CanonicalRepair(messages, policy).(stabilizedIds := 0) == NO_REPAIR
    ensures forall j: nat, h: nat, k: nat :: Answers(messages, j, h, k) ==>
      StaysAttached(messages, Canonical(messages, policy), j, h, k)
    ensures EveryResultHasACall(messages)
  {
    hide Exchanged, TidyFrom, Canonical, CanonicalRepair, CanonBlocks, BlocksRepair, Answers, StaysAttached, PairBlocks, ChangedFrom;
    ExchangedRepairsNothing(messages, 0);
    TidyIsSound(messages);
    CanonicalIsBlocks(messages, policy);
    forall j: nat, h: nat, k: nat | Answers(messages, j, h, k)
      ensures StaysAttached(messages, Canonical(messages, policy), j, h, k)
    {
      ExchangedStaysAttached(messages, 0, policy, j, h, k);
    }
    forall j | 0 <= j < |messages| && messages[j].role == Tool
      ensures exists h: nat, k: nat :: Answers(messages, j, h, k)
    {
      var h, k := ResultAnswers(messages, j);
    }
  }
}
