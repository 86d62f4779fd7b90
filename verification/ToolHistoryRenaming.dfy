/**
  The canonical form forgets how the client spelled its call ids: any renaming
  that keeps different ids different gives exactly the same canonical history.
*/
module ToolHistoryRenaming {
  import opened Utf8Text
  import opened ToolHistory
  import opened ToolHistoryBlocks
  import opened ToolHistoryFirstPass
  import opened ToolHistoryRefinement
  import opened ToolHistorySettled

  function RenameId(rho: string -> string, id: Option<string>): Option<string> {
    if id.Some? then Some(rho(id.value)) else None
  }

  function RenameCall(rho: string -> string, call: ToolCall): ToolCall {
    call.(id := RenameId(rho, call.id))
  }

  function RenameCalls(rho: string -> string, calls: seq<ToolCall>): (renamed: seq<ToolCall>)
    ensures |renamed| == |calls|
  {
    seq(|calls|, t requires 0 <= t < |calls| => RenameCall(rho, calls[t]))
  }

  function RenameMessage(rho: string -> string, m: Message): Message {
    m.(toolCalls := if m.toolCalls.Some? then Some(RenameCalls(rho, m.toolCalls.value)) else None,
       toolCallId := RenameId(rho, m.toolCallId))
  }

  function Rename(rho: string -> string, messages: seq<Message>): (renamed: seq<Message>)
    ensures |renamed| == |messages|
  {
    if messages == [] then [] else [RenameMessage(rho, messages[0])] + Rename(rho, messages[1..])
  }

  /** The renaming keeps the names apart and makes each of them a proper id. */
  predicate KeepsApart(rho: string -> string, names: set<string>) {
    && (forall x, y :: x in names && y in names && rho(x) == rho(y) ==> x == y)
    && (forall x :: x in names ==> Clean(x) && Clean(rho(x)))
  }

  predicate CallsUse(calls: seq<ToolCall>, names: set<string>) {
    forall k :: 0 <= k < |calls| ==> calls[k].id.Some? && calls[k].id.value in names
  }

  /** Every call of the message carries an id, and all its ids are among the names. */
  predicate Uses(m: Message, names: set<string>) {
    && (m.toolCalls.Some? ==> CallsUse(m.toolCalls.value, names))
    && (m.toolCallId.Some? ==> m.toolCallId.value in names)
  }

  predicate AllUse(messages: seq<Message>, names: set<string>) {
    forall i :: 0 <= i < |messages| ==> Uses(messages[i], names)
  }

  predicate OpenUses(open: seq<Pending>, names: set<string>) {
    forall k :: 0 <= k < |open| ==> open[k].id in names
  }

  predicate OpenRenamed(rho: string -> string, open: seq<Pending>, open': seq<Pending>) {
    && |open'| == |open|
    && forall k :: 0 <= k < |open| ==> open'[k] == open[k].(id := rho(open[k].id))
  }

  // ---- One block --------------------------------------------------------------

  lemma {:induction false} FindRenamed(
      rho: string -> string, names: set<string>, open: seq<Pending>, open': seq<Pending>, want: Option<string>, from: nat)
    requires KeepsApart(rho, names) && OpenUses(open, names) && OpenRenamed(rho, open, open')
    requires from <= |open| && (want.Some? ==> want.value in names)
    ensures FindUnused(open', RenameId(rho, want), from) == FindUnused(open, want, from)
    decreases |open| - from
  {
    hide Clean;
    if from < |open| { FindRenamed(rho, names, open, open', want, from + 1); }
  }

  lemma MatchRenamed(
      rho: string -> string, names: set<string>, open: seq<Pending>, open': seq<Pending>, raw: Option<string>)
    requires KeepsApart(rho, names) && OpenUses(open, names) && OpenRenamed(rho, open, open')
    requires raw.Some? ==> raw.value in names
    ensures MatchPending(open', RenameId(rho, raw)) == MatchPending(open, raw)
  {
    hide Blank, Clean;
    FindRenamed(rho, names, open, open', raw, 0);
    FindRenamed(rho, names, open, open', None, 0);
    if raw.Some? {
      CleanIsTrimmed(raw.value);
      CleanIsTrimmed(rho(raw.value));
    }
  }

  lemma {:induction false} PairRunRenamed(
      rho: string -> string, names: set<string>, open: seq<Pending>, open': seq<Pending>, tools: seq<Message>)
    requires KeepsApart(rho, names) && OpenUses(open, names) && OpenRenamed(rho, open, open') && AllUse(tools, names)
    ensures var r, r' := PairRun(open, tools), PairRun(open', Rename(rho, tools));
            r'.answers == r.answers && OpenRenamed(rho, r.open, r'.open)
    decreases |tools|
  {
    hide KeepsApart, MatchPending, Uses;
    if tools != [] {
      UsesTool(tools[0], names) by { assert Uses(tools[0], names); }
      MatchRenamed(rho, names, open, open', tools[0].toolCallId);
      var next, next' := NextOpen(open, tools[0]), NextOpen(open', Rename(rho, tools)[0]);
      assert AllUse(tools[1..], names) by { AllUseTail(tools, names); }
      PairRunRenamed(rho, names, next, next', tools[1..]);
      assert Rename(rho, tools)[1..] == Rename(rho, tools[1..]);
    }
  }

  lemma UsesTool(m: Message, names: set<string>)
    requires Uses(m, names)
    ensures m.toolCallId.Some? ==> m.toolCallId.value in names
  {
  }

  lemma AllUseTail(messages: seq<Message>, names: set<string>)
    requires messages != [] && AllUse(messages, names)
    ensures AllUse(messages[1..], names)
  {
    hide Uses;
    var tail := messages[1..];
    assert forall i :: 0 <= i < |tail| ==> tail[i] == messages[1 + i];
  }

  lemma {:induction false} KeptRenamed(
      rho: string -> string, calls: seq<ToolCall>, calls': seq<ToolCall>, open: seq<Pending>, open': seq<Pending>)
    requires |calls| == |open| && OpenRenamed(rho, open, open') && calls' == RenameCalls(rho, calls)
    ensures Kept(calls', open') == RenameCalls(rho, Kept(calls, open))
  {
    if calls != [] {
      assert calls'[1..] == RenameCalls(rho, calls[1..]);
      KeptRenamed(rho, calls[1..], calls'[1..], open[1..], open'[1..]);
      var rest := Kept(calls[1..], open[1..]);
      assert RenameCalls(rho, [calls[0]] + rest) == [RenameCall(rho, calls[0])] + RenameCalls(rho, rest);
    }
  }

  lemma {:induction false} RankRenamed(rho: string -> string, open: seq<Pending>, open': seq<Pending>, k: nat)
    requires OpenRenamed(rho, open, open') && k <= |open|
    ensures Rank(open', k) == Rank(open, k)
  {
    if k > 0 { RankRenamed(rho, open, open', k - 1); }
  }

  lemma SyntheticIgnoresId(a: nat, t: nat, call: ToolCall, id: Option<string>)
    ensures SyntheticId(a, t, call.(id := id)) == SyntheticId(a, t, call)
  {
    hide StableHash;
  }

  lemma StableCallsRenamed(rho: string -> string, calls: seq<ToolCall>, a: nat)
    ensures StableCalls(RenameCalls(rho, calls), a) == StableCalls(calls, a)
  {
    hide SyntheticId;
    forall t | 0 <= t < |calls|
      ensures StableCalls(RenameCalls(rho, calls), a)[t] == StableCalls(calls, a)[t]
    {
      SyntheticIgnoresId(a, t, calls[t], RenameId(rho, calls[t].id));
    }
  }

  lemma UsedAlike(rho: string -> string, open: seq<Pending>, open': seq<Pending>)
    requires OpenRenamed(rho, open, open')
    ensures AllUsed(open') <==> AllUsed(open)
  {
    if AllUsed(open) { forall p | p in open' ensures p.used { var k :| 0 <= k < |open'| && open'[k] == p; assert open[k] in open; } }
    if AllUsed(open') { forall p | p in open ensures p.used { var k :| 0 <= k < |open| && open[k] == p; assert open'[k] in open'; } }
  }

  lemma StableHeadRenamed(
      rho: string -> string, m: Message, calls: seq<ToolCall>, calls': seq<ToolCall>,
      open: seq<Pending>, open': seq<Pending>, a: nat, policy: Policy)
    requires |calls| == |open| && OpenRenamed(rho, open, open') && calls' == RenameCalls(rho, calls)
    requires m.toolCalls.Some? && m.toolCallId.None?
    ensures StableHead(RenameMessage(rho, m), calls', open', a, policy) == StableHead(m, calls, open, a, policy)
  {
    hide StableCalls, RenameCalls, Kept, ContentWithoutCalls, AllUsed, OpenRenamed;
    UsedAlike(rho, open, open');
    KeptRenamed(rho, calls, calls', open, open');
    StableCallsRenamed(rho, calls, a);
    StableCallsRenamed(rho, Kept(calls, open), a);
    RenamedEmpty(rho, Kept(calls, open));
  }

  lemma RenamedEmpty(rho: string -> string, calls: seq<ToolCall>)
    ensures RenameCalls(rho, calls) == [] <==> calls == []
  {
  }

  lemma StableToolRenamed(
      rho: string -> string, m: Message, answer: Option<nat>, calls: seq<ToolCall>, calls': seq<ToolCall>,
      open: seq<Pending>, open': seq<Pending>, a: nat, policy: Policy)
    requires |calls| == |open| && OpenRenamed(rho, open, open') && calls' == RenameCalls(rho, calls)
    requires m.role == Tool && m.toolCalls.None?
    ensures StableTool(RenameMessage(rho, m), answer, calls', open', a, policy)
         == StableTool(m, answer, calls, open, a, policy)
  {
    hide SyntheticId;
    if answer.Some? && answer.value < |open| {
      var k := answer.value;
      RankRenamed(rho, open, open', k);
      SyntheticIgnoresId(a, Rank(open, k), calls[k], RenameId(rho, calls[k].id));
    }
  }

  lemma {:induction false} RenameAt(rho: string -> string, messages: seq<Message>, i: nat)
    requires i < |messages|
    ensures Rename(rho, messages)[i] == RenameMessage(rho, messages[i])
  {
    if i > 0 { RenameAt(rho, messages[1..], i - 1); }
  }

  lemma FilledByUse(rho: string -> string, names: set<string>, calls: seq<ToolCall>, a: nat)
    requires KeepsApart(rho, names) && CallsUse(calls, names)
    ensures FillIds(calls, a) == calls
    ensures FillIds(RenameCalls(rho, calls), a) == RenameCalls(rho, calls)
  {
    hide SyntheticId, Blank, Clean;
    var calls' := RenameCalls(rho, calls);
    forall k | 0 <= k < |calls| ensures HasId(calls[k]) && HasId(calls'[k]) {
      CleanIsTrimmed(calls[k].id.value);
      CleanIsTrimmed(rho(calls[k].id.value));
    }
    FillKeepsStable(calls, a);
    FillKeepsStable(calls', a);
  }

  lemma OpenOfRenamed(rho: string -> string, names: set<string>, head: Message, a: nat)
    requires KeepsApart(rho, names) && Uses(head, names) && IsHead(head)
    ensures OpenUses(OpenOf(head, a), names)
    ensures OpenRenamed(rho, OpenOf(head, a), OpenOf(RenameMessage(rho, head), a))
  {
    hide KeepsApart;
    FilledByUse(rho, names, head.toolCalls.value, a);
  }

  lemma CanonBlockRenamed(rho: string -> string, names: set<string>, head: Message, tools: seq<Message>, a: nat, policy: Policy)
    requires KeepsApart(rho, names) && Uses(head, names) && AllUse(tools, names)
    requires IsHead(head) && head.toolCallId.None?
    requires forall t :: 0 <= t < |tools| ==> tools[t].role == Tool && tools[t].toolCalls.None?
    ensures CanonBlock(RenameMessage(rho, head), Rename(rho, tools), a, policy) == CanonBlock(head, tools, a, policy)
  {
    hide KeepsApart, AllUse, CallsUse, OpenOf, PairRun, StableHead, StableTool, FillIds, RenameCalls, Rename, OpenRenamed;
    var calls := head.toolCalls.value;
    var head' := RenameMessage(rho, head);
    var tools' := Rename(rho, tools);
    FilledByUse(rho, names, calls, a);
    OpenOfRenamed(rho, names, head, a);
    PairRunRenamed(rho, names, OpenOf(head, a), OpenOf(head', a), tools);
    var r := PairRun(OpenOf(head, a), tools);
    var r' := PairRun(OpenOf(head', a), tools');
    var calls' := RenameCalls(rho, calls);
    StableHeadRenamed(rho, head, calls, calls', r.open, r'.open, a, policy);
    var stable := StableTools(tools, r.answers, calls, r.open, a, policy);
    var stable' := StableTools(tools', r'.answers, calls', r'.open, a, policy);
    forall t | 0 <= t < |tools| ensures stable'[t] == stable[t] {
      RenameAt(rho, tools, t);
      StableToolRenamed(rho, tools[t], r.answers[t], calls, calls', r.open, r'.open, a, policy);
    }
    assert stable' == stable;
  }

  // ---- Whole histories --------------------------------------------------------

  lemma {:induction false} RenameJoin(rho: string -> string, a: seq<Message>, b: seq<Message>)
    ensures Rename(rho, a + b) == Rename(rho, a) + Rename(rho, b)
  {
    hide RenameMessage;
    if a == [] {
      assert a + b == b;
    } else {
      assert (a + b)[1..] == a[1..] + b;
      RenameJoin(rho, a[1..], b);
    }
  }

  lemma RolesRenamed(rho: string -> string, messages: seq<Message>, role: Role)
    requires forall i :: 0 <= i < |messages| ==> messages[i].role == role
    ensures forall i :: 0 <= i < |messages| ==> Rename(rho, messages)[i].role == role
  {
    forall i | 0 <= i < |messages| ensures Rename(rho, messages)[i].role == role { RenameAt(rho, messages, i); }
  }

  lemma AfterRunIsNotTool(rest: seq<Message>)
    requires rest != [] && AfterRun(rest) != []
    ensures AfterRun(rest)[0].role != Tool
  {
    var tail := rest[1..];
    assert AfterRun(rest)[0] == tail[ToolRun(tail)];
  }

  lemma PartsRenamed(rho: string -> string, rest: seq<Message>)
    requires rest != []
    ensures Rename(rho, rest) != [] && Rename(rho, rest)[0] == RenameMessage(rho, rest[0])
    ensures Rename(rho, rest)[1..] == Rename(rho, rest[1..])
    ensures ToolsAfter(Rename(rho, rest)) == Rename(rho, ToolsAfter(rest))
    ensures AfterRun(Rename(rho, rest)) == Rename(rho, AfterRun(rest))
  {
    hide ToolsAfter, AfterRun;
    var tools, more := ToolsAfter(rest), AfterRun(rest);
    RestParts(rest);
    assert rest[1..] == tools + more;
    RenameJoin(rho, tools, more);
    forall t | 0 <= t < |tools| ensures tools[t].role == Tool { AtToolRole(rest, t); }
    RolesRenamed(rho, tools, Tool);
    if more != [] {
      AfterRunIsNotTool(rest);
      RenameAt(rho, more, 0);
    }
    assert Rename(rho, rest) == [RenameMessage(rho, rest[0])] + (Rename(rho, tools) + Rename(rho, more));
    JoinParts(RenameMessage(rho, rest[0]), Rename(rho, tools), Rename(rho, more));
  }

  lemma AtToolRole(rest: seq<Message>, t: nat)
    requires rest != [] && t < |ToolsAfter(rest)|
    ensures ToolsAfter(rest)[t].role == Tool
  {
  }

  lemma PartsUse(rest: seq<Message>, names: set<string>)
    requires rest != [] && AllUse(rest, names)
    ensures Uses(rest[0], names) && AllUse(rest[1..], names)
    ensures AllUse(ToolsAfter(rest), names) && AllUse(AfterRun(rest), names)
  {
    hide Uses;
    var tail, tools, more := rest[1..], ToolsAfter(rest), AfterRun(rest);
    assert forall i :: 0 <= i < |tail| ==> tail[i] == rest[1 + i];
    assert forall i :: 0 <= i < |tools| ==> tools[i] == rest[1 + i];
    assert forall i :: 0 <= i < |more| ==> more[i] == rest[1 + |tools| + i];
  }

  lemma PassRenamed(rho: string -> string, m: Message, a: nat, policy: Policy)
    requires TidyMessage(m, a) && !IsHead(m)
    ensures !IsHead(RenameMessage(rho, m)) && PassThrough(RenameMessage(rho, m), policy) == PassThrough(m, policy)
  {
  }

  lemma TidyHeadHasNoCallId(m: Message, a: nat)
    requires TidyMessage(m, a) && IsHead(m)
    ensures m.toolCallId.None?
  {
  }

  lemma {:induction false} CanonBlocksRenamed(
      rho: string -> string, names: set<string>, rest: seq<Message>, a: nat, policy: Policy)
    requires KeepsApart(rho, names) && AllUse(rest, names) && TidyFrom(rest, a)
    ensures CanonBlocks(Rename(rho, rest), a, policy) == CanonBlocks(rest, a, policy)
    decreases |rest|
  {
    hide KeepsApart, AllUse, Uses, TidyFrom, TidyMessage, ToolsAfter, AfterRun, CanonBlock, CanonBlocks, PassThrough,
         Rename, RenameCalls;
    if rest == [] {
      RenameEmpty(rho);
    } else {
      TidyParts(rest, a);
      PartsUse(rest, names);
      PartsRenamed(rho, rest);
      var rest' := Rename(rho, rest);
      if IsHead(rest[0]) {
        var tools := ToolsAfter(rest);
        TidyHeadHasNoCallId(rest[0], a);
        CanonAtHead(rest, a, policy);
        CanonAtHead(rest', a, policy);
        CanonBlockRenamed(rho, names, rest[0], tools, a, policy);
        CanonBlocksRenamed(rho, names, AfterRun(rest), a + 1 + |tools|, policy);
      } else {
        PassRenamed(rho, rest[0], a, policy);
        CanonElsewhere(rest, a, policy);
        CanonElsewhere(rest', a, policy);
        CanonBlocksRenamed(rho, names, rest[1..], a + 1, policy);
      }
    }
  }

  lemma RenameEmpty(rho: string -> string)
    ensures Rename(rho, []) == []
  {
  }

  lemma RenamedMessageTidy(rho: string -> string, names: set<string>, m: Message, i: nat)
    requires KeepsApart(rho, names) && Uses(m, names) && TidyMessage(m, i)
    ensures TidyMessage(RenameMessage(rho, m), i)
  {
    hide SyntheticId, Blank, Clean;
    if m.toolCalls.Some? {
      var calls := m.toolCalls.value;
      var calls' := RenameCalls(rho, calls);
      FilledByUse(rho, names, calls, i);
      forall c | c in calls' ensures c.id.Some? && Clean(c.id.value) {
        var k :| 0 <= k < |calls'| && calls'[k] == c;
        assert calls[k].id.value in names;
      }
      forall s, t | 0 <= s < t < |calls'| ensures calls'[s].id != calls'[t].id {
        assert calls[s].id != calls[t].id && calls[s].id.value in names && calls[t].id.value in names;
      }
    }
  }

  lemma RenamedIsTidy(rho: string -> string, names: set<string>, messages: seq<Message>)
    requires KeepsApart(rho, names) && AllUse(messages, names) && Tidy(messages)
    ensures Tidy(Rename(rho, messages))
  {
    hide KeepsApart, Uses, TidyMessage, RenameMessage, Rename;
    forall i | 0 <= i < |messages| ensures TidyMessage(Rename(rho, messages)[i], 0 + i) {
      assert TidyMessage(messages[i], 0 + i) && Uses(messages[i], names);
      RenameAt(rho, messages, i);
      RenamedMessageTidy(rho, names, messages[i], i);
    }
  }

  /** However the client renames its call ids, well paired or not, the canonical history is the same. */
  lemma CanonicalForgetsNames(rho: string -> string, names: set<string>, messages: seq<Message>, policy: Policy)
    requires KeepsApart(rho, names) && AllUse(messages, names) && Tidy(messages)
    ensures Canonical(Rename(rho, messages), policy) == Canonical(messages, policy)
  {
    hide KeepsApart, AllUse, TidyFrom, Canonical, CanonBlocks, Rename;
    RenamedIsTidy(rho, names, messages);
    TidyIsSound(messages);
    CanonicalIsBlocks(messages, policy);
    TidyIsSound(Rename(rho, messages));
    CanonicalIsBlocks(Rename(rho, messages), policy);
    CanonBlocksRenamed(rho, names, messages, 0, policy);
  }
}
