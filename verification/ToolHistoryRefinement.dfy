/**
  The two passes refine the block form: on a sound history the pending list, the
  downgrading by id and the id map together compute the block form exactly.
*/
module ToolHistoryRefinement {
  import opened Utf8Text
  import opened ToolHistory
  import opened ToolHistoryBlocks
  import opened ToolHistoryFirstPass

  // ---- The first pass on sound histories --------------------------------------

  lemma {:induction false} KeptIsOthers(calls: seq<ToolCall>, open: seq<Pending>, names: set<string>)
    requires |calls| == |open| && forall c <- calls :: c.id.Some?
    requires forall k :: 0 <= k < |calls| ==> calls[k].id.Some? && (open[k].used <==> calls[k].id.value !in names)
    ensures Kept(calls, open) == Others(calls, names)
  {
    if calls != [] {
      KeptIsOthers(calls[1..], open[1..], names);
    }
  }

  lemma {:induction false} KeptCount(calls: seq<ToolCall>, open: seq<Pending>)
    requires |calls| == |open|
    ensures |Kept(calls, open)| + |Unresolved(open)| == |calls|
  {
    if calls != [] { KeptCount(calls[1..], open[1..]); }
  }

  /** When used ids are unique, the calls no dropped id names are exactly the used ones. */
  lemma KeptIsWithoutAll(calls: seq<ToolCall>, open: seq<Pending>, a: nat)
    requires Aligned(calls, open, a) && UsedUnique(open)
    ensures WithoutAll(calls, Unresolved(open)) == Kept(calls, open)
  {
    hide Unresolved, Kept, Others, WithoutAll;
    var gone := Unresolved(open);
    UnresolvedMembers(open);
    forall k | 0 <= k < |calls| ensures open[k].used <==> calls[k].id.value !in Named(gone) {
      assert !open[k].used ==> open[k] in gone;
    }
    WithoutAllIsOthers(calls, gone);
    KeptIsOthers(calls, open, Named(gone));
  }

  lemma BlocksAtHead(rest: seq<Message>, a: nat, policy: Policy)
    requires rest != [] && IsHead(rest[0])
    ensures var tools := ToolsAfter(rest);
            && PairBlocks(rest, a, policy)
               == PairBlock(rest[0], tools, a, policy) + PairBlocks(AfterRun(rest), a + 1 + |tools|, policy)
            && BlocksRepair(rest, a)
               == Plus(BlockRepair(rest[0], tools, a), BlocksRepair(AfterRun(rest), a + 1 + |tools|))
  {
  }

  lemma BlocksElsewhere(rest: seq<Message>, a: nat, policy: Policy)
    requires rest != [] && !IsHead(rest[0])
    ensures PairBlocks(rest, a, policy) == [PassThrough(rest[0], policy)] + PairBlocks(rest[1..], a + 1, policy)
    ensures BlocksRepair(rest, a) == Plus(PassRepair(rest[0]), BlocksRepair(rest[1..], a + 1))
  {
  }

  lemma BlocksAtEnd(a: nat, policy: Policy)
    ensures PairBlocks([], a, policy) == [] && BlocksRepair([], a) == NO_REPAIR
  {
  }

  lemma {:induction false} RawToolsAt(open: seq<Pending>, tools: seq<Message>, policy: Policy, t: nat)
    requires t < |tools|
    ensures RawTools(open, tools, policy)[t] == RawTool(tools[t], PairRun(open, tools).answers[t], open, policy)
    decreases |tools|
  {
    hide MatchPending, RawTool;
    if t > 0 {
      var marked := NextOpen(open, tools[0]);
      RawToolsAt(marked, tools[1..], policy, t - 1);
      RawToolOfMarked(tools[t], PairRun(open, tools).answers[t], open, marked, policy);
    }
  }

  lemma RawToolOfMarked(m: Message, answer: Option<nat>, open: seq<Pending>, marked: seq<Pending>, policy: Policy)
    requires |open| == |marked| && forall j :: 0 <= j < |open| ==> marked[j].id == open[j].id
    ensures RawTool(m, answer, marked, policy) == RawTool(m, answer, open, policy)
  {
    hide DowngradeTool, AlreadyCarries;
  }

  lemma RawToolIsPaired(m: Message, answer: Option<nat>, open: seq<Pending>, after: seq<Pending>, policy: Policy)
    requires |after| == |open| && forall k :: 0 <= k < |open| ==> after[k].id == open[k].id
    requires AnswersPlainly(after, m, answer)
    ensures RawTool(m, answer, open, policy) == PairedTool(m, answer, open, policy)
  {
    hide DowngradeTool, AlreadyCarries;
  }

  /** In a sound block the first pass drops exactly the unanswered calls and gives every result its call's id. */
  lemma RawBlockIsPaired(head: Message, tools: seq<Message>, a: nat, policy: Policy)
    requires IsHead(head) && SoundBlock(head, tools, a)
    ensures RawBlock(head, tools, a, policy) == PairBlock(head, tools, a, policy)
    ensures RawBlockRepair(head, tools, a) == BlockRepair(head, tools, a)
  {
    hide FillIds, OpenOf, PairRun, RawTools, PairedTools, Unresolved, WithoutAll, Kept, Aligned, AllUsed, RunRepair,
         UsedUnique, AnswersPlainly, MissingIds, ContentWithoutCalls, RawTool, PairedTool;
    var calls, open := FillIds(head.toolCalls.value, a), OpenOf(head, a);
    var p := PairRun(open, tools);
    HeadIsAligned(head, a, tools);
    KeptIsWithoutAll(calls, p.open, a);
    KeptCount(calls, p.open);
    forall t | 0 <= t < |tools|
      ensures RawTools(open, tools, policy)[t] == PairedTools(open, tools, policy)[t]
    {
      RawToolsAt(open, tools, policy, t);
      PairedToolsAt(open, tools, policy, t);
      PairRunKeeps(open, tools);
      assert AnswersPlainly(p.open, tools[t], p.answers[t]);
      RawToolIsPaired(tools[t], p.answers[t], open, p.open, policy);
    }
    assert RawTools(open, tools, policy) == PairedTools(open, tools, policy);
  }

  lemma {:induction false} RawIsPaired(rest: seq<Message>, a: nat, policy: Policy)
    requires SoundFrom(rest, a)
    ensures RawBlocks(rest, a, policy) == PairBlocks(rest, a, policy) && RawRepair(rest, a) == BlocksRepair(rest, a)
    decreases |rest|
  {
    hide SoundBlock, ToolsAfter, AfterRun, RawBlock, PairBlock, RawBlockRepair, BlockRepair, PassThrough, PassRepair, Plus,
         RawBlocks, PairBlocks, RawRepair, BlocksRepair;
    if rest == [] {
      RawAtEnd(a, policy);
      BlocksAtEnd(a, policy);
    } else if IsHead(rest[0]) {
      var tools := ToolsAfter(rest);
      RawAtHead(rest, a, policy);
      BlocksAtHead(rest, a, policy);
      RawBlockIsPaired(rest[0], tools, a, policy);
      RawIsPaired(AfterRun(rest), a + 1 + |tools|, policy);
    } else {
      RawElsewhere(rest, a, policy);
      BlocksElsewhere(rest, a, policy);
      RawIsPaired(rest[1..], a + 1, policy);
    }
  }

  // ---- The second pass, block by block ----------------------------------------

  lemma {:induction false} KeptMembers(calls: seq<ToolCall>, open: seq<Pending>)
    requires |calls| == |open|
    ensures forall c <- Kept(calls, open) :: c in calls
  {
    if calls != [] { KeptMembers(calls[1..], open[1..]); }
  }

  lemma {:induction false} KeptDistinct(calls: seq<ToolCall>, open: seq<Pending>, a: nat)
    requires Aligned(calls, open, a) && UsedUnique(open)
    ensures DistinctIds(Kept(calls, open))
  {
    if calls != [] {
      KeptDistinct(calls[1..], open[1..], a);
      KeptMembers(calls[1..], open[1..]);
      if open[0].used {
        forall c | c in Kept(calls[1..], open[1..])
          ensures c.id != calls[0].id
        {
          var k :| 0 <= k < |calls[1..]| && calls[1..][k] == c;
          assert calls[k + 1].id == Some(open[k + 1].id) && open[0].id != open[k + 1].id;
        }
      }
    }
  }

  /** Rank is where a used call ends up among the kept ones. */
  lemma {:induction false} KeptAtRank(calls: seq<ToolCall>, open: seq<Pending>, k: nat)
    requires |calls| == |open| && k < |calls| && open[k].used
    ensures Rank(open, k) < |Kept(calls, open)| && Kept(calls, open)[Rank(open, k)] == calls[k]
  {
    if k > 0 {
      KeptAtRank(calls[1..], open[1..], k - 1);
      RankFromFront(open, k);
    }
  }

  lemma {:induction false} RankFromFront(open: seq<Pending>, k: nat)
    requires 0 < k <= |open|
    ensures Rank(open, k) == (if open[0].used then 1 else 0) + Rank(open[1..], k - 1)
  {
    if k > 1 { RankFromFront(open, k - 1); }
  }

  lemma {:induction false} MapIdsLookup(ids: map<string, string>, calls: seq<ToolCall>, a: nat, n: nat, k: nat)
    requires k < n <= |calls| && DistinctIds(calls) && forall c <- calls :: HasId(c)
    ensures calls[k].id.Some? && calls[k].id.value in MapIds(ids, calls, a, n)
    ensures MapIds(ids, calls, a, n)[calls[k].id.value] == SyntheticId(a, k, calls[k])
  {
    hide SyntheticId, Blank;
    assert calls[n - 1] in calls && calls[k] in calls;
    if k < n - 1 {
      MapIdsLookup(ids, calls, a, n - 1, k);
      assert calls[k].id != calls[n - 1].id;
    }
  }

  lemma FilledHaveIds(calls: seq<ToolCall>, a: nat)
    ensures forall c <- FillIds(calls, a) :: HasId(c)
  {
    hide SyntheticId;
    forall t | 0 <= t < |calls| ensures HasId(FillIds(calls, a)[t]) {
      SyntheticIdClean(a, t, calls[t]);
    }
  }

  /** Each tool message takes the id of the call its answer names. */
  lemma {:induction false} PairedToolsAt(open: seq<Pending>, tools: seq<Message>, policy: Policy, t: nat)
    requires t < |tools|
    ensures PairedTools(open, tools, policy)[t] == PairedTool(tools[t], PairRun(open, tools).answers[t], open, policy)
    decreases |tools|
  {
    hide MatchPending, DowngradeTool;
    if t > 0 {
      var marked := NextOpen(open, tools[0]);
      PairedToolsAt(marked, tools[1..], policy, t - 1);
      assert forall j :: 0 <= j < |open| ==> marked[j].id == open[j].id;
    }
  }

  lemma {:induction false} StabilizeCallFree(
      paired: seq<Message>, stable: seq<Message>, more: seq<Message>, i: nat, ids: map<string, string>)
    requires |paired| == |stable|
    requires forall t :: 0 <= t < |paired| ==> paired[t].toolCalls.None? && Stabilized(paired[t], i + t, ids) == stable[t]
    ensures StabilizeFrom(paired + more, i, ids) == stable + StabilizeFrom(more, i + |paired|, ids)
    decreases |paired|
  {
    hide Stabilized;
    if paired == [] {
      assert paired + more == more && stable + StabilizeFrom(more, i, ids) == StabilizeFrom(more, i, ids);
    } else {
      assert (paired + more)[1..] == paired[1..] + more;
      StabilizeCallFree(paired[1..], stable[1..], more, i + 1, ids);
      assert stable == [stable[0]] + stable[1..];
    }
  }

  /** A tool message that took the id of call k gets the stable id of that call. */
  lemma StableToolAt(
      m: Message, answer: Option<nat>, calls: seq<ToolCall>, open: seq<Pending>, a: nat, policy: Policy,
      i: nat, ids: map<string, string>)
    requires m.role == Tool && m.toolCalls.None?
    requires Aligned(calls, open, a) && UsedUnique(open) && forall c <- calls :: HasId(c)
    requires answer.Some? ==> answer.value < |open| && open[answer.value].used
    ensures var m1 := PairedTool(m, answer, open, policy);
            var ids1 := MapIds(ids, Kept(calls, open), a, |Kept(calls, open)|);
            m1.toolCalls.None? && Stabilized(m1, i, ids1) == StableTool(m, answer, calls, open, a, policy)
  {
    hide SyntheticId, HasId;
    if answer.Some? {
      var k := answer.value;
      KeptAtRank(calls, open, k);
      KeptDistinct(calls, open, a);
      KeptMembers(calls, open);
      MapIdsLookup(ids, Kept(calls, open), a, |Kept(calls, open)|, Rank(open, k));
    }
  }

  /** What the id map holds once a pruned head is in it. */
  lemma IdsAfterHead(ids: map<string, string>, m: Message, calls: seq<ToolCall>, open: seq<Pending>, a: nat, policy: Policy)
    requires |calls| == |open|
    ensures IdsAfter(ids, PrunedHead(m, calls, open, policy), a)
         == MapIds(ids, Kept(calls, open), a, |Kept(calls, open)|)
  {
    if AllUsed(open) { KeptAll(calls, open); }
  }

  lemma {:induction false} KeptAll(calls: seq<ToolCall>, open: seq<Pending>)
    requires |calls| == |open| && AllUsed(open)
    ensures Kept(calls, open) == calls
  {
    if calls != [] {
      assert open[0] in open;
      KeptAll(calls[1..], open[1..]);
    }
  }

  lemma StabilizeHead(m: Message, calls: seq<ToolCall>, open: seq<Pending>, a: nat, policy: Policy, ids: map<string, string>)
    requires |calls| == |open| && m.role == Assistant
    ensures Stabilized(PrunedHead(m, calls, open, policy), a, ids) == StableHead(m, calls, open, a, policy)
  {
    hide ContentWithoutCalls, StableCalls;
  }

  lemma StabilizeBlock(head: Message, tools: seq<Message>, a: nat, policy: Policy, more: seq<Message>,
                       whole: seq<Message>, ids: map<string, string>)
    returns (ids': map<string, string>)
    requires IsHead(head) && SoundBlock(head, tools, a)
    requires forall t :: 0 <= t < |tools| ==> tools[t].role == Tool && tools[t].toolCalls.None?
    requires whole == PairBlock(head, tools, a, policy) + more
    ensures StabilizeFrom(whole, a, ids)
         == CanonBlock(head, tools, a, policy) + StabilizeFrom(more, a + 1 + |tools|, ids')
  {
    hide FillIds, Stabilized, StableHead, PrunedHead, PairedTool, PairRun, StableTool, IdsAfter, MapIds, Kept, HasId,
         Aligned, UsedUnique, AnswersPlainly, OpenOf, PairedTools;
    var calls := FillIds(head.toolCalls.value, a);
    var open := OpenOf(head, a);
    var p := PairRun(open, tools);
    var pruned := PrunedHead(head, calls, p.open, policy);
    var paired := PairedTools(open, tools, policy);
    var stable := StableTools(tools, p.answers, calls, p.open, a, policy);
    HeadIsAligned(head, a, tools);
    FilledHaveIds(head.toolCalls.value, a);
    PairRunInjective(open, tools);
    IdsAfterHead(ids, head, calls, p.open, a, policy);
    ids' := IdsAfter(ids, pruned, a);
    forall t | 0 <= t < |tools|
      ensures paired[t].toolCalls.None? && Stabilized(paired[t], a + 1 + t, ids') == stable[t]
    {
      PairedToolsAt(open, tools, policy, t);
      PairedToolSameIds(tools[t], p.answers[t], open, p.open, policy, tools);
      StableToolAt(tools[t], p.answers[t], calls, p.open, a, policy, a + 1 + t, ids);
    }
    StabilizeHead(head, calls, p.open, a, policy, ids');
    StabilizeCallFree(paired, stable, more, a + 1, ids');
    assert whole[0] == pruned && whole[1..] == paired + more;
    Assoc([StableHead(head, calls, p.open, a, policy)], stable, StabilizeFrom(more, a + 1 + |tools|, ids'));
  }

  lemma PairedToolSameIds(
      m: Message, answer: Option<nat>, open: seq<Pending>, after: seq<Pending>, policy: Policy, tools: seq<Message>)
    requires after == PairRun(open, tools).open
    ensures PairedTool(m, answer, open, policy) == PairedTool(m, answer, after, policy)
  {
    hide DowngradeTool;
    PairRunKeeps(open, tools);
  }

  /** Placement in a list, seen from its first message and the tool run behind it. */
  lemma PlacedParts(rest: seq<Message>)
    requires rest != [] && Placed(rest)
    ensures PlacedMessage(rest[0]) && Placed(rest[1..])
    ensures var tools := ToolsAfter(rest);
            && (forall t :: 0 <= t < |tools| ==> tools[t].role == Tool && tools[t].toolCalls.None?)
            && Placed(AfterRun(rest))
  {
    var tools := ToolsAfter(rest);
    assert forall t :: 0 <= t < |tools| ==> tools[t] == rest[1 + t] && PlacedMessage(rest[1 + t]);
    var rest' := AfterRun(rest);
    assert forall k :: 0 <= k < |rest'| ==> rest'[k] == rest[1 + |tools| + k];
  }

  lemma StabilizeAtHead(rest: seq<Message>, tools: seq<Message>, a: nat, policy: Policy, ids: map<string, string>)
    returns (ids': map<string, string>)
    requires rest != [] && IsHead(rest[0]) && tools == ToolsAfter(rest) && SoundBlock(rest[0], tools, a)
    requires forall t :: 0 <= t < |tools| ==> tools[t].role == Tool && tools[t].toolCalls.None?
    ensures StabilizeFrom(PairBlocks(rest, a, policy), a, ids)
         == CanonBlock(rest[0], tools, a, policy)
            + StabilizeFrom(PairBlocks(AfterRun(rest), a + 1 + |tools|, policy), a + 1 + |tools|, ids')
  {
    hide SoundBlock, ToolsAfter, AfterRun, PairBlock, CanonBlock, PairBlocks, StabilizeFrom, BlocksRepair, BlockRepair;
    BlocksAtHead(rest, a, policy);
    ids' := StabilizeBlock(rest[0], tools, a, policy, PairBlocks(AfterRun(rest), a + 1 + |tools|, policy),
                           PairBlocks(rest, a, policy), ids);
  }

  lemma StabilizeElsewhere(rest: seq<Message>, a: nat, policy: Policy, ids: map<string, string>)
    returns (ids': map<string, string>)
    requires rest != [] && !IsHead(rest[0]) && PlacedMessage(rest[0])
    ensures StabilizeFrom(PairBlocks(rest, a, policy), a, ids)
         == [PassThrough(rest[0], policy)] + StabilizeFrom(PairBlocks(rest[1..], a + 1, policy), a + 1, ids')
  {
    hide PlacedMessage, PassThrough, PairBlocks, StabilizeFrom, Stabilized, IdsAfter;
    var passed := PassThrough(rest[0], policy);
    BlocksElsewhere(rest, a, policy);
    StabilizePassed(rest[0], a, policy, ids);
    StabilizeUnfold(passed, PairBlocks(rest[1..], a + 1, policy), a, ids);
    ids' := IdsAfter(ids, passed, a);
  }

  /** The second pass turns the blocks of the first into the blocks of both. */
  lemma {:induction false} StabilizeIsBlocks(rest: seq<Message>, a: nat, policy: Policy, ids: map<string, string>)
    requires Placed(rest) && SoundFrom(rest, a)
    ensures StabilizeFrom(PairBlocks(rest, a, policy), a, ids) == CanonBlocks(rest, a, policy)
    decreases |rest|
  {
    hide Placed, SoundBlock, PlacedMessage, ToolsAfter, AfterRun, CanonBlock, PairBlocks, CanonBlocks, PassThrough, StabilizeFrom;
    if rest == [] {
      BlocksAtEnd(a, policy);
      CanonAtEnd(a, policy);
      StabilizeEnd(a, ids);
    } else if IsHead(rest[0]) {
      var tools := ToolsAfter(rest);
      CanonAtHead(rest, a, policy);
      PlacedParts(rest);
      var ids' := StabilizeAtHead(rest, tools, a, policy, ids);
      StabilizeIsBlocks(AfterRun(rest), a + 1 + |tools|, policy, ids');
    } else {
      CanonElsewhere(rest, a, policy);
      PlacedParts(rest);
      var ids' := StabilizeElsewhere(rest, a, policy, ids);
      StabilizeIsBlocks(rest[1..], a + 1, policy, ids');
    }
  }

  lemma StabilizeEnd(i: nat, ids: map<string, string>)
    ensures StabilizeFrom([], i, ids) == []
  {
  }

  lemma StabilizeUnfold(m: Message, tail: seq<Message>, i: nat, ids: map<string, string>)
    ensures var ids' := IdsAfter(ids, m, i);
            StabilizeFrom([m] + tail, i, ids) == [Stabilized(m, i, ids')] + StabilizeFrom(tail, i + 1, ids')
  {
    assert ([m] + tail)[1..] == tail;
  }

  lemma CanonAtEnd(a: nat, policy: Policy)
    ensures CanonBlocks([], a, policy) == []
  {
  }

  lemma CanonAtHead(rest: seq<Message>, a: nat, policy: Policy)
    requires rest != [] && IsHead(rest[0])
    ensures var tools := ToolsAfter(rest);
            CanonBlocks(rest, a, policy)
            == CanonBlock(rest[0], tools, a, policy) + CanonBlocks(AfterRun(rest), a + 1 + |tools|, policy)
  {
  }

  lemma CanonElsewhere(rest: seq<Message>, a: nat, policy: Policy)
    requires rest != [] && !IsHead(rest[0])
    ensures CanonBlocks(rest, a, policy) == [PassThrough(rest[0], policy)] + CanonBlocks(rest[1..], a + 1, policy)
  {
  }

  lemma StabilizePassed(m: Message, a: nat, policy: Policy, ids: map<string, string>)
    requires PlacedMessage(m) && !IsHead(m)
    ensures Stabilized(PassThrough(m, policy), a, IdsAfter(ids, PassThrough(m, policy), a)) == PassThrough(m, policy)
  {
  }

  /** On a sound history the two passes compute the block form, whatever the policy. */
  lemma CanonicalIsBlocks(messages: seq<Message>, policy: Policy)
    requires Placed(messages) && Sound(messages)
    ensures Canonical(messages, policy) == CanonBlocks(messages, 0, policy)
    ensures CanonicalRepair(messages, policy)
         == Plus(BlocksRepair(messages, 0),
                 NO_REPAIR.(stabilizedIds := ChangedFrom(PairBlocks(messages, 0, policy), 0, map[])))
  {
    hide ScanFrom, PairBlocks, BlocksRepair, RawBlocks, RawRepair, CanonBlocks, StabilizeFrom, ChangedFrom, SoundFrom, Placed;
    FirstPassIsBlocks(messages, policy);
    RawIsPaired(messages, 0, policy);
    StabilizeIsBlocks(messages, 0, policy, map[]);
  }

  /** The first pass computes its block form on every history whose calls are placed right. */
  lemma FirstPassIsBlocks(messages: seq<Message>, policy: Policy)
    requires Placed(messages)
    ensures Paired(messages, policy).messages == RawBlocks(messages, 0, policy)
    ensures Paired(messages, policy).repair == RawRepair(messages, 0)
  {
    hide ScanFrom, RawBlocks, RawRepair, Placed;
    var s := Scan(messages, [], NO_REPAIR);
    assert s.messages[0..] == messages;
    assert s.messages[..0] + RawBlocks(messages, 0, policy) == RawBlocks(messages, 0, policy);
    ScanIsBlocks(s, 0, policy);
    PlusAssoc(RawRepair(messages, 0), NO_REPAIR, NO_REPAIR);
  }

  // ---- Tidy histories are sound -----------------------------------------------

  lemma TidyBlockIsSound(head: Message, tools: seq<Message>, a: nat)
    requires IsHead(head) && TidyMessage(head, a)
    requires forall t :: 0 <= t < |tools| ==> tools[t].toolCallId.Some? ==> Clean(tools[t].toolCallId.value)
    ensures SoundBlock(head, tools, a)
  {
    hide FillIds, OpenOf, PairRun, Clean, Trim;
    HeadIsAligned(head, a, tools);
    forall t | 0 <= t < |tools| && tools[t].toolCallId.Some?
      ensures Trim(tools[t].toolCallId.value) == tools[t].toolCallId.value
    {
      CleanIsTrimmed(tools[t].toolCallId.value);
    }
  }

  lemma {:induction false} TidyFromIsSound(rest: seq<Message>, a: nat)
    requires TidyFrom(rest, a)
    ensures Placed(rest) && SoundFrom(rest, a)
    decreases |rest|
  {
    hide SoundBlock, ToolsAfter, AfterRun, TidyMessage;
    assert Placed(rest) by { TidyIsPlaced(rest, a); }
    if rest == [] {
    } else if IsHead(rest[0]) {
      var tools := ToolsAfter(rest);
      TidyParts(rest, a);
      TidyFromIsSound(AfterRun(rest), a + 1 + |tools|);
      TidyBlockIsSound(rest[0], tools, a);
    } else {
      TidyParts(rest, a);
      TidyFromIsSound(rest[1..], a + 1);
    }
  }

  lemma TidyIsPlaced(rest: seq<Message>, a: nat)
    requires TidyFrom(rest, a)
    ensures Placed(rest)
  {
    forall i | 0 <= i < |rest|
      ensures PlacedMessage(rest[i])
    {
      assert TidyMessage(rest[i], a + i);
    }
  }

  /** Tidiness of a list, seen from its first message and the tool run behind it. */
  lemma TidyParts(rest: seq<Message>, a: nat)
    requires rest != [] && TidyFrom(rest, a)
    ensures TidyMessage(rest[0], a) && TidyFrom(rest[1..], a + 1)
    ensures var tools := ToolsAfter(rest);
            && (forall t :: 0 <= t < |tools| ==> tools[t].role == Tool && tools[t].toolCalls.None?)
            && (forall t :: 0 <= t < |tools| ==> tools[t].toolCallId.Some? ==> Clean(tools[t].toolCallId.value))
            && TidyFrom(AfterRun(rest), a + 1 + |tools|)
  {
    hide Clean, TidyMessage, TidyFrom;
    var tools := ToolsAfter(rest);
    TidyAt(rest, a, 0);
    TidySuffix(rest, a, 1);
    TidySuffix(rest, a, 1 + |tools|);
    forall t | 0 <= t < |tools|
      ensures tools[t].role == Tool && tools[t].toolCalls.None?
      ensures tools[t].toolCallId.Some? ==> Clean(tools[t].toolCallId.value)
    {
      TidyAt(rest, a, 1 + t);
      TidyToolParts(tools[t], a + 1 + t);
    }
  }

  lemma TidyAt(rest: seq<Message>, a: nat, i: nat)
    requires TidyFrom(rest, a) && i < |rest|
    ensures TidyMessage(rest[i], a + i)
  {
    hide TidyMessage;
  }

  lemma TidySuffix(rest: seq<Message>, a: nat, n: nat)
    requires TidyFrom(rest, a) && n <= |rest|
    ensures TidyFrom(rest[n..], a + n)
  {
    hide TidyMessage;
    forall i | 0 <= i < |rest[n..]|
      ensures TidyMessage(rest[n..][i], a + n + i)
    {
      TidyAt(rest, a, n + i);
    }
  }

  lemma TidyToolParts(m: Message, i: nat)
    requires TidyMessage(m, i) && m.role == Tool
    ensures m.toolCalls.None? && (m.toolCallId.Some? ==> Clean(m.toolCallId.value))
  {
    hide Clean;
  }

  /** Clean and distinct ids make a history sound. */
  lemma TidyIsSound(messages: seq<Message>)
    requires Tidy(messages)
    ensures Placed(messages) && Sound(messages)
  {
    TidyFromIsSound(messages, 0);
  }
}
