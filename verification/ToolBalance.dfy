/**
  When the canonicalizer downgrades nothing: exactly when each assistant message
  has as many tool messages behind it as calls, whatever ids they carry.
*/
module ToolBalance {
  import opened Utf8Text
  import opened ToolHistory
  import opened ToolHistoryBlocks
  import opened ToolHistoryFirstPass
  import opened ToolHistoryRefinement
  import opened ToolHistorySettled

  /** As many results as calls in every block, and no result anywhere else. */
  predicate Balanced(rest: seq<Message>)
    decreases |rest|
  {
    rest == [] ||
    if IsHead(rest[0]) then |ToolsAfter(rest)| == |rest[0].toolCalls.value| && Balanced(AfterRun(rest))
    else rest[0].role != Tool && Balanced(rest[1..])
  }

  /** A tool message is downgraded when it gets no answer. */
  lemma {:induction false} RunDowngrades(open: seq<Pending>, tools: seq<Message>)
    ensures RunRepair(open, tools).downgradedResults + Answered(PairRun(open, tools).answers) == |tools|
    ensures RunRepair(open, tools).downgradedCalls == 0
    decreases |tools|
  {
    hide MatchPending, AlreadyCarries;
    if tools != [] { RunDowngrades(NextOpen(open, tools[0]), tools[1..]); }
  }

  lemma {:induction false} NoneLeft(answers: seq<Option<nat>>)
    ensures Answered(answers) <= |answers|
    ensures Answered(answers) < |answers| ==> exists t :: 0 <= t < |answers| && answers[t].None?
    decreases |answers|
  {
    if answers != [] {
      NoneLeft(answers[1..]);
      if Answered(answers[1..]) < |answers[1..]| {
        var t :| 0 <= t < |answers[1..]| && answers[1..][t].None?;
        assert answers[t + 1].None?;
      } else if answers[0].None? {
      }
    }
  }

  lemma BlockBalance(head: Message, tools: seq<Message>, a: nat)
    requires IsHead(head)
    ensures var repair := BlockRepair(head, tools, a);
      repair.downgradedResults == 0 && repair.downgradedCalls == 0 <==> |tools| == |head.toolCalls.value|
  {
    hide OpenOf, PairRun, RunRepair, Unresolved, MissingIds, AllUsed, Answered;
    var open := OpenOf(head, a);
    var r := PairRun(open, tools);
    RunDowngrades(open, tools);
    AnswersUseUp(open, tools);
    OpenIsFresh(head, a);
    UnresolvedOfFresh(open);
    PairRunInjective(open, tools);
    NoneLeft(r.answers);
    if Answered(r.answers) < |tools| {
      assert AllUsed(r.open);
      UnresolvedMembers(r.open);
    }
  }

  lemma {:induction false} BlocksBalance(rest: seq<Message>, a: nat)
    ensures BlocksRepair(rest, a).downgradedResults == 0 && BlocksRepair(rest, a).downgradedCalls == 0 <==> Balanced(rest)
    decreases |rest|
  {
    hide BlockRepair, ToolsAfter, AfterRun;
    if rest == [] {
    } else if IsHead(rest[0]) {
      BlockBalance(rest[0], ToolsAfter(rest), a);
      BlocksBalance(AfterRun(rest), a + 1 + |ToolsAfter(rest)|);
    } else {
      BlocksBalance(rest[1..], a + 1);
    }
  }

  /** Nothing is downgraded exactly when calls and results are balanced. */
  lemma NothingDowngradedExactlyWhenBalanced(messages: seq<Message>, policy: Policy)
    requires Tidy(messages)
    ensures var repair := CanonicalRepair(messages, policy);
      repair.downgradedResults == 0 && repair.downgradedCalls == 0 <==> Balanced(messages)
  {
    hide TidyFrom, Canonical, CanonicalRepair, CanonBlocks, PairBlocks, BlocksRepair, ChangedFrom, Balanced;
    TidyIsSound(messages);
    CanonicalIsBlocks(messages, policy);
    BlocksBalance(messages, 0);
  }
}
