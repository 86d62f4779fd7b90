/**
  Which call a tool result takes (translate.rs): the one it names while that is
  open, else the first that is still open; and what that means for the history
  that comes out.
*/
module ToolHistoryChoice {
  import opened Utf8Text
  import opened ToolHistory
  import opened ToolHistoryBlocks
  import opened ToolHistoryFirstPass
  import opened ToolHistoryRefinement
  import opened ToolHistorySettled
  import opened ToolHistoryLaws
  import opened ToolHistoryExactness
  import opened ToolExchange

  // ---- One run of results -----------------------------------------------------

  /** The entry was used before the run, or one of the first t results took it. */
  predicate Taken(open: seq<Pending>, answers: seq<Option<nat>>, t: nat, k: nat)
    requires t <= |answers| && k < |open|
  {
    open[k].used || exists s :: 0 <= s < t && answers[s] == Some(k)
  }

  /** The raw id says something, and it is the id of this entry. */
  predicate Names(open: seq<Pending>, raw: Option<string>, k: nat)
    requires k < |open|
  {
    raw.Some? && Trim(raw.value) != "" && open[k].id == raw.value
  }

  /** Result t takes the first free entry that it names; if it names none, the first free entry; if none is free, none. */
  ghost predicate TakesFirst(open: seq<Pending>, answers: seq<Option<nat>>, raw: Option<string>, t: nat)
    requires t < |answers|
  {
    var named := exists k :: 0 <= k < |open| && !Taken(open, answers, t, k) && Names(open, raw, k);
    match answers[t]
    case None => forall k :: 0 <= k < |open| ==> Taken(open, answers, t, k)
    case Some(k) =>
      && k < |open| && !Taken(open, answers, t, k)
      && (if named
          then Names(open, raw, k) && forall j :: 0 <= j < k ==> Taken(open, answers, t, j) || !Names(open, raw, j)
          else forall j :: 0 <= j < k ==> Taken(open, answers, t, j))
  }

  lemma {:induction false} FoundIsFirst(pending: seq<Pending>, want: Option<string>, from: nat)
    requires from <= |pending|
    ensures var k := FindUnused(pending, want, from);
      forall j :: from <= j < (if k.Some? then k.value else |pending|) ==>
        pending[j].used || (want.Some? && pending[j].id != want.value)
    decreases |pending| - from
  {
    if from < |pending| { FoundIsFirst(pending, want, from + 1); }
  }

  lemma FirstTakes(open: seq<Pending>, raw: Option<string>, answers: seq<Option<nat>>)
    requires answers != [] && answers[0] == MatchPending(open, raw)
    ensures TakesFirst(open, answers, raw, 0)
  {
    hide FindUnused, Trim;
    forall k | 0 <= k < |open|
      ensures Taken(open, answers, 0, k) <==> open[k].used
    {
    }
    FoundIsFirst(open, raw, 0);
    FoundIsFirst(open, None, 0);
    var byId := FindUnused(open, raw, 0);
    if raw.Some? && Trim(raw.value) != "" && byId.Some? { assert Names(open, raw, byId.value); }
  }

  lemma TakenLater(open: seq<Pending>, m: Message, answers: seq<Option<nat>>, t: nat, k: nat)
    requires 0 < t <= |answers| && k < |open| && answers[0] == MatchPending(open, m.toolCallId)
    ensures Taken(open, answers, t, k) <==> Taken(NextOpen(open, m), answers[1..], t - 1, k)
    ensures NextOpen(open, m)[k].id == open[k].id
  {
    hide MatchPending;
    var rest := answers[1..];
    if s :| 0 <= s < t && answers[s] == Some(k) {
      if s > 0 { assert rest[s - 1] == answers[s]; }
    }
    if s :| 0 <= s < t - 1 && rest[s] == Some(k) {
      assert answers[s + 1] == rest[s];
    }
  }

  /** Every result of a run takes its call this way. */
  lemma {:induction false} ResultTakesFirst(open: seq<Pending>, tools: seq<Message>, t: nat)
    requires t < |tools|
    ensures TakesFirst(open, PairRun(open, tools).answers, tools[t].toolCallId, t)
    decreases t
  {
    hide MatchPending, NextOpen, TakesFirst;
    var answers := PairRun(open, tools).answers;
    if t == 0 {
      FirstTakes(open, tools[0].toolCallId, answers);
    } else {
      var next := NextOpen(open, tools[0]);
      assert answers[1..] == PairRun(next, tools[1..]).answers;
      ResultTakesFirst(next, tools[1..], t - 1);
      TakesLater(open, tools[0], answers, tools[t].toolCallId, t);
    }
  }

  lemma TakesLater(open: seq<Pending>, m: Message, answers: seq<Option<nat>>, raw: Option<string>, t: nat)
    requires 0 < t < |answers| && answers[0] == MatchPending(open, m.toolCallId)
    requires TakesFirst(NextOpen(open, m), answers[1..], raw, t - 1)
    ensures TakesFirst(open, answers, raw, t)
  {
    hide MatchPending, NextOpen, Taken, Trim;
    var next := NextOpen(open, m);
    forall k | 0 <= k < |open|
      ensures Taken(open, answers, t, k) <==> Taken(next, answers[1..], t - 1, k)
      ensures Names(open, raw, k) <==> Names(next, raw, k)
    {
      TakenLater(open, m, answers, t, k);
    }
    assert answers[1..][t - 1] == answers[t];
  }

  /** Results that carry no id take the calls in order. */
  lemma {:induction false} UnnamedTakeInOrder(open: seq<Pending>, tools: seq<Message>, t: nat)
    requires t < |tools| && t < |open| && forall k :: 0 <= k < |open| ==> !open[k].used
    requires forall s :: 0 <= s <= t ==> tools[s].toolCallId.None? || Blank(tools[s].toolCallId.value)
    ensures forall s :: 0 <= s <= t ==> PairRun(open, tools).answers[s] == Some(s)
    decreases t
  {
    hide PairRun, Trim;
    var answers := PairRun(open, tools).answers;
    if t > 0 { UnnamedTakeInOrder(open, tools, t - 1); }
    ResultTakesFirst(open, tools, t);
    assert !Taken(open, answers, t, t);
  }

  // ---- In the canonical history -----------------------------------------------

  lemma CanonTail(rest: seq<Message>, a: nat, policy: Policy)
    requires rest != []
    ensures var n := StepLength(rest); CanonBlocks(rest, a, policy)[n..] == CanonBlocks(rest[n..], a + n, policy)
  {
    hide CanonBlocks, CanonBlock, ToolsAfter, AfterRun, PassThrough;
    if IsHead(rest[0]) {
      var tools, n := ToolsAfter(rest), 1 + |ToolsAfter(rest)|;
      CanonAtHead(rest, a, policy);
      TailIsAfterRun(rest);
      Behind(CanonBlock(rest[0], tools, a, policy), CanonBlocks(AfterRun(rest), a + n, policy));
    } else {
      CanonElsewhere(rest, a, policy);
      Behind([PassThrough(rest[0], policy)], CanonBlocks(rest[1..], a + 1, policy));
    }
  }

  lemma {:induction false} CanonBlockAt(rest: seq<Message>, a: nat, policy: Policy, x: nat)
    requires x < |rest| && IsHead(rest[x])
    ensures x + 1 + |ToolsAfter(rest[x..])| <= |rest|
    ensures CanonBlocks(rest, a, policy)[x..x + 1 + |ToolsAfter(rest[x..])|]
         == CanonBlock(rest[x], ToolsAfter(rest[x..]), a + x, policy)
    decreases |rest|
  {
    hide CanonBlock, CanonBlocks, ToolsAfter, StepLength;
    var n := StepLength(rest);
    var whole := CanonBlocks(rest, a, policy);
    if x == 0 {
      assert rest[0..] == rest;
      CanonAtHead(rest, a, policy);
      Behind(CanonBlock(rest[0], ToolsAfter(rest), a, policy), CanonBlocks(AfterRun(rest), a + 1 + |ToolsAfter(rest)|, policy));
    } else if x < n {
      InsideAreTools(rest, x);
    } else {
      var tail := rest[n..];
      assert tail[x - n..] == rest[x..] && tail[x - n] == rest[x];
      CanonBlockAt(tail, a + n, policy, x - n);
      CanonTail(rest, a, policy);
      var m := 1 + |ToolsAfter(rest[x..])|;
      assert x - n + m <= |tail|;
      SliceShift(whole, n, x, x + m);
    }
  }

  /** Where the tool messages behind a head are in the history. */
  function RunOf(messages: seq<Message>, h: nat): (tools: seq<Message>)
    requires h < |messages|
    ensures h + 1 + |tools| <= |messages|
  {
    ToolsAfter(messages[h..])
  }

  /** Call k of the head is what result t takes. */
  predicate TakesCall(messages: seq<Message>, h: nat, t: nat, k: nat)
    requires h < |messages| && IsHead(messages[h])
  {
    t < |RunOf(messages, h)| && PairRun(OpenOf(messages[h], h), RunOf(messages, h)).answers[t] == Some(k)
  }

  lemma KeptHead(head: Message, tools: seq<Message>, a: nat, policy: Policy, k: nat)
    requires IsHead(head)
    requires var p := PairRun(OpenOf(head, a), tools); k < |p.open| && p.open[k].used
    ensures var p := PairRun(OpenOf(head, a), tools);
      var calls := FillIds(head.toolCalls.value, a);
      var out := CanonBlock(head, tools, a, policy)[0];
      && out.toolCalls == Some(StableCalls(Kept(calls, p.open), a)) && out.role == Assistant
      && Rank(p.open, k) < |Kept(calls, p.open)| && Kept(calls, p.open)[Rank(p.open, k)] == calls[k]
  {
    hide PairRun, OpenOf, FillIds, Kept, Rank, StableCalls, StableTools, ContentWithoutCalls, AllUsed;
    var p := PairRun(OpenOf(head, a), tools);
    var calls := FillIds(head.toolCalls.value, a);
    KeptAtRank(calls, p.open, k);
    if AllUsed(p.open) { KeptAll(calls, p.open); }
  }

  /** In its block the result that takes a call answers it. */
  lemma BlockAnswers(head: Message, tools: seq<Message>, a: nat, policy: Policy, t: nat, k: nat) returns (n: nat)
    requires IsHead(head) && t < |tools| && forall s :: 0 <= s < |tools| ==> tools[s].role == Tool
    requires PairRun(OpenOf(head, a), tools).answers[t] == Some(k)
    ensures k < |head.toolCalls.value| && n == Rank(PairRun(OpenOf(head, a), tools).open, k)
    ensures var block := CanonBlock(head, tools, a, policy);
      && |block| == 1 + |tools| && block[0].role == Assistant
      && block[0].toolCalls.Some? && n < |block[0].toolCalls.value|
      && (forall m :: 0 < m < 2 + t ==> block[m].role == Tool)
      && block[1 + t].toolCallId.Some?
      && block[0].toolCalls.value[n] == head.toolCalls.value[k].(id := block[1 + t].toolCallId)
      && block[1 + t] == tools[t].(toolCallId := block[1 + t].toolCallId)
  {
    hide PairRun, OpenOf, CanonBlock, SyntheticId, FillIds, Kept, StableTool, StableCalls;
    var p := PairRun(OpenOf(head, a), tools);
    PairRunInjective(OpenOf(head, a), tools);
    n := Rank(p.open, k);
    KeptHead(head, tools, a, policy, k);
    CanonToolAt(head, tools, a, policy, t);
    TakenTool(tools[t], head, p, a, policy, k);
    StableCallAt(Kept(FillIds(head.toolCalls.value, a), p.open), a, n);
    ToolsBetween(head, tools, a, policy, t);
  }

  /** A block stands in the block form where its head and its results were. */
  lemma BlockStands(messages: seq<Message>, policy: Policy, h: nat)
    requires h < |messages| && IsHead(messages[h])
    ensures CanonBlocks(messages, 0, policy)[h..h + 1 + |RunOf(messages, h)|]
         == CanonBlock(messages[h], RunOf(messages, h), h, policy)
  {
    hide RunOf, ToolsAfter, CanonBlock, CanonBlocks, IsHead;
    RunIs(messages, h);
    CanonBlockAt(messages, 0, policy, h);
  }

  lemma RunIs(messages: seq<Message>, h: nat)
    requires h < |messages|
    ensures RunOf(messages, h) == ToolsAfter(messages[h..])
  {
  }

  lemma SliceAt<T>(s: seq<T>, lo: nat, hi: nat, part: seq<T>)
    requires lo <= hi <= |s| && s[lo..hi] == part
    ensures |part| == hi - lo && forall i :: lo <= i < hi ==> s[i] == part[i - lo]
  {
  }

  /**
    The tool message that takes a call comes out as that call's answer: with nothing
    but its id changed, and the call with nothing but its id changed.
  */
  lemma ResultGoesToItsCall(messages: seq<Message>, policy: Policy, h: nat, t: nat, k: nat) returns (n: nat)
    requires Placed(messages) && Sound(messages)
    requires h < |messages| && IsHead(messages[h]) && TakesCall(messages, h, t, k)
    ensures k < |messages[h].toolCalls.value|
    ensures var out := Canonical(messages, policy);
      && Answers(out, h + 1 + t, h, n)
      && out[h].toolCalls.value[n] == messages[h].toolCalls.value[k].(id := out[h + 1 + t].toolCallId)
      && out[h + 1 + t] == messages[h + 1 + t].(toolCallId := out[h + 1 + t].toolCallId)
    ensures n == Rank(PairRun(OpenOf(messages[h], h), RunOf(messages, h)).open, k)
  {
    hide PairRun, OpenOf, RunOf, CanonBlock, CanonBlocks, Canonical, CanonicalRepair, Sound, Placed, Rank;
    var tools := RunOf(messages, h);
    forall s | 0 <= s < |tools|
      ensures tools[s].role == Tool
    {
      RunAt(messages, h, s);
    }
    RunAt(messages, h, t);
    n := BlockAnswers(messages[h], tools, h, policy, t, k);
    CanonicalIsBlocks(messages, policy);
    BlockStands(messages, policy, h);
    SliceAt(Canonical(messages, policy), h, h + 1 + |tools|, CanonBlock(messages[h], tools, h, policy));
  }

  /** The messages of a block between its head and a result that takes a call stay tool messages. */
  lemma ToolsBetween(head: Message, tools: seq<Message>, a: nat, policy: Policy, t: nat)
    requires IsHead(head) && t < |tools| && PairRun(OpenOf(head, a), tools).answers[t].Some?
    requires forall s :: 0 <= s < |tools| ==> tools[s].role == Tool
    ensures var block := CanonBlock(head, tools, a, policy);
      |block| == 1 + |tools| && forall n :: 0 < n < 1 + t ==> block[n].role == Tool
  {
    hide PairRun, OpenOf, CanonBlock, FillIds, Kept, StableTool, StableCalls, SyntheticId;
    var p := PairRun(OpenOf(head, a), tools);
    CanonToolAt(head, tools, a, policy, t);
    forall n | 0 < n < 1 + t
      ensures CanonBlock(head, tools, a, policy)[n].role == Tool
    {
      var s := n - 1;
      EarlierAnswers(head, tools, a, s, t);
      CanonToolAt(head, tools, a, policy, s);
      TakenTool(tools[s], head, p, a, policy, p.answers[s].value);
    }
  }

  lemma RunAt(messages: seq<Message>, h: nat, t: nat)
    requires h < |messages| && t < |RunOf(messages, h)|
    ensures messages[h + 1 + t] == RunOf(messages, h)[t] && messages[h + 1 + t].role == Tool
  {
    hide ToolsAfter;
    AtTool(messages[h..], t);
    assert messages[h..][1 + t] == messages[h + 1 + t];
  }

  lemma EarlierAnswers(head: Message, tools: seq<Message>, a: nat, s: nat, t: nat)
    requires IsHead(head) && s <= t < |tools| && PairRun(OpenOf(head, a), tools).answers[t].Some?
    ensures var r := PairRun(OpenOf(head, a), tools); r.answers[s].Some? && r.answers[s].value < |r.open|
  {
    hide PairRun, OpenOf;
    PairRunInjective(OpenOf(head, a), tools);
  }

  lemma TakenTool(m: Message, head: Message, p: Pairing, a: nat, policy: Policy, k: nat)
    requires IsHead(head) && k < |p.open| == |head.toolCalls.value|
    ensures var calls := FillIds(head.toolCalls.value, a);
      && StableTool(m, Some(k), calls, p.open, a, policy)
         == m.(toolCallId := Some(SyntheticId(a, Rank(p.open, k), head.toolCalls.value[k])))
      && calls[k].(id := None) == head.toolCalls.value[k].(id := None)
      && SyntheticId(a, Rank(p.open, k), calls[k]) == SyntheticId(a, Rank(p.open, k), head.toolCalls.value[k])
  {
    hide Blank, Rank;
  }

  lemma {:induction false} RankOfFront(open: seq<Pending>, k: nat)
    requires k <= |open| && forall j :: 0 <= j < k ==> open[j].used
    ensures Rank(open, k) == k
  {
    if k > 0 { RankOfFront(open, k - 1); }
  }

  /** Behind a head, results that carry no id answer its calls in order, each with the name and arguments it had. */
  lemma UnnamedAnswerInOrder(messages: seq<Message>, policy: Policy, h: nat, t: nat)
    requires Placed(messages) && Sound(messages)
    requires h < |messages| && IsHead(messages[h]) && t < |messages[h].toolCalls.value| && t < |RunOf(messages, h)|
    requires forall s :: h < s <= h + 1 + t ==>
      messages[s].toolCallId.None? || Blank(messages[s].toolCallId.value)
    ensures var out := Canonical(messages, policy);
      && Answers(out, h + 1 + t, h, t)
      && out[h].toolCalls.value[t] == messages[h].toolCalls.value[t].(id := out[h + 1 + t].toolCallId)
      && out[h + 1 + t] == messages[h + 1 + t].(toolCallId := out[h + 1 + t].toolCallId)
  {
    hide PairRun, OpenOf, ToolsAfter, Canonical, Sound, Rank, Blank, Answers;
    var open, tools := OpenOf(messages[h], h), RunOf(messages, h);
    OpenIsFresh(messages[h], h);
    forall s | 0 <= s <= t
      ensures tools[s].toolCallId.None? || Blank(tools[s].toolCallId.value)
    {
      RunAt(messages, h, s);
    }
    UnnamedTakeInOrder(open, tools, t);
    var r := PairRun(open, tools);
    PairRunInjective(open, tools);
    forall j | 0 <= j < t
      ensures r.open[j].used
    {
      assert r.answers[j] == Some(j);
    }
    RankOfFront(r.open, t);
    var n := ResultGoesToItsCall(messages, policy, h, t, t);
  }
}
