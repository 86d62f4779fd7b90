/**
  A reference form of the canonicalizer without a pending list or an id map: an
  assistant message and the run of tool messages right behind it form a block,
  each block is settled on its own, and everything else passes through. On a
  tidy history both passes together compute exactly this form.
*/
module ToolHistoryBlocks {
  import opened Utf8Text
  import opened ToolHistory

  // ---- Tidy histories ---------------------------------------------------------

  predicate DistinctIds(calls: seq<ToolCall>) {
    forall s, t :: 0 <= s < t < |calls| ==> calls[s].id != calls[t].id
  }

  /**
    Ids that are present are non-blank and carry no surrounding white space, the
    ids of one message are distinct once missing ones are filled in, only an
    assistant message carries calls and only a tool message carries a call id.
  */
  predicate TidyMessage(m: Message, i: nat) {
    && (m.toolCalls.Some? ==>
          && m.role == Assistant
          && (forall c <- m.toolCalls.value :: c.id.Some? ==> Clean(c.id.value))
          && DistinctIds(FillIds(m.toolCalls.value, i)))
    && (m.toolCallId.Some? ==> m.role == Tool && Clean(m.toolCallId.value))
  }

  /** The list, whose first message is at position a, is tidy. */
  predicate TidyFrom(rest: seq<Message>, a: nat) {
    forall i :: 0 <= i < |rest| ==> TidyMessage(rest[i], a + i)
  }

  predicate Tidy(messages: seq<Message>) {
    TidyFrom(messages, 0)
  }

  /** Only an assistant message carries calls and only a tool message carries a call id. */
  predicate PlacedMessage(m: Message) {
    (m.toolCalls.Some? ==> m.role == Assistant) && (m.toolCallId.Some? ==> m.role == Tool)
  }

  predicate Placed(messages: seq<Message>) {
    forall i :: 0 <= i < |messages| ==> PlacedMessage(messages[i])
  }

  // ---- Pairing within one block -----------------------------------------------

  /** The tool messages that open a list of messages. */
  function ToolRun(messages: seq<Message>): (r: nat)
    ensures r <= |messages|
    ensures forall k :: 0 <= k < r ==> messages[k].role == Tool
    ensures r < |messages| ==> messages[r].role != Tool
  {
    if messages != [] && messages[0].role == Tool then 1 + ToolRun(messages[1..]) else 0
  }

  /** The calls of a block after its tool run, and for each tool message the call it answers. */
  datatype Pairing = Pairing(open: seq<Pending>, answers: seq<Option<nat>>)

  /** The entries once a tool message has taken its call. */
  function NextOpen(open: seq<Pending>, m: Message): (next: seq<Pending>)
    ensures |next| == |open|
  {
    var k := MatchPending(open, m.toolCallId);
    if k.Some? then MarkUsed(open, k.value) else open
  }

  function PairRun(open: seq<Pending>, tools: seq<Message>): (r: Pairing)
    ensures |r.open| == |open| && |r.answers| == |tools|
    decreases |tools|
  {
    if tools == [] then Pairing(open, [])
    else
      var rest := PairRun(NextOpen(open, tools[0]), tools[1..]);
      Pairing(rest.open, [MatchPending(open, tools[0].toolCallId)] + rest.answers)
  }

  /** Pairing only marks entries as used. */
  lemma {:induction false} PairRunKeeps(open: seq<Pending>, tools: seq<Message>)
    ensures forall k :: 0 <= k < |open| ==> PairRun(open, tools).open[k].(used := open[k].used) == open[k]
    decreases |tools|
  {
    hide MatchPending;
    if tools != [] {
      PairRunKeeps(NextOpen(open, tools[0]), tools[1..]);
    }
  }

  /** Answers are a partial injection onto the calls that end up used, and run out only at the end. */
  predicate Injective(open: seq<Pending>, tools: seq<Message>, r: Pairing) {
    && |r.open| == |open| && |r.answers| == |tools|
    && (forall t :: 0 <= t < |tools| && r.answers[t].Some? ==>
          r.answers[t].value < |open| && !open[r.answers[t].value].used && r.open[r.answers[t].value].used)
    && (forall s, t :: 0 <= s < t < |tools| && r.answers[s].Some? ==> r.answers[s] != r.answers[t])
    && (forall k :: 0 <= k < |open| && open[k].used ==> r.open[k].used)
    && (forall k :: 0 <= k < |open| && r.open[k].used && !open[k].used ==> Some(k) in r.answers)
    && (forall t :: 0 <= t < |tools| && r.answers[t].None? ==> AllUsed(r.open))
    && (forall s, t :: 0 <= s <= t < |tools| && r.answers[s].None? ==> r.answers[t].None?)
  }

  lemma {:induction false} PairRunInjective(open: seq<Pending>, tools: seq<Message>)
    ensures Injective(open, tools, PairRun(open, tools))
    decreases |tools|
  {
    hide MatchPending;
    if tools != [] {
      var k := MatchPending(open, tools[0].toolCallId);
      var marked := if k.Some? then MarkUsed(open, k.value) else open;
      PairRunInjective(marked, tools[1..]);
      if k.None? {
        MatchNone(open, tools[0].toolCallId);
        AllUsedStays(open, tools);
      } else {
        InjectiveStep(open, tools, k.value, PairRun(marked, tools[1..]));
      }
    }
  }

  lemma InjectiveStep(open: seq<Pending>, tools: seq<Message>, k: nat, rest: Pairing)
    requires tools != [] && k < |open| && !open[k].used
    requires |rest.open| == |open| && |rest.answers| == |tools| - 1
    requires Injective(MarkUsed(open, k), tools[1..], rest)
    ensures Injective(open, tools, Pairing(rest.open, [Some(k)] + rest.answers))
  {
    var r := Pairing(rest.open, [Some(k)] + rest.answers);
    assert forall t :: 0 < t < |tools| ==> r.answers[t] == rest.answers[t - 1];
    assert rest.open[k].used;
    forall t | 0 < t < |tools| && r.answers[t].Some?
      ensures r.answers[t] != Some(k) && !open[r.answers[t].value].used
    {
      assert !MarkUsed(open, k)[rest.answers[t - 1].value].used;
    }
    forall j | 0 <= j < |open| && rest.open[j].used && !open[j].used
      ensures Some(j) in r.answers
    {
      if j == k {
        assert r.answers[0] == Some(k);
      } else {
        assert Some(j) in rest.answers;
      }
    }
  }

  lemma MatchNone(open: seq<Pending>, raw: Option<string>)
    requires MatchPending(open, raw).None?
    ensures AllUsed(open)
  {
    NoneUnused(open, 0);
  }

  lemma {:induction false} NoneUnused(pending: seq<Pending>, from: nat)
    requires from <= |pending| && FindUnused(pending, None, from).None?
    ensures forall k :: from <= k < |pending| ==> pending[k].used
    decreases |pending| - from
  {
    if from < |pending| { NoneUnused(pending, from + 1); }
  }

  lemma {:induction false} SomeUnused(pending: seq<Pending>, want: Option<string>, from: nat)
    requires from <= |pending|
    requires forall k :: from <= k < |pending| ==> pending[k].used
    ensures FindUnused(pending, want, from).None?
    decreases |pending| - from
  {
    if from < |pending| { SomeUnused(pending, want, from + 1); }
  }

  lemma {:induction false} AllUsedStays(open: seq<Pending>, tools: seq<Message>)
    requires AllUsed(open)
    ensures PairRun(open, tools).open == open
    ensures forall t :: 0 <= t < |tools| ==> PairRun(open, tools).answers[t].None?
  {
    if tools != [] {
      SomeUnused(open, None, 0);
      SomeUnused(open, tools[0].toolCallId, 0);
      AllUsedStays(open, tools[1..]);
    }
  }

  // ---- Blocks after the first pass --------------------------------------------

  /** The calls whose entry was used, in order. */
  function Kept(calls: seq<ToolCall>, open: seq<Pending>): seq<ToolCall>
    requires |calls| == |open|
  {
    if calls == [] then []
    else (if open[0].used then [calls[0]] else []) + Kept(calls[1..], open[1..])
  }

  /** How many of the first k entries were used: the place of entry k among the kept calls. */
  function Rank(open: seq<Pending>, k: nat): nat
    requires k <= |open|
  {
    if k == 0 then 0 else Rank(open, k - 1) + (if open[k - 1].used then 1 else 0)
  }

  function PrunedHead(m: Message, calls: seq<ToolCall>, open: seq<Pending>, policy: Policy): Message
    requires |calls| == |open|
  {
    if AllUsed(open) then m.(toolCalls := Some(calls))
    else if Kept(calls, open) == [] then
      m.(toolCalls := None, content := ContentWithoutCalls(m.content, policy))
    else m.(toolCalls := Some(Kept(calls, open)))
  }

  function PairedTool(m: Message, answer: Option<nat>, open: seq<Pending>, policy: Policy): Message {
    if answer.Some? && answer.value < |open| then m.(toolCallId := Some(open[answer.value].id))
    else DowngradeTool(m, policy)
  }

  /** The tool messages after the first pass, each with the id of the call it takes. */
  function PairedTools(open: seq<Pending>, tools: seq<Message>, policy: Policy): (r: seq<Message>)
    ensures |r| == |tools|
    decreases |tools|
  {
    if tools == [] then []
    else
      [PairedTool(tools[0], MatchPending(open, tools[0].toolCallId), open, policy)]
      + PairedTools(NextOpen(open, tools[0]), tools[1..], policy)
  }

  predicate IsHead(m: Message) {
    m.role == Assistant && m.toolCalls.Some?
  }

  function OpenOf(m: Message, a: nat): (open: seq<Pending>)
    requires IsHead(m)
    ensures |open| == |m.toolCalls.value|
  {
    PendingOf(FillIds(m.toolCalls.value, a), a)
  }

  /** The tool messages right behind the first message. */
  function ToolsAfter(messages: seq<Message>): (tools: seq<Message>)
    requires messages != []
    ensures 1 + |tools| <= |messages|
  {
    messages[1..1 + ToolRun(messages[1..])]
  }

  /** What follows the first message and its tool run. */
  function AfterRun(messages: seq<Message>): (rest: seq<Message>)
    requires messages != []
    ensures |rest| == |messages| - 1 - |ToolsAfter(messages)|
  {
    messages[1 + |ToolsAfter(messages)|..]
  }

  /** The block of a head after the first pass. */
  function PairBlock(head: Message, tools: seq<Message>, a: nat, policy: Policy): (r: seq<Message>)
    requires IsHead(head)
    ensures |r| == 1 + |tools|
  {
    var p := PairRun(OpenOf(head, a), tools);
    [PrunedHead(head, FillIds(head.toolCalls.value, a), p.open, policy)]
    + PairedTools(OpenOf(head, a), tools, policy)
  }

  function PassThrough(m: Message, policy: Policy): Message {
    if m.role == Tool then DowngradeTool(m, policy) else m
  }

  /** The messages from position a on, which the list holds. */
  function PairBlocks(rest: seq<Message>, a: nat, policy: Policy): (r: seq<Message>)
    ensures |r| == |rest|
    decreases |rest|
  {
    if rest == [] then []
    else if IsHead(rest[0]) then
      var tools := ToolsAfter(rest);
      PairBlock(rest[0], tools, a, policy) + PairBlocks(AfterRun(rest), a + 1 + |tools|, policy)
    else [PassThrough(rest[0], policy)] + PairBlocks(rest[1..], a + 1, policy)
  }

  // ---- Blocks after both passes -----------------------------------------------

  function StableHead(m: Message, calls: seq<ToolCall>, open: seq<Pending>, a: nat, policy: Policy): Message
    requires |calls| == |open|
  {
    var pruned := PrunedHead(m, calls, open, policy);
    if pruned.toolCalls.Some? then pruned.(toolCalls := Some(StableCalls(pruned.toolCalls.value, a))) else pruned
  }

  function StableTool(
      m: Message, answer: Option<nat>, calls: seq<ToolCall>, open: seq<Pending>, a: nat, policy: Policy): Message
    requires |calls| == |open|
  {
    if answer.Some? && answer.value < |open| then
      m.(toolCallId := Some(SyntheticId(a, Rank(open, answer.value), calls[answer.value])))
    else DowngradeTool(m, policy)
  }

  function StableTools(
      tools: seq<Message>, answers: seq<Option<nat>>, calls: seq<ToolCall>, open: seq<Pending>, a: nat, policy: Policy)
    : (r: seq<Message>)
    requires |calls| == |open| && |answers| == |tools|
    ensures |r| == |tools|
  {
    seq(|tools|, t requires 0 <= t < |tools| => StableTool(tools[t], answers[t], calls, open, a, policy))
  }

  /** The block of a head after both passes, read off its pairing alone. */
  function CanonBlock(head: Message, tools: seq<Message>, a: nat, policy: Policy): (r: seq<Message>)
    requires IsHead(head)
    ensures |r| == 1 + |tools|
  {
    var p := PairRun(OpenOf(head, a), tools);
    var calls := FillIds(head.toolCalls.value, a);
    [StableHead(head, calls, p.open, a, policy)] + StableTools(tools, p.answers, calls, p.open, a, policy)
  }

  /** The messages from position a on, which the list holds. */
  function CanonBlocks(rest: seq<Message>, a: nat, policy: Policy): (r: seq<Message>)
    ensures |r| == |rest|
    decreases |rest|
  {
    if rest == [] then []
    else if IsHead(rest[0]) then
      var tools := ToolsAfter(rest);
      CanonBlock(rest[0], tools, a, policy) + CanonBlocks(AfterRun(rest), a + 1 + |tools|, policy)
    else [PassThrough(rest[0], policy)] + CanonBlocks(rest[1..], a + 1, policy)
  }

  // ---- Sound pairings ---------------------------------------------------------

  /** The raw id is the call's id with white space around it, which counts as already correct. */
  predicate PaddedAlias(raw: Option<string>, id: string) {
    AlreadyCarries(raw, id) && raw != Some(id)
  }

  /** No used entry shares its id with another one. */
  predicate UsedUnique(open: seq<Pending>) {
    forall j, k :: 0 <= j < |open| && 0 <= k < |open| && j != k && open[j].used ==> open[j].id != open[k].id
  }

  predicate AnswersPlainly(open: seq<Pending>, m: Message, answer: Option<nat>) {
    answer.Some? && answer.value < |open| ==> !PaddedAlias(m.toolCallId, open[answer.value].id)
  }

  /** In the block of a head, each answered call has an id of its own and no answer names it with padding. */
  predicate SoundBlock(head: Message, tools: seq<Message>, a: nat)
    requires IsHead(head)
  {
    var p := PairRun(OpenOf(head, a), tools);
    UsedUnique(p.open) && forall t :: 0 <= t < |tools| ==> AnswersPlainly(p.open, tools[t], p.answers[t])
  }

  /** The messages from position a on, which the list holds. */
  predicate SoundFrom(rest: seq<Message>, a: nat)
    decreases |rest|
  {
    rest == [] ||
    if IsHead(rest[0]) then
      SoundBlock(rest[0], ToolsAfter(rest), a) && SoundFrom(AfterRun(rest), a + 1 + |ToolsAfter(rest)|)
    else SoundFrom(rest[1..], a + 1)
  }

  predicate Sound(messages: seq<Message>) {
    SoundFrom(messages, 0)
  }

  // ---- What the blocks repair -------------------------------------------------

  function Plus(a: Repair, b: Repair): Repair {
    Repair(a.syntheticIds + b.syntheticIds, a.pairedResults + b.pairedResults,
           a.downgradedResults + b.downgradedResults, a.downgradedCalls + b.downgradedCalls,
           a.stabilizedIds + b.stabilizedIds)
  }

  function ToolRepair(open: seq<Pending>, m: Message): Repair {
    var k := MatchPending(open, m.toolCallId);
    if k.None? then NO_REPAIR.(downgradedResults := 1)
    else NO_REPAIR.(pairedResults := if AlreadyCarries(m.toolCallId, open[k.value].id) then 0 else 1)
  }

  function RunRepair(open: seq<Pending>, tools: seq<Message>): Repair
    decreases |tools|
  {
    if tools == [] then NO_REPAIR
    else Plus(ToolRepair(open, tools[0]), RunRepair(NextOpen(open, tools[0]), tools[1..]))
  }

  function BlockRepair(head: Message, tools: seq<Message>, a: nat): Repair
    requires IsHead(head)
  {
    var calls := head.toolCalls.value;
    var p := PairRun(OpenOf(head, a), tools);
    Plus(NO_REPAIR.(syntheticIds := MissingIds(calls, |calls|), downgradedCalls := |Unresolved(p.open)|),
         RunRepair(OpenOf(head, a), tools))
  }

  /** What the first pass reports for the messages from position a on. */
  function BlocksRepair(rest: seq<Message>, a: nat): Repair
    decreases |rest|
  {
    if rest == [] then NO_REPAIR
    else if IsHead(rest[0]) then
      var tools := ToolsAfter(rest);
      Plus(BlockRepair(rest[0], tools, a), BlocksRepair(AfterRun(rest), a + 1 + |tools|))
    else Plus(PassRepair(rest[0]), BlocksRepair(rest[1..], a + 1))
  }

  function PassRepair(m: Message): Repair {
    NO_REPAIR.(downgradedResults := if m.role == Tool then 1 else 0)
  }
}
