/**
  The first pass on its own: on every history in which only assistant messages
  carry calls, the pending list and the downgrading by id compute a block form.
*/
module ToolHistoryFirstPass {
  import opened Utf8Text
  import opened ToolHistory
  import opened ToolHistoryBlocks

  // ---- The block form of the first pass alone ---------------------------------

  function WithoutAll(calls: seq<ToolCall>, gone: seq<Pending>): (kept: seq<ToolCall>)
    ensures |kept| <= |calls|
    decreases |gone|
  {
    if gone == [] then calls else WithoutAll(Without(calls, gone[0].id), gone[1..])
  }

  /** The head once every call that an unanswered id names is dropped. */
  function RawHead(m: Message, calls: seq<ToolCall>, open: seq<Pending>, policy: Policy): Message {
    var kept := WithoutAll(calls, Unresolved(open));
    if AllUsed(open) then m.(toolCalls := Some(calls))
    else if kept == [] then m.(toolCalls := None, content := ContentWithoutCalls(m.content, policy))
    else m.(toolCalls := Some(kept))
  }

  /** A tool message that is answered takes the id of its call, unless it carries that id already. */
  function RawTool(m: Message, answer: Option<nat>, open: seq<Pending>, policy: Policy): Message {
    if answer.None? || answer.value >= |open| then DowngradeTool(m, policy)
    else if AlreadyCarries(m.toolCallId, open[answer.value].id) then m
    else m.(toolCallId := Some(open[answer.value].id))
  }

  function RawTools(open: seq<Pending>, tools: seq<Message>, policy: Policy): (r: seq<Message>)
    ensures |r| == |tools|
    decreases |tools|
  {
    if tools == [] then []
    else
      [RawTool(tools[0], MatchPending(open, tools[0].toolCallId), open, policy)]
      + RawTools(NextOpen(open, tools[0]), tools[1..], policy)
  }

  function RawBlock(head: Message, tools: seq<Message>, a: nat, policy: Policy): (r: seq<Message>)
    requires IsHead(head)
    ensures |r| == 1 + |tools|
  {
    var p := PairRun(OpenOf(head, a), tools);
    [RawHead(head, FillIds(head.toolCalls.value, a), p.open, policy)] + RawTools(OpenOf(head, a), tools, policy)
  }

  function RawBlocks(rest: seq<Message>, a: nat, policy: Policy): (r: seq<Message>)
    ensures |r| == |rest|
    decreases |rest|
  {
    if rest == [] then []
    else if IsHead(rest[0]) then
      var tools := ToolsAfter(rest);
      RawBlock(rest[0], tools, a, policy) + RawBlocks(AfterRun(rest), a + 1 + |tools|, policy)
    else [PassThrough(rest[0], policy)] + RawBlocks(rest[1..], a + 1, policy)
  }

  function RawDropped(calls: seq<ToolCall>, open: seq<Pending>): nat {
    |calls| - |WithoutAll(calls, Unresolved(open))|
  }

  function RawBlockRepair(head: Message, tools: seq<Message>, a: nat): Repair
    requires IsHead(head)
  {
    var calls := head.toolCalls.value;
    var p := PairRun(OpenOf(head, a), tools);
    Plus(NO_REPAIR.(syntheticIds := MissingIds(calls, |calls|), downgradedCalls := RawDropped(FillIds(calls, a), p.open)),
         RunRepair(OpenOf(head, a), tools))
  }

  function RawRepair(rest: seq<Message>, a: nat): Repair
    decreases |rest|
  {
    if rest == [] then NO_REPAIR
    else if IsHead(rest[0]) then
      var tools := ToolsAfter(rest);
      Plus(RawBlockRepair(rest[0], tools, a), RawRepair(AfterRun(rest), a + 1 + |tools|))
    else Plus(PassRepair(rest[0]), RawRepair(rest[1..], a + 1))
  }

  lemma RawAtHead(rest: seq<Message>, a: nat, policy: Policy)
    requires rest != [] && IsHead(rest[0])
    ensures var tools := ToolsAfter(rest);
            && RawBlocks(rest, a, policy)
               == RawBlock(rest[0], tools, a, policy) + RawBlocks(AfterRun(rest), a + 1 + |tools|, policy)
            && RawRepair(rest, a)
               == Plus(RawBlockRepair(rest[0], tools, a), RawRepair(AfterRun(rest), a + 1 + |tools|))
  {
  }

  lemma RawElsewhere(rest: seq<Message>, a: nat, policy: Policy)
    requires rest != [] && !IsHead(rest[0])
    ensures RawBlocks(rest, a, policy) == [PassThrough(rest[0], policy)] + RawBlocks(rest[1..], a + 1, policy)
    ensures RawRepair(rest, a) == Plus(PassRepair(rest[0]), RawRepair(rest[1..], a + 1))
  {
  }

  lemma RawAtEnd(a: nat, policy: Policy)
    ensures RawBlocks([], a, policy) == [] && RawRepair([], a) == NO_REPAIR
  {
  }

  // ---- The first pass, one run of tool messages -------------------------------

  function Shift(k: Option<nat>, offset: nat): Option<nat> {
    if k.Some? then Some(k.value + offset) else None
  }

  lemma {:induction false} FindPastUsed(done: seq<Pending>, open: seq<Pending>, want: Option<string>, from: nat)
    requires AllUsed(done) && from <= |done|
    ensures FindUnused(done + open, want, from) == FindUnused(done + open, want, |done|)
    decreases |done| - from
  {
    if from < |done| {
      assert done[from] in done;
      FindPastUsed(done, open, want, from + 1);
    }
  }

  lemma {:induction false} FindInSuffix(done: seq<Pending>, open: seq<Pending>, want: Option<string>, from: nat)
    requires from <= |open|
    ensures FindUnused(done + open, want, |done| + from) == Shift(FindUnused(open, want, from), |done|)
    decreases |open| - from
  {
    if from < |open| { FindInSuffix(done, open, want, from + 1); }
  }

  lemma MatchPastUsed(done: seq<Pending>, open: seq<Pending>, raw: Option<string>)
    requires AllUsed(done)
    ensures MatchPending(done + open, raw) == Shift(MatchPending(open, raw), |done|)
  {
    FindPastUsed(done, open, raw, 0);
    FindInSuffix(done, open, raw, 0);
    FindPastUsed(done, open, None, 0);
    FindInSuffix(done, open, None, 0);
  }

  function Overwrite<T>(messages: seq<T>, i: nat, part: seq<T>): (r: seq<T>)
    requires i + |part| <= |messages|
    ensures |r| == |messages|
  {
    messages[..i] + part + messages[i + |part|..]
  }

  lemma OverwriteStep<T>(messages: seq<T>, i: nat, x: T, part: seq<T>)
    requires i + 1 + |part| <= |messages|
    ensures Overwrite(messages[i := x], i + 1, part) == Overwrite(messages, i, [x] + part)
  {
  }

  /** Replacing the head in front of an overwritten run. */
  lemma OverwriteHead<T>(messages: seq<T>, i: nat, head: T, part: seq<T>, pruned: T)
    requires i + 1 + |part| <= |messages|
    ensures Overwrite(messages[i := head], i + 1, part)[i] == head
    ensures Overwrite(messages[i := head], i + 1, part)[i := pruned]
         == messages[..i] + ([pruned] + part) + messages[i + 1 + |part|..]
    ensures Overwrite(messages[i := head], i + 1, part)[i + 1 + |part|..] == messages[i + 1 + |part|..]
    ensures i + 1 + |part| < |messages| ==>
              Overwrite(messages[i := head], i + 1, part)[i + 1 + |part|] == messages[i + 1 + |part|]
  {
  }

  function AfterTools(s: Scan, i: nat, r: nat, done: seq<Pending>, open: seq<Pending>, policy: Policy): (s': Scan)
    requires i + r <= |s.messages|
    ensures |s'.messages| == |s.messages|
  {
    var tools := s.messages[i..i + r];
    Scan(Overwrite(s.messages, i, RawTools(open, tools, policy)),
         done + PairRun(open, tools).open, Plus(s.repair, RunRepair(open, tools)))
  }

  lemma ToolStep(s: Scan, i: nat, done: seq<Pending>, open: seq<Pending>, policy: Policy)
    requires i < |s.messages| && s.pending == done + open && AllUsed(done)
    requires s.messages[i].role == Tool && PlacedMessage(s.messages[i])
    ensures var m := s.messages[i];
            ScanStep(s, i, policy) == Scan(
              s.messages[i := RawTool(m, MatchPending(open, m.toolCallId), open, policy)],
              done + NextOpen(open, m),
              Plus(s.repair, ToolRepair(open, m)))
  {
    hide SyntheticId, Trim, Blank, DowngradeTool, MatchPending, Settle, AllUsed, StepAssistant, Clean;
    var m := s.messages[i];
    var k := MatchPending(open, m.toolCallId);
    MatchPastUsed(done, open, m.toolCallId);
    if k.Some? {
      assert s.pending[|done| + k.value] == open[k.value];
      assert MarkUsed(s.pending, |done| + k.value) == done + MarkUsed(open, k.value);
      if AlreadyCarries(m.toolCallId, open[k.value].id) {
        assert s.messages[i := m] == s.messages;
      }
    }
  }

  lemma ScanUnfold(s: Scan, i: nat, policy: Policy)
    requires i < |s.messages|
    ensures ScanFrom(s, i, policy) == ScanFrom(ScanStep(s, i, policy), i + 1, policy)
  {
  }

  lemma AfterToolsStep(s: Scan, i: nat, r: nat, done: seq<Pending>, open: seq<Pending>, policy: Policy)
    requires 0 < r && i + r <= |s.messages|
    ensures var m := s.messages[i];
            var open1 := NextOpen(open, m);
            var m1 := RawTool(m, MatchPending(open, m.toolCallId), open, policy);
            var s1 := Scan(s.messages[i := m1], done + open1, Plus(s.repair, ToolRepair(open, m)));
            AfterTools(s1, i + 1, r - 1, done, open1, policy) == AfterTools(s, i, r, done, open, policy)
  {
    hide RawTool, MatchPending, NextOpen, ToolRepair, Overwrite;
    var tools := s.messages[i..i + r];
    var m := s.messages[i];
    var open1 := NextOpen(open, m);
    var m1 := RawTool(m, MatchPending(open, m.toolCallId), open, policy);
    assert tools[0] == m && tools[1..] == s.messages[i := m1][i + 1..i + r];
    OverwriteStep(s.messages, i, m1, RawTools(open1, tools[1..], policy));
  }

  lemma {:induction false} ToolSteps(
      s: Scan, i: nat, r: nat, done: seq<Pending>, open: seq<Pending>, policy: Policy)
    requires i + r <= |s.messages| && s.pending == done + open && AllUsed(done)
    requires forall k :: i <= k < i + r ==> s.messages[k].role == Tool && PlacedMessage(s.messages[k])
    ensures ScanFrom(s, i, policy) == ScanFrom(AfterTools(s, i, r, done, open, policy), i + r, policy)
    decreases r
  {
    hide ScanFrom, ScanStep, PlacedMessage, ToolRepair, RawTool, MatchPending, NextOpen;
    if r == 0 {
      assert Overwrite(s.messages, i, []) == s.messages;
    } else {
      var m := s.messages[i];
      var open1 := NextOpen(open, m);
      ToolStep(s, i, done, open, policy);
      ScanUnfold(s, i, policy);
      ToolSteps(ScanStep(s, i, policy), i + 1, r - 1, done, open1, policy);
      AfterToolsStep(s, i, r, done, open, policy);
    }
  }

  // ---- Downgrading the calls that stay unanswered -----------------------------

  lemma {:induction false} DropsOnCallFree(messages: seq<Message>, gone: seq<Pending>, a: nat, policy: Policy)
    requires a < |messages| && messages[a].toolCalls.None?
    requires forall p <- gone :: p.at == a
    ensures DropCalls(messages, gone, policy) == messages && DroppedCalls(messages, gone, policy) == 0
    decreases |gone|
  {
    if gone != [] {
      assert gone[0] in gone;
      assert messages[a := messages[a]] == messages;
      DropsOnCallFree(messages, gone[1..], a, policy);
    }
  }

  /** Dropping one call after the other leaves the message with the calls no dropped id names. */
  lemma {:induction false} DropsOnHead(messages: seq<Message>, gone: seq<Pending>, a: nat, policy: Policy)
    requires a < |messages| && messages[a].toolCalls.Some? && gone != []
    requires forall p <- gone :: p.at == a
    ensures var m := messages[a];
            var kept := WithoutAll(m.toolCalls.value, gone);
            && DropCalls(messages, gone, policy) == messages[a :=
                 if kept == [] then m.(toolCalls := None, content := ContentWithoutCalls(m.content, policy))
                 else m.(toolCalls := Some(kept))]
            && |kept| <= |m.toolCalls.value|
            && DroppedCalls(messages, gone, policy) == |m.toolCalls.value| - |kept|
    decreases |gone|
  {
    var p := gone[0];
    assert p in gone && p.at == a;
    var m := messages[a];
    var m1 := DropCall(m, p.id, policy);
    var next := messages[a := m1];
    var rest := gone[1..];
    if rest == [] {
    } else if m1.toolCalls.None? {
      DropsOnCallFree(next, rest, a, policy);
      WithoutAllEmpty(rest);
    } else {
      DropsOnHead(next, rest, a, policy);
      var last := DropCalls(next, rest, policy)[a];
      assert next[a := last] == messages[a := last];
    }
  }

  lemma {:induction false} WithoutAllEmpty(gone: seq<Pending>)
    ensures WithoutAll([], gone) == []
    decreases |gone|
  {
    if gone != [] { WithoutAllEmpty(gone[1..]); }
  }

  function Named(gone: seq<Pending>): set<string> {
    set p <- gone :: p.id
  }

  function Others(calls: seq<ToolCall>, names: set<string>): seq<ToolCall>
    requires forall c <- calls :: c.id.Some?
  {
    if calls == [] then []
    else
      assert calls[0] in calls;
      (if calls[0].id.value in names then [] else [calls[0]]) + Others(calls[1..], names)
  }

  lemma {:induction false} WithoutIsOthers(calls: seq<ToolCall>, id: string, names: set<string>)
    requires forall c <- calls :: c.id.Some?
    ensures forall c <- Without(calls, id) :: c.id.Some?
    ensures Others(Without(calls, id), names) == Others(calls, names + {id})
  {
    if calls != [] {
      assert calls[0] in calls;
      WithoutIsOthers(calls[1..], id, names);
      var rest := Without(calls[1..], id);
      if calls[0].id == Some(id) {
        assert Without(calls, id) == rest;
      } else {
        assert Without(calls, id) == [calls[0]] + rest;
        assert ([calls[0]] + rest)[1..] == rest;
      }
    }
  }

  lemma {:induction false} OthersOfNone(calls: seq<ToolCall>)
    requires forall c <- calls :: c.id.Some?
    ensures Others(calls, {}) == calls
  {
    if calls != [] { OthersOfNone(calls[1..]); }
  }

  lemma {:induction false} WithoutAllIsOthers(calls: seq<ToolCall>, gone: seq<Pending>)
    requires forall c <- calls :: c.id.Some?
    ensures WithoutAll(calls, gone) == Others(calls, Named(gone))
    decreases |gone|
  {
    if gone == [] {
      assert Named(gone) == {};
      OthersOfNone(calls);
    } else {
      WithoutIsOthers(calls, gone[0].id, Named(gone[1..]));
      WithoutAllIsOthers(Without(calls, gone[0].id), gone[1..]);
      assert gone == [gone[0]] + gone[1..];
      assert Named(gone) == Named(gone[1..]) + {gone[0].id};
    }
  }

  lemma {:induction false} UnresolvedMembers(open: seq<Pending>)
    ensures forall p :: p in Unresolved(open) <==> p in open && !p.used
    ensures AllUsed(open) <==> Unresolved(open) == []
  {
    if open != [] {
      UnresolvedMembers(open[1..]);
      assert open == [open[0]] + open[1..];
      if AllUsed(open[1..]) && open[0].used { assert forall p <- open :: p.used; }
    }
  }

  lemma {:induction false} UnresolvedPastUsed(done: seq<Pending>, open: seq<Pending>)
    requires AllUsed(done)
    ensures Unresolved(done + open) == Unresolved(open)
  {
    if done == [] {
      assert done + open == open;
    } else {
      assert done[0] in done;
      assert (done + open)[1..] == done[1..] + open;
      UnresolvedPastUsed(done[1..], open);
    }
  }

  /** The pending entries of a message's calls, in order and with the calls' own ids. */
  predicate Aligned(calls: seq<ToolCall>, open: seq<Pending>, a: nat) {
    && |calls| == |open|
    && forall k :: 0 <= k < |calls| ==> calls[k].id == Some(open[k].id) && open[k].at == a
  }

  lemma SettleBlock(s: Scan, done: seq<Pending>, open: seq<Pending>, a: nat, calls: seq<ToolCall>, policy: Policy)
    requires a < |s.messages| && s.pending == done + open && AllUsed(done)
    requires s.messages[a].toolCalls == Some(calls) && Aligned(calls, open, a)
    ensures Settle(s, policy) == Scan(
              s.messages[a := RawHead(s.messages[a], calls, open, policy)], [],
              s.repair.(downgradedCalls := s.repair.downgradedCalls + RawDropped(calls, open)))
  {
    hide ContentWithoutCalls, DropCall, Unresolved, AllUsed;
    var m := s.messages[a];
    var gone := Unresolved(open);
    UnresolvedPastUsed(done, open);
    UnresolvedMembers(open);
    if gone == [] {
      assert s.messages[a := m] == s.messages;
    } else {
      UnresolvedAt(open, a);
      DropsOnHead(s.messages, gone, a, policy);
    }
  }

  lemma UnresolvedAt(open: seq<Pending>, a: nat)
    requires forall k :: 0 <= k < |open| ==> open[k].at == a
    ensures forall p <- Unresolved(open) :: p.at == a
  {
    UnresolvedMembers(open);
  }

  // ---- The first pass, block by block -----------------------------------------

  /** A boundary downgrades whatever is left open, whether it is a message or the end. */
  lemma BoundarySettles(s: Scan, i: nat, policy: Policy)
    requires i <= |s.messages| && (i < |s.messages| ==> s.messages[i].role != Tool)
    ensures !AllUsed(s.pending) || i == |s.messages| ==> ScanFrom(s, i, policy) == ScanFrom(Settle(s, policy), i, policy)
  {
    if !AllUsed(s.pending) && i < |s.messages| {
      var s' := Settle(s, policy);
      SettleKeepsRole(s.messages, Unresolved(s.pending), policy);
      assert ScanStep(s, i, policy) == ScanStep(s', i, policy);
    } else if i == |s.messages| {
      assert Settle(Settle(s, policy), policy) == Settle(s, policy);
    }
  }

  lemma {:induction false} SettleKeepsRole(messages: seq<Message>, gone: seq<Pending>, policy: Policy)
    ensures forall i :: 0 <= i < |messages| ==> DropCalls(messages, gone, policy)[i].role == messages[i].role
    decreases |gone|
  {
    if gone != [] {
      var p := gone[0];
      var next := if p.at < |messages| then messages[p.at := DropCall(messages[p.at], p.id, policy)] else messages;
      SettleKeepsRole(next, gone[1..], policy);
    }
  }

  lemma HeadIsAligned(m: Message, a: nat, tools: seq<Message>)
    requires IsHead(m)
    ensures Aligned(FillIds(m.toolCalls.value, a), OpenOf(m, a), a)
    ensures Aligned(FillIds(m.toolCalls.value, a), PairRun(OpenOf(m, a), tools).open, a)
  {
    PairRunKeeps(OpenOf(m, a), tools);
  }

  lemma AllUsedSum(done: seq<Pending>, open: seq<Pending>)
    ensures AllUsed(done + open) <==> AllUsed(done) && AllUsed(open)
  {
    assert forall p :: p in done + open <==> p in done || p in open;
  }

  lemma Assoc<T>(a: seq<T>, b: seq<T>, c: seq<T>)
    ensures a + (b + c) == a + b + c
  {
  }

  lemma PlusAssoc(a: Repair, b: Repair, c: Repair)
    ensures Plus(a, Plus(b, c)) == Plus(Plus(a, b), c)
    ensures Plus(a, NO_REPAIR) == a == Plus(NO_REPAIR, a)
  {
  }

  /** From a block boundary on, the first pass yields the block form. */
  lemma {:induction false} ScanIsBlocks(s: Scan, i: nat, policy: Policy)
    requires i <= |s.messages| && AllUsed(s.pending) && Placed(s.messages[i..])
    ensures ScanFrom(s, i, policy).messages == s.messages[..i] + RawBlocks(s.messages[i..], i, policy)
    ensures ScanFrom(s, i, policy).repair == Plus(s.repair, RawRepair(s.messages[i..], i))
    decreases |s.messages| - i
  {
    hide SyntheticId, DowngradeTool, RawBlock, RawBlockRepair, PlacedMessage, ScanFrom, ScanStep, Settle,
         PassThrough, PassRepair, RawBlocks, RawRepair, ToolsAfter, AllUsed, Plus;
    var before, rest := s.messages[..i], s.messages[i..];
    if i == |s.messages| {
      ScanEnd(s, policy);
      RawAtEnd(i, policy);
      assert rest == [] && before == s.messages;
      PlusAssoc(s.repair, NO_REPAIR, NO_REPAIR);
    } else if IsHead(s.messages[i]) {
      var tools := ToolsAfter(rest);
      var block := RawBlock(rest[0], tools, i, policy);
      var next := i + 1 + |tools|;
      var s3 := ScanHead(s, i, policy);
      RawAtHead(rest, i, policy);
      assert AfterRun(rest) == s.messages[next..];
      assert s3.messages[next..] == s.messages[next..] && s3.messages[..next] == before + block;
      ScanIsBlocks(s3, next, policy);
      Assoc(before, block, RawBlocks(s.messages[next..], next, policy));
      PlusAssoc(s.repair, RawBlockRepair(rest[0], tools, i), RawRepair(s.messages[next..], next));
    } else {
      var passed := PassThrough(rest[0], policy);
      var s1 := ScanStep(s, i, policy);
      ScanPassThrough(s, i, policy);
      ScanUnfold(s, i, policy);
      RawElsewhere(rest, i, policy);
      assert rest[1..] == s.messages[i + 1..];
      assert s1.messages[i + 1..] == s.messages[i + 1..] && s1.messages[..i + 1] == before + [passed];
      ScanIsBlocks(s1, i + 1, policy);
      Assoc(before, [passed], RawBlocks(s.messages[i + 1..], i + 1, policy));
      PlusAssoc(s.repair, PassRepair(rest[0]), RawRepair(s.messages[i + 1..], i + 1));
    }
  }

  lemma ScanEnd(s: Scan, policy: Policy)
    requires AllUsed(s.pending)
    ensures ScanFrom(s, |s.messages|, policy) == s.(pending := [])
  {
    UnresolvedMembers(s.pending);
  }

  lemma ScanPassThrough(s: Scan, i: nat, policy: Policy)
    requires i < |s.messages| && AllUsed(s.pending) && !IsHead(s.messages[i])
    ensures ScanStep(s, i, policy) == s.(
              messages := s.messages[i := PassThrough(s.messages[i], policy)],
              repair := Plus(s.repair, PassRepair(s.messages[i])))
  {
    hide DowngradeTool;
    var m := s.messages[i];
    assert s.messages[i := m] == s.messages;
    if m.role == Tool {
      SomeUnused(s.pending, None, 0);
      SomeUnused(s.pending, m.toolCallId, 0);
    }
  }

  /** A head opens its calls. */
  lemma ScanOpens(s: Scan, i: nat, policy: Policy)
    requires i < |s.messages| && AllUsed(s.pending) && IsHead(s.messages[i])
    ensures var m := s.messages[i];
            var calls := m.toolCalls.value;
            ScanStep(s, i, policy) == Scan(
              s.messages[i := m.(toolCalls := Some(FillIds(calls, i)))], s.pending + OpenOf(m, i),
              Plus(s.repair, NO_REPAIR.(syntheticIds := MissingIds(calls, |calls|))))
  {
    hide FillIds;
  }

  /** A boundary leaves the head with the calls that were answered. */
  lemma ScanCloses(s: Scan, done: seq<Pending>, open: seq<Pending>, a: nat, next: nat, policy: Policy)
    returns (s': Scan)
    requires a < next <= |s.messages| && s.pending == done + open && AllUsed(done)
    requires IsHead(s.messages[a]) && |s.messages[a].toolCalls.value| == |open|
    requires next < |s.messages| ==> s.messages[next].role != Tool
    requires IsHead(s.messages[a]) && Aligned(s.messages[a].toolCalls.value, open, a)
    ensures |s'.messages| == |s.messages| && AllUsed(s'.pending)
    ensures ScanFrom(s, next, policy) == ScanFrom(s', next, policy)
    ensures s'.messages == s.messages[a := RawHead(s.messages[a], s.messages[a].toolCalls.value, open, policy)]
    ensures s'.repair == s.repair.(downgradedCalls := s.repair.downgradedCalls + RawDropped(s.messages[a].toolCalls.value, open))
  {
    hide Settle, RawHead, AllUsed, Aligned, ScanFrom, WithoutAll;
    var calls := s.messages[a].toolCalls.value;
    SettleBlock(s, done, open, a, calls, policy);
    BoundarySettles(s, next, policy);
    AllUsedSum(done, open);
    UnresolvedMembers(open);
    if AllUsed(open) && next < |s.messages| {
      s' := s;
      PrunedUnchanged(s.messages[a], open, policy);
      assert s.messages[a := s.messages[a]] == s.messages;
    } else {
      s' := Settle(s, policy);
      UnresolvedMembers([]);
    }
  }

  lemma PrunedUnchanged(m: Message, open: seq<Pending>, policy: Policy)
    requires m.toolCalls.Some? && |m.toolCalls.value| == |open| && AllUsed(open)
    ensures RawHead(m, m.toolCalls.value, open, policy) == m && RawDropped(m.toolCalls.value, open) == 0
  {
    UnresolvedMembers(open);
  }

  /** A head and the tool messages behind it, before the boundary. */
  lemma ScanRun(s: Scan, i: nat, policy: Policy) returns (s2: Scan)
    requires i < |s.messages| && AllUsed(s.pending) && Placed(s.messages[i..]) && IsHead(s.messages[i])
    ensures var m := s.messages[i];
            var calls := m.toolCalls.value;
            var tools := ToolsAfter(s.messages[i..]);
            && s2.messages == Overwrite(
                 s.messages[i := m.(toolCalls := Some(FillIds(calls, i)))], i + 1, RawTools(OpenOf(m, i), tools, policy))
            && s2.pending == s.pending + PairRun(OpenOf(m, i), tools).open
            && s2.repair == Plus(Plus(s.repair, NO_REPAIR.(syntheticIds := MissingIds(calls, |calls|))),
                                 RunRepair(OpenOf(m, i), tools))
            && ScanFrom(s, i, policy) == ScanFrom(s2, i + 1 + |tools|, policy)
  {
    hide PairRun, ScanStep, AllUsed, RawTools, FillIds, PlacedMessage, RunRepair, MissingIds, ScanFrom, Overwrite;
    var m := s.messages[i];
    var rest := s.messages[i..];
    var tools := ToolsAfter(rest);
    ScanOpens(s, i, policy);
    ScanUnfold(s, i, policy);
    var s1 := ScanStep(s, i, policy);
    assert tools == s.messages[i + 1..i + 1 + |tools|] == s1.messages[i + 1..i + 1 + |tools|];
    assert forall k :: i < k < i + 1 + |tools| ==> s1.messages[k] == rest[k - i] && PlacedMessage(rest[k - i]);
    ToolSteps(s1, i + 1, |tools|, s.pending, OpenOf(m, i), policy);
    s2 := AfterTools(s1, i + 1, |tools|, s.pending, OpenOf(m, i), policy);
  }

  /** The state after the block of a head, whose entries are then all used. */
  lemma ScanHead(s: Scan, i: nat, policy: Policy) returns (s3: Scan)
    requires i < |s.messages| && AllUsed(s.pending) && Placed(s.messages[i..]) && IsHead(s.messages[i])
    ensures var tools := ToolsAfter(s.messages[i..]);
            var next := i + 1 + |tools|;
            && s3.messages == s.messages[..i] + RawBlock(s.messages[i], tools, i, policy) + s.messages[next..]
            && s3.repair == Plus(s.repair, RawBlockRepair(s.messages[i], tools, i))
            && AllUsed(s3.pending)
            && ScanFrom(s, i, policy) == ScanFrom(s3, next, policy)
  {
    hide PairRun, ScanStep, AllUsed, RawTools, FillIds, PlacedMessage, Unresolved, RunRepair, MissingIds,
         ScanFrom, Overwrite, ContentWithoutCalls, Aligned, OpenOf, RawHead, RawDropped;
    var m := s.messages[i];
    var rest := s.messages[i..];
    var calls := FillIds(m.toolCalls.value, i);
    var open := OpenOf(m, i);
    var tools := ToolsAfter(rest);
    var next := i + 1 + |tools|;
    assert rest[0] == m && PlacedMessage(rest[0]);
    assert next < |s.messages| ==> s.messages[next] == rest[1..][|tools|];
    var s2 := ScanRun(s, i, policy);
    HeadIsAligned(m, i, tools);
    var p := PairRun(open, tools);
    var pruned := RawHead(m, calls, p.open, policy);
    OverwriteHead(s.messages, i, m.(toolCalls := Some(calls)), RawTools(open, tools, policy), pruned);
    PrunedIgnoresCalls(m, calls, p.open, policy);
    s3 := ScanCloses(s2, s.pending, p.open, i, next, policy);
  }

  lemma PrunedIgnoresCalls(m: Message, calls: seq<ToolCall>, open: seq<Pending>, policy: Policy)
    requires |calls| == |open|
    ensures RawHead(m.(toolCalls := Some(calls)), calls, open, policy) == RawHead(m, calls, open, policy)
  {
  }
}
