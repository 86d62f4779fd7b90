/**
  What the canonicalizer is for: on every sound history the result pairs calls
  and tool messages one to one under globally unique ids, and a second run
  changes nothing.
*/
module ToolHistoryLaws {
  import opened Utf8Text
  import opened ToolHistory
  import opened ToolHistoryBlocks
  import opened ToolHistoryFirstPass
  import opened ToolHistoryRefinement
  import opened ToolHistorySettled

  // ---- One answer for each call, one call for each answer ---------------------

  predicate IsCall(out: seq<Message>, a: nat, k: nat) {
    a < |out| && out[a].toolCalls.Some? && k < |out[a].toolCalls.value|
  }

  /** Tool message j carries the id of call k of message a, with only tool messages between them. */
  predicate Answers(out: seq<Message>, j: nat, a: nat, k: nat) {
    && a < j < |out| && out[j].role == Tool && out[a].role == Assistant && IsCall(out, a, k)
    && out[j].toolCallId.Some? && out[j].toolCallId == out[a].toolCalls.value[k].id
    && forall i :: a < i < j ==> out[i].role == Tool
  }

  ghost predicate EveryResultHasACall(out: seq<Message>) {
    forall j :: 0 <= j < |out| && out[j].role == Tool ==> exists a: nat, k: nat :: Answers(out, j, a, k)
  }

  ghost predicate EveryCallHasOneResult(out: seq<Message>) {
    && (forall a: nat, k: nat :: IsCall(out, a, k) ==> exists j: nat :: Answers(out, j, a, k))
    && (forall a: nat, k: nat, i: nat, j: nat :: Answers(out, i, a, k) && Answers(out, j, a, k) ==> i == j)
  }

  ghost predicate IdsAreUnique(out: seq<Message>) {
    && (forall a: nat, k: nat :: IsCall(out, a, k) ==> out[a].toolCalls.value[k].id.Some?)
    && (forall a: nat, k: nat, b: nat, l: nat ::
          (IsCall(out, a, k) && IsCall(out, b, l)
           && out[a].toolCalls.value[k].id == out[b].toolCalls.value[l].id) ==> a == b && k == l)
  }

  ghost predicate WellPaired(out: seq<Message>) {
    EveryResultHasACall(out) && EveryCallHasOneResult(out) && IdsAreUnique(out)
  }

  function Elements(f: seq<nat>): (s: set<nat>)
    ensures forall x :: x in s <==> x in f
  {
    if f == [] then {} else {f[0]} + Elements(f[1..])
  }

  lemma AddOne(s: set<nat>, x: nat)
    requires x !in s
    ensures |{x} + s| == |s| + 1
  {
    assert {x} + s == s + {x};
  }

  lemma {:induction false} DistinctSize(f: seq<nat>)
    requires forall s, t :: 0 <= s < t < |f| ==> f[s] != f[t]
    ensures |Elements(f)| == |f|
  {
    if f != [] {
      var rest := f[1..];
      assert forall t :: 0 <= t < |rest| ==> rest[t] == f[1 + t];
      DistinctSize(rest);
      assert f[0] !in rest by { if f[0] in rest { var t :| 0 <= t < |rest| && rest[t] == f[0]; } }
      AddOne(Elements(rest), f[0]);
    }
  }

  function Below(n: nat): (s: set<nat>)
    ensures |s| == n && forall x: nat :: x in s <==> x < n
  {
    if n == 0 then {} else Below(n - 1) + {n - 1}
  }

  /** As many different places as there are: all of them. */
  lemma DistinctCovers(f: seq<nat>, k: nat)
    requires k < |f| && forall t :: 0 <= t < |f| ==> f[t] < |f|
    requires forall s, t :: 0 <= s < t < |f| ==> f[s] != f[t]
    ensures k in f
  {
    DistinctSize(f);
    var missing := Below(|f|) - Elements(f);
    assert Elements(f) <= Below(|f|);
    assert |missing| == 0;
    assert k in Below(|f|) && k !in missing;
  }

  lemma {:induction false} NameCalls(calls: seq<ToolCall>, tools: seq<Message>, n: nat) returns (f: seq<nat>)
    requires OneToOne(calls, tools) && n <= |tools|
    ensures |f| == n && forall t :: 0 <= t < n ==> f[t] < |calls| && calls[f[t]].id == tools[t].toolCallId
  {
    if n == 0 {
      f := [];
    } else {
      var before := NameCalls(calls, tools, n - 1);
      var id := tools[n - 1].toolCallId;
      var k :| 0 <= k < |calls| && calls[k].id == id;
      f := before + [k];
    }
  }

  /** In a settled block each call is named by a tool message. */
  lemma SettledCallNamed(head: Message, tools: seq<Message>, a: nat, k: nat) returns (t: nat)
    requires BlockSettled(head, tools, a) && k < |head.toolCalls.value|
    ensures t < |tools| && tools[t].toolCallId == head.toolCalls.value[k].id
  {
    hide SyntheticId;
    var f := NameCalls(head.toolCalls.value, tools, |tools|);
    DistinctCovers(f, k);
    t :| 0 <= t < |f| && f[t] == k;
  }

  // Positions of a list, seen from its first message and the tool run behind it.

  lemma AtTool(rest: seq<Message>, t: nat)
    requires rest != [] && t < |ToolsAfter(rest)|
    ensures rest[1 + t] == ToolsAfter(rest)[t] && rest[1 + t].role == Tool
  {
  }

  lemma AtRest(rest: seq<Message>, x: nat)
    requires rest != [] && x < |AfterRun(rest)|
    ensures rest[1 + |ToolsAfter(rest)| + x] == AfterRun(rest)[x]
  {
  }

  lemma AnswersInTail(rest: seq<Message>, tail: seq<Message>, by': nat, j: nat, a: nat, k: nat)
    requires by' + |tail| == |rest| && rest[by'..] == tail
    requires Answers(tail, j, a, k)
    ensures Answers(rest, by' + j, by' + a, k)
  {
    assert forall x :: 0 <= x < |tail| ==> tail[x] == rest[by' + x];
    forall i | by' + a < i < by' + j ensures rest[i].role == Tool {
      assert rest[i] == tail[i - by'];
    }
  }

  lemma AnswersInBlock(rest: seq<Message>, a: nat, t: nat, k: nat)
    requires rest != [] && IsHead(rest[0]) && BlockSettled(rest[0], ToolsAfter(rest), a)
    requires t < |ToolsAfter(rest)| && k < |rest[0].toolCalls.value|
    requires ToolsAfter(rest)[t].toolCallId == rest[0].toolCalls.value[k].id
    ensures Answers(rest, 1 + t, 0, k)
  {
    hide BlockSettled, SyntheticId, Blank;
    SettledToolId(rest[0], ToolsAfter(rest), a, t);
    AtTool(rest, t);
    forall i | 0 < i < 1 + t ensures rest[i].role == Tool {
      AtTool(rest, i - 1);
    }
  }

  lemma {:induction false} ResultHasCall(rest: seq<Message>, a: nat, x: nat) returns (h: nat, k: nat)
    requires Settled(rest, a) && x < |rest| && rest[x].role == Tool
    ensures Answers(rest, x, h, k)
    decreases |rest|
  {
    hide BlockSettled, Answers, AfterRun, ToolsAfter;
    if IsHead(rest[0]) {
      var tools, more := ToolsAfter(rest), AfterRun(rest);
      var n := 1 + |tools|;
      TailIsAfterRun(rest);
      if x < n {
        AtTool(rest, x - 1);
        h := 0;
        k := SettledToolNames(rest[0], tools, a, x - 1);
        AnswersInBlock(rest, a, x - 1, k);
      } else {
        AtRest(rest, x - n);
        h, k := ResultHasCall(more, a + n, x - n);
        AnswersInTail(rest, more, n, x - n, h, k);
        h := n + h;
      }
    } else {
      h, k := ResultHasCall(rest[1..], a + 1, x - 1);
      AnswersInTail(rest, rest[1..], 1, x - 1, h, k);
      h := 1 + h;
    }
  }

  lemma TailIsAfterRun(rest: seq<Message>)
    requires rest != []
    ensures rest[1 + |ToolsAfter(rest)|..] == AfterRun(rest)
  {
  }

  lemma SettledToolNames(head: Message, tools: seq<Message>, a: nat, t: nat) returns (k: nat)
    requires BlockSettled(head, tools, a) && t < |tools|
    ensures k < |head.toolCalls.value| && tools[t].toolCallId == head.toolCalls.value[k].id
  {
    hide SyntheticId;
    var id := tools[t].toolCallId;
    k :| 0 <= k < |head.toolCalls.value| && head.toolCalls.value[k].id == id;
  }

  lemma {:induction false} CallHasResult(rest: seq<Message>, a: nat, h: nat, k: nat) returns (j: nat)
    requires Settled(rest, a) && IsCall(rest, h, k)
    ensures Answers(rest, j, h, k)
    ensures rest[h].toolCalls.value[k].id == Some(SyntheticId(a + h, k, rest[h].toolCalls.value[k]))
    decreases |rest|
  {
    hide BlockSettled, Answers, AfterRun, ToolsAfter, SyntheticId;
    if IsHead(rest[0]) {
      var tools, more := ToolsAfter(rest), AfterRun(rest);
      var n := 1 + |tools|;
      TailIsAfterRun(rest);
      SettledParts(rest[0], tools, a);
      if h == 0 {
        var t := SettledCallNamed(rest[0], tools, a, k);
        AnswersInBlock(rest, a, t, k);
        j := 1 + t;
      } else if h < n {
        AtTool(rest, h - 1);
        assert false;
      } else {
        AtRest(rest, h - n);
        j := CallHasResult(more, a + n, h - n, k);
        AnswersInTail(rest, more, n, j, h - n, k);
        j := n + j;
      }
    } else {
      j := CallHasResult(rest[1..], a + 1, h - 1, k);
      AnswersInTail(rest, rest[1..], 1, j, h - 1, k);
      j := 1 + j;
    }
  }

  lemma AnswersFromTail(rest: seq<Message>, tail: seq<Message>, by': nat, j: nat, a: nat, k: nat)
    requires by' + |tail| == |rest| && rest[by'..] == tail && by' <= a
    requires Answers(rest, j, a, k)
    ensures Answers(tail, j - by', a - by', k)
  {
    assert forall x :: 0 <= x < |tail| ==> tail[x] == rest[by' + x];
    forall i | a - by' < i < j - by' ensures tail[i].role == Tool {
      assert tail[i] == rest[by' + i];
    }
  }

  lemma {:induction false} ResultIsOnly(rest: seq<Message>, a: nat, h: nat, k: nat, i: nat, j: nat)
    requires Settled(rest, a) && Answers(rest, i, h, k) && Answers(rest, j, h, k) && i < j
    ensures false
    decreases |rest|
  {
    hide BlockSettled, AfterRun, ToolsAfter, SyntheticId;
    if IsHead(rest[0]) {
      var tools, more := ToolsAfter(rest), AfterRun(rest);
      var n := 1 + |tools|;
      TailIsAfterRun(rest);
      if h == 0 {
        RunIsMaximal(rest, j);
        AtTool(rest, i - 1);
        AtTool(rest, j - 1);
        SettledToolsDiffer(rest[0], tools, a, i - 1, j - 1);
      } else if h < n {
        AtTool(rest, h - 1);
      } else {
        AnswersFromTail(rest, more, n, i, h, k);
        AnswersFromTail(rest, more, n, j, h, k);
        ResultIsOnly(more, a + n, h - n, k, i - n, j - n);
      }
    } else {
      AnswersFromTail(rest, rest[1..], 1, i, h, k);
      AnswersFromTail(rest, rest[1..], 1, j, h, k);
      ResultIsOnly(rest[1..], a + 1, h - 1, k, i - 1, j - 1);
    }
  }

  lemma SettledToolsDiffer(head: Message, tools: seq<Message>, a: nat, s: nat, t: nat)
    requires BlockSettled(head, tools, a) && s < t < |tools|
    ensures tools[s].toolCallId != tools[t].toolCallId
  {
    hide SyntheticId;
  }

  lemma RunIsMaximal(rest: seq<Message>, j: nat)
    requires rest != [] && 0 < j < |rest| && forall i :: 0 < i <= j ==> rest[i].role == Tool
    ensures j <= |ToolsAfter(rest)|
  {
    var tail := rest[1..];
    assert forall i :: 0 <= i < |tail| ==> tail[i] == rest[1 + i];
  }

  lemma SettledIsWellPaired(out: seq<Message>)
    requires Settled(out, 0)
    ensures WellPaired(out)
  {
    hide Settled, Answers, SyntheticId;
    forall j | 0 <= j < |out| && out[j].role == Tool ensures exists a: nat, k: nat :: Answers(out, j, a, k) {
      var a, k := ResultHasCall(out, 0, j);
    }
    forall a: nat, k: nat | IsCall(out, a, k) ensures exists j: nat :: Answers(out, j, a, k) {
      var j := CallHasResult(out, 0, a, k);
    }
    forall a: nat, k: nat, i: nat, j: nat | Answers(out, i, a, k) && Answers(out, j, a, k) ensures i == j {
      if i < j { ResultIsOnly(out, 0, a, k, i, j); }
      if j < i { ResultIsOnly(out, 0, a, k, j, i); }
    }
    SettledIdsUnique(out);
  }

  lemma SettledIdsUnique(out: seq<Message>)
    requires Settled(out, 0)
    ensures IdsAreUnique(out)
  {
    hide Settled, SyntheticId;
    forall a: nat, k: nat | IsCall(out, a, k) ensures out[a].toolCalls.value[k].id.Some? {
      var _ := CallHasResult(out, 0, a, k);
    }
    forall a: nat, k: nat, b: nat, l: nat | IsCall(out, a, k) && IsCall(out, b, l)
        && out[a].toolCalls.value[k].id == out[b].toolCalls.value[l].id
      ensures a == b && k == l
    {
      var _ := CallHasResult(out, 0, a, k);
      var _ := CallHasResult(out, 0, b, l);
      SyntheticIdInjective(a, k, out[a].toolCalls.value[k], b, l, out[b].toolCalls.value[l]);
    }
  }

  /** Calls and results of every sound history end up paired one to one, under unique ids. */
  lemma CanonicalIsWellPaired(messages: seq<Message>, policy: Policy)
    requires Placed(messages) && Sound(messages)
    ensures |Canonical(messages, policy)| == |messages|
    ensures Settled(Canonical(messages, policy), 0) && WellPaired(Canonical(messages, policy))
  {
    hide Placed, SoundFrom, Settled, CanonBlocks, Canonical, WellPaired;
    CanonicalIsBlocks(messages, policy);
    CanonBlocksSettled(messages, 0, policy);
    SettledIsWellPaired(Canonical(messages, policy));
  }

  /** A second run, under either policy, changes no message and has nothing to repair. */
  lemma CanonicalIsIdempotent(messages: seq<Message>, policy: Policy, again: Policy)
    requires Placed(messages) && Sound(messages)
    ensures var once := Canonical(messages, policy);
            Canonical(once, again) == once && CanonicalRepair(once, again) == NO_REPAIR
  {
    hide Placed, SoundFrom, Settled, Canonical, CanonicalRepair, WellPaired;
    CanonicalIsWellPaired(messages, policy);
    SettledIsFixed(Canonical(messages, policy), again);
  }

  /** The settled histories are exactly the tidy ones the canonicalizer leaves alone. */
  lemma FixedExactlyWhenSettled(messages: seq<Message>, policy: Policy)
    ensures Settled(messages, 0) <==> Tidy(messages) && Canonical(messages, policy) == messages
  {
    hide TidyFrom, Settled, Canonical, CanonicalRepair, WellPaired;
    if Settled(messages, 0) { SettledIsFixed(messages, policy); }
    if Tidy(messages) {
      TidyIsSound(messages);
      CanonicalIsWellPaired(messages, policy);
    }
  }
}
