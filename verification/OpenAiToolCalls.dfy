/**
  How openai.rs assembles tool calls from streamed deltas: whatever order the
  deltas come in, each index ends up with one call and with all of its arguments.
*/
module OpenAiToolCalls {
  import opened Utf8Text
  import opened DsmlGuardLaws
  import opened OpenAiStream

  /** The arguments of the first call with this index. */
  function ArgumentsAt(calls: seq<CollectedCall>, index: int): string {
    if calls == [] then "" else if calls[0].index == index then calls[0].arguments else ArgumentsAt(calls[1..], index)
  }

  function FragmentsFor(deltas: seq<CallDelta>, index: int): string {
    if deltas == [] then ""
    else (if IndexOf(deltas[0]) == index then Emitted(deltas[0].arguments) else "") + FragmentsFor(deltas[1..], index)
  }

  function Indices(calls: seq<CollectedCall>): seq<int> {
    if calls == [] then [] else [calls[0].index] + Indices(calls[1..])
  }

  function FirstSeen(seen: seq<int>, deltas: seq<CallDelta>): seq<int>
    decreases |deltas|
  {
    if deltas == [] then seen
    else FirstSeen(if IndexOf(deltas[0]) in seen then seen else seen + [IndexOf(deltas[0])], deltas[1..])
  }

  /** Every index keeps its fragments, in order and unmixed with those of other indices. */
  lemma {:induction false} ArgumentsAreTheFragments(calls: seq<CollectedCall>, deltas: seq<CallDelta>, index: int)
    ensures ArgumentsAt(MergeAll(calls, deltas), index) == ArgumentsAt(calls, index) + FragmentsFor(deltas, index)
    decreases |deltas|
  {
    hide MergeOne, ArgumentsAt;
    if deltas == [] {
      assert ArgumentsAt(calls, index) + "" == ArgumentsAt(calls, index);
    } else {
      ArgumentsAreTheFragments(MergeOne(calls, deltas[0]), deltas[1..], index);
      OneFragment(calls, deltas[0], index);
    }
  }

  lemma {:induction false} OneFragment(calls: seq<CollectedCall>, delta: CallDelta, index: int)
    ensures ArgumentsAt(MergeOne(calls, delta), index)
         == ArgumentsAt(calls, index) + (if IndexOf(delta) == index then Emitted(delta.arguments) else "")
  {
    var merged := MergeOne(calls, delta);
    if calls == [] {
      assert "" + Emitted(delta.arguments) == Emitted(delta.arguments);
    } else if calls[0].index == IndexOf(delta) {
      assert merged[1..] == calls[1..];
      assert ArgumentsAt(calls, index) + "" == ArgumentsAt(calls, index);
    } else {
      assert merged[1..] == MergeOne(calls[1..], delta);
      OneFragment(calls[1..], delta, index);
      assert calls[0].arguments + "" == calls[0].arguments;
    }
  }

  /** The calls come in the order in which their indices were first seen, one call an index. */
  lemma {:induction false} OneCallPerIndex(calls: seq<CollectedCall>, deltas: seq<CallDelta>)
    ensures Indices(MergeAll(calls, deltas)) == FirstSeen(Indices(calls), deltas)
    decreases |deltas|
  {
    hide MergeOne, Indices;
    if deltas != [] {
      OneCallPerIndex(MergeOne(calls, deltas[0]), deltas[1..]);
      OneIndex(calls, deltas[0]);
    }
  }

  lemma {:induction false} OneIndex(calls: seq<CollectedCall>, delta: CallDelta)
    ensures Indices(MergeOne(calls, delta))
         == if IndexOf(delta) in Indices(calls) then Indices(calls) else Indices(calls) + [IndexOf(delta)]
  {
    var merged := MergeOne(calls, delta);
    if calls == [] {
      assert merged[1..] == [];
      assert Indices(merged) == [IndexOf(delta)] + [];
    } else if calls[0].index == IndexOf(delta) {
      assert merged[1..] == calls[1..];
    } else {
      assert merged[1..] == MergeOne(calls[1..], delta);
      OneIndex(calls[1..], delta);
      assert IndexOf(delta) in Indices(calls) <==> IndexOf(delta) in Indices(calls[1..]);
    }
  }

  // ---- Id and name ------------------------------------------------------------

  /** The first call with this index. */
  function CallAt(calls: seq<CollectedCall>, index: int): Option<CollectedCall> {
    if calls == [] then None else if calls[0].index == index then Some(calls[0]) else CallAt(calls[1..], index)
  }

  /** The first id that came for the index, starting from one it already has. */
  function FirstId(id: Option<string>, deltas: seq<CallDelta>, index: int): Option<string>
    decreases |deltas|
  {
    if deltas == [] then id
    else FirstId(if id.None? && IndexOf(deltas[0]) == index then deltas[0].id else id, deltas[1..], index)
  }

  /** The last name that is not empty. */
  function LastName(name: string, deltas: seq<CallDelta>, index: int): string
    decreases |deltas|
  {
    if deltas == [] then name
    else
      var d := deltas[0];
      LastName(if IndexOf(d) == index && d.name.Some? && d.name.value != "" then d.name.value else name, deltas[1..], index)
  }

  function IdOf(call: Option<CollectedCall>): Option<string> {
    if call.Some? then call.value.id else None
  }

  function NameOf(call: Option<CollectedCall>): string {
    if call.Some? then call.value.name else ""
  }

  /** Every index ends up with the first id and the last non-empty name that came for it. */
  lemma {:induction false} IdAndNameOfIndex(calls: seq<CollectedCall>, deltas: seq<CallDelta>, index: int)
    ensures var call, before := CallAt(MergeAll(calls, deltas), index), CallAt(calls, index);
      && IdOf(call) == FirstId(IdOf(before), deltas, index)
      && NameOf(call) == LastName(NameOf(before), deltas, index)
    decreases |deltas|
  {
    hide MergeOne, CallAt;
    if deltas != [] {
      IdAndNameOfIndex(MergeOne(calls, deltas[0]), deltas[1..], index);
      OneIdAndName(calls, deltas[0], index);
    }
  }

  lemma {:induction false} OneIdAndName(calls: seq<CollectedCall>, d: CallDelta, index: int)
    ensures var call, before := CallAt(MergeOne(calls, d), index), CallAt(calls, index);
      && IdOf(call) == (if IdOf(before).None? && IndexOf(d) == index then d.id else IdOf(before))
      && NameOf(call) == (if IndexOf(d) == index && d.name.Some? && d.name.value != "" then d.name.value else NameOf(before))
  {
    var merged := MergeOne(calls, d);
    if calls == [] {
      assert merged[1..] == [];
    } else if calls[0].index == IndexOf(d) {
      assert merged[1..] == calls[1..];
    } else {
      assert merged[1..] == MergeOne(calls[1..], d);
      OneIdAndName(calls[1..], d, index);
    }
  }

  /** The call of an index, where there is one, has the arguments read for that index. */
  lemma {:induction false} ArgumentsOfCall(calls: seq<CollectedCall>, index: int)
    ensures CallAt(calls, index).Some? ==> CallAt(calls, index).value.arguments == ArgumentsAt(calls, index)
  {
    if calls != [] && calls[0].index != index { ArgumentsOfCall(calls[1..], index); }
  }

  /** With one call an index, each call is the call of its index. */
  lemma {:induction false} CallsAreByIndex(calls: seq<CollectedCall>, i: nat)
    requires i < |calls| && forall j :: 0 <= j < i ==> calls[j].index != calls[i].index
    ensures CallAt(calls, calls[i].index) == Some(calls[i])
  {
    if i > 0 {
      assert calls[1..][i - 1] == calls[i];
      CallsAreByIndex(calls[1..], i - 1);
    }
  }

  predicate OncePerIndex(calls: seq<CollectedCall>) {
    forall i, j :: 0 <= i < j < |calls| ==> calls[i].index != calls[j].index
  }

  lemma {:induction false} MergedOnce(calls: seq<CollectedCall>, deltas: seq<CallDelta>)
    requires OncePerIndex(calls)
    ensures OncePerIndex(MergeAll(calls, deltas))
    decreases |deltas|
  {
    hide MergeOne, OncePerIndex;
    if deltas != [] {
      OnceAfterOne(calls, deltas[0]);
      MergedOnce(MergeOne(calls, deltas[0]), deltas[1..]);
    }
  }

  lemma {:induction false} OnceAfterOne(calls: seq<CollectedCall>, d: CallDelta)
    requires OncePerIndex(calls)
    ensures OncePerIndex(MergeOne(calls, d))
    ensures forall c <- MergeOne(calls, d) :: c.index == IndexOf(d) || exists b <- calls :: b.index == c.index
  {
    var merged := MergeOne(calls, d);
    if calls != [] && calls[0].index != IndexOf(d) {
      var rest := MergeOne(calls[1..], d);
      OnceAfterOne(calls[1..], d);
      forall c | c in rest
        ensures c.index != calls[0].index
        ensures c.index == IndexOf(d) || exists b <- calls :: b.index == c.index
      {
        if c.index != IndexOf(d) {
          var b :| b in calls[1..] && b.index == c.index;
          assert b in calls;
        }
      }
      assert merged == [calls[0]] + rest;
      assert calls[0] in calls;
    } else if calls != [] {
      forall c | c in merged
        ensures c.index == IndexOf(d) || exists b <- calls :: b.index == c.index
      {
        if c != merged[0] { assert c in calls; }
      }
    }
  }

  /** A merged call has the arguments, the id and the name of its index. */
  lemma MergedCallIs(deltas: seq<CallDelta>, i: nat)
    requires i < |MergeAll([], deltas)|
    ensures var call := MergeAll([], deltas)[i];
      && call.arguments == FragmentsFor(deltas, call.index)
      && call.id == FirstId(None, deltas, call.index) && call.name == LastName("", deltas, call.index)
  {
    hide MergeAll, CallAt, FragmentsFor, FirstId, LastName, OncePerIndex;
    var calls := MergeAll([], deltas);
    var index := calls[i].index;
    assert OncePerIndex([]) by { NoneTwice(); }
    MergedOnce([], deltas);
    assert forall j :: 0 <= j < i ==> calls[j].index != calls[i].index by { OnceBefore(calls, i); }
    CallsAreByIndex(calls, i);
    ArgumentsOfCall(calls, index);
    ArgumentsAreTheFragments([], deltas, index);
    assert "" + FragmentsFor(deltas, index) == FragmentsFor(deltas, index);
    IdAndNameOfIndex([], deltas, index);
    assert CallAt([], index) == None by { NoCallAt(index); }
  }

  lemma NoCallAt(index: int)
    ensures CallAt([], index) == None
  {
  }

  lemma NoneTwice()
    ensures OncePerIndex([])
  {
  }

  lemma OnceBefore(calls: seq<CollectedCall>, i: nat)
    requires OncePerIndex(calls) && i < |calls|
    ensures forall j :: 0 <= j < i ==> calls[j].index != calls[i].index
  {
  }
}
