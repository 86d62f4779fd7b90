/**
  Exactly when the canonicalizer pairs calls and results one to one: on the sound
  histories and on no others. A padded alias or a repeated id leaves a result or a
  call on its own.
*/
module ToolHistoryExactness {
  import opened Utf8Text
  import opened ToolHistory
  import opened ToolHistoryBlocks
  import opened ToolHistoryFirstPass
  import opened ToolHistoryRefinement
  import opened ToolHistorySettled
  import opened ToolHistoryLaws

  // ---- The id map of the second pass ------------------------------------------

  /** The ids met in the first x messages of the list, whose first message is at position i. */
  function IdsUpTo(rest: seq<Message>, i: nat, ids: map<string, string>, x: nat): map<string, string>
    requires x <= |rest|
    decreases x
  {
    if x == 0 then ids else IdsAfter(IdsUpTo(rest, i, ids, x - 1), rest[x - 1], i + x - 1)
  }

  lemma {:induction false} IdsFromSecond(rest: seq<Message>, i: nat, ids: map<string, string>, x: nat)
    requires rest != [] && 0 < x <= |rest|
    ensures IdsUpTo(rest, i, ids, x) == IdsUpTo(rest[1..], i + 1, IdsAfter(ids, rest[0], i), x - 1)
    decreases x
  {
    hide IdsAfter;
    if x > 1 {
      IdsFromSecond(rest, i, ids, x - 1);
      assert rest[1..][x - 2] == rest[x - 1];
    } else {
      assert IdsUpTo(rest, i, ids, 0) == ids;
    }
  }

  lemma {:induction false} StabilizedAt(rest: seq<Message>, i: nat, ids: map<string, string>, x: nat)
    requires x < |rest|
    ensures StabilizeFrom(rest, i, ids)[x] == Stabilized(rest[x], i + x, IdsUpTo(rest, i, ids, x + 1))
    decreases |rest|
  {
    hide IdsAfter, Stabilized;
    IdsFromSecond(rest, i, ids, x + 1);
    if x == 0 {
      assert IdsUpTo(rest[1..], i + 1, IdsAfter(ids, rest[0], i), 0) == IdsAfter(ids, rest[0], i);
    } else {
      StabilizedAt(rest[1..], i + 1, IdsAfter(ids, rest[0], i), x - 1);
    }
  }

  /** All stable ids in the map belong to messages before the position. */
  ghost predicate Early(ids: map<string, string>, before: nat) {
    forall y :: y in ids ==> IsEarly(ids[y], before)
  }

  ghost predicate IsEarly(id: string, before: nat) {
    exists c: nat, q: nat, call: ToolCall :: c < before && id == SyntheticId(c, q, call)
  }

  lemma {:induction false} MapIdsEarly(ids: map<string, string>, calls: seq<ToolCall>, a: nat, n: nat)
    requires n <= |calls| && Early(ids, a)
    ensures Early(MapIds(ids, calls, a, n), a + 1)
  {
    hide SyntheticId, HasId;
    if n == 0 {
      forall y | y in ids
        ensures IsEarly(ids[y], a + 1)
      {
        assert IsEarly(ids[y], a);
      }
    } else {
      MapIdsEarly(ids, calls, a, n - 1);
      assert IsEarly(SyntheticId(a, n - 1, calls[n - 1]), a + 1);
    }
  }

  lemma {:induction false} IdsAreEarly(rest: seq<Message>, x: nat)
    requires x <= |rest|
    ensures Early(IdsUpTo(rest, 0, map[], x), x)
    decreases x
  {
    hide MapIds, IsEarly;
    if x > 0 {
      IdsAreEarly(rest, x - 1);
      var ids, m := IdsUpTo(rest, 0, map[], x - 1), rest[x - 1];
      if m.toolCalls.Some? {
        MapIdsEarly(ids, m.toolCalls.value, x - 1, |m.toolCalls.value|);
      } else {
        EarlyStays(ids, x - 1);
      }
    }
  }

  lemma EarlyStays(ids: map<string, string>, before: nat)
    requires Early(ids, before)
    ensures Early(ids, before + 1)
  {
    hide SyntheticId;
    forall y | y in ids
      ensures IsEarly(ids[y], before + 1)
    {
      assert IsEarly(ids[y], before);
    }
  }

  /** The call that gave an id its entry is the last one that has the id. */
  predicate LastWith(calls: seq<ToolCall>, q: nat, n: nat, id: string) {
    && q < n <= |calls| && calls[q].id == Some(id)
    && forall p :: q < p < n ==> calls[p].id != Some(id)
  }

  lemma {:induction false} MapIdsSource(ids: map<string, string>, calls: seq<ToolCall>, a: nat, n: nat, y: string)
    requires n <= |calls| && y in MapIds(ids, calls, a, n) && forall c <- calls :: HasId(c)
    ensures var id := MapIds(ids, calls, a, n)[y];
      (exists q: nat :: LastWith(calls, q, n, y) && id == SyntheticId(a, q, calls[q]))
      || (y in ids && id == ids[y])
  {
    hide SyntheticId, Blank;
    if n > 0 {
      assert calls[n - 1] in calls;
      if calls[n - 1].id == Some(y) {
        assert LastWith(calls, n - 1, n, y);
      } else {
        MapIdsSource(ids, calls, a, n - 1, y);
        var id := MapIds(ids, calls, a, n - 1)[y];
        if q: nat :| LastWith(calls, q, n - 1, y) && id == SyntheticId(a, q, calls[q]) {
          assert LastWith(calls, q, n, y);
        }
      }
    }
  }

  /** An id that is mapped to the stable id of a call is the id of that call, and of no later one. */
  lemma MappedToCall(ids: map<string, string>, calls: seq<ToolCall>, a: nat, r: nat, y: string)
    requires Early(ids, a) && r < |calls| && forall c <- calls :: HasId(c)
    requires y in MapIds(ids, calls, a, |calls|) && MapIds(ids, calls, a, |calls|)[y] == SyntheticId(a, r, calls[r])
    ensures LastWith(calls, r, |calls|, y)
  {
    hide SyntheticId, Blank, MapIds, HasId;
    MapIdsSource(ids, calls, a, |calls|, y);
    var id := SyntheticId(a, r, calls[r]);
    if q: nat :| LastWith(calls, q, |calls|, y) && id == SyntheticId(a, q, calls[q]) {
      SyntheticIdInjective(a, r, calls[r], a, q, calls[q]);
    } else {
      assert IsEarly(ids[y], a);
      var c: nat, q: nat, call: ToolCall :| c < a && ids[y] == SyntheticId(c, q, call);
      SyntheticIdInjective(c, q, call, a, r, calls[r]);
      assert false;
    }
  }

  // ---- Trimming twice ---------------------------------------------------------

  lemma TrimIsIdempotent(s: string)
    ensures Trim(Trim(s)) == Trim(s)
  {
    var t := TrimStart(s);
    TrimStartStops(s);
    TrimEndStops(t);
    FrontStays(t);
  }

  lemma {:induction false} TrimStartStops(s: string)
    ensures SpaceAtFront(TrimStart(s)) == 0
    decreases |s|
  {
    hide IsWhiteSpace;
    var n := SpaceAtFront(s);
    if n != 0 { TrimStartStops(s[n..]); }
  }

  lemma {:induction false} TrimEndStops(s: string)
    ensures SpaceAtBack(TrimEnd(s)) == 0 && |TrimEnd(s)| <= |s| && TrimEnd(s) == s[..|TrimEnd(s)|]
    decreases |s|
  {
    hide SpaceAtBack;
    if SpaceAtBack(s) != 0 {
      BackFits(s);
      var front := s[..|s| - SpaceAtBack(s)];
      TrimEndStops(front);
      assert front[..|TrimEnd(front)|] == s[..|TrimEnd(front)|];
    }
  }

  lemma BackFits(s: string)
    ensures SpaceAtBack(s) <= |s|
  {
    hide IsWhiteSpace;
  }

  lemma FrontStays(t: string)
    requires SpaceAtFront(t) == 0 && |TrimEnd(t)| <= |t| && TrimEnd(t) == t[..|TrimEnd(t)|]
    ensures SpaceAtFront(TrimEnd(t)) == 0
  {
    hide IsWhiteSpace, TrimEnd;
    var e := TrimEnd(t);
    if |e| >= 1 { assert e[..1] == t[..1]; }
    if |e| >= 2 { assert e[..2] == t[..2]; }
    if |e| >= 3 { assert e[..3] == t[..3]; }
  }

  // ---- One block whose result is well paired ----------------------------------

  /** The id a result has after the first pass. */
  function TakenId(raw: Option<string>, id: string): string {
    if AlreadyCarries(raw, id) then raw.value else id
  }

  /** The id it has after the second. */
  function FinalId(ids: map<string, string>, y: string): string {
    if y in ids then ids[y] else y
  }

  function ResultId(p: Pairing, tools: seq<Message>, ids: map<string, string>, t: nat): Option<string>
    requires |p.answers| == |tools| && t < |tools|
  {
    if p.answers[t].Some? && p.answers[t].value < |p.open|
    then Some(FinalId(ids, TakenId(tools[t].toolCallId, p.open[p.answers[t].value].id))) else None
  }

  /** The answered results of a block and its calls, paired one to one by their final ids. */
  ghost predicate BlockPaired(kept: seq<ToolCall>, p: Pairing, tools: seq<Message>, ids: map<string, string>, a: nat) {
    && |p.answers| == |tools|
    && (forall t: nat :: t < |tools| && p.answers[t].Some? ==> HasCall(kept, p, tools, ids, a, t))
    && (forall r: nat :: r < |kept| ==> HasResult(kept, p, tools, ids, a, r))
    && (forall s: nat, t: nat :: s < t < |tools| && ResultId(p, tools, ids, s).Some? ==>
          ResultId(p, tools, ids, s) != ResultId(p, tools, ids, t))
  }

  ghost predicate HasCall(kept: seq<ToolCall>, p: Pairing, tools: seq<Message>, ids: map<string, string>, a: nat, t: nat)
    requires |p.answers| == |tools| && t < |tools|
  {
    exists r: nat :: r < |kept| && ResultId(p, tools, ids, t) == Some(SyntheticId(a, r, kept[r]))
  }

  ghost predicate HasResult(kept: seq<ToolCall>, p: Pairing, tools: seq<Message>, ids: map<string, string>, a: nat, r: nat)
    requires |p.answers| == |tools| && r < |kept|
  {
    exists t: nat :: t < |tools| && ResultId(p, tools, ids, t) == Some(SyntheticId(a, r, kept[r]))
  }

  /** Different results name different calls, so there are at least as many calls. */
  lemma {:induction false} NameKept(kept: seq<ToolCall>, p: Pairing, tools: seq<Message>, ids: map<string, string>, a: nat, n: nat)
    returns (f: seq<nat>)
    requires BlockPaired(kept, p, tools, ids, a) && n <= |tools| && forall t :: 0 <= t < n ==> p.answers[t].Some?
    ensures |f| == n
    ensures forall t: nat :: t < n ==> f[t] < |kept| && ResultId(p, tools, ids, t) == Some(SyntheticId(a, f[t], kept[f[t]]))
    ensures forall s, t :: 0 <= s < t < n ==> f[s] != f[t]
  {
    hide SyntheticId, ResultId;
    if n == 0 {
      f := [];
    } else {
      var before := NameKept(kept, p, tools, ids, a, n - 1);
      assert HasCall(kept, p, tools, ids, a, n - 1);
      var r: nat :| r < |kept| && ResultId(p, tools, ids, n - 1) == Some(SyntheticId(a, r, kept[r]));
      f := before + [r];
      forall s: nat | s < n - 1
        ensures f[s] != f[n - 1]
      {
        assert ResultId(p, tools, ids, s) != ResultId(p, tools, ids, n - 1);
      }
    }
  }

  lemma DistinctFit(f: seq<nat>, m: nat)
    requires (forall t :: 0 <= t < |f| ==> f[t] < m) && forall s, t :: 0 <= s < t < |f| ==> f[s] != f[t]
    ensures |f| <= m
  {
    DistinctSize(f);
    forall x | x in Elements(f)
      ensures x in Below(m)
    {
      assert x in f;
    }
    SubsetSize(Elements(f), Below(m));
  }

  lemma {:induction false} SubsetSize<T>(a: set<T>, b: set<T>)
    requires a <= b
    ensures |a| <= |b|
  {
    assert b == a + (b - a);
    assert |a + (b - a)| == |a| + |b - a|;
  }

  lemma {:induction false} OthersAtMostKept(calls: seq<ToolCall>, open: seq<Pending>, names: set<string>, a: nat)
    requires Aligned(calls, open, a) && forall c <- calls :: c.id.Some?
    requires forall k :: 0 <= k < |open| && !open[k].used ==> open[k].id in names
    ensures |Others(calls, names)| <= |Kept(calls, open)|
    ensures |Others(calls, names)| == |Kept(calls, open)| ==> forall k :: 0 <= k < |open| && open[k].used ==> open[k].id !in names
  {
    if calls != [] {
      OthersAtMostKept(calls[1..], open[1..], names, a);
      assert calls[0].id == Some(open[0].id) && calls[0] in calls;
      if |Others(calls, names)| == |Kept(calls, open)| {
        forall k | 0 <= k < |open| && open[k].used
          ensures open[k].id !in names
        {
          if k > 0 { assert open[1..][k - 1] == open[k]; }
        }
      }
    }
  }

  /** The calls of the head that survive the first pass. */
  function Surviving(calls: seq<ToolCall>, open: seq<Pending>): seq<ToolCall> {
    WithoutAll(calls, Unresolved(open))
  }

  lemma AlignedHaveIds(calls: seq<ToolCall>, open: seq<Pending>, a: nat)
    requires Aligned(calls, open, a)
    ensures forall c <- calls :: c.id.Some?
  {
  }

  /** In a paired block no used entry shares its id with an unanswered one: exactly the used calls survive. */
  lemma UsedSurvive(calls: seq<ToolCall>, open: seq<Pending>, tools: seq<Message>, ids: map<string, string>, a: nat)
    requires Aligned(calls, PairRun(open, tools).open, a) && |calls| == |open|
    requires forall k :: 0 <= k < |open| ==> !open[k].used
    requires BlockPaired(Surviving(calls, PairRun(open, tools).open), PairRun(open, tools), tools, ids, a)
    ensures var p := PairRun(open, tools);
      && Surviving(calls, p.open) == Kept(calls, p.open)
      && forall j, k :: 0 <= j < |p.open| && 0 <= k < |p.open| && p.open[j].used && !p.open[k].used ==> p.open[j].id != p.open[k].id
  {
    hide PairRun, Kept, Others, WithoutAll, Unresolved, SyntheticId, BlockPaired, ResultId;
    var p := PairRun(open, tools);
    var gone := Unresolved(p.open);
    AlignedHaveIds(calls, p.open, a);
    WithoutAllIsOthers(calls, gone);
    UnresolvedMembers(p.open);
    forall k | 0 <= k < |p.open| && !p.open[k].used
      ensures p.open[k].id in Named(gone)
    {
      assert p.open[k] in gone;
    }
    var n := AnsweredFirst(calls, open, tools);
    var f := NameKept(Surviving(calls, p.open), p, tools, ids, a, n);
    DistinctFit(f, |Surviving(calls, p.open)|);
    OthersAtMostKept(calls, p.open, Named(gone), a);
    forall k | 0 <= k < |calls|
      ensures calls[k].id.Some? && (p.open[k].used <==> calls[k].id.value !in Named(gone))
    {
      assert calls[k].id == Some(p.open[k].id);
    }
    KeptIsOthers(calls, p.open, Named(gone));
  }

  // ---- A paired block is sound ------------------------------------------------

  lemma {:induction false} MapIdsHolds(ids: map<string, string>, calls: seq<ToolCall>, a: nat, n: nat, q: nat)
    requires q < n <= |calls| && HasId(calls[q])
    ensures calls[q].id.value in MapIds(ids, calls, a, n)
  {
    hide SyntheticId, Blank;
    if q < n - 1 { MapIdsHolds(ids, calls, a, n - 1, q); }
  }

  /** The parts of a block: its calls, their entries, and the id map behind its head. */
  datatype Parts = Parts(calls: seq<ToolCall>, open: seq<Pending>, tools: seq<Message>, before: map<string, string>, a: nat)

  function PairingOf(b: Parts): (p: Pairing)
    ensures |p.open| == |b.open| && |p.answers| == |b.tools|
  {
    PairRun(b.open, b.tools)
  }

  function KeptOf(b: Parts): seq<ToolCall>
    requires |b.calls| == |b.open|
  {
    Kept(b.calls, PairingOf(b).open)
  }

  function IdsOf(b: Parts): map<string, string>
    requires |b.calls| == |b.open|
  {
    MapIds(b.before, KeptOf(b), b.a, |KeptOf(b)|)
  }

  ghost predicate GoodParts(b: Parts) {
    && Aligned(b.calls, PairingOf(b).open, b.a) && |b.calls| == |b.open|
    && (forall c <- b.calls :: HasId(c))
    && (forall k :: 0 <= k < |b.open| ==> !b.open[k].used)
    && Early(b.before, b.a)
    && BlockPaired(KeptOf(b), PairingOf(b), b.tools, IdsOf(b), b.a)
  }

  lemma KeptHaveIds(b: Parts)
    requires |b.calls| == |b.open| && forall c <- b.calls :: HasId(c)
    ensures forall c <- KeptOf(b) :: HasId(c)
  {
    hide HasId, PairingOf, Kept;
    KeptMembers(b.calls, PairingOf(b).open);
  }

  /** A used entry's call is kept, under the entry's id, which the map has. */
  lemma UsedIsMapped(b: Parts, k: nat)
    requires GoodParts(b) && k < |b.open| && PairingOf(b).open[k].used
    ensures var p := PairingOf(b);
      && Rank(p.open, k) < |KeptOf(b)| && KeptOf(b)[Rank(p.open, k)] == b.calls[k]
      && b.calls[k].id == Some(p.open[k].id) && p.open[k].id in IdsOf(b)
  {
    hide PairingOf, Kept, MapIds, BlockPaired, Early, HasId;
    var p := PairingOf(b);
    KeptAtRank(b.calls, p.open, k);
    KeptHaveIds(b);
    assert b.calls[k] in b.calls;
    MapIdsHolds(b.before, KeptOf(b), b.a, |KeptOf(b)|, Rank(p.open, k));
  }

  /** The entry a result took. */
  predicate Took(b: Parts, t: nat, k: nat) {
    t < |b.tools| && PairingOf(b).answers[t] == Some(k) && k < |b.open| && PairingOf(b).open[k].used
  }

  function Taken(b: Parts, t: nat, k: nat): string
    requires Took(b, t, k)
  {
    TakenId(b.tools[t].toolCallId, PairingOf(b).open[k].id)
  }

  lemma TookUsed(b: Parts, t: nat) returns (k: nat)
    requires t < |b.tools| && PairingOf(b).answers[t].Some?
    ensures Took(b, t, k)
  {
    hide PairRun;
    PairRunInjective(b.open, b.tools);
    k := PairingOf(b).answers[t].value;
  }

  lemma TookDiffer(b: Parts, s: nat, t: nat, k: nat)
    requires Took(b, s, k) && Took(b, t, k)
    ensures s == t
  {
    hide PairRun;
    PairRunInjective(b.open, b.tools);
  }

  /** A result that ends under the stable id of a kept call was taken under that call's own id. */
  lemma TakenIsCallId(b: Parts, t: nat, k: nat, r: nat)
    requires GoodParts(b) && Took(b, t, k) && r < |KeptOf(b)|
    requires ResultId(PairingOf(b), b.tools, IdsOf(b), t) == Some(SyntheticId(b.a, r, KeptOf(b)[r]))
    ensures LastWith(KeptOf(b), r, |KeptOf(b)|, Taken(b, t, k))
  {
    hide PairingOf, Kept, MapIds, BlockPaired, Early, HasId, SyntheticId, Aligned, Trim, Blank;
    var y := Taken(b, t, k);
    var id := SyntheticId(b.a, r, KeptOf(b)[r]);
    UsedIsMapped(b, k);
    KeptHaveIds(b);
    SyntheticIdClean(b.a, r, KeptOf(b)[r]);
    CleanIsTrimmed(id);
    assert y in IdsOf(b);
    MappedToCall(b.before, KeptOf(b), b.a, r, y);
  }

  lemma ResultOf(b: Parts, r: nat) returns (t: nat, k: nat)
    requires GoodParts(b) && r < |KeptOf(b)|
    ensures Took(b, t, k) && LastWith(KeptOf(b), r, |KeptOf(b)|, Taken(b, t, k))
  {
    hide PairingOf, Kept, MapIds, Early, HasId, SyntheticId, Aligned, Took;
    assert HasResult(KeptOf(b), PairingOf(b), b.tools, IdsOf(b), b.a, r);
    t :| t < |b.tools| && ResultId(PairingOf(b), b.tools, IdsOf(b), t) == Some(SyntheticId(b.a, r, KeptOf(b)[r]));
    k := TookUsed(b, t);
    TakenIsCallId(b, t, k, r);
  }

  /** Two used entries never share an id: the earlier call would stay without a result. */
  lemma UsedDiffer(b: Parts, j: nat, k: nat)
    requires GoodParts(b) && j < k < |b.open| && PairingOf(b).open[j].used && PairingOf(b).open[k].used
    ensures PairingOf(b).open[j].id != PairingOf(b).open[k].id
  {
    hide PairingOf, Kept, MapIds, Early, HasId, SyntheticId, Aligned, Took, BlockPaired, GoodParts, IdsOf, Taken;
    var p := PairingOf(b);
    UsedIsMapped(b, j);
    UsedIsMapped(b, k);
    RankRises(p.open, j, k);
    var t, l := ResultOf(b, Rank(p.open, j));
  }

  /** No answer is a padded alias: the call it takes would stay without a result. */
  lemma NoAlias(b: Parts, t: nat, k: nat)
    requires GoodParts(b) && Took(b, t, k)
    ensures !PaddedAlias(b.tools[t].toolCallId, PairingOf(b).open[k].id)
  {
    hide PairingOf, Kept, MapIds, Early, HasId, SyntheticId, Aligned, BlockPaired, GoodParts, IdsOf, Trim, Blank;
    var p := PairingOf(b);
    var raw, id := b.tools[t].toolCallId, p.open[k].id;
    UsedIsMapped(b, k);
    var s, l := ResultOf(b, Rank(p.open, k));
    assert Taken(b, s, l) == id;
    if PaddedAlias(raw, id) {
      TrimIsIdempotent(raw.value);
      if l < k { UsedDiffer(b, l, k); }
      if k < l { UsedDiffer(b, k, l); }
      if l == k { TookDiffer(b, s, t, k); }
    }
  }

  lemma PartsOf(head: Message, tools: seq<Message>, before: map<string, string>, a: nat) returns (b: Parts)
    requires IsHead(head) && Early(before, a)
    requires var calls, p := FillIds(head.toolCalls.value, a), PairRun(OpenOf(head, a), tools);
      var kept := Surviving(calls, p.open);
      BlockPaired(kept, p, tools, MapIds(before, kept, a, |kept|), a)
    ensures b.open == OpenOf(head, a) && b.tools == tools && GoodParts(b)
    ensures forall j, k :: 0 <= j < |b.open| && 0 <= k < |b.open| && PairingOf(b).open[j].used && !PairingOf(b).open[k].used ==>
      PairingOf(b).open[j].id != PairingOf(b).open[k].id
  {
    hide FillIds, OpenOf, PairRun, Kept, Surviving, MapIds, Early, BlockPaired, Aligned, HasId;
    var calls, open := FillIds(head.toolCalls.value, a), OpenOf(head, a);
    b := Parts(calls, open, tools, before, a);
    HeadIsAligned(head, a, tools);
    OpenIsFresh(head, a);
    FilledHaveIds(head.toolCalls.value, a);
    var p := PairRun(open, tools);
    var kept := Surviving(calls, p.open);
    UsedSurvive(calls, open, tools, MapIds(before, kept, a, |kept|), a);
  }

  lemma BlockIsSound(head: Message, tools: seq<Message>, before: map<string, string>, a: nat)
    requires IsHead(head) && Early(before, a)
    requires var calls, p := FillIds(head.toolCalls.value, a), PairRun(OpenOf(head, a), tools);
      var kept := Surviving(calls, p.open);
      BlockPaired(kept, p, tools, MapIds(before, kept, a, |kept|), a)
    ensures SoundBlock(head, tools, a)
  {
    hide FillIds, OpenOf, PairRun, Surviving, MapIds, Early, BlockPaired, GoodParts, PaddedAlias;
    var b := PartsOf(head, tools, before, a);
    var p := PairingOf(b);
    forall j, k | 0 <= j < |p.open| && 0 <= k < |p.open| && j != k && p.open[j].used
      ensures p.open[j].id != p.open[k].id
    {
      if p.open[k].used {
        if j < k { UsedDiffer(b, j, k); } else { UsedDiffer(b, k, j); }
      }
    }
    forall t | 0 <= t < |tools|
      ensures AnswersPlainly(p.open, tools[t], p.answers[t])
    {
      if p.answers[t].Some? {
        var k := TookUsed(b, t);
        NoAlias(b, t, k);
      }
    }
  }

  // ---- Where a block is in the result -----------------------------------------

  /** How many messages the first block or single message of a list takes up. */
  function StepLength(rest: seq<Message>): (n: nat)
    requires rest != []
    ensures 1 <= n <= |rest|
  {
    if IsHead(rest[0]) then 1 + |ToolsAfter(rest)| else 1
  }

  lemma RawTail(rest: seq<Message>, a: nat, policy: Policy)
    requires rest != []
    ensures RawBlocks(rest, a, policy)[StepLength(rest)..]
         == RawBlocks(rest[StepLength(rest)..], a + StepLength(rest), policy)
  {
    hide RawBlocks;
    if IsHead(rest[0]) { RawTailOfBlock(rest, a, policy); } else { RawTailOfOne(rest, a, policy); }
  }

  lemma RawTailOfBlock(rest: seq<Message>, a: nat, policy: Policy)
    requires rest != [] && IsHead(rest[0])
    ensures var n := 1 + |ToolsAfter(rest)|;
      RawBlocks(rest, a, policy)[n..] == RawBlocks(rest[n..], a + n, policy)
  {
    hide RawBlock, RawBlocks, ToolsAfter, AfterRun;
    var tools, n := ToolsAfter(rest), 1 + |ToolsAfter(rest)|;
    RawAtHead(rest, a, policy);
    TailIsAfterRun(rest);
    Behind(RawBlock(rest[0], tools, a, policy), RawBlocks(AfterRun(rest), a + n, policy));
  }

  lemma RawTailOfOne(rest: seq<Message>, a: nat, policy: Policy)
    requires rest != [] && !IsHead(rest[0])
    ensures RawBlocks(rest, a, policy)[1..] == RawBlocks(rest[1..], a + 1, policy)
  {
    hide RawBlocks, PassThrough;
    RawElsewhere(rest, a, policy);
    Behind([PassThrough(rest[0], policy)], RawBlocks(rest[1..], a + 1, policy));
  }

  lemma Behind<T>(front: seq<T>, back: seq<T>)
    ensures (front + back)[|front|..] == back && (front + back)[..|front|] == front
  {
  }

  lemma RawFront(rest: seq<Message>, a: nat, policy: Policy)
    requires rest != []
    ensures RawBlocks(rest, a, policy)[..StepLength(rest)]
         == if IsHead(rest[0]) then RawBlock(rest[0], ToolsAfter(rest), a, policy) else [PassThrough(rest[0], policy)]
  {
    hide RawBlock, RawBlocks, ToolsAfter, AfterRun, PassThrough;
    if IsHead(rest[0]) { RawAtHead(rest, a, policy); } else { RawElsewhere(rest, a, policy); }
  }

  lemma InsideAreTools(rest: seq<Message>, x: nat)
    requires rest != [] && 0 < x < StepLength(rest)
    ensures rest[x].role == Tool
  {
    AtTool(rest, x - 1);
  }

  lemma {:induction false} RawBlockAt(rest: seq<Message>, a: nat, policy: Policy, x: nat)
    requires x < |rest| && IsHead(rest[x])
    ensures x + 1 + |ToolsAfter(rest[x..])| <= |rest|
    ensures RawBlocks(rest, a, policy)[x..x + 1 + |ToolsAfter(rest[x..])|]
         == RawBlock(rest[x], ToolsAfter(rest[x..]), a + x, policy)
    decreases |rest|
  {
    hide RawBlock, RawBlocks, ToolsAfter, StepLength;
    var n := StepLength(rest);
    var whole := RawBlocks(rest, a, policy);
    if x == 0 {
      assert rest[0..] == rest;
      RawFront(rest, a, policy);
      assert n == 1 + |ToolsAfter(rest)| by { HeadLength(rest); }
    } else if x < n {
      InsideAreTools(rest, x);
    } else {
      var tail := rest[n..];
      assert tail[x - n..] == rest[x..] && tail[x - n] == rest[x];
      RawBlockAt(tail, a + n, policy, x - n);
      RawTail(rest, a, policy);
      var m := 1 + |ToolsAfter(rest[x..])|;
      assert x - n + m <= |tail|;
      SliceShift(whole, n, x, x + m);
    }
  }

  lemma HeadLength(rest: seq<Message>)
    requires rest != [] && IsHead(rest[0])
    ensures StepLength(rest) == 1 + |ToolsAfter(rest)|
  {
  }

  lemma SliceShift<T>(whole: seq<T>, n: nat, i: nat, j: nat)
    requires n <= i <= j <= |whole|
    ensures whole[n..][i - n..j - n] == whole[i..j]
  {
  }

  /** No message becomes a tool message. */
  lemma {:induction false} RawRoles(rest: seq<Message>, a: nat, policy: Policy, x: nat)
    requires x < |rest| && RawBlocks(rest, a, policy)[x].role == Tool
    ensures rest[x].role == Tool
    decreases |rest|
  {
    hide RawBlock, RawBlocks, ToolsAfter, StepLength;
    var n := StepLength(rest);
    var whole := RawBlocks(rest, a, policy);
    if x == 0 {
      RawFront(rest, a, policy);
      assert whole[0] == whole[..n][0];
      FrontRole(rest, a, policy);
    } else if x < n {
      InsideAreTools(rest, x);
    } else {
      RawTail(rest, a, policy);
      assert whole[x] == whole[n..][x - n];
      RawRoles(rest[n..], a + n, policy, x - n);
    }
  }

  lemma FrontRole(rest: seq<Message>, a: nat, policy: Policy)
    requires rest != []
    ensures IsHead(rest[0]) ==> RawBlock(rest[0], ToolsAfter(rest), a, policy)[0].role == Assistant
    ensures PassThrough(rest[0], policy).role != Tool
  {
    hide RawTools, ToolsAfter, PairRun, WithoutAll;
  }

  // ---- Well-paired results come from sound histories only ---------------------

  /** A block of a history, and what the two passes make of it. */
  datatype Place = Place(messages: seq<Message>, policy: Policy, a: nat)

  predicate AtHead(w: Place) {
    w.a < |w.messages| && IsHead(w.messages[w.a]) && Placed(w.messages)
  }

  function Head(w: Place): Message
    requires AtHead(w)
    ensures IsHead(Head(w))
  {
    w.messages[w.a]
  }

  function ToolsAt(w: Place): (tools: seq<Message>)
    requires AtHead(w)
    ensures w.a + 1 + |tools| <= |w.messages|
  {
    ToolsAfter(w.messages[w.a..])
  }

  function PairingAt(w: Place): (p: Pairing)
    requires AtHead(w)
    ensures |p.answers| == |ToolsAt(w)|
  {
    PairRun(OpenOf(Head(w), w.a), ToolsAt(w))
  }

  function SurvivingAt(w: Place): seq<ToolCall>
    requires AtHead(w)
  {
    Surviving(FillIds(Head(w).toolCalls.value, w.a), PairingAt(w).open)
  }

  function RawAt(w: Place): (raw: seq<Message>)
    ensures |raw| == |w.messages|
  {
    RawBlocks(w.messages, 0, w.policy)
  }

  function OutAt(w: Place): (out: seq<Message>)
    ensures |out| == |w.messages|
  {
    StabilizeFrom(RawAt(w), 0, map[])
  }

  function BeforeAt(w: Place): map<string, string>
    requires AtHead(w)
  {
    IdsUpTo(RawAt(w), 0, map[], w.a)
  }

  function MapAt(w: Place): map<string, string>
    requires AtHead(w)
  {
    MapIds(BeforeAt(w), SurvivingAt(w), w.a, |SurvivingAt(w)|)
  }

  lemma RawHeadAt(w: Place)
    requires AtHead(w)
    ensures RawAt(w)[w.a].role == Assistant
    ensures SurvivingAt(w) != [] ==> RawAt(w)[w.a].toolCalls == Some(SurvivingAt(w))
    ensures IdsAfter(BeforeAt(w), RawAt(w)[w.a], w.a) == MapAt(w)
  {
    hide RawBlocks, ToolsAfter, PairRun, OpenOf, FillIds, WithoutAll, Unresolved, RawTools, MapIds, IdsUpTo, AllUsed;
    RawBlockAt(w.messages, 0, w.policy, w.a);
    var raw := RawAt(w);
    assert raw[w.a] == raw[w.a..w.a + 1 + |ToolsAt(w)|][0];
    var calls, open := FillIds(Head(w).toolCalls.value, w.a), PairingAt(w).open;
    assert raw[w.a] == RawHead(Head(w), calls, open, w.policy);
    UnresolvedMembers(open);
    NoneGone(calls);
    NoneMapped(BeforeAt(w), w.a);
  }

  lemma NoneGone(calls: seq<ToolCall>)
    ensures WithoutAll(calls, []) == calls
  {
  }

  lemma NoneMapped(ids: map<string, string>, a: nat)
    ensures MapIds(ids, [], a, 0) == ids
  {
  }

  lemma RawToolAt(w: Place, t: nat)
    requires AtHead(w) && t < |ToolsAt(w)|
    ensures ToolsAt(w)[t] == w.messages[w.a + 1 + t] && ToolsAt(w)[t].role == Tool && ToolsAt(w)[t].toolCalls.None?
    ensures RawAt(w)[w.a + 1 + t] == RawTool(ToolsAt(w)[t], PairingAt(w).answers[t], OpenOf(Head(w), w.a), w.policy)
  {
    hide RawBlocks, ToolsAfter, PairRun, OpenOf, FillIds, WithoutAll, Unresolved, RawTools, RawTool, RawHead;
    RawBlockAt(w.messages, 0, w.policy, w.a);
    var raw, tools := RawAt(w), ToolsAt(w);
    assert raw[w.a + 1 + t] == raw[w.a..w.a + 1 + |tools|][1 + t];
    RawToolsAt(OpenOf(Head(w), w.a), tools, w.policy, t);
    var rest := w.messages[w.a..];
    AtTool(rest, t);
    assert rest[1 + t] == w.messages[w.a + 1 + t];
    assert PlacedMessage(w.messages[w.a + 1 + t]);
  }

  /** The map does not change in a run of tool messages. */
  lemma {:induction false} MapStays(w: Place, t: nat)
    requires AtHead(w) && t <= |ToolsAt(w)|
    ensures IdsUpTo(RawAt(w), 0, map[], w.a + 1 + t) == MapAt(w)
  {
    hide RawBlocks, ToolsAfter, PairRun, OpenOf, SurvivingAt, MapIds, RawTool, ToolsAt, MapAt, BeforeAt, PairingAt;
    if t == 0 {
      RawHeadAt(w);
      assert BeforeAt(w) == IdsUpTo(RawAt(w), 0, map[], w.a) by { BeforeIs(w); }
    } else {
      MapStays(w, t - 1);
      RawToolAt(w, t - 1);
      RawToolCalls(ToolsAt(w)[t - 1], PairingAt(w).answers[t - 1], OpenOf(Head(w), w.a), w.policy);
    }
  }

  lemma BeforeIs(w: Place)
    requires AtHead(w)
    ensures BeforeAt(w) == IdsUpTo(RawAt(w), 0, map[], w.a)
  {
  }

  lemma RawToolCalls(m: Message, answer: Option<nat>, open: seq<Pending>, policy: Policy)
    requires m.toolCalls.None? && m.role == Tool
    ensures RawTool(m, answer, open, policy).toolCalls.None?
    ensures RawTool(m, answer, open, policy).role == if answer.Some? && answer.value < |open| then Tool else User
    ensures answer.Some? && answer.value < |open| ==>
      RawTool(m, answer, open, policy).toolCallId == Some(TakenId(m.toolCallId, open[answer.value].id))
  {
  }

  lemma OutHeadAt(w: Place)
    requires AtHead(w)
    ensures OutAt(w)[w.a].role == Assistant
    ensures SurvivingAt(w) != [] ==>
      OutAt(w)[w.a].toolCalls == Some(StableCalls(SurvivingAt(w), w.a))
  {
    hide RawBlocks, StabilizeFrom, SurvivingAt, StableCalls, IdsUpTo, MapAt, BeforeAt, IdsAfter;
    RawHeadAt(w);
    StabilizedAt(RawAt(w), 0, map[], w.a);
  }

  lemma OutToolAt(w: Place, t: nat)
    requires AtHead(w) && t < |ToolsAt(w)|
    ensures OutAt(w)[w.a + 1 + t].role == (if PairingAt(w).answers[t].Some? then Tool else User)
    ensures OutAt(w)[w.a + 1 + t].toolCallId == ResultId(PairingAt(w), ToolsAt(w), MapAt(w), t)
         || PairingAt(w).answers[t].None?
  {
    hide RawBlocks, StabilizeFrom, SurvivingAt, ToolsAt, MapAt, BeforeAt, PairRun, OpenOf, RawTool, TakenId, IdsUpTo;
    RawToolAt(w, t);
    MapStays(w, t + 1);
    StabilizedAt(RawAt(w), 0, map[], w.a + 1 + t);
    var open := OpenOf(Head(w), w.a);
    PairRunInjective(open, ToolsAt(w));
    PairRunKeeps(open, ToolsAt(w));
    RawToolCalls(ToolsAt(w)[t], PairingAt(w).answers[t], open, w.policy);
  }

  /** Behind the run comes no tool message. */
  lemma RunEnds(w: Place)
    requires AtHead(w) && w.a + 1 + |ToolsAt(w)| < |w.messages|
    ensures OutAt(w)[w.a + 1 + |ToolsAt(w)|].role != Tool
  {
    hide RawBlocks, StabilizeFrom, IdsUpTo;
    var x := w.a + 1 + |ToolsAt(w)|;
    var rest := w.messages[w.a..];
    assert w.messages[x] == rest[1..][|ToolsAt(w)|];
    StabilizedAt(RawAt(w), 0, map[], x);
    if RawAt(w)[x].role == Tool { RawRoles(w.messages, 0, w.policy, x); }
  }

  /** The calls of the head that a result of its run can answer are all it answers. */
  lemma AnswersOwnHead(w: Place, t: nat, h: nat, r: nat)
    requires AtHead(w) && t < |ToolsAt(w)| && PairingAt(w).answers[t].Some?
    requires Answers(OutAt(w), w.a + 1 + t, h, r)
    ensures h == w.a && r < |SurvivingAt(w)|
    ensures ResultId(PairingAt(w), ToolsAt(w), MapAt(w), t) == Some(SyntheticId(w.a, r, SurvivingAt(w)[r]))
  {
    hide OutAt, SurvivingAt, ToolsAt, MapAt, PairRun, SyntheticId, ResultId;
    OutHeadAt(w);
    OutToolAt(w, t);
    if h > w.a {
      AnsweredBefore(w, h - w.a - 1, t);
      OutToolAt(w, h - w.a - 1);
    }
    if SurvivingAt(w) != [] {
      StableAt(SurvivingAt(w), w.a, r);
    } else {
      NoCalls(w);
    }
  }

  lemma AnsweredBefore(w: Place, s: nat, t: nat)
    requires AtHead(w) && s <= t < |ToolsAt(w)| && PairingAt(w).answers[t].Some?
    ensures PairingAt(w).answers[s].Some?
  {
    hide PairRun, OpenOf, ToolsAt;
    PairRunInjective(OpenOf(Head(w), w.a), ToolsAt(w));
  }

  lemma StableAt(calls: seq<ToolCall>, a: nat, r: nat)
    ensures |StableCalls(calls, a)| == |calls|
    ensures r < |calls| ==> StableCalls(calls, a)[r].id == Some(SyntheticId(a, r, calls[r]))
  {
    hide SyntheticId;
  }

  /** A head without surviving calls has none in the result, or an empty list of them. */
  lemma NoCalls(w: Place)
    requires AtHead(w) && SurvivingAt(w) == []
    ensures forall r: nat :: !IsCall(OutAt(w), w.a, r)
  {
    hide RawBlocks, ToolsAfter, PairRun, OpenOf, FillIds, WithoutAll, Unresolved, RawTools, IdsUpTo, AllUsed, StabilizeFrom;
    RawBlockAt(w.messages, 0, w.policy, w.a);
    var raw := RawAt(w);
    assert raw[w.a] == raw[w.a..w.a + 1 + |ToolsAt(w)|][0];
    var calls, open := FillIds(Head(w).toolCalls.value, w.a), PairingAt(w).open;
    assert raw[w.a] == RawHead(Head(w), calls, open, w.policy);
    UnresolvedMembers(open);
    NoneGone(calls);
    StabilizedAt(raw, 0, map[], w.a);
    assert raw[w.a].toolCalls.None? || raw[w.a].toolCalls == Some([]);
  }

  lemma ResultFor(w: Place, r: nat, j: nat)
    requires AtHead(w) && r < |SurvivingAt(w)| && Answers(OutAt(w), j, w.a, r)
    ensures w.a < j && j - w.a - 1 < |ToolsAt(w)| && PairingAt(w).answers[j - w.a - 1].Some?
    ensures ResultId(PairingAt(w), ToolsAt(w), MapAt(w), j - w.a - 1) == Some(SyntheticId(w.a, r, SurvivingAt(w)[r]))
  {
    hide OutAt, SurvivingAt, ToolsAt, MapAt, PairRun, SyntheticId, ResultId;
    OutHeadAt(w);
    if j > w.a + |ToolsAt(w)| { RunEnds(w); }
    OutToolAt(w, j - w.a - 1);
    StableAt(SurvivingAt(w), w.a, r);
  }

  lemma PairedBlockAt(w: Place)
    requires AtHead(w) && WellPaired(OutAt(w))
    ensures BlockPaired(SurvivingAt(w), PairingAt(w), ToolsAt(w), MapAt(w), w.a)
  {
    hide OutAt, SurvivingAt, ToolsAt, MapAt, PairRun, SyntheticId, ResultId, Answers;
    var kept, p, tools, ids := SurvivingAt(w), PairingAt(w), ToolsAt(w), MapAt(w);
    forall t: nat | t < |tools| && p.answers[t].Some?
      ensures HasCall(kept, p, tools, ids, w.a, t)
    {
      OutToolAt(w, t);
      var h: nat, r: nat :| Answers(OutAt(w), w.a + 1 + t, h, r);
      AnswersOwnHead(w, t, h, r);
    }
    forall r: nat | r < |kept|
      ensures HasResult(kept, p, tools, ids, w.a, r)
    {
      OutHeadAt(w);
      StableAt(kept, w.a, r);
      assert IsCall(OutAt(w), w.a, r);
      var j: nat :| Answers(OutAt(w), j, w.a, r);
      ResultFor(w, r, j);
    }
    forall s: nat, t: nat | s < t < |tools| && ResultId(p, tools, ids, s).Some?
      ensures ResultId(p, tools, ids, s) != ResultId(p, tools, ids, t)
    {
      ResultsDiffer(w, s, t);
    }
  }

  lemma ResultsDiffer(w: Place, s: nat, t: nat)
    requires AtHead(w) && WellPaired(OutAt(w)) && s < t < |ToolsAt(w)|
    requires ResultId(PairingAt(w), ToolsAt(w), MapAt(w), s).Some?
    ensures ResultId(PairingAt(w), ToolsAt(w), MapAt(w), s) != ResultId(PairingAt(w), ToolsAt(w), MapAt(w), t)
  {
    hide OutAt, SurvivingAt, ToolsAt, MapAt, PairRun, SyntheticId, Answers, FinalId, TakenId;
    var p := PairingAt(w);
    if p.answers[t].Some? {
      OutToolAt(w, s);
      OutToolAt(w, t);
      var h: nat, r: nat :| Answers(OutAt(w), w.a + 1 + s, h, r);
      AnswersOwnHead(w, s, h, r);
      var g: nat, q: nat :| Answers(OutAt(w), w.a + 1 + t, g, q);
      AnswersOwnHead(w, t, g, q);
      TwoCalls(OutAt(w), w.a + 1 + s, w.a + 1 + t, w.a, r, q);
      if ResultId(p, ToolsAt(w), MapAt(w), s) == ResultId(p, ToolsAt(w), MapAt(w), t) {
        SyntheticIdInjective(w.a, r, SurvivingAt(w)[r], w.a, q, SurvivingAt(w)[q]);
      }
    }
  }

  lemma TwoCalls(out: seq<Message>, i: nat, j: nat, a: nat, r: nat, q: nat)
    requires EveryCallHasOneResult(out) && Answers(out, i, a, r) && Answers(out, j, a, q) && i != j
    ensures r != q
  {
    hide Answers;
  }

  // ---- The exact condition ----------------------------------------------------

  lemma {:induction false} AllSound(messages: seq<Message>, a: nat)
    requires a <= |messages|
    requires forall x: nat :: a <= x < |messages| && IsHead(messages[x]) ==> SoundBlock(messages[x], ToolsAfter(messages[x..]), x)
    ensures SoundFrom(messages[a..], a)
    decreases |messages| - a
  {
    hide SoundBlock, ToolsAfter, StepLength;
    var rest := messages[a..];
    if rest != [] {
      var n := StepLength(rest);
      AllSound(messages, a + n);
      assert rest[n..] == messages[a + n..];
      assert rest[0] == messages[a];
      if IsHead(rest[0]) {
        HeadLength(rest);
        TailIsAfterRun(rest);
      } else {
        assert n == 1 by { OneLength(rest); }
      }
    }
  }

  lemma OneLength(rest: seq<Message>)
    requires rest != [] && !IsHead(rest[0])
    ensures StepLength(rest) == 1
  {
  }

  lemma WellPairedIsSound(messages: seq<Message>, policy: Policy)
    requires Placed(messages) && WellPaired(Canonical(messages, policy))
    ensures Sound(messages)
  {
    hide SoundBlock, WellPaired, ToolsAfter, PairRun, Surviving, MapIds, BlockPaired, Early, FillIds, OpenOf, RawBlocks,
         RawRepair, StabilizeFrom, ScanFrom, Placed, SoundFrom;
    FirstPassIsBlocks(messages, policy);
    forall x: nat | x < |messages| && IsHead(messages[x])
      ensures SoundBlock(messages[x], ToolsAfter(messages[x..]), x)
    {
      var w := Place(messages, policy, x);
      assert OutAt(w) == Canonical(messages, policy);
      PairedBlockAt(w);
      IdsAreEarly(RawAt(w), x);
      BlockIsSound(Head(w), ToolsAt(w), BeforeAt(w), x);
    }
    AllSound(messages, 0);
    assert messages[0..] == messages;
  }

  /**
    Calls and results end up paired one to one, under unique ids, exactly on the
    sound histories: in every block each answered call has an id of its own, and no
    answer names it with padding.
  */
  lemma WellPairedExactlyWhenSound(messages: seq<Message>, policy: Policy)
    requires Placed(messages)
    ensures WellPaired(Canonical(messages, policy)) <==> Sound(messages)
  {
    hide Placed, SoundFrom, Canonical, WellPaired, Settled;
    if Sound(messages) {
      CanonicalIsWellPaired(messages, policy);
    } else if WellPaired(Canonical(messages, policy)) {
      WellPairedIsSound(messages, policy);
    }
  }
}
