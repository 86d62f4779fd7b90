/**
  What the lanes of lanes.rs are for: a thread that tries alone gets a permit exactly
  when its lane has room, and a permit keeps its place until its last clone is dropped.
*/
module LanesUse {
  import opened Utf8Text
  import opened Lanes

  /** How many may be in a lane at once; a configured limit of none counts as one. */
  function Room(limit: LaneKind -> nat, kind: LaneKind): nat {
    if limit(kind) > 0 then limit(kind) else 1
  }

  // ---- Trying -----------------------------------------------------------------

  /**
    In any state of any run, a thread that reads its lane and then acts before others
    do wins a permit exactly when the lane has room, and else gives up.
  */
  lemma TriesAlone(limit: LaneKind -> nat, states: seq<State>, steps: seq<Step>, i: nat, t: nat, kind: LaneKind)
    requires Limits(limit) && Run(limit, states, steps) && i < |states| && states[i].threads(t).Idle?
    ensures Enabled(states[i], Load(t, kind))
    ensures var s := Apply(states[i], Load(t, kind));
      && (Enabled(s, SwapWins(t)) <==> |Live(states[i].groups, kind)| < Room(limit, kind))
      && (Enabled(s, GiveUp(t)) <==> |Live(states[i].groups, kind)| == Room(limit, kind))
  {
    hide Shared, Fresh, Live;
    RunKeepsInvariant(limit, states, steps, i);
    LimitsNeverMove(limit, states, steps, i);
    assert states[i].inFlight(kind) == |Live(states[i].groups, kind)| <= states[i].max(kind) < WORD;
  }

  /** A thread in its loop can always go on: it gives up, or its swap wins or fails. */
  lemma TryingGoesOn(s: State, t: nat)
    requires s.threads(t).Trying?
    ensures Enabled(s, GiveUp(t)) <==> !Enabled(s, SwapFails(t))
    ensures Enabled(s, SwapWins(t)) <==> !Enabled(s, GiveUp(t)) && s.inFlight(s.threads(t).kind) == s.threads(t).current
  {
  }

  // ---- Permits ----------------------------------------------------------------

  /** The permit holds a place in the lane. */
  predicate Holds(s: State, p: nat, kind: LaneKind) {
    p in s.permits && s.permits[p] in s.groups && s.groups[s.permits[p]].kind == kind
  }

  /** Winning gives the thread a new permit for the lane it tried, alone in its group. */
  lemma WinnerHolds(s: State, t: nat) returns (p: nat)
    requires Invariant(s) && Enabled(s, SwapWins(t))
    ensures var next := Apply(s, SwapWins(t));
      && p !in s.permits && Holds(next, p, s.threads(t).kind) && next.permits - {p} == s.permits
      && Holders(next.permits, next.permits[p]) == {p} && next.threads(t).Idle?
  {
    hide Counted, WrapAdd;
    p := s.nextId;
    var next := Apply(s, SwapWins(t));
    assert forall q :: q in s.permits ==> s.permits[q] in s.groups && s.permits[q] < p;
    assert Holders(next.permits, p) == {p};
  }

  /** Cloning gives a new permit that shares the place of the old one. */
  lemma CloneShares(s: State, p: nat) returns (q: nat)
    requires Invariant(s) && Enabled(s, Clone(p))
    ensures var next := Apply(s, Clone(p));
      && q !in s.permits && q in next.permits && next.permits[q] == s.permits[p]
      && next.permits - {q} == s.permits && next.inFlight == s.inFlight
  {
    hide Counted;
    q := s.nextId;
  }

  /** Dropping a permit takes that one away and no other. */
  lemma DropTakesOne(s: State, p: nat)
    requires Invariant(s) && p in s.permits
    ensures Enabled(s, Drop(p)) && Apply(s, Drop(p)).permits == s.permits - {p}
  {
    hide Counted, Fresh;
    var g := s.permits[p];
    assert g in s.groups && s.groups[g].strong == |Holders(s.permits, g)|;
    assert p in Holders(s.permits, g);
  }

  /** A place is given back exactly when no permit holds it any more. */
  lemma ReleasedExactlyWhenUnheld(s: State, g: nat)
    requires Invariant(s) && g in s.groups
    ensures Enabled(s, Release(g)) <==> forall p :: p in s.permits ==> s.permits[p] != g
  {
    hide Counted, Fresh;
    assert s.groups[g].strong == |Holders(s.permits, g)|;
    if s.groups[g].strong == 0 {
      ReleasedHasNoPermit(s, g);
    } else {
      assert Holders(s.permits, g) != {};
      var p :| p in Holders(s.permits, g);
      assert s.permits[p] == g;
    }
  }

  lemma StepKeepsPermit(s: State, step: Step, p: nat, kind: LaneKind)
    requires Invariant(s) && Enabled(s, step) && Holds(s, p, kind) && step != Drop(p)
    ensures Holds(Apply(s, step), p, kind)
  {
    hide Counted, WrapAdd, WrapSub, PutThread, Put;
    var g := s.permits[p];
    match step
    case Release(h) =>
      ReleasedHasNoPermit(s, h);
    case _ =>
  }

  /** A permit keeps its place in its lane until it is dropped, whatever the others do. */
  lemma {:induction false} PermitKeepsItsPlace(limit: LaneKind -> nat, states: seq<State>, steps: seq<Step>,
                                               i: nat, j: nat, p: nat, kind: LaneKind)
    requires Limits(limit) && Run(limit, states, steps) && i <= j < |states|
    requires Holds(states[i], p, kind) && forall n :: i <= n < j ==> steps[n] != Drop(p)
    ensures Holds(states[j], p, kind) && states[j].inFlight(kind) > 0
    decreases j
  {
    hide Shared, Fresh, Apply, Enabled, Counted;
    if i < j {
      PermitKeepsItsPlace(limit, states, steps, i, j - 1, p, kind);
      RunKeepsInvariant(limit, states, steps, j - 1);
      assert states[j - 1 + 1] == Apply(states[j - 1], steps[j - 1]) && Enabled(states[j - 1], steps[j - 1]);
      StepKeepsPermit(states[j - 1], steps[j - 1], p, kind);
    }
    RunKeepsInvariant(limit, states, steps, j);
    HeldIsCounted(states[j], p, kind);
  }

  lemma HeldIsCounted(s: State, p: nat, kind: LaneKind)
    requires Counted(s) && Holds(s, p, kind)
    ensures s.inFlight(kind) > 0
  {
    assert s.permits[p] in Live(s.groups, kind);
    assert s.inFlight(kind) == |Live(s.groups, kind)|;
  }
}
