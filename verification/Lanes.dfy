/**
  The lane limiter of lanes.rs as interleaved steps of any number of threads:
  atomic loads and weak compare-and-swaps on one counter per lane, and permits
  whose clones share one reference-counted release.
*/
module Lanes {
  import opened Utf8Text

  datatype LaneKind =
    | ShortNonStream
    | NormalStream
    | LargeContext
    | HugeContext
    | LongNonStream
    | LongOutput
    | ToolHeavy

  function WrapAdd(x: nat): nat {
    (x + 1) % WORD
  }

  function WrapSub(x: nat): nat {
    (x + WORD - 1) % WORD
  }

  // ---- The state --------------------------------------------------------------

  /** A thread outside `try_acquire`, or in its loop with the counter value it read last. */
  datatype Thread = Idle | Trying(kind: LaneKind, current: nat)

  /** What the clones of one permit share: the lane to release and how many clones there are. */
  datatype Group = Group(kind: LaneKind, strong: nat)

  datatype State = State(
    max: LaneKind -> nat,
    inFlight: LaneKind -> nat,
    threads: nat -> Thread,
    groups: map<nat, Group>,
    permits: map<nat, nat>,
    nextId: nat)

  function Initial(limit: LaneKind -> nat): State {
    State(kind => if limit(kind) == 0 then 1 else limit(kind), kind => 0, (t: nat) => Idle, map[], map[], 0)
  }

  function Put<T>(f: LaneKind -> T, kind: LaneKind, value: T): LaneKind -> T {
    k => if k == kind then value else f(k)
  }

  function PutThread(f: nat -> Thread, t: nat, thread: Thread): nat -> Thread {
    (u: nat) => if u == t then thread else f(u)
  }

  // ---- Steps ------------------------------------------------------------------

  datatype Step =
    | Load(t: nat, kind: LaneKind)
    | GiveUp(t: nat)
    | SwapWins(t: nat)
    | SwapFails(t: nat)
    | Clone(permit: nat)
    | Drop(permit: nat)
    | Release(group: nat)

  /** A weak swap may fail even when the counter has the expected value. */
  predicate Enabled(s: State, step: Step) {
    match step
    case Load(t, kind) => s.threads(t).Idle?
    case GiveUp(t) => s.threads(t).Trying? && s.threads(t).current >= s.max(s.threads(t).kind)
    case SwapWins(t) => s.threads(t).Trying? && s.threads(t).current < s.max(s.threads(t).kind)
      && s.inFlight(s.threads(t).kind) == s.threads(t).current
    case SwapFails(t) => s.threads(t).Trying? && s.threads(t).current < s.max(s.threads(t).kind)
    case Clone(p) => p in s.permits && s.permits[p] in s.groups
    case Drop(p) => p in s.permits && s.permits[p] in s.groups && s.groups[s.permits[p]].strong > 0
    case Release(g) => g in s.groups && s.groups[g].strong == 0
  }

  function Apply(s: State, step: Step): State
    requires Enabled(s, step)
  {
    match step
    case Load(t, kind) => s.(threads := PutThread(s.threads, t, Trying(kind, s.inFlight(kind))))
    case GiveUp(t) => s.(threads := PutThread(s.threads, t, Idle))
    case SwapWins(t) =>
      var kind := s.threads(t).kind;
      s.(inFlight := Put(s.inFlight, kind, WrapAdd(s.threads(t).current)),
         threads := PutThread(s.threads, t, Idle),
         groups := s.groups[s.nextId := Group(kind, 1)],
         permits := s.permits[s.nextId := s.nextId],
         nextId := s.nextId + 1)
    case SwapFails(t) =>
      var kind := s.threads(t).kind;
      s.(threads := PutThread(s.threads, t, Trying(kind, s.inFlight(kind))))
    case Clone(p) =>
      var g := s.permits[p];
      s.(groups := s.groups[g := s.groups[g].(strong := s.groups[g].strong + 1)],
         permits := s.permits[s.nextId := g],
         nextId := s.nextId + 1)
    case Drop(p) =>
      var g := s.permits[p];
      s.(groups := s.groups[g := s.groups[g].(strong := s.groups[g].strong - 1)],
         permits := s.permits - {p})
    case Release(g) =>
      var kind := s.groups[g].kind;
      s.(inFlight := Put(s.inFlight, kind, WrapSub(s.inFlight(kind))),
         groups := s.groups - {g})
  }

  // ---- The invariant ----------------------------------------------------------

  function Live(groups: map<nat, Group>, kind: LaneKind): set<nat> {
    set g | g in groups && groups[g].kind == kind
  }

  function Holders(permits: map<nat, nat>, group: nat): set<nat> {
    set p | p in permits && permits[p] == group
  }

  /** The counter of a lane is its live permit groups, within the limit. */
  ghost predicate Counted(s: State) {
    forall kind :: s.inFlight(kind) == |Live(s.groups, kind)| <= s.max(kind) < WORD
  }

  /** The reference count of a group is its permits. */
  ghost predicate Shared(s: State) {
    && (forall p :: p in s.permits ==> s.permits[p] in s.groups)
    && (forall g :: g in s.groups ==> s.groups[g].strong == |Holders(s.permits, g)|)
  }

  ghost predicate Fresh(s: State) {
    && (forall p :: p in s.permits ==> p < s.nextId)
    && (forall g :: g in s.groups ==> g < s.nextId)
  }

  ghost predicate Invariant(s: State) {
    Counted(s) && Shared(s) && Fresh(s)
  }

  // ---- Runs -------------------------------------------------------------------

  /** All states of a run, one more than its steps. */
  ghost predicate Run(limit: LaneKind -> nat, states: seq<State>, steps: seq<Step>) {
    && |states| == |steps| + 1 && states[0] == Initial(limit)
    && forall i :: 0 <= i < |steps| ==> Enabled(states[i], steps[i]) && states[i + 1] == Apply(states[i], steps[i])
  }

  ghost predicate Limits(limit: LaneKind -> nat) {
    forall kind :: limit(kind) < WORD
  }

  /** Every state of every run is counted, shared and within its limits. */
  lemma {:induction false} RunKeepsInvariant(limit: LaneKind -> nat, states: seq<State>, steps: seq<Step>, i: nat)
    requires Limits(limit) && Run(limit, states, steps) && i < |states|
    ensures Invariant(states[i])
  {
    hide Invariant, Enabled, Apply;
    if i == 0 {
      InitialHolds(limit);
    } else {
      RunKeepsInvariant(limit, states, steps, i - 1);
      StepKeepsInvariant(states[i - 1], steps[i - 1]);
      assert states[i - 1 + 1] == states[i];
    }
  }

  lemma InitialHolds(limit: LaneKind -> nat)
    requires Limits(limit)
    ensures Invariant(Initial(limit))
  {
    forall kind
      ensures Live(Initial(limit).groups, kind) == {}
    {
    }
  }

  lemma StepKeepsInvariant(s: State, step: Step)
    requires Invariant(s) && Enabled(s, step)
    ensures Invariant(Apply(s, step))
  {
    hide Counted, Shared, Fresh, Enabled, Apply;
    StepKeepsCounted(s, step);
    StepKeepsShared(s, step);
    StepKeepsFresh(s, step);
  }

  lemma StepKeepsFresh(s: State, step: Step)
    requires Fresh(s) && Enabled(s, step)
    ensures Fresh(Apply(s, step))
  {
  }

  lemma StepKeepsCounted(s: State, step: Step)
    requires Invariant(s) && Enabled(s, step)
    ensures Counted(Apply(s, step))
  {
    hide Shared, WrapAdd, WrapSub, Fresh, Apply, Counted, Enabled, Live;
    match step
    case SwapWins(t) => AcquireKeepsCounted(s, t);
    case Release(g) => ReleaseKeepsCounted(s, g);
    case _ => OthersKeepCounted(s, step);
  }

  lemma AcquireKeepsCounted(s: State, t: nat)
    requires Counted(s) && Fresh(s) && Enabled(s, SwapWins(t))
    ensures Counted(Apply(s, SwapWins(t)))
    ensures Apply(s, SwapWins(t)).inFlight(s.threads(t).kind) == s.inFlight(s.threads(t).kind) + 1
  {
    hide WrapAdd, Live, PutThread;
    var next := Apply(s, SwapWins(t));
    var taken := s.threads(t).kind;
    assert s.inFlight(taken) == |Live(s.groups, taken)| <= s.max(taken) < WORD;
    assert s.nextId !in s.groups by { assert Fresh(s); }
    WrapsNever(s.inFlight(taken));
    forall kind
      ensures next.inFlight(kind) == |Live(next.groups, kind)| <= next.max(kind) < WORD
    {
      assert s.inFlight(kind) == |Live(s.groups, kind)| <= s.max(kind) < WORD;
      LiveGrows(s.groups, s.nextId, Group(taken, 1), kind);
    }
  }

  lemma LiveGrows(groups: map<nat, Group>, g: nat, added: Group, kind: LaneKind)
    requires g !in groups
    ensures |Live(groups[g := added], kind)| == |Live(groups, kind)| + (if kind == added.kind then 1 else 0)
  {
    var next := groups[g := added];
    if kind == added.kind {
      assert Live(next, kind) == Live(groups, kind) + {g};
    } else {
      assert Live(next, kind) == Live(groups, kind);
    }
  }

  lemma LiveShrinks(groups: map<nat, Group>, g: nat, kind: LaneKind)
    requires g in groups
    ensures |Live(groups - {g}, kind)| == |Live(groups, kind)| - (if kind == groups[g].kind then 1 else 0)
  {
    assert Live(groups - {g}, kind) == Live(groups, kind) - {g};
  }

  lemma LiveStays(groups: map<nat, Group>, g: nat, changed: Group, kind: LaneKind)
    requires g in groups && changed.kind == groups[g].kind
    ensures Live(groups[g := changed], kind) == Live(groups, kind)
  {
  }

  lemma ReleaseKeepsCounted(s: State, g: nat)
    requires Counted(s) && Enabled(s, Release(g))
    ensures Counted(Apply(s, Release(g)))
    ensures s.inFlight(s.groups[g].kind) > 0
    ensures Apply(s, Release(g)).inFlight(s.groups[g].kind) == s.inFlight(s.groups[g].kind) - 1
  {
    hide WrapSub, Live;
    var next := Apply(s, Release(g));
    var freed := s.groups[g].kind;
    assert s.inFlight(freed) == |Live(s.groups, freed)| <= s.max(freed) < WORD;
    LiveShrinks(s.groups, g, freed);
    WrapsNever(s.inFlight(freed));
    forall kind
      ensures next.inFlight(kind) == |Live(next.groups, kind)| <= next.max(kind) < WORD
    {
      assert s.inFlight(kind) == |Live(s.groups, kind)| <= s.max(kind) < WORD;
      LiveShrinks(s.groups, g, kind);
    }
  }

  lemma OthersKeepCounted(s: State, step: Step)
    requires Counted(s) && Enabled(s, step) && !step.SwapWins? && !step.Release?
    ensures Counted(Apply(s, step))
  {
    hide Live, PutThread;
    var next := Apply(s, step);
    forall kind
      ensures next.inFlight(kind) == |Live(next.groups, kind)| <= next.max(kind) < WORD
    {
      assert s.inFlight(kind) == |Live(s.groups, kind)| <= s.max(kind) < WORD;
      if step.Clone? || step.Drop? {
        var g := s.permits[step.permit];
        LiveStays(s.groups, g, next.groups[g], kind);
      }
    }
  }

  lemma WrapsNever(x: nat)
    ensures x + 1 < WORD ==> WrapAdd(x) == x + 1
    ensures 0 < x < WORD ==> WrapSub(x) == x - 1
  {
    if 0 < x < WORD { assert x + WORD - 1 == (x - 1) + WORD; }
  }

  lemma StepKeepsShared(s: State, step: Step)
    requires Shared(s) && Fresh(s) && Enabled(s, step)
    ensures Shared(Apply(s, step))
  {
    hide Put, PutThread, WrapAdd, WrapSub, Holders;
    var next := Apply(s, step);
    if step.Release? { ReleasedHasNoPermit(s, step.group); }
    if step.SwapWins? { FreshHasNoPermit(s); }
    forall g | g in next.groups
      ensures next.groups[g].strong == |Holders(next.permits, g)|
    {
      match step
      case SwapWins(t) => HoldersGrow(s.permits, s.nextId, s.nextId, g);
      case Clone(p) => HoldersGrow(s.permits, s.nextId, s.permits[p], g);
      case Drop(p) => HoldersShrink(s.permits, p, g);
      case _ =>
    }
  }

  lemma HoldersGrow(permits: map<nat, nat>, p: nat, of: nat, g: nat)
    requires p !in permits
    ensures |Holders(permits[p := of], g)| == |Holders(permits, g)| + (if of == g then 1 else 0)
  {
    if of == g {
      assert Holders(permits[p := of], g) == Holders(permits, g) + {p};
    } else {
      assert Holders(permits[p := of], g) == Holders(permits, g);
    }
  }

  lemma HoldersShrink(permits: map<nat, nat>, p: nat, g: nat)
    requires p in permits
    ensures |Holders(permits - {p}, g)| == |Holders(permits, g)| - (if permits[p] == g then 1 else 0)
  {
    assert Holders(permits - {p}, g) == Holders(permits, g) - {p};
  }

  lemma FreshHasNoPermit(s: State)
    requires Shared(s) && Fresh(s)
    ensures |Holders(s.permits, s.nextId)| == 0
  {
    assert Holders(s.permits, s.nextId) == {};
  }

  lemma ReleasedHasNoPermit(s: State, g: nat)
    requires Shared(s) && g in s.groups && s.groups[g].strong == 0
    ensures forall p :: p in s.permits ==> s.permits[p] != g
  {
    assert Holders(s.permits, g) == {};
    assert forall p :: p in s.permits && s.permits[p] == g ==> p in Holders(s.permits, g);
  }

  // ---- What the runs promise --------------------------------------------------

  /**
    The counter never goes below zero and never wraps: a release always takes back
    exactly the one that its group had taken, in the lane where it was taken.
  */
  lemma CounterNeverWraps(limit: LaneKind -> nat, states: seq<State>, steps: seq<Step>, i: nat)
    requires Limits(limit) && Run(limit, states, steps) && i < |steps|
    ensures var s, next := states[i], states[i + 1];
      match steps[i]
      case SwapWins(t) => next.inFlight(s.threads(t).kind) == s.inFlight(s.threads(t).kind) + 1
      case Release(g) => g in s.groups && next.inFlight(s.groups[g].kind) == s.inFlight(s.groups[g].kind) - 1
      case _ => next.inFlight == s.inFlight
  {
    hide Counted, Shared, WrapAdd, WrapSub;
    RunKeepsInvariant(limit, states, steps, i);
    match steps[i]
    case SwapWins(t) => AcquireKeepsCounted(states[i], t);
    case Release(g) => ReleaseKeepsCounted(states[i], g);
    case _ =>
  }

  /** A step that the thread takes. */
  predicate StepOf(step: Step, t: nat) {
    step == GiveUp(t) || step == SwapWins(t) || step == SwapFails(t) || (step.Load? && step.t == t)
  }

  /** Step j is where the thread last read its lane before state i, and it has taken no step since. */
  ghost predicate ReadAt(states: seq<State>, steps: seq<Step>, i: nat, j: nat, t: nat)
    requires i < |states| == |steps| + 1
  {
    && j < i && states[i].threads(t).Trying?
    && (steps[j] == Load(t, states[i].threads(t).kind) || steps[j] == SwapFails(t))
    && (forall n :: j < n < i ==> !StepOf(steps[n], t))
    && states[j].inFlight(states[i].threads(t).kind) == states[i].threads(t).current
  }

  lemma {:induction false} TryingHasRead(limit: LaneKind -> nat, states: seq<State>, steps: seq<Step>, i: nat, t: nat)
    returns (j: nat)
    requires Run(limit, states, steps) && i < |states| && states[i].threads(t).Trying?
    ensures ReadAt(states, steps, i, j, t)
  {
    assert i > 0;
    StepMovesThread(states[i - 1], steps[i - 1], t);
    assert states[i] == Apply(states[i - 1], steps[i - 1]);
    if StepOf(steps[i - 1], t) {
      j := i - 1;
    } else {
      j := TryingHasRead(limit, states, steps, i - 1, t);
    }
  }

  /** Only its own steps move a thread, and it is left trying only by reading its lane. */
  lemma StepMovesThread(s: State, step: Step, t: nat)
    requires Enabled(s, step)
    ensures var after := Apply(s, step).threads(t);
      && (!StepOf(step, t) ==> after == s.threads(t))
      && (StepOf(step, t) && after.Trying? ==>
            && (step == Load(t, after.kind) || step == SwapFails(t))
            && after.current == s.inFlight(after.kind))
  {
  }

  lemma {:induction false} LimitsNeverMove(limit: LaneKind -> nat, states: seq<State>, steps: seq<Step>, i: nat)
    requires Run(limit, states, steps) && i < |states|
    ensures states[i].max == Initial(limit).max
  {
    if i > 0 {
      LimitsNeverMove(limit, states, steps, i - 1);
      assert states[i] == Apply(states[i - 1], steps[i - 1]);
    }
  }

  /**
    A refusal is never due to contention alone: when the thread that gives up last
    read its lane, the lane was exactly full.
  */
  lemma RefusedOnlyWhenFull(limit: LaneKind -> nat, states: seq<State>, steps: seq<Step>, i: nat) returns (j: nat)
    requires Limits(limit) && Run(limit, states, steps) && i < |steps| && steps[i].GiveUp?
    ensures j < i && states[i].threads(steps[i].t).Trying?
    ensures forall n :: j < n < i ==> !StepOf(steps[n], steps[i].t)
    ensures var t, kind := steps[i].t, states[i].threads(steps[i].t).kind;
      && (steps[j] == Load(t, kind) || steps[j] == SwapFails(t))
      && states[j].inFlight(kind) == |Live(states[j].groups, kind)| == states[j].max(kind)
  {
    hide Shared, Fresh, Apply;
    var t := steps[i].t;
    assert Enabled(states[i], steps[i]);
    j := TryingHasRead(limit, states, steps, i, t);
    RunKeepsInvariant(limit, states, steps, j);
    LimitsNeverMove(limit, states, steps, i);
    LimitsNeverMove(limit, states, steps, j);
    var kind := states[i].threads(t).kind;
    assert states[j].inFlight(kind) == |Live(states[j].groups, kind)| <= states[j].max(kind);
  }

  /** When every permit is dropped and every release has run, all lanes are empty again. */
  lemma QuietLanesAreEmpty(limit: LaneKind -> nat, states: seq<State>, steps: seq<Step>, i: nat, kind: LaneKind)
    requires Limits(limit) && Run(limit, states, steps) && i < |states|
    requires states[i].permits == map[] && forall g :: !Enabled(states[i], Release(g))
    ensures states[i].inFlight(kind) == 0
  {
    hide Apply;
    RunKeepsInvariant(limit, states, steps, i);
    var s := states[i];
    forall g
      ensures g !in s.groups
    {
      assert !Enabled(s, Release(g));
      assert Holders(s.permits, g) == {};
    }
    assert Live(s.groups, kind) == {};
  }

  // ---- Waiting for a permit ---------------------------------------------------

  const POLL_MS: nat := 10

  function SaturatingAdd(a: nat, b: nat): nat {
    if a + b >= WORD then WORD - 1 else a + b
  }

  function CeilDiv(a: nat, b: nat): nat
    requires b > 0
  {
    (a + b - 1) / b
  }

  /**
    The waiting loop, over whatever its successive tries bring: it succeeds with
    the first success among ceil(timeout / 10) + 1 tries and fails exactly when
    they all fail.
  */
  method Acquire(tries: nat -> bool, timeoutMs: nat) returns (granted: bool, made: nat, waitedMs: nat)
    requires timeoutMs < WORD
    ensures granted <==> exists k: nat :: k <= CeilDiv(timeoutMs, 10) && tries(k)
    ensures 1 <= made <= CeilDiv(timeoutMs, 10) + 1
    ensures granted ==> tries(made - 1) && forall k: nat :: k < made - 1 ==> !tries(k)
    ensures !granted ==> made == CeilDiv(timeoutMs, 10) + 1 && waitedMs >= timeoutMs
    ensures waitedMs == if 10 * (made - 1) < WORD then 10 * (made - 1) else WORD - 1
  {
    made, waitedMs := 0, 0;
    while true
      invariant waitedMs == if POLL_MS * made < WORD then POLL_MS * made else WORD - 1
      invariant made > 0 ==> POLL_MS * (made - 1) < timeoutMs
      invariant forall k: nat :: k < made ==> !tries(k)
      decreases timeoutMs + POLL_MS - POLL_MS * made
    {
      made := made + 1;
      if tries(made - 1) { return true, made, waitedMs; }
      if waitedMs >= timeoutMs { return false, made, waitedMs; }
      waitedMs := SaturatingAdd(waitedMs, POLL_MS);
    }
  }
}
