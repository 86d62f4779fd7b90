/**
  The timed guard of anthropic.rs against an upstream that sends nothing a client
  could use: how long to wait for the next event, and when to try again. Times are
  milliseconds since the attempt began.
*/
module StallGuard {
  import opened Utf8Text

  const GUARD_ATTEMPTS: nat := 3
  const PING_MS: nat := 15_000

  /** What the guard looks at besides the clock. */
  datatype Output = Output(claudeCode: bool, attempt: nat, startedCall: bool, text: string, calls: nat)

  datatype Limits = Limits(retryAfter: nat, stallWindow: nat, maxWait: nat)

  /** How much reasoning there is and when it last grew, which can be before this attempt began. */
  datatype Reasoning = Reasoning(length: nat, grewAt: int)

  function Max(a: int, b: int): int {
    if a < b then b else a
  }

  /** The limits of a stream, from the configured seconds and the size of the request. */
  function LimitsFor(retrySecs: nat, stallSecs: nat, maxWaitSecs: nat, tokens: nat): (limits: Limits)
    ensures 0 < limits.retryAfter <= limits.maxWait && limits.retryAfter <= 45_000
  {
    var bucket :=
      if tokens < 50_000 then 10
      else if tokens < 100_000 then 14
      else if tokens < 200_000 then 22
      else if tokens < 400_000 then 32
      else 45;
    var retry := Min(Max(retrySecs, 1), bucket);
    Limits(1000 * retry, 1000 * Max(stallSecs, 1), 1000 * Max(maxWaitSecs, retry))
  }

  /** The smallest request that is given this many seconds. */
  function SizeFor(secs: nat): nat {
    if secs <= 10 then 0
    else if secs <= 14 then 50_000
    else if secs <= 22 then 100_000
    else if secs <= 32 then 200_000
    else 400_000
  }

  /** The other two limits are as configured, in milliseconds, but no shorter than a second or the first limit. */
  lemma OtherLimits(retrySecs: nat, stallSecs: nat, maxWaitSecs: nat, tokens: nat)
    ensures var limits := LimitsFor(retrySecs, stallSecs, maxWaitSecs, tokens);
      && limits.stallWindow >= 1000 && limits.stallWindow >= 1000 * stallSecs
      && (limits.stallWindow == 1000 || limits.stallWindow == 1000 * stallSecs)
      && limits.maxWait >= limits.retryAfter && limits.maxWait >= 1000 * maxWaitSecs
      && (limits.maxWait == limits.retryAfter || limits.maxWait == 1000 * maxWaitSecs)
  {
  }

  /** A request is given so many seconds exactly when that much is configured and it is large enough. */
  lemma LimitBySize(retrySecs: nat, stallSecs: nat, maxWaitSecs: nat, tokens: nat, secs: nat)
    requires 0 < secs <= 45
    ensures LimitsFor(retrySecs, stallSecs, maxWaitSecs, tokens).retryAfter >= 1000 * secs
      <==> secs <= Max(retrySecs, 1) && tokens >= SizeFor(secs)
  {
  }

  predicate Alive(reasoning: Reasoning, limits: Limits, now: nat)
    requires reasoning.grewAt <= now
  {
    reasoning.length > 0 && now - reasoning.grewAt < limits.stallWindow
  }

  predicate Guarded(o: Output) {
    o.claudeCode && o.attempt + 1 < GUARD_ATTEMPTS && Blank(o.text) && o.calls == 0
  }

  function WaitInterval(o: Output, reasoning: Reasoning, limits: Limits, ping: nat, now: nat): nat
    requires reasoning.grewAt <= now
  {
    if !Guarded(o) || o.startedCall then ping
    else
      var horizon := if Alive(reasoning, limits, now) then limits.maxWait else limits.retryAfter;
      Min(ping, Max(if horizon > now then horizon - now else 0, 1))
  }

  predicate ShouldRetry(o: Output, reasoning: Reasoning, limits: Limits, now: nat)
    requires reasoning.grewAt <= now
  {
    Guarded(o) && !o.startedCall && now >= limits.retryAfter
    && !(Alive(reasoning, limits, now) && now < limits.maxWait)
  }

  /**
    The wait-then-check loop from the moment the upstream falls silent. Each wait
    may end late, and each but the last is as long as a ping. Nothing is decided before `retryAfter`, and the decision comes by
    `maxWait` (or one millisecond after a later silence) but for the lateness of
    the last wait.
  */
  method WaitOutSilence(o: Output, reasoning: Reasoning, limits: Limits, silence: nat, late: nat -> nat)
    returns (decided: nat, waits: nat)
    requires Guarded(o) && !o.startedCall && reasoning.grewAt <= silence
    requires limits.retryAfter <= limits.maxWait
    ensures waits > 0 && silence <= decided && limits.retryAfter <= decided
    ensures waits > 1 ==> silence + 15_000 * (waits - 1) < limits.maxWait
    ensures decided <= Max(limits.maxWait, silence + 1) + late(waits - 1)
    ensures ShouldRetry(o, reasoning, limits, decided)
  {
    decided, waits := silence, 0;
    while true
      invariant silence <= decided && (waits == 0 ==> decided == silence)
      invariant waits > 0 ==> decided < limits.maxWait && silence + PING_MS * waits <= decided
      decreases if waits == 0 then 1 else 0, limits.maxWait - decided
    {
      var interval := WaitInterval(o, reasoning, limits, PING_MS, decided);
      decided := decided + interval + late(waits);
      waits := waits + 1;
      if ShouldRetry(o, reasoning, limits, decided) { return; }
    }
  }

  /** While there is reasoning that still grows, nothing is decided before `maxWait`. */
  lemma GrowingReasoningIsSpared(o: Output, reasoning: Reasoning, limits: Limits, now: nat)
    requires reasoning.grewAt <= now && limits.retryAfter <= limits.maxWait
    ensures ShouldRetry(o, reasoning, limits, now) <==>
      && o.claudeCode && o.attempt < 2 && Blank(o.text) && o.calls == 0 && !o.startedCall
      && now >= if reasoning.length > 0 then Max(limits.retryAfter, Min(limits.maxWait, reasoning.grewAt + limits.stallWindow))
                else limits.retryAfter
  {
  }
}
