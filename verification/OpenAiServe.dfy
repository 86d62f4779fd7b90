/**
  The whole run of the streaming loop in openai.rs over any upstream, and what
  its client can rely on.
*/
module OpenAiServe {
  import opened Utf8Text
  import opened DsmlGuard
  import opened DsmlGuardLaws
  import opened OpenAiStream
  import opened OpenAiAttempt
  import opened OpenAiLoop
  import opened OpenAiRun

  // ---- Fetching ---------------------------------------------------------------

  /** What the n-th fetch brings, for the body it is made with. */
  type Upstream = (nat, Body) -> Fetched

  /** The fetches made, the body they use, and whether the one enriched retry is spent. */
  datatype Fetching = Fetching(count: nat, body: Body, enriched: bool)

  /** Fetches once, and once more when the upstream misses reasoning and the retry is not spent. */
  method Fetch(upstream: Upstream, before: Fetching) returns (got: Fetched, after: Fetching)
    ensures after.count == before.count + (if after.enriched == before.enriched then 1 else 2)
    ensures before.enriched ==> after.enriched && after.body == before.body
    ensures after.enriched && !before.enriched ==>
      var first := upstream(before.count, before.body);
      first.Refused? && first.missingReasoning && after.body == ReasoningRetry
    ensures got == upstream(after.count - 1, after.body)
    ensures got.Refused? && got.missingReasoning ==> after.enriched
    ensures after.enriched == before.enriched ==> after.body == before.body
  {
    after := before;
    while true
      invariant after.enriched == before.enriched ==> after == before
      invariant after.enriched != before.enriched ==>
        after == Fetching(before.count + 1, ReasoningRetry, true)
        && upstream(before.count, before.body).Refused? && upstream(before.count, before.body).missingReasoning
      decreases if after.enriched then 0 else 1
    {
      got := upstream(after.count, after.body);
      after := after.(count := after.count + 1);
      if got.Opened? || !got.missingReasoning || after.enriched { return; }
      after := after.(body := ReasoningRetry, enriched := true);
    }
  }

  // ---- The run ----------------------------------------------------------------

  datatype Served =
    | Rejected(message: string)
    | Streamed(events: seq<Out>)

  function NextBody(config: Config, body: Body, cause: Cause): Body {
    match cause
    case MarkupLeak => if config.claudeCode then CompatToolUse(body) else body
    case UnfinishedIntent => if config.claudeCode then ReasoningRetry else body
    case StreamError => body
    case EmptyAnswer => body
  }

  /** One attempt: reads its response and concludes, gives up or panics. */
  method Attempted(config: Config, items: seq<Item>, attempt: nat) returns (out: seq<Out>, retry: Option<Cause>)
    ensures retry == Retry(config, Read(config, items), Break(items), attempt)
    ensures retry.Some? ==> attempt < MaxAttempts(config) && Tentative(out)
    ensures retry.Some? && retry != Some(UnfinishedIntent) ==> out == []
    ensures retry.None? ==> Concluded(config, out, Opened(items), attempt)
  {
    hide Tentative, Closed, Answers, Fails, Retry, Steps, Knows, Unrepaired, Supplement, Flushed, RepairPanics;
    var read, broken := ReadResponse(config, items);
    ReadingKnows(config, Pieces(items));
    RetryIsEarly(config, read, broken, attempt);
    out, retry := Conclude(config, read, broken, attempt, Pieces(items));
  }

  /** A fetch that was made: its number and its body. */
  datatype Asked = Asked(count: nat, body: Body)

  function Got(upstream: Upstream, asked: Asked): Fetched {
    upstream(asked.count, asked.body)
  }

  /** Why the attempt that was given this response is given up, if it is. */
  function CauseOf(config: Config, response: Fetched, attempt: nat): Option<Cause> {
    if response.Refused? then None
    else Retry(config, Read(config, response.items), Break(response.items), attempt)
  }

  /** The response opened a stream that the attempt gave up on. */
  predicate GivenUp(config: Config, response: Fetched, attempt: nat) {
    CauseOf(config, response, attempt).Some?
  }

  predicate MissesReasoning(response: Fetched) {
    response.Refused? && response.missingReasoning
  }

  /** The first fetch is of the original body, the second of the enriched one, made only if the first missed reasoning. */
  predicate Begins(upstream: Upstream, asked: Asked) {
    || asked == Asked(0, Original)
    || (asked == Asked(1, ReasoningRetry) && MissesReasoning(upstream(0, Original)))
  }

  /**
    How the fetch of an attempt follows that of the one before: the next fetch, for
    ClaudeCode with the body rewritten for tool use behind leaked markup and the
    enriched body behind an unfinished intent, else with the same body; and one more,
    of the enriched body, only if that one missed reasoning.
  */
  predicate Follows(config: Config, upstream: Upstream, before: Asked, attempt: nat, after: Asked) {
    var cause := CauseOf(config, Got(upstream, before), attempt);
    var body :=
      if config.claudeCode && cause == Some(MarkupLeak) then CompatToolUse(before.body)
      else if config.claudeCode && cause == Some(UnfinishedIntent) then ReasoningRetry
      else before.body;
    || after == Asked(before.count + 1, body)
    || (after == Asked(before.count + 2, ReasoningRetry) && MissesReasoning(upstream(before.count + 1, body)))
  }

  predicate Chained(config: Config, upstream: Upstream, asked: seq<Asked>) {
    && (asked != [] ==> Begins(upstream, asked[0]))
    && forall i :: 0 <= i < |asked| - 1 ==> Follows(config, upstream, asked[i], i + 1, asked[i + 1])
  }

  predicate AllGivenUp(config: Config, upstream: Upstream, asked: seq<Asked>) {
    forall i :: 0 <= i < |asked| ==> GivenUp(config, Got(upstream, asked[i]), i + 1)
  }

  /** No response of the run ends in a panic of the repair. */
  predicate NoneCrashed(config: Config, upstream: Upstream, asked: seq<Asked>) {
    forall i :: 0 <= i < |asked| ==> !Crashed(config, Got(upstream, asked[i]))
  }

  /**
    What a run has sent: attempts given up, then one conclusion, each with the fetch
    that gave it its response, each fetch following from the last. It has one end exactly when no response crashed; after
    a crash the client has seen the role and text, and no end.
  */
  ghost predicate Run(config: Config, upstream: Upstream, events: seq<Out>,
                      abandoned: seq<seq<Out>>, last: seq<Out>, asked: seq<Asked>) {
    && events == Flat(abandoned) + last
    && |abandoned| < MaxAttempts(config) && AllTentative(abandoned)
    && |asked| == |abandoned| + 1 && AllGivenUp(config, upstream, asked[..|abandoned|])
    && Chained(config, upstream, asked)
    && Concluded(config, last, Got(upstream, asked[|abandoned|]), |abandoned| + 1)
    && (OneEnd(events) <==> NoneCrashed(config, upstream, asked))
    && (OneEnd(events) || OnlyRoleAndText(events))
    && (config.claudeCode ==> !Contains(TextOf(events), INVOKE))
  }

  /** Fetches that opened a stream for every earlier attempt, with one more if the enriched retry was spent. */
  predicate FetchedFor(config: Config, fetching: Fetching, attempts: nat) {
    && fetching.count == attempts + (if fetching.enriched then 1 else 0)
    && (!config.claudeCode ==> fetching.body == if fetching.enriched then ReasoningRetry else Original)
  }

  /** One turn of the loop: a refused fetch ends the stream, a response is read and concluded. */
  method Turn(config: Config, got: Fetched, attempt: nat) returns (out: seq<Out>, retry: Option<Cause>)
    ensures retry.Some? ==> attempt < MaxAttempts(config) && Tentative(out) && GivenUp(config, got, attempt)
    ensures retry.None? ==> Concluded(config, out, got, attempt)
    ensures retry == CauseOf(config, got, attempt)
  {
    hide Concluded, Tentative, Retry, Read;
    if got.Refused? {
      RefusalConcludes(config, got, attempt);
      return [FailureChunk(got.message), Done], None;
    }
    out, retry := Attempted(config, got.items, attempt);
  }

  /**
    The stream of one request, given its first response. The ghost results split the
    events by attempt and name the fetch each attempt was given.
  */
  method Stream(config: Config, upstream: Upstream, first: seq<Item>, before: Fetching)
    returns (events: seq<Out>, after: Fetching,
             ghost abandoned: seq<seq<Out>>, ghost last: seq<Out>, ghost asked: seq<Asked>)
    requires FetchedFor(config, before, 1) && Opened(first) == upstream(before.count - 1, before.body)
    requires Begins(upstream, Asked(before.count - 1, before.body))
    ensures FetchedFor(config, after, |abandoned| + 1) && |asked| == |abandoned| + 1
    ensures asked[|abandoned|] == Asked(after.count - 1, after.body)
    ensures abandoned == [] ==> asked == [Asked(before.count - 1, before.body)]
    ensures Run(config, upstream, events, abandoned, last, asked)
    ensures OneEnd(events) <==> NoneCrashed(config, upstream, asked)
    ensures config.claudeCode ==> !Contains(TextOf(events), INVOKE)
  {
    hide AllGivenUp, Tentative, Concluded, Flat, AllTentative, Retry, OneEnd, TextOf, Contains, Run, NextBody, GivenUp, NoneCrashed, Chained, Ready;
    events, after, abandoned, asked := [], before, [], [];
    NoneAbandoned(config, upstream);
    var next := Some(first);
    for attempt := 1 to MaxAttempts(config) + 1
      invariant attempt > 1 ==> attempt - 1 < MaxAttempts(config)
      invariant |abandoned| == |asked| == attempt - 1 && AllTentative(abandoned) && events == Flat(abandoned)
      invariant AllGivenUp(config, upstream, asked) && Chained(config, upstream, asked)
      invariant next.None? ==> asked != [] && Ready(config, upstream, asked[|asked| - 1], |asked|, after)
      invariant FetchedFor(config, after, if next.Some? then attempt else attempt - 1)
      invariant next.Some? ==> attempt == 1 && next.value == first && after == before
      invariant attempt == 1 ==> next.Some?
    {
      var got := Opened(first);
      if next.Some? {
        next := None;
      } else {
        ghost var ready := after;
        got, after := Fetch(upstream, after);
        FetchFollows(config, upstream, asked, ready, after);
      }
      ghost var fetch := Asked(after.count - 1, after.body);
      assert Chained(config, upstream, asked + [fetch]) by { if asked == [] { ChainBegins(config, upstream, fetch); } }
      var out, retry := Turn(config, got, attempt);
      if retry.None? {
        last := out;
        events := events + out;
        RunLaws(config, upstream, abandoned, last, asked, fetch);
        asked := asked + [fetch];
        return;
      }
      IsGivenUp(config, upstream, asked, fetch, got);
      BodyStays(config, after.body, retry.value);
      after := after.(body := NextBody(config, after.body, retry.value));
      assert Ready(config, upstream, fetch, attempt, after) by { IsReady(config, upstream, fetch, attempt, after); }
      Abandon(abandoned, out);
      abandoned, events, asked := abandoned + [out], events + out, asked + [fetch];
    }
    // The last attempt is never given up, so the failure the source sends from here is never sent.
    assert false;
  }

  /** Serves one request: an error response if the first fetch is refused, else its stream. */
  method Serve(config: Config, upstream: Upstream)
    returns (served: Served, fetches: nat,
             ghost abandoned: seq<seq<Out>>, ghost last: seq<Out>, ghost asked: seq<Asked>)
    ensures 1 <= fetches <= if config.mimo then 6 else 4
    ensures |asked| == |abandoned| + 1 && asked[|abandoned|].count == fetches - 1
    ensures |abandoned| < fetches <= |abandoned| + 2
    ensures !config.claudeCode ==>
      asked[|abandoned|].body == if fetches == |abandoned| + 2 then ReasoningRetry else Original
    ensures Begins(upstream, asked[0])
    ensures served.Rejected? <==> abandoned == [] && Got(upstream, asked[0]).Refused?
    ensures served.Rejected? ==> served.message == Got(upstream, asked[0]).message
    ensures served.Streamed? ==> Run(config, upstream, served.events, abandoned, last, asked)
    ensures served.Streamed? ==> (OneEnd(served.events) <==> NoneCrashed(config, upstream, asked))
    ensures served.Streamed? && config.claudeCode ==> !Contains(TextOf(served.events), INVOKE)
  {
    hide Concluded, Flat, AllTentative, OneEnd, TextOf, Contains, NoneCrashed, AllGivenUp;
    abandoned, last := [], [];
    var got, fetching := Fetch(upstream, Fetching(0, Original, false));
    if got.Refused? {
      return Rejected(got.message), fetching.count, [], [], [Asked(fetching.count - 1, fetching.body)];
    }
    var events;
    events, fetching, abandoned, last, asked := Stream(config, upstream, got.items, fetching);
    served, fetches := Streamed(events), fetching.count;
  }

  lemma NoneAbandoned(config: Config, upstream: Upstream)
    ensures AllTentative([]) && Flat([]) == [] && AllGivenUp(config, upstream, []) && Chained(config, upstream, [])
  {
  }

  /** The fetch that comes next is made with the body that the given-up attempt asks for. */
  predicate Ready(config: Config, upstream: Upstream, last: Asked, attempt: nat, next: Fetching) {
    var cause := CauseOf(config, Got(upstream, last), attempt);
    cause.Some? && next.count == last.count + 1 && next.body == NextBody(config, last.body, cause.value)
  }

  lemma IsReady(config: Config, upstream: Upstream, last: Asked, attempt: nat, next: Fetching)
    requires CauseOf(config, Got(upstream, last), attempt).Some? && next.count == last.count + 1
    requires next.body == NextBody(config, last.body, CauseOf(config, Got(upstream, last), attempt).value)
    ensures Ready(config, upstream, last, attempt, next)
  {
    hide CauseOf, NextBody;
  }

  lemma FetchFollows(config: Config, upstream: Upstream, asked: seq<Asked>, before: Fetching, after: Fetching)
    requires Chained(config, upstream, asked) && asked != []
    requires Ready(config, upstream, asked[|asked| - 1], |asked|, before)
    requires after.count == before.count + (if after.enriched == before.enriched then 1 else 2)
    requires after.enriched == before.enriched ==> after.body == before.body
    requires before.enriched ==> after.enriched
    requires after.enriched && !before.enriched ==>
      MissesReasoning(upstream(before.count, before.body)) && after.body == ReasoningRetry
    ensures Chained(config, upstream, asked + [Asked(after.count - 1, after.body)])
  {
    hide CauseOf, Begins;
    var fetch := Asked(after.count - 1, after.body);
    assert Follows(config, upstream, asked[|asked| - 1], |asked|, fetch);
    ChainGrows(config, upstream, asked, fetch);
  }

  lemma ChainGrows(config: Config, upstream: Upstream, asked: seq<Asked>, fetch: Asked)
    requires Chained(config, upstream, asked) && asked != []
    requires Follows(config, upstream, asked[|asked| - 1], |asked|, fetch)
    ensures Chained(config, upstream, asked + [fetch])
  {
    hide Follows, Begins;
    var all := asked + [fetch];
    forall i | 0 <= i < |all| - 1
      ensures Follows(config, upstream, all[i], i + 1, all[i + 1])
    {
      if i < |asked| - 1 { assert all[i] == asked[i] && all[i + 1] == asked[i + 1]; }
    }
  }

  lemma ChainBegins(config: Config, upstream: Upstream, fetch: Asked)
    requires Begins(upstream, fetch)
    ensures Chained(config, upstream, [] + [fetch])
  {
    hide Begins;
  }

  lemma BodyStays(config: Config, body: Body, cause: Cause)
    ensures !config.claudeCode ==> NextBody(config, body, cause) == body
  {
  }

  lemma Abandon(abandoned: seq<seq<Out>>, out: seq<Out>)
    requires AllTentative(abandoned) && Tentative(out)
    ensures AllTentative(abandoned + [out]) && Flat(abandoned + [out]) == Flat(abandoned) + out
  {
    hide Tentative, Flat;
    FlatAppend(abandoned, out);
  }

  lemma IsGivenUp(config: Config, upstream: Upstream, asked: seq<Asked>, fetch: Asked, got: Fetched)
    requires AllGivenUp(config, upstream, asked) && got == Got(upstream, fetch)
    requires GivenUp(config, got, |asked| + 1)
    ensures AllGivenUp(config, upstream, asked + [fetch])
  {
    hide GivenUp, Got;
  }

  lemma GivenUpIsWhole(config: Config, response: Fetched, attempt: nat)
    requires GivenUp(config, response, attempt)
    ensures !Crashed(config, response)
  {
    hide Read, Flushed, RepairPanics, Unrepaired, Supplement;
  }

  lemma RunLaws(config: Config, upstream: Upstream, abandoned: seq<seq<Out>>, last: seq<Out>,
                asked: seq<Asked>, fetch: Asked)
    requires |abandoned| == |asked| < MaxAttempts(config) && AllTentative(abandoned)
    requires AllGivenUp(config, upstream, asked)
    requires Chained(config, upstream, asked + [fetch])
    requires Concluded(config, last, Got(upstream, fetch), |abandoned| + 1)
    ensures Run(config, upstream, Flat(abandoned) + last, abandoned, last, asked + [fetch])
    ensures OneEnd(Flat(abandoned) + last) <==> NoneCrashed(config, upstream, asked + [fetch])
    ensures config.claudeCode ==> !Contains(TextOf(Flat(abandoned) + last), INVOKE)
  {
    hide Concluded, OneEnd, Contains, TextOf, AllTentative, GivenUp, Crashed, Flat, NoneCrashed, OnlyRoleAndText, Chained;
    var response := Got(upstream, fetch);
    RunEndsOnce(config, abandoned, last, response, |abandoned| + 1);
    if config.claudeCode { InvokeNeverServed(config, abandoned, last, response, |abandoned| + 1); }
    assert (asked + [fetch])[..|abandoned|] == asked;
    OnlyLastCanCrash(config, upstream, asked, fetch);
  }

  lemma OnlyLastCanCrash(config: Config, upstream: Upstream, asked: seq<Asked>, fetch: Asked)
    requires AllGivenUp(config, upstream, asked)
    ensures NoneCrashed(config, upstream, asked + [fetch]) <==> !Crashed(config, Got(upstream, fetch))
  {
    hide GivenUp, Crashed, Got;
    var all := asked + [fetch];
    assert all[|asked|] == fetch;
    forall i | 0 <= i < |asked|
      ensures !Crashed(config, Got(upstream, all[i]))
    {
      GivenUpIsWhole(config, Got(upstream, asked[i]), i + 1);
    }
  }
}
