/** Verification after an action: enough consecutive good samples, or no success. */
module Verifier {
  import opened Basics

  datatype Metrics = Metrics(consumers: int, queueDepth: int, errorRate: real)

  datatype Thresholds = Thresholds(minConsumers: int, maxQueueDepth: int, maxErrorRate: real) {
    /** The thresholds a verifier is built with: at least one consumer, and an error rate that
        can be met. */
    function Filled(): (t: Thresholds)
      ensures t.minConsumers >= 1 && t.maxErrorRate > 0.0 && t.maxQueueDepth == maxQueueDepth
      ensures t == this <==> minConsumers >= 1 && maxErrorRate > 0.0
    {
      this.(minConsumers := if minConsumers <= 0 then 1 else minConsumers,
            maxErrorRate := if maxErrorRate <= 0.0 then 0.01 else maxErrorRate)
    }
  }

  datatype RunConfig = RunConfig(attempts: int, requiredSuccesses: int) {
    /** Fills in zero values only: the number of required successes is never lowered to the
        number of attempts. */
    function Normalized(): RunConfig {
      RunConfig(if attempts <= 0 then 1 else attempts,
                if requiredSuccesses <= 0 then 1 else requiredSuccesses)
    }
  }

  datatype Check = Check(name: string, passed: bool)

  /** One collection: the gatherer failed with a text, or returned a sample. */
  datatype Gathered = GatherError(text: string) | Sample(metrics: Metrics)

  datatype Attempt = Attempt(number: nat, passed: bool, gathered: Gathered, checks: seq<Check>)

  datatype Reason = NoReason | NoGatherer | Canceled | CollectionFailed(text: string) | ChecksFailed
                  | TooFewSuccesses(successes: nat, needed: nat)

  datatype SequenceResult =
    SequenceResult(passed: bool, successes: nat, attempts: seq<Attempt>, reason: Reason)

  datatype Error = MissingGatherer | ContextDone

  function Verify(t: Thresholds, m: Metrics): seq<Check> {
    [Check("consumer_count", m.consumers >= t.minConsumers),
     Check("queue_depth", m.queueDepth <= t.maxQueueDepth),
     Check("error_rate", m.errorRate <= t.maxErrorRate)]
  }

  predicate AllPassed(checks: seq<Check>) {
    forall k | 0 <= k < |checks| :: checks[k].passed
  }

  predicate Good(t: Thresholds, g: Gathered) {
    g.Sample? && AllPassed(Verify(t, g.metrics))
  }

  /** The `need` collections just before `end` are all good. */
  predicate Window(t: Thresholds, feed: seq<Gathered>, need: nat, end: nat) {
    need <= end <= |feed| && forall k | end - need <= k < end :: Good(t, feed[k])
  }

  /** `feed` holds what the gatherer returns until the context is cancelled. */
  ghost predicate Passes(t: Thresholds, config: RunConfig, feed: seq<Gathered>) {
    var c := config.Normalized();
    exists end :: 0 <= end <= c.attempts && Window(t, feed, c.requiredSuccesses, end)
  }

  function AtLeastOne(n: int): nat {
    if n <= 0 then 1 else n
  }

  /** The sample has enough consumers, a short enough queue and few enough errors. */
  predicate Meets(m: Metrics, minConsumers: int, maxQueueDepth: int, maxErrorRate: real) {
    m.consumers >= minConsumers && m.queueDepth <= maxQueueDepth && m.errorRate <= maxErrorRate
  }

  /** The `need` collections before `end` are samples within all three given thresholds. */
  predicate AllMeet(given: Thresholds, feed: seq<Gathered>, need: nat, end: nat) {
    need <= end <= |feed| && forall k | end - need <= k < end ::
      && feed[k].Sample?
      && Meets(feed[k].metrics, AtLeastOne(given.minConsumers), given.maxQueueDepth,
               if given.maxErrorRate <= 0.0 then 0.01 else given.maxErrorRate)
  }

  /** What it takes to pass, in the terms of the configuration as it was given: within the
      attempts, as many samples in a row as are required, each within all three thresholds.
      Values that are not positive stand for one attempt, one success, one consumer and an
      error rate of 0.01; a queue may be limited to nothing. */
  lemma PassesExactlyWhen(given: Thresholds, config: RunConfig, feed: seq<Gathered>)
    ensures Passes(given.Filled(), config, feed) <==>
            exists end: nat :: end <= AtLeastOne(config.attempts)
                               && AllMeet(given, feed, AtLeastOne(config.requiredSuccesses), end)
  {
    var need := AtLeastOne(config.requiredSuccesses);
    forall end: nat ensures Window(given.Filled(), feed, need, end) <==> AllMeet(given, feed, need, end) {
      WindowMeets(given, feed, need, end);
    }
    assert config.Normalized() == RunConfig(AtLeastOne(config.attempts), need);
    hide Window, AllMeet;
    if end: nat :| end <= AtLeastOne(config.attempts) && AllMeet(given, feed, need, end) {
      assert Window(given.Filled(), feed, need, end);
    }
  }

  lemma WindowMeets(given: Thresholds, feed: seq<Gathered>, need: nat, end: nat)
    ensures Window(given.Filled(), feed, need, end) <==> AllMeet(given, feed, need, end)
  {
    var t := given.Filled();
    forall g: Gathered
      ensures Good(t, g) <==> g.Sample? && Meets(g.metrics, t.minConsumers, t.maxQueueDepth, t.maxErrorRate)
    {
      GoodMeets(t, g);
    }
    hide Good, Meets;
  }

  lemma GoodMeets(t: Thresholds, g: Gathered)
    ensures Good(t, g) <==> g.Sample? && Meets(g.metrics, t.minConsumers, t.maxQueueDepth, t.maxErrorRate)
  {
    if g.Sample? {
      var checks := Verify(t, g.metrics);
      assert AllPassed(checks) <==> checks[0].passed && checks[1].passed && checks[2].passed;
    }
  }

  /** Requiring more successes than attempts never passes: what is required is never lowered. */
  lemma TooManyRequired(t: Thresholds, config: RunConfig, feed: seq<Gathered>)
    requires config.requiredSuccesses > 1 && config.requiredSuccesses > config.attempts
    ensures !Passes(t, config, feed)
  {
  }

  /** Exactly the last `s` of the first `n` collections are good. */
  ghost predicate Streak(t: Thresholds, feed: seq<Gathered>, n: nat, s: nat) {
    && s <= n <= |feed|
    && (forall k | n - s <= k < n :: Good(t, feed[k]))
    && (s < n ==> !Good(t, feed[n - s - 1]))
  }

  /** A window ends here exactly when the streak is long enough. */
  lemma StreakIsWindow(t: Thresholds, feed: seq<Gathered>, n: nat, s: nat, need: nat)
    requires Streak(t, feed, n, s)
    ensures Window(t, feed, need, n) <==> need <= s
  {
  }

  /** Every collection made so far is on record with its verdict. */
  ghost predicate Recorded(t: Thresholds, feed: seq<Gathered>, attempts: seq<Attempt>) {
    && |attempts| <= |feed|
    && forall k | 0 <= k < |attempts| ::
         && attempts[k].number == k + 1
         && attempts[k].gathered == feed[k]
         && attempts[k].passed == Good(t, feed[k])
         && attempts[k].checks == if feed[k].Sample? then Verify(t, feed[k].metrics) else []
  }

  lemma RecordNext(t: Thresholds, feed: seq<Gathered>, attempts: seq<Attempt>, next: Attempt)
    requires Recorded(t, feed, attempts) && |attempts| < |feed|
    requires var g := feed[|attempts|];
             next == Attempt(|attempts| + 1, Good(t, g), g, if g.Sample? then Verify(t, g.metrics) else [])
    ensures Recorded(t, feed, attempts + [next])
  {
  }

  lemma StreakNext(t: Thresholds, feed: seq<Gathered>, n: nat, s: nat)
    requires Streak(t, feed, n, s) && n < |feed|
    ensures Streak(t, feed, n + 1, if Good(t, feed[n]) then s + 1 else 0)
  {
  }

  /** What a finished sequence over `feed` reports. */
  ghost predicate Reports(t: Thresholds, c: RunConfig, feed: seq<Gathered>, res: SequenceResult,
                          err: Option<Error>)
    requires c.attempts > 0 && c.requiredSuccesses > 0
  {
    var n := |res.attempts|;
    && Recorded(t, feed, res.attempts)
    && Streak(t, feed, n, res.successes)
    && n <= c.attempts
    && (forall e | 0 <= e < n :: !Window(t, feed, c.requiredSuccesses, e))
    && (res.passed <==> Window(t, feed, c.requiredSuccesses, n))
    && (!res.passed ==> n == Min(c.attempts, |feed|))
    && (err == if !res.passed && |feed| < c.attempts then Some(ContextDone) else None)
    && (res.passed <==> res.reason == NoReason)
  }

  /** The verdict is exact: the sequence passed if and only if some window within the attempts
      and before the cancellation is good throughout. */
  lemma ReportIsVerdict(t: Thresholds, config: RunConfig, feed: seq<Gathered>, res: SequenceResult,
                        err: Option<Error>)
    requires Reports(t, config.Normalized(), feed, res, err)
    ensures res.passed <==> Passes(t, config, feed)
    ensures err.Some? ==> !res.passed
  {
  }

  /** What has been collected so far, with no good window before the last collection. */
  ghost predicate Collected(t: Thresholds, c: RunConfig, feed: seq<Gathered>, attempts: seq<Attempt>, streak: nat)
    requires c.requiredSuccesses > 0
  {
    && Recorded(t, feed, attempts) && Streak(t, feed, |attempts|, streak)
    && forall e | 0 <= e < |attempts| :: !Window(t, feed, c.requiredSuccesses, e)
  }

  /** With no window yet, the collection may end here or go on by one. */
  lemma CollectedStep(t: Thresholds, c: RunConfig, feed: seq<Gathered>, attempts: seq<Attempt>, streak: nat)
    requires c.attempts > 0 && c.requiredSuccesses > streak && |attempts| < c.attempts
    requires Collected(t, c, feed, attempts, streak)
    ensures |attempts| <= |feed|
    ensures |attempts| == |feed| ==> Reports(t, c, feed, SequenceResult(false, streak, attempts, Canceled),
                                             Some(ContextDone))
    ensures |attempts| < |feed| ==>
              var g := feed[|attempts|];
              var next := Attempt(|attempts| + 1, Good(t, g), g, if g.Sample? then Verify(t, g.metrics) else []);
              Collected(t, c, feed, attempts + [next], if next.passed then streak + 1 else 0)
  {
    hide Good, Verify;
    var n := |attempts|;
    StreakIsWindow(t, feed, n, streak, c.requiredSuccesses);
    if n < |feed| {
      var g := feed[n];
      RecordNext(t, feed, attempts, Attempt(n + 1, Good(t, g), g, if g.Sample? then Verify(t, g.metrics) else []));
      StreakNext(t, feed, n, streak);
    }
    hide Window, Recorded, Streak;
  }

  lemma PassIsReported(t: Thresholds, c: RunConfig, feed: seq<Gathered>, attempts: seq<Attempt>, streak: nat)
    requires c.attempts >= |attempts| > 0 && 0 < c.requiredSuccesses <= streak
    requires Collected(t, c, feed, attempts, streak)
    ensures Reports(t, c, feed, SequenceResult(true, streak, attempts, NoReason), None)
  {
  }

  lemma FailureIsReported(t: Thresholds, c: RunConfig, feed: seq<Gathered>, attempts: seq<Attempt>, streak: nat,
                          reason: Reason)
    requires c.attempts == |attempts| > 0 && c.requiredSuccesses > streak && reason != NoReason
    requires Collected(t, c, feed, attempts, streak)
    ensures Reports(t, c, feed, SequenceResult(false, streak, attempts, reason), None)
  {
  }

  /** One collection with its verdict. */
  method Collect(t: Thresholds, g: Gathered, number: nat) returns (attempt: Attempt)
    ensures attempt == Attempt(number, Good(t, g), g, if g.Sample? then Verify(t, g.metrics) else [])
  {
    var checks := if g.Sample? then Verify(t, g.metrics) else [];
    attempt := Attempt(number, g.Sample? && AllPassed(checks), g, checks);
  }

  /** Collects and verifies until `requiredSuccesses` collections in a row are good. */
  method VerifySequence(t: Thresholds, gatherer: Option<seq<Gathered>>, config: RunConfig)
    returns (res: SequenceResult, err: Option<Error>)
    ensures gatherer.None? ==> err == Some(MissingGatherer) && !res.passed && res.attempts == []
    ensures gatherer.Some? ==> Reports(t, config.Normalized(), gatherer.value, res, err)
  {
    if gatherer.None? {
      return SequenceResult(false, 0, [], NoGatherer), Some(MissingGatherer);
    }
    var feed := gatherer.value;
    var c := config.Normalized();
    var need := c.requiredSuccesses;
    var attempts, streak, reason := [], 0, NoReason;
    assert Collected(t, c, feed, attempts, streak);
    hide *;
    for i := 1 to c.attempts + 1
      invariant |attempts| == i - 1 && Collected(t, c, feed, attempts, streak) && streak < need
      invariant reason == NoReason || reason.CollectionFailed? || reason == ChecksFailed
    {
      CollectedStep(t, c, feed, attempts, streak);
      if i - 1 == |feed| {
        return SequenceResult(false, streak, attempts, Canceled), Some(ContextDone);
      }
      var g := feed[i - 1];
      var attempt := Collect(t, g, i);
      attempts := attempts + [attempt];
      if attempt.passed {
        streak := streak + 1;
        if streak >= need {
          PassIsReported(t, c, feed, attempts, streak);
          return SequenceResult(true, streak, attempts, NoReason), None;
        }
      } else {
        streak := 0;
        reason := if g.GatherError? && g.text != "" then CollectionFailed(g.text) else ChecksFailed;
      }
    }
    if reason == NoReason {
      reason := TooFewSuccesses(streak, need);
    }
    FailureIsReported(t, c, feed, attempts, streak, reason);
    return SequenceResult(false, streak, attempts, reason), None;
  }
}
