/** Where failed deliveries go over whole runs: which copies enter the retry queue and the
    dead-letter queue, with which headers, and when a delivery may be acknowledged. */
module DeadLetters {
  import opened Retry
  import opened Consumer

  /** A decodable delivery below the budget: its copy is to be retried. */
  predicate MayRetry(m: Message) {
    m.decodes && RetryCount(m.headers) < MAX_RETRIES
  }

  predicate SameButCount(h: Headers, g: Headers) {
    && g.Keys - {RETRY_COUNT} == h.Keys - {RETRY_COUNT}
    && forall k | k in h && k != RETRY_COUNT :: k in g && g[k] == h[k]
  }

  /** The copy that follows a failed delivery below the budget: one count more, at most the
      budget, and nothing else changed. */
  predicate IsNextCopy(m: Message, copy: Message) {
    && copy.event == m.event && copy.decodes == m.decodes
    && RetryCount(copy.headers) == RetryCount(m.headers) + 1 <= MAX_RETRIES
    && SameButCount(m.headers, copy.headers)
  }

  ghost predicate PhaseRight(s: System, p: Phase) {
    match p
    case Handling(m) => m.decodes
    case Routing(m, route, headers) =>
      if MayRetry(m) then route == ToRetry && IsNextCopy(m, m.(headers := headers))
      else route == ToDeadLetter && headers == m.headers
    case Finishing(m) => m.decodes && !MayRetry(m) && m in s.dead
    case Acking(m) => MayAcknowledge(s, m)
    case _ => true
  }

  /** Handled; or below the budget, with its next copy in the retry queue; or dead-lettered as
      it was, and, if it could be decoded, its event terminated. */
  ghost predicate MayAcknowledge(s: System, m: Message) {
    || m.event in s.handled || MayRetry(m)
    || (m in s.dead && (m.decodes ==> m.event in s.terminated))
  }

  ghost predicate AllRight(s: System) {
    forall w | w in s.workers :: PhaseRight(s, s.workers[w].phase)
  }

  lemma RightStays(s: System, t: System, p: Phase)
    requires PhaseRight(s, p) && s.dead <= t.dead && s.handled <= t.handled && s.terminated <= t.terminated
    ensures PhaseRight(t, p)
  {
  }

  lemma HistoryGrows(s: System, step: Step)
    requires Enabled(s, step)
    ensures var t := After(s, step); s.dead <= t.dead && s.handled <= t.handled && s.terminated <= t.terminated
  {
    hide After, WorkerAfter;
    StepAdds(s, step);
    WorkersChangeAlone(s, step);
    assert s.terminated <= QueuesAfter(s, step).terminated by { hide Land, Failures; QueuesKeepTerminated(s, step); }
  }

  lemma QueuesKeepTerminated(s: System, step: Step)
    requires Enabled(s, step)
    ensures s.terminated <= QueuesAfter(s, step).terminated
  {
  }

  /** A failed delivery is routed by its count alone. */
  lemma FailedIsRouted(m: Message)
    requires m.decodes && 0 <= RetryCount(m.headers) <= MAX_RETRIES
    ensures var (route, headers) := FailedRoute(m.headers);
            if MayRetry(m) then route == ToRetry && IsNextCopy(m, m.(headers := headers))
            else route == ToDeadLetter && headers == m.headers
  {
  }

  /** The counts of what a consumer holds are within the budget. */
  lemma HeldCount(s: System, w: nat)
    requires Inv(s) && w in s.workers && !s.workers[w].phase.Idle?
    ensures 0 <= RetryCount(s.workers[w].phase.m.headers) <= MAX_RETRIES
  {
    hide HasCopy, HoldsEvent, DeadOk, HasDeadLetter, RetryCount;
    assert WorkerOk(s, s.workers[w]);
    assert s.workers[w].phase.m in Current(s.workers[w].phase);
    assert CopyOk(s, s.workers[w].phase.m);
  }

  lemma MoverStaysRight(s: System, step: Step, w: nat)
    requires Inv(s) && Enabled(s, step) && w in s.workers && Moves(step, w) && PhaseRight(s, s.workers[w].phase)
    ensures PhaseRight(After(s, step), WorkerAfter(s.workers[w], step).phase)
  {
    hide Inv, IsNextCopy, RetryCount, FailedRoute;
    var p := s.workers[w].phase;
    HistoryGrows(s, step);
    RightStays(s, After(s, step), p);
    if !p.Idle? {
      HeldCount(s, w);
    }
    match step {
      case HandlerReturns(_, ok) => FailedIsRouted(p.m);
      case Republish(_, landed, confirmed) => assert p.route == ToDeadLetter ==> p.m.(headers := p.headers) == p.m;
      case _ =>
    }
  }

  lemma StepStaysRight(s: System, step: Step)
    requires Inv(s) && Enabled(s, step) && AllRight(s)
    ensures AllRight(After(s, step))
  {
    hide Inv, After, PhaseRight, Enabled, WorkerAfter;
    var t := After(s, step);
    forall w | w in t.workers ensures PhaseRight(t, t.workers[w].phase) {
      if w in s.workers {
        WorkersAfter(s, step, w);
        HistoryGrows(s, step);
        RightStays(s, t, s.workers[w].phase);
        if step != Disconnect(w) && Moves(step, w) {
          MoverStaysRight(s, step, w);
        } else {
          StaysOrLeaves(s, step, w);
        }
      } else {
        JoinsIdle(s, step, w);
      }
    }
  }

  lemma StaysOrLeaves(s: System, step: Step, w: nat)
    requires Enabled(s, step) && w in s.workers && !Moves(step, w)
    ensures w in After(s, step).workers ==> After(s, step).workers[w] == s.workers[w]
  {
    QueuesLeaveWorkers(s, step);
  }

  lemma JoinsIdle(s: System, step: Step, w: nat)
    requires Enabled(s, step) && w !in s.workers && w in After(s, step).workers
    ensures After(s, step).workers[w].phase.Idle? && PhaseRight(After(s, step), After(s, step).workers[w].phase)
  {
    QueuesLeaveWorkers(s, step);
  }

  lemma {:induction false} RunStaysRight(run: seq<System>, k: nat)
    requires IsRun(run) && k < |run|
    ensures Inv(run[k]) && AllRight(run[k])
  {
    hide Inv, Enabled, After, AllRight;
    RunHolds(run, k);
    if k == 0 {
      assert AllRight(run[0]) by { NobodyYet(run[0]); }
    } else {
      RunStaysRight(run, k - 1);
      StepInRun(run, k - 1);
      var step :| Enabled(run[k - 1], step) && run[k] == After(run[k - 1], step);
      StepStaysRight(run[k - 1], step);
    }
  }

  lemma NobodyYet(s: System)
    requires Init(s)
    ensures AllRight(s)
  {
  }

  // ---- the guarantees ----

  /** Some consumer is routing this delivery. */
  ghost predicate IsRouting(s: System, m: Message) {
    exists w :: w in s.workers && s.workers[w].phase.Routing? && s.workers[w].phase.m == m
  }

  /** What a step adds to the queues is the copy some consumer routes. */
  lemma StepLands(s: System, step: Step, copy: Message)
    requires Enabled(s, step)
    requires var t := After(s, step); t.retry[copy] > s.retry[copy] || t.dead[copy] > s.dead[copy]
    ensures step.Republish? && step.w in s.workers && IsRouting(s, s.workers[step.w].phase.m)
    ensures var p := s.workers[step.w].phase;
            && p.Routing? && copy == p.m.(headers := p.headers)
            && (After(s, step).retry[copy] > s.retry[copy] ==> p.route == ToRetry)
            && (After(s, step).dead[copy] > s.dead[copy] ==> p.route == ToDeadLetter)
  {
    hide WorkerAfter, Failures;
  }

  /** Every copy that enters the retry queue is the next one of a decodable delivery below the
      budget: exactly one count more, never more than the budget. A delivery that has used up
      its budget never enters it, and neither does one that cannot be decoded. */
  lemma RetriedOnceMore(run: seq<System>, k: nat, copy: Message)
    requires IsRun(run) && k < |run| - 1 && run[k + 1].retry[copy] > run[k].retry[copy]
    ensures exists m :: IsRouting(run[k], m) && m.decodes && RetryCount(m.headers) < MAX_RETRIES && IsNextCopy(m, copy)
  {
    hide IsRun, Inv, After, Enabled, IsNextCopy;
    RunStaysRight(run, k);
    StepInRun(run, k);
    var step :| Enabled(run[k], step) && run[k + 1] == After(run[k], step);
    StepLands(run[k], step, copy);
  }

  /** Every copy that enters the dead-letter queue is the delivery itself, headers and all; and
      either its count is the budget or it cannot be decoded. */
  lemma DeadLetteredAsItWas(run: seq<System>, k: nat, copy: Message)
    requires IsRun(run) && k < |run| - 1 && run[k + 1].dead[copy] > run[k].dead[copy]
    ensures IsRouting(run[k], copy)
    ensures copy.decodes ==> RetryCount(copy.headers) == MAX_RETRIES
  {
    hide IsRun, Inv, After, Enabled, IsNextCopy;
    RunStaysRight(run, k);
    StepInRun(run, k);
    var step :| Enabled(run[k], step) && run[k + 1] == After(run[k], step);
    StepLands(run[k], step, copy);
    HeldCount(run[k], step.w);
  }

  /** A delivery is acknowledged only once its event was handled, or its count is below the
      budget and it was retried, or it was dead-lettered as it was and, if it could be decoded,
      its event was terminated: a spent delivery that was never handled ends both in the
      dead-letter queue and in the terminal callback. */
  lemma AcknowledgedOnlyWhenDone(run: seq<System>, k: nat, w: nat)
    requires IsRun(run) && k < |run| && w in run[k].workers && run[k].workers[w].phase.Acking?
    ensures var m := run[k].workers[w].phase.m;
            || m.event in run[k].handled
            || (m.decodes && RetryCount(m.headers) < MAX_RETRIES)
            || (m in run[k].dead && (m.decodes ==> m.event in run[k].terminated))
  {
    hide IsRun, Inv;
    RunStaysRight(run, k);
  }

  /** How a delivery may go on, for a consumer that stays connected. */
  ghost predicate GoesOn(s: System, t: System, was: Worker, q: Phase) {
    match was.phase
    case Idle =>
      exists m :: m in was.buffered && q == if m.decodes then Handling(m) else Routing(m, ToDeadLetter, m.headers)
    case Handling(m) =>
      || (q == Acking(m) && m.event in t.handled)
      || (q.Routing? && q.m == m && Failures(t, m.event) == Failures(s, m.event) + 1
          && if RetryCount(m.headers) == MAX_RETRIES then q.route == ToDeadLetter && q.headers == m.headers
             else q.route == ToRetry && IsNextCopy(m, m.(headers := q.headers)))
    case Routing(m, route, headers) =>
      || q == Nacking(m)
      || (if route == ToRetry then q == Acking(m) && m.(headers := headers) in t.retry
          else m in t.dead && q == if m.decodes then Finishing(m) else Acking(m))
    case Finishing(m) => q == Acking(m) && m.event in t.terminated
    case Acking(m) => q == Idle
    case Nacking(m) => q == Idle
  }

  lemma MoverGoesOn(s: System, step: Step, w: nat)
    requires Inv(s) && Enabled(s, step) && w in s.workers && Moves(step, w) && !step.Deliver?
    requires PhaseRight(s, s.workers[w].phase)
    ensures GoesOn(s, After(s, step), s.workers[w], WorkerAfter(s.workers[w], step).phase)
  {
    hide Inv, IsNextCopy, RetryCount, FailedRoute;
    var p := s.workers[w].phase;
    if !p.Idle? {
      HeldCount(s, w);
    }
    match step {
      case HandlerReturns(_, ok) => FailedIsRouted(p.m);
      case Republish(_, landed, confirmed) => assert p.route == ToDeadLetter ==> p.m.(headers := p.headers) == p.m;
      case _ =>
    }
  }

  /** The course of a delivery at a consumer that stays connected, step by step: a handler that
      fails costs it one failure and sends it on by its count alone; no publish goes
      unconfirmed; and a spent delivery is acknowledged only behind the callback. */
  lemma DeliveryCourse(run: seq<System>, k: nat, w: nat)
    requires IsRun(run) && k < |run| - 1 && w in run[k].workers && w in run[k + 1].workers
    ensures var q := run[k + 1].workers[w].phase;
            q == run[k].workers[w].phase || GoesOn(run[k], run[k + 1], run[k].workers[w], q)
  {
    hide IsRun, Inv, After, Enabled, GoesOn;
    RunStaysRight(run, k);
    StepInRun(run, k);
    var step :| Enabled(run[k], step) && run[k + 1] == After(run[k], step);
    StepGoesOn(run[k], step, w);
  }

  lemma StepGoesOn(s: System, step: Step, w: nat)
    requires Inv(s) && AllRight(s) && Enabled(s, step) && w in s.workers && w in After(s, step).workers
    ensures var q := After(s, step).workers[w].phase;
            q == s.workers[w].phase || GoesOn(s, After(s, step), s.workers[w], q)
  {
    hide Inv, After, GoesOn, PhaseRight, FailedRoute;
    if Moves(step, w) {
      WorkersAfter(s, step, w);
      if !step.Deliver? {
        MoverGoesOn(s, step, w);
      }
    } else {
      StaysOrLeaves(s, step, w);
    }
  }

  /** A consumer whose handler had this event now acknowledges it, or routes it on. */
  ghost predicate HandlerEnded(s: System, t: System, e: nat, acknowledges: bool) {
    exists w :: w in s.workers && w in t.workers && s.workers[w].phase.Handling?
                && s.workers[w].phase.m.event == e
                && t.workers[w].phase.Acking? == acknowledges && t.workers[w].phase.Routing? != acknowledges
  }

  /** The history is true: an event becomes handled only when a handler of it succeeds, fails
      once more only when one fails, and becomes terminated only behind its dead letter. */
  lemma HistoryIsTrue(run: seq<System>, k: nat, e: nat)
    requires IsRun(run) && k < |run| - 1
    ensures e in run[k + 1].handled && e !in run[k].handled ==> HandlerEnded(run[k], run[k + 1], e, true)
    ensures Failures(run[k + 1], e) != Failures(run[k], e) ==>
              Failures(run[k + 1], e) == Failures(run[k], e) + 1 && HandlerEnded(run[k], run[k + 1], e, false)
    ensures e in run[k + 1].terminated && e !in run[k].terminated ==> HasDeadLetter(run[k], e)
  {
    hide IsRun, After, Enabled, HandlerEnded, Inv, HasDeadLetter, Failures;
    StepInRun(run, k);
    var step :| Enabled(run[k], step) && run[k + 1] == After(run[k], step);
    RunHolds(run, k);
    StepHistory(run[k], step, e);
  }

  lemma StepHistory(s: System, step: Step, e: nat)
    requires Inv(s) && Enabled(s, step)
    ensures var t := After(s, step);
            && (e in t.handled && e !in s.handled ==> HandlerEnded(s, t, e, true))
            && (Failures(t, e) != Failures(s, e) ==>
                  Failures(t, e) == Failures(s, e) + 1 && HandlerEnded(s, t, e, false))
            && (e in t.terminated && e !in s.terminated ==> HasDeadLetter(s, e))
  {
    hide FailedRoute, Inv, HasDeadLetter, HandlerEnded, Failures, After;
    var t := After(s, step);
    if step.HandlerReturns? {
      SuccessOrFailure(s, step.w, step.ok, e);
      assert HandlerEnded(s, t, s.workers[step.w].phase.m.event, step.ok) by { EndsHandler(s, step.w, step.ok); }
    } else {
      OthersKeepHistory(s, step);
      SameFailures(s, t, e);
      if step.Terminate? {
        FinishingHasLetter(s, step.w);
      }
    }
  }

  lemma OthersKeepHistory(s: System, step: Step)
    requires Enabled(s, step) && !step.HandlerReturns?
    ensures var t := After(s, step);
            && t.handled == s.handled && t.failures == s.failures
            && (!step.Terminate? ==> t.terminated == s.terminated)
            && (step.Terminate? ==> t.terminated == s.terminated + {s.workers[step.w].phase.m.event})
  {
    WorkersChangeAlone(s, step);
    hide After, WorkerAfter, Failures, Land, Current;
    if step.Republish? {
      var p := s.workers[step.w].phase;
      LandKeepsHistory(s, p.m.(headers := p.headers), p.route);
    }
  }

  lemma LandKeepsHistory(s: System, m: Message, route: Route)
    ensures var t := Land(s, m, route);
            t.handled == s.handled && t.failures == s.failures && t.terminated == s.terminated
  {
  }

  lemma SameFailures(s: System, t: System, e: nat)
    requires t.failures == s.failures
    ensures Failures(t, e) == Failures(s, e)
  {
  }

  lemma SuccessOrFailure(s: System, w: nat, ok: bool, e: nat)
    requires Enabled(s, HandlerReturns(w, ok))
    ensures var t, mine := After(s, HandlerReturns(w, ok)), s.workers[w].phase.m.event == e;
            && (e in t.handled && e !in s.handled ==> ok && mine)
            && Failures(t, e) == Failures(s, e) + (if !ok && mine then 1 else 0)
            && t.terminated == s.terminated
  {
    hide FailedRoute;
  }

  lemma EndsHandler(s: System, w: nat, ok: bool)
    requires Enabled(s, HandlerReturns(w, ok))
    ensures HandlerEnded(s, After(s, HandlerReturns(w, ok)), s.workers[w].phase.m.event, ok)
  {
    hide FailedRoute, Failures;
    var t := After(s, HandlerReturns(w, ok));
    assert w in t.workers && t.workers[w].phase.Acking? == ok && t.workers[w].phase.Routing? != ok;
  }

  lemma FinishingHasLetter(s: System, w: nat)
    requires Inv(s) && w in s.workers && s.workers[w].phase.Finishing?
    ensures HasDeadLetter(s, s.workers[w].phase.m.event)
  {
    hide HasCopy, BagOk, DeadOk;
    assert WorkerOk(s, s.workers[w]);
  }

  // ---- copies are conserved ----

  function Bags(w: Worker): multiset<Message> {
    w.buffered + w.forgotten + Current(w.phase)
  }

  ghost function Unacknowledged(workers: map<nat, Worker>): multiset<Message> {
    if workers == map[] then multiset{}
    else
      var w :| w in workers;
      Bags(workers[w]) + Unacknowledged(workers - {w})
  }

  /** Every copy the broker holds: in a queue, or delivered and not acknowledged. */
  ghost function Copies(s: System): multiset<Message> {
    s.main + s.retry + s.dead + Unacknowledged(s.workers)
  }

  lemma {:induction false} WithoutOne(workers: map<nat, Worker>, w: nat)
    requires w in workers
    ensures Unacknowledged(workers) == Bags(workers[w]) + Unacknowledged(workers - {w})
  {
    hide Bags;
    var v :| v in workers && Unacknowledged(workers) == Bags(workers[v]) + Unacknowledged(workers - {v});
    if v != w {
      WithoutOne(workers - {v}, w);
      WithoutOne(workers - {w}, v);
      assert workers - {v} - {w} == workers - {w} - {v};
    }
  }

  lemma WithOneChanged(workers: map<nat, Worker>, w: nat, worker: Worker)
    requires w in workers
    ensures Unacknowledged(workers[w := worker]) + Bags(workers[w]) == Unacknowledged(workers) + Bags(worker)
  {
    hide Bags;
    WithoutOne(workers, w);
    WithoutOne(workers[w := worker], w);
    assert workers[w := worker] - {w} == workers - {w};
  }

  lemma WithOneMore(workers: map<nat, Worker>, w: nat, worker: Worker)
    requires w !in workers
    ensures Unacknowledged(workers[w := worker]) == Unacknowledged(workers) + Bags(worker)
  {
    hide Bags;
    WithoutOne(workers[w := worker], w);
    assert workers[w := worker] - {w} == workers;
  }

  /** The copies a step brings in: a publication, or what a republication lands. */
  function Added(s: System, step: Step): multiset<Message>
    requires Enabled(s, step)
  {
    match step
    case Publish(m, _) => multiset{m}
    case Republish(w, landed, _) =>
      var p := s.workers[w].phase;
      if landed then multiset{p.m.(headers := p.headers)} else multiset{}
    case _ => multiset{}
  }

  /** The copy a step takes out: only an acknowledgement that gets through does. */
  function Removed(s: System, step: Step): multiset<Message>
    requires Enabled(s, step)
  {
    if step.Ack? && step.ok then Current(s.workers[step.w].phase) else multiset{}
  }

  /** Nothing else creates or destroys a copy: deliveries, failures, lost connections and expired
      retries only move them. */
  lemma CopiesAreConserved(s: System, step: Step)
    requires Enabled(s, step)
    ensures Copies(After(s, step)) + Removed(s, step) == Copies(s) + Added(s, step)
  {
    if MovesOne(step) {
      MoverConserves(s, step);
    } else {
      OthersConserve(s, step);
    }
  }

  lemma OthersConserve(s: System, step: Step)
    requires Enabled(s, step) && !MovesOne(step)
    ensures Copies(After(s, step)) == Copies(s) + Added(s, step)
  {
    hide Unacknowledged;
    match step {
      case Publish(_, _) =>
      case RetryExpires(_) =>
      case Join(w) => WithOneMore(s.workers, w, Worker(Idle, multiset{}, multiset{}));
      case Disconnect(w) => WithoutOne(s.workers, w);
    }
  }

  function Queued(s: System): multiset<Message> {
    s.main + s.retry + s.dead
  }

  predicate MovesOne(step: Step) {
    !step.Publish? && !step.RetryExpires? && !step.Join? && !step.Disconnect?
  }

  /** What a consumer takes from the queues, and what it hands back. */
  function Taken(step: Step): multiset<Message> {
    if step.Deliver? then multiset{step.m} else multiset{}
  }

  function HandedBack(s: System, step: Step): multiset<Message>
    requires Enabled(s, step)
  {
    if step.Nack? && step.ok then Current(s.workers[step.w].phase) else multiset{}
  }

  lemma MoverConserves(s: System, step: Step)
    requires Enabled(s, step) && MovesOne(step)
    ensures Copies(After(s, step)) + Removed(s, step) == Copies(s) + Added(s, step)
  {
    var was, next := s.workers[step.w], WorkerAfter(s.workers[step.w], step);
    QueuesLeaveWorkers(s, step);
    WithOneChanged(s.workers, step.w, next);
    QueuesMove(s, step);
    BagsMove(s, step);
    var t := After(s, step);
    assert t.workers == s.workers[step.w := next] && Queued(t) == Queued(QueuesAfter(s, step)) by {
      hide FailedRoute, Failures, Land;
    }
    hide *;
    assert Copies(t) == Queued(t) + Unacknowledged(t.workers) by { CopiesAre(t); }
    assert Copies(s) == Queued(s) + Unacknowledged(s.workers) by { CopiesAre(s); }
    Balance(Queued(s), Queued(t), Unacknowledged(s.workers), Unacknowledged(t.workers), Bags(was), Bags(next),
            Taken(step), HandedBack(s, step), Added(s, step), Removed(s, step));
  }

  lemma CopiesAre(s: System)
    ensures Copies(s) == Queued(s) + Unacknowledged(s.workers)
  {
  }

  lemma Balance(q: multiset<Message>, q': multiset<Message>, u: multiset<Message>, u': multiset<Message>,
                b: multiset<Message>, b': multiset<Message>, taken: multiset<Message>, back: multiset<Message>,
                added: multiset<Message>, removed: multiset<Message>)
    requires q' + taken == q + back + added && u' + b == u + b' && b' + back + removed == b + taken
    ensures q' + u' + removed == q + u + added
  {
    forall m: Message ensures (q' + u' + removed)[m] == (q + u + added)[m] {
      assert (q' + taken)[m] == (q + back + added)[m];
      assert (u' + b)[m] == (u + b')[m];
      assert (b' + back + removed)[m] == (b + taken)[m];
    }
  }

  lemma QueuesMove(s: System, step: Step)
    requires Enabled(s, step) && MovesOne(step)
    ensures Queued(QueuesAfter(s, step)) + Taken(step) == Queued(s) + HandedBack(s, step) + Added(s, step)
  {
    hide Failures, Queued, Land;
    if step.Deliver? {
      QueuesLose(s, step.m);
    } else if step.Republish? {
      hide QueuesAfter, Added;
      LandingMoves(s, step.w, step.landed, step.confirmed);
    } else if step.Nack? && step.ok {
      MainTakesBack(s, Current(s.workers[step.w].phase));
    } else {
      SameQueues(s, QueuesAfter(s, step));
    }
  }

  lemma LandingMoves(s: System, w: nat, landed: bool, confirmed: bool)
    requires Enabled(s, Republish(w, landed, confirmed))
    ensures var step := Republish(w, landed, confirmed);
            Queued(QueuesAfter(s, step)) == Queued(s) + Added(s, step)
  {
    hide Queued;
    var p := s.workers[w].phase;
    QueuesGain(s, p.m.(headers := p.headers));
    assert p.route == ToRetry || p.route == ToDeadLetter;
  }

  lemma SameQueues(s: System, t: System)
    requires t.main == s.main && t.retry == s.retry && t.dead == s.dead
    ensures Queued(t) == Queued(s)
  {
  }

  lemma QueuesLose(s: System, m: Message)
    requires m in s.main
    ensures Queued(s.(main := s.main - multiset{m})) + multiset{m} == Queued(s)
  {
  }

  lemma QueuesGain(s: System, m: Message)
    ensures Queued(Land(s, m, ToRetry)) == Queued(s) + multiset{m} == Queued(Land(s, m, ToDeadLetter))
  {
  }

  lemma MainTakesBack(s: System, back: multiset<Message>)
    ensures Queued(s.(main := s.main + back)) == Queued(s) + back
  {
  }

  lemma BagsMove(s: System, step: Step)
    requires Enabled(s, step) && MovesOne(step)
    ensures var was := s.workers[step.w];
            Bags(WorkerAfter(was, step)) + HandedBack(s, step) + Removed(s, step) == Bags(was) + Taken(step)
  {
    hide FailedRoute, Bags, Current, WorkerAfter;
    var was := s.workers[step.w];
    if step.Deliver? || step.Take? {
      BagsTake(was, step);
    } else if step.Ack? || step.Nack? {
      BagsRelease(was, step);
    } else {
      BagsKeep(was, step);
    }
  }

  lemma BagsTake(was: Worker, step: Step)
    requires step.Deliver? || (step.Take? && was.phase.Idle? && step.m in was.buffered)
    ensures Bags(WorkerAfter(was, step)) == Bags(was) + Taken(step)
  {
  }

  lemma BagsRelease(was: Worker, step: Step)
    requires (step.Ack? || step.Nack?) && !was.phase.Idle?
    ensures Bags(WorkerAfter(was, step)) + (if step.ok then Current(was.phase) else multiset{}) == Bags(was)
  {
  }

  lemma BagsKeep(was: Worker, step: Step)
    requires step.HandlerReturns? || step.Republish? || step.Terminate?
    requires !was.phase.Idle? && (step.Republish? ==> was.phase.Routing?)
    ensures Bags(WorkerAfter(was, step)) == Bags(was)
  {
    hide FailedRoute;
  }

  /** A copy comes to the main queue only when it is published, when it is handed back, with
      its consumer's connection, or when its stay in the retry queue ends. */
  lemma MainGains(run: seq<System>, k: nat, m: Message)
    requires IsRun(run) && k < |run| - 1 && run[k + 1].main[m] > run[k].main[m]
    ensures || m.headers == map[]
            || (exists w :: w in run[k].workers && run[k].workers[w].phase == Nacking(m))
            || (exists w :: w in run[k].workers && w !in run[k + 1].workers && Holds(run[k].workers[w], m))
            || run[k].retry == run[k + 1].retry + multiset{m}
  {
    hide IsRun, WorkerAfter, Failures, Land;
    StepInRun(run, k);
    var step :| Enabled(run[k], step) && run[k + 1] == After(run[k], step);
    StepMain(run[k], step, m);
  }

  predicate Holds(w: Worker, m: Message) {
    m in w.buffered + w.forgotten + Current(w.phase)
  }

  lemma StepMain(s: System, step: Step, m: Message)
    requires Enabled(s, step) && After(s, step).main[m] > s.main[m]
    ensures || step == Publish(m, true) || step == Publish(m, false)
            || (step.Nack? && s.workers[step.w].phase == Nacking(m))
            || (step.Disconnect? && step.w !in After(s, step).workers && Holds(s.workers[step.w], m))
            || (step == RetryExpires(m) && s.retry == After(s, step).retry + multiset{m})
  {
    hide WorkerAfter, Failures, FailedRoute;
  }
}
