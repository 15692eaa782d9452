/** The delivery protocol of the message consumer: handle, or republish to the retry queue or
    the dead-letter queue and only then acknowledge. Any number of consumers share the main
    queue; publishes may land without being confirmed, acknowledgements may fail, and a
    consumer may lose its connection at any point. */
module Consumer {
  import opened Retry

  /** A copy of a published event. The body never changes; the headers do. */
  datatype Message = Message(event: nat, decodes: bool, headers: Headers)

  /** What a consumer does next with the delivery in its hands. */
  datatype Phase =
    | Idle
    | Handling(m: Message)
    | Routing(m: Message, route: Route, headers: Headers)  // publish and wait for the confirm
    | Finishing(m: Message)                                // dead letter confirmed: terminal callback
    | Acking(m: Message)
    | Nacking(m: Message)

  /** `buffered` was delivered and not looked at; `forgotten` was worked on, but its
      acknowledgement did not get through. The broker holds both as unacknowledged. */
  datatype Worker = Worker(phase: Phase, buffered: multiset<Message>, forgotten: multiset<Message>)

  datatype System = System(
    main: multiset<Message>,
    retry: multiset<Message>,
    dead: multiset<Message>,
    workers: map<nat, Worker>,
    published: set<nat>,         // events whose publisher saw the confirm
    handled: set<nat>,           // events some handler run completed
    terminated: set<nat>,        // events whose terminal callback ran
    failures: map<nat, nat>)     // failed handler runs, by event

  datatype Step =
    | Publish(m: Message, confirmed: bool)
    | Join(w: nat)
    | Deliver(w: nat, m: Message)
    | Take(w: nat, m: Message)
    | HandlerReturns(w: nat, ok: bool)
    | Republish(w: nat, landed: bool, confirmed: bool)
    | Terminate(w: nat)
    | Ack(w: nat, ok: bool)
    | Nack(w: nat, ok: bool)
    | Disconnect(w: nat)
    | RetryExpires(m: Message)

  function Failures(s: System, e: nat): nat {
    if e in s.failures then s.failures[e] else 0
  }

  function Current(p: Phase): multiset<Message> {
    match p
    case Idle => multiset{}
    case Handling(m) => multiset{m}
    case Routing(m, _, _) => multiset{m}
    case Finishing(m) => multiset{m}
    case Acking(m) => multiset{m}
    case Nacking(m) => multiset{m}
  }

  predicate Enabled(s: System, step: Step) {
    match step
    case Publish(m, _) => m.headers == map[]
    case Join(w) => w !in s.workers
    case Deliver(w, m) => w in s.workers && m in s.main
    case Take(w, m) => w in s.workers && s.workers[w].phase.Idle? && m in s.workers[w].buffered
    case HandlerReturns(w, _) => w in s.workers && s.workers[w].phase.Handling?
    case Republish(w, landed, confirmed) =>
      w in s.workers && s.workers[w].phase.Routing? && (confirmed ==> landed)
    case Terminate(w) => w in s.workers && s.workers[w].phase.Finishing?
    case Ack(w, _) => w in s.workers && s.workers[w].phase.Acking?
    case Nack(w, _) => w in s.workers && s.workers[w].phase.Nacking?
    case Disconnect(w) => w in s.workers
    case RetryExpires(m) => m in s.retry
  }

  function Set(s: System, w: nat, worker: Worker): System {
    s.(workers := s.workers[w := worker])
  }

  /** The copy a confirmed or unconfirmed publish may have put into a queue. */
  function Land(s: System, m: Message, route: Route): System {
    match route
    case ToRetry => s.(retry := s.retry + multiset{m})
    case ToDeadLetter => s.(dead := s.dead + multiset{m})
  }

  /** The consumer a step moves, for the steps of one that stays connected. */
  predicate Moves(step: Step, w: nat) {
    match step
    case Deliver(v, _) => v == w
    case Take(v, _) => v == w
    case HandlerReturns(v, _) => v == w
    case Republish(v, _, _) => v == w
    case Terminate(v) => v == w
    case Ack(v, _) => v == w
    case Nack(v, _) => v == w
    case _ => false
  }

  /** The consumer after its step. */
  function WorkerAfter(worker: Worker, step: Step): Worker
    requires !step.Publish? && !step.Join? && !step.Disconnect? && !step.RetryExpires?
    requires step.HandlerReturns? || step.Republish? || step.Terminate? || step.Ack? || step.Nack? ==>
               !worker.phase.Idle?
    requires step.Republish? ==> worker.phase.Routing?
  {
    match step
    case Deliver(_, m) => worker.(buffered := worker.buffered + multiset{m})
    case Take(_, m) =>
      worker.(buffered := worker.buffered - multiset{m},
              phase := if m.decodes then Handling(m) else Routing(m, ToDeadLetter, m.headers))
    case HandlerReturns(_, ok) =>
      var m := worker.phase.m;
      var (route, headers) := FailedRoute(m.headers);
      worker.(phase := if ok then Acking(m) else Routing(m, route, headers))
    case Republish(_, _, confirmed) =>
      var p := worker.phase;
      worker.(phase := if !confirmed then Nacking(p.m)
                       else if p.route.ToDeadLetter? && p.m.decodes then Finishing(p.m)
                       else Acking(p.m))
    case Terminate(_) => worker.(phase := Acking(worker.phase.m))
    case Ack(_, ok) =>
      worker.(phase := Idle,
              forgotten := if ok then worker.forgotten else worker.forgotten + multiset{worker.phase.m})
    case Nack(_, ok) =>
      worker.(phase := Idle,
              forgotten := if ok then worker.forgotten else worker.forgotten + multiset{worker.phase.m})
  }

  /** The queues and the history after a step. */
  function QueuesAfter(s: System, step: Step): System
    requires Enabled(s, step)
  {
    match step
    case Publish(m, confirmed) =>
      s.(main := s.main + multiset{m},
         published := if confirmed then s.published + {m.event} else s.published)
    case Deliver(w, m) => s.(main := s.main - multiset{m})
    case HandlerReturns(w, ok) =>
      var m := s.workers[w].phase.m;
      if ok then s.(handled := s.handled + {m.event})
      else s.(failures := s.failures[m.event := Failures(s, m.event) + 1])
    case Republish(w, landed, _) =>
      var p := s.workers[w].phase;
      if landed then Land(s, p.m.(headers := p.headers), p.route) else s
    case Terminate(w) => s.(terminated := s.terminated + {s.workers[w].phase.m.event})
    case Nack(w, ok) => if ok then s.(main := s.main + multiset{s.workers[w].phase.m}) else s
    case Disconnect(w) =>
      s.(main := s.main + s.workers[w].buffered + s.workers[w].forgotten + Current(s.workers[w].phase))
    case RetryExpires(m) => s.(retry := s.retry - multiset{m}, main := s.main + multiset{m})
    case _ => s
  }

  function After(s: System, step: Step): System
    requires Enabled(s, step)
  {
    var t := QueuesAfter(s, step);
    match step
    case Publish(_, _) => t
    case RetryExpires(_) => t
    case Join(w) => Set(t, w, Worker(Idle, multiset{}, multiset{}))
    case Disconnect(w) => t.(workers := s.workers - {w})
    case _ => Set(t, step.w, WorkerAfter(s.workers[step.w], step))
  }

  ghost predicate Init(s: System) {
    s == System(multiset{}, multiset{}, multiset{}, map[], {}, {}, {}, map[])
  }

  ghost predicate Next(s: System, t: System) {
    exists step :: Enabled(s, step) && t == After(s, step)
  }

  ghost predicate IsRun(run: seq<System>) {
    && run != [] && Init(run[0])
    && forall k {:trigger Next(run[k], run[k + 1])} | 0 <= k < |run| - 1 :: Next(run[k], run[k + 1])
  }

  lemma StepInRun(run: seq<System>, k: nat)
    requires IsRun(run) && k < |run| - 1
    ensures Next(run[k], run[k + 1])
  {
  }

  // ---- where copies are ----

  ghost predicate HoldsEvent(bag: multiset<Message>, e: nat) {
    exists m :: m in bag && m.event == e
  }

  /** A delivery about to be acknowledged no longer counts: it is on its way out. */
  function Kept(p: Phase): multiset<Message> {
    if p.Acking? || p.Finishing? then multiset{} else Current(p)
  }

  ghost predicate WorkerHolds(w: Worker, e: nat) {
    HoldsEvent(w.buffered, e) || HoldsEvent(w.forgotten, e) || HoldsEvent(Kept(w.phase), e)
  }

  /** The event has a copy in a queue or unacknowledged at a consumer. */
  ghost predicate HasCopy(s: System, e: nat) {
    || HoldsEvent(s.main, e) || HoldsEvent(s.retry, e) || HoldsEvent(s.dead, e)
    || exists w :: w in s.workers && WorkerHolds(s.workers[w], e)
  }

  // ---- what holds of every copy ----

  /** A copy's count is within the budget and never exceeds the failed runs of its event. */
  ghost predicate CopyOk(s: System, m: Message) {
    0 <= RetryCount(m.headers) <= MAX_RETRIES && RetryCount(m.headers) <= Failures(s, m.event)
  }

  ghost predicate BagOk(s: System, bag: multiset<Message>) {
    forall m | m in bag :: CopyOk(s, m)
  }

  ghost predicate DeadOk(s: System) {
    forall m | m in s.dead && m.decodes :: Failures(s, m.event) >= MAX_RETRIES + 1
  }

  ghost predicate HasDeadLetter(s: System, e: nat) {
    exists m :: m in s.dead && m.event == e && m.decodes
  }

  ghost predicate WorkerOk(s: System, w: Worker) {
    && BagOk(s, w.buffered) && BagOk(s, w.forgotten) && BagOk(s, Current(w.phase))
    && match w.phase
       case Handling(m) => m.decodes
       case Routing(m, route, headers) =>
         && CopyOk(s, m.(headers := headers))
         && (route.ToDeadLetter? && m.decodes ==> Failures(s, m.event) >= MAX_RETRIES + 1)
       case Finishing(m) => HasDeadLetter(s, m.event)
       case _ => true
  }

  ghost predicate Inv(s: System) {
    && (forall e | e in s.published :: e in s.handled || HasCopy(s, e))
    && (forall e | e in s.terminated :: HasDeadLetter(s, e))
    && BagOk(s, s.main) && BagOk(s, s.retry) && BagOk(s, s.dead) && DeadOk(s)
    && (forall w | w in s.workers :: WorkerOk(s, s.workers[w]))
  }

  // ---- every step keeps it ----

  /** No step drops the last copy of an event that is not handled. */
  lemma StepKeepsCopies(s: System, step: Step, e: nat)
    requires Enabled(s, step) && HasCopy(s, e)
    ensures e in After(s, step).handled || HasCopy(After(s, step), e)
  {
    hide After, Enabled, WorkerHolds;
    if m :| (m in s.main || m in s.retry || m in s.dead) && m.event == e {
      QueueKeepsCopy(s, step, m);
    } else {
      var w :| w in s.workers && WorkerHolds(s.workers[w], e);
      WorkerKeepsCopy(s, step, w, e);
    }
  }

  lemma QueueKeepsCopy(s: System, step: Step, m: Message)
    requires Enabled(s, step) && (m in s.main || m in s.retry || m in s.dead)
    ensures HasCopy(After(s, step), m.event)
  {
    hide FailedRoute, Failures, HasCopy, Land;
    var t := After(s, step);
    if step.Deliver? && m == step.m {
      assert m in t.workers[step.w].buffered;
      assert WorkerHolds(t.workers[step.w], m.event);
      BagsAreCopies(t, step.w, m.event);
    } else {
      QueuesKeep(s, step, m);
      QueueIsCopy(t, m);
    }
  }

  /** A copy leaves its queue only by being delivered, or for the main queue. */
  lemma QueuesKeep(s: System, step: Step, m: Message)
    requires Enabled(s, step) && (m in s.main || m in s.retry || m in s.dead)
    requires step.Deliver? ==> m != step.m
    ensures var t := After(s, step); m in t.main || m in t.retry || m in t.dead
  {
    hide After, FailedRoute, Failures, Current;
    WorkersChangeAlone(s, step);
  }

  /** The consumers after a step: one may move, join or leave, the others stay. */
  lemma WorkersAfter(s: System, step: Step, w: nat)
    requires Enabled(s, step) && w in s.workers
    ensures var t := After(s, step);
            if step == Disconnect(w) then
              t.main == s.main + s.workers[w].buffered + s.workers[w].forgotten + Current(s.workers[w].phase)
            else
              w in t.workers
              && t.workers[w] == if Moves(step, w) then WorkerAfter(s.workers[w], step) else s.workers[w]
  {
    QueuesLeaveWorkers(s, step);
    WorkersChangeAlone(s, step);
    hide FailedRoute, Failures, WorkerAfter, Current;
  }

  /** A consumer that takes a step keeps what it held, if only as the delivery in its hands. */
  lemma BagsAfter(worker: Worker, step: Step, e: nat)
    requires step.Deliver? || step.Take? || step.HandlerReturns? || step.Republish? || step.Terminate?
             || step.Ack? || step.Nack?
    requires step.Deliver? || (worker.phase.Idle? <==> step.Take?)
    requires step.Republish? ==> worker.phase.Routing?
    ensures HoldsEvent(worker.forgotten, e) ==> HoldsEvent(WorkerAfter(worker, step).forgotten, e)
    ensures HoldsEvent(worker.buffered, e) ==> WorkerHolds(WorkerAfter(worker, step), e)
  {
    hide FailedRoute, HoldsEvent;
    var after := WorkerAfter(worker, step);
    assert worker.forgotten <= after.forgotten;
    BagMoves(worker.forgotten, after.forgotten, e);
    if step.Take? {
      if HoldsEvent(worker.buffered, e) {
        TakenIsKept(worker, step, e);
      }
    } else {
      assert worker.buffered <= after.buffered;
      BagMoves(worker.buffered, after.buffered, e);
    }
  }

  lemma TakenIsKept(worker: Worker, step: Step, e: nat)
    requires step.Take? && HoldsEvent(worker.buffered, e)
    ensures WorkerHolds(WorkerAfter(worker, step), e)
  {
  }

  lemma BagsAreCopies(s: System, w: nat, e: nat)
    requires w in s.workers && WorkerHolds(s.workers[w], e)
    ensures HasCopy(s, e)
  {
  }

  lemma WorkerKeepsCopy(s: System, step: Step, w: nat, e: nat)
    requires Enabled(s, step) && w in s.workers && WorkerHolds(s.workers[w], e)
    ensures e in After(s, step).handled || HasCopy(After(s, step), e)
  {
    hide After, HasCopy, HoldsEvent, WorkerAfter;
    var t := After(s, step);
    var was := s.workers[w];
    WorkersAfter(s, step, w);
    if step == Disconnect(w) {
      BagMoves(was.buffered, t.main, e);
      BagMoves(was.forgotten, t.main, e);
      BagMoves(Kept(was.phase), t.main, e);
      MainIsCopy(t, e);
    } else if !Moves(step, w) {
      BagsAreCopies(t, w, e);
    } else {
      BagsAfter(was, step, e);
      if HoldsEvent(was.forgotten, e) || HoldsEvent(was.buffered, e) {
        BagsAreCopies(t, w, e);
      } else {
        CurrentKeepsCopy(s, step, w, e);
      }
    }
  }

  lemma BagMoves(bag: multiset<Message>, into: multiset<Message>, e: nat)
    requires bag <= into
    ensures HoldsEvent(bag, e) ==> HoldsEvent(into, e)
  {
  }

  /** The delivery in a consumer's hands leaves them only once it was handled, or has a copy
      elsewhere. */
  lemma CurrentKeepsCopy(s: System, step: Step, w: nat, e: nat)
    requires Enabled(s, step) && w in s.workers && Moves(step, w)
    requires HoldsEvent(Kept(s.workers[w].phase), e)
    ensures e in After(s, step).handled || HasCopy(After(s, step), e)
  {
    hide FailedRoute, Failures, HasCopy, RetryCount;
    var t := After(s, step);
    var p := s.workers[w].phase;
    assert p.m.event == e;
    match step {
      case Republish(_, landed, confirmed) =>
        if confirmed {
          QueueIsCopy(t, p.m.(headers := p.headers));
        } else {
          HandIsCopy(t, w, p.m);
        }
      case Nack(_, ok) =>
        if ok { QueueIsCopy(t, p.m); } else { HandIsCopy(t, w, p.m); }
      case HandlerReturns(_, ok) =>
        if !ok { HandIsCopy(t, w, p.m); }
      case Deliver(_, _) => HandIsCopy(t, w, p.m);
    }
  }

  lemma QueueIsCopy(s: System, m: Message)
    requires m in s.main || m in s.retry || m in s.dead
    ensures HasCopy(s, m.event)
  {
  }

  lemma HandIsCopy(s: System, w: nat, m: Message)
    requires w in s.workers && (m in s.workers[w].forgotten || m in Kept(s.workers[w].phase))
    ensures HasCopy(s, m.event)
  {
  }

  lemma StepAdds(s: System, step: Step)
    requires Enabled(s, step)
    ensures var t := After(s, step);
            && s.handled <= t.handled && s.dead <= t.dead
            && (forall e :: Failures(s, e) <= Failures(t, e))
            && (forall e | e in t.published && e !in s.published :: HoldsEvent(t.main, e))
  {
    hide After, Land, Failures, FailedRoute;
    var t := After(s, step);
    WorkersChangeAlone(s, step);
    FailuresGrow(s, step);
    match step {
      case Publish(m, _) => assert m in t.main;
      case Republish(w, landed, _) =>
        var p := s.workers[w].phase;
        LandingAdds(s, p.m.(headers := p.headers), p.route);
      case _ =>
    }
  }

  /** Beside the consumers a step changes what `QueuesAfter` says and nothing else. */
  lemma WorkersChangeAlone(s: System, step: Step)
    requires Enabled(s, step)
    ensures After(s, step) == QueuesAfter(s, step).(workers := After(s, step).workers)
  {
  }

  lemma QueuesLeaveWorkers(s: System, step: Step)
    requires Enabled(s, step)
    ensures QueuesAfter(s, step).workers == s.workers
  {
    hide FailedRoute, Failures;
  }

  lemma LandingAdds(s: System, m: Message, route: Route)
    ensures var t := Land(s, m, route);
            t.handled == s.handled && t.published == s.published && s.dead <= t.dead && t.failures == s.failures
  {
  }

  lemma FailuresGrow(s: System, step: Step)
    requires Enabled(s, step)
    ensures forall e :: Failures(s, e) <= Failures(QueuesAfter(s, step), e)
    ensures forall e, workers ::
              Failures(QueuesAfter(s, step).(workers := workers), e) == Failures(QueuesAfter(s, step), e)
  {
  }

  lemma CopiesStayOk(s: System, t: System, bag: multiset<Message>)
    requires BagOk(s, bag) && forall e :: Failures(s, e) <= Failures(t, e)
    ensures BagOk(t, bag)
  {
  }

  lemma FailedRouteOk(s: System, m: Message)
    requires 0 <= RetryCount(m.headers) <= MAX_RETRIES
    requires RetryCount(m.headers) < Failures(s, m.event)
    ensures var (route, headers) := FailedRoute(m.headers);
            && CopyOk(s, m.(headers := headers))
            && (route.ToDeadLetter? ==> Failures(s, m.event) >= MAX_RETRIES + 1)
  {
  }

  lemma WorkerStaysOk(s: System, t: System, w: Worker)
    requires WorkerOk(s, w) && s.dead <= t.dead && forall e :: Failures(s, e) <= Failures(t, e)
    ensures WorkerOk(t, w)
  {
  }

  lemma DeadLetterStays(s: System, t: System, e: nat)
    requires s.dead <= t.dead && HasDeadLetter(s, e)
    ensures HasDeadLetter(t, e)
  {
  }

  lemma BagSum(s: System, a: multiset<Message>, b: multiset<Message>)
    requires BagOk(s, a) && BagOk(s, b)
    ensures BagOk(s, a + b)
  {
  }

  lemma BagPart(s: System, a: multiset<Message>, m: Message)
    requires BagOk(s, a) && m in a
    ensures CopyOk(s, m) && BagOk(s, multiset{m}) && BagOk(s, a - multiset{m})
  {
  }

  lemma BagOne(s: System, m: Message)
    ensures BagOk(s, multiset{m}) <==> CopyOk(s, m)
  {
  }

  /** Every consumer after the step, given that it was in order before. */
  lemma MoverOk(s: System, step: Step, w: nat)
    requires Inv(s) && Enabled(s, step) && w in After(s, step).workers
    ensures WorkerOk(After(s, step), After(s, step).workers[w])
  {
    hide HasCopy, FailedRoute, BagOk, WorkerOk, DeadOk, HasDeadLetter, Failures, CopyOk, QueuesAfter;
    var t := After(s, step);
    StepAdds(s, step);
    QueuesLeaveWorkers(s, step);
    if w in s.workers {
      WorkerStaysOk(s, t, s.workers[w]);
      if Moves(step, w) {
        match step {
          case Deliver(_, m) => BagPart(s, s.main, m); DeliverOk(s, t, w, m);
          case Take(_, m) => TakeOk(t, s.workers[w], m);
          case HandlerReturns(_, ok) => HandlerOk(s, t, w, ok);
          case Republish(_, landed, confirmed) => RepublishOk(s, t, w, landed, confirmed);
          case Terminate(_) => ReleaseOk(t, s.workers[w]);
          case Ack(_, _) => ReleaseOk(t, s.workers[w]);
          case Nack(_, _) => ReleaseOk(t, s.workers[w]);
        }
      }
    } else {
      NewWorkerOk(t);
    }
  }

  lemma NewWorkerOk(t: System)
    ensures WorkerOk(t, Worker(Idle, multiset{}, multiset{}))
  {
  }

  lemma DeliverOk(s: System, t: System, w: nat, m: Message)
    requires w in s.workers && WorkerOk(t, s.workers[w]) && BagOk(s, multiset{m})
    requires forall e :: Failures(s, e) <= Failures(t, e)
    ensures WorkerOk(t, s.workers[w].(buffered := s.workers[w].buffered + multiset{m}))
  {
  }

  lemma TakeOk(t: System, was: Worker, m: Message)
    requires WorkerOk(t, was) && m in was.buffered
    ensures WorkerOk(t, was.(buffered := was.buffered - multiset{m},
                             phase := if m.decodes then Handling(m) else Routing(m, ToDeadLetter, m.headers)))
  {
  }

  lemma HandlerOk(s: System, t: System, w: nat, ok: bool)
    requires Enabled(s, HandlerReturns(w, ok)) && t == After(s, HandlerReturns(w, ok))
    requires WorkerOk(s, s.workers[w]) && WorkerOk(t, s.workers[w])
    ensures WorkerOk(t, t.workers[w])
  {
    hide BagOk, HasDeadLetter, FailedRoute;
    var m := s.workers[w].phase.m;
    BagOne(s, m);
    if !ok {
      FailedRouteOk(t, m);
    }
  }

  lemma RepublishOk(s: System, t: System, w: nat, landed: bool, confirmed: bool)
    requires Enabled(s, Republish(w, landed, confirmed)) && t == After(s, Republish(w, landed, confirmed))
    requires WorkerOk(t, s.workers[w])
    ensures WorkerOk(t, t.workers[w])
  {
  }

  /** Acknowledging, and remembering a delivery whose acknowledgement failed. */
  lemma ReleaseOk(t: System, was: Worker)
    requires WorkerOk(t, was) && !was.phase.Idle?
    ensures WorkerOk(t, was.(phase := Acking(was.phase.m)))
    ensures WorkerOk(t, was.(phase := Idle))
    ensures WorkerOk(t, was.(phase := Idle, forgotten := was.forgotten + multiset{was.phase.m}))
  {
  }

  lemma QueuesOk(s: System, step: Step)
    requires Inv(s) && Enabled(s, step)
    ensures var t := After(s, step); BagOk(t, t.main) && BagOk(t, t.retry) && BagOk(t, t.dead) && DeadOk(t)
  {
    hide HasCopy, RetryCount, FailedRoute, BagOk, Failures, HasDeadLetter, DeadOk, CopyOk;
    var t := After(s, step);
    StepAdds(s, step);
    CopiesStayOk(s, t, s.main);
    CopiesStayOk(s, t, s.retry);
    CopiesStayOk(s, t, s.dead);
    match step {
      case Publish(m, _) =>
        NewMessageOk(t, m);
        BagSum(t, s.main, multiset{m});
        DeadStays(s, t);
      case Republish(w, landed, _) =>
        var p := s.workers[w].phase;
        var copy := p.m.(headers := p.headers);
        WorkerStaysOk(s, t, s.workers[w]);
        BagOne(t, copy);
        BagSum(t, s.retry, multiset{copy});
        BagSum(t, s.dead, multiset{copy});
        DeadGains(s, t, copy, landed && p.route.ToDeadLetter?);
      case Nack(w, _) =>
        WorkerStaysOk(s, t, s.workers[w]);
        BagSum(t, s.main, Current(s.workers[w].phase));
        DeadStays(s, t);
      case Disconnect(w) =>
        var was := s.workers[w];
        WorkerStaysOk(s, t, was);
        BagSum(t, s.main, was.buffered);
        BagSum(t, s.main + was.buffered, was.forgotten);
        BagSum(t, s.main + was.buffered + was.forgotten, Current(was.phase));
        DeadStays(s, t);
      case Deliver(_, m) => BagPart(t, s.main, m); DeadStays(s, t);
      case RetryExpires(m) =>
        BagPart(t, s.retry, m);
        BagSum(t, s.main, multiset{m});
        DeadStays(s, t);
      case _ => DeadStays(s, t);
    }
  }

  lemma NewMessageOk(t: System, m: Message)
    requires m.headers == map[]
    ensures BagOk(t, multiset{m})
  {
  }

  lemma DeadStays(s: System, t: System)
    requires DeadOk(s) && t.dead == s.dead && forall e :: Failures(s, e) <= Failures(t, e)
    ensures DeadOk(t)
  {
  }

  lemma DeadGains(s: System, t: System, copy: Message, dead: bool)
    requires DeadOk(s) && forall e :: Failures(s, e) <= Failures(t, e)
    requires t.dead == if dead then s.dead + multiset{copy} else s.dead
    requires dead && copy.decodes ==> Failures(t, copy.event) >= MAX_RETRIES + 1
    ensures DeadOk(t)
  {
  }

  lemma TerminatedOk(s: System, step: Step, e: nat)
    requires Inv(s) && Enabled(s, step) && e in After(s, step).terminated
    ensures HasDeadLetter(After(s, step), e)
  {
    hide After, FailedRoute, RetryCount, HasCopy, BagOk, DeadOk, HasDeadLetter, Failures, CopyOk;
    var t := After(s, step);
    StepAdds(s, step);
    WorkersChangeAlone(s, step);
    assert e !in s.terminated ==> step.Terminate? && s.workers[step.w].phase.m.event == e;
    assert HasDeadLetter(s, e);
    DeadLetterStays(s, t, e);
  }

  lemma PublishedOk(s: System, step: Step, e: nat)
    requires Inv(s) && Enabled(s, step) && e in After(s, step).published
    ensures e in After(s, step).handled || HasCopy(After(s, step), e)
  {
    hide HasCopy, BagOk, WorkerOk;
    StepAdds(s, step);
    if e in s.published {
      if e !in s.handled {
        StepKeepsCopies(s, step, e);
      }
    } else {
      MainIsCopy(After(s, step), e);
    }
  }

  lemma MainIsCopy(s: System, e: nat)
    requires HoldsEvent(s.main, e)
    ensures HasCopy(s, e)
  {
  }

  lemma StepKeeps(s: System, step: Step)
    requires Inv(s) && Enabled(s, step)
    ensures Inv(After(s, step))
  {
    hide HasCopy, BagOk, WorkerOk, DeadOk, HasDeadLetter, After, Enabled;
    var t := After(s, step);
    QueuesOk(s, step);
    forall w | w in t.workers ensures WorkerOk(t, t.workers[w]) {
      MoverOk(s, step, w);
    }
    forall e | e in t.terminated ensures HasDeadLetter(t, e) {
      TerminatedOk(s, step, e);
    }
    forall e | e in t.published ensures e in t.handled || HasCopy(t, e) {
      PublishedOk(s, step, e);
    }
  }

  lemma {:induction false} RunHolds(run: seq<System>, k: nat)
    requires IsRun(run) && k < |run|
    ensures Inv(run[k])
  {
    hide Inv, Enabled, After;
    if k == 0 {
      InitHolds(run[0]);
    } else {
      RunHolds(run, k - 1);
      StepInRun(run, k - 1);
      var step :| Enabled(run[k - 1], step) && run[k] == After(run[k - 1], step);
      StepKeeps(run[k - 1], step);
    }
  }

  lemma InitHolds(s: System)
    requires Init(s)
    ensures Inv(s)
  {
  }

  // ---- the guarantees ----

  /** No event is lost: at every moment of every run, a published event was handled, or has a
      copy in a queue or unacknowledged at a consumer. */
  lemma NoEventLost(run: seq<System>, k: nat, e: nat)
    requires IsRun(run) && k < |run| && e in run[k].published
    ensures e in run[k].handled || HasCopy(run[k], e)
  {
    hide IsRun, BagOk, WorkerOk, HasCopy;
    RunHolds(run, k);
  }

  /** The terminal callback, which fails the incident, runs only for an event that already
      has a confirmed copy in the dead-letter queue and whose handler failed more often than
      the retry budget allows; while it runs the copy is there too. */
  lemma TerminatedOnlyAfterDeadLetter(run: seq<System>, k: nat, e: nat)
    requires IsRun(run) && k < |run|
    requires e in run[k].terminated
             || exists w :: w in run[k].workers && run[k].workers[w].phase.Finishing?
                            && run[k].workers[w].phase.m.event == e
    ensures HasDeadLetter(run[k], e)
    ensures Failures(run[k], e) >= MAX_RETRIES + 1
  {
    hide IsRun, BagOk, HasCopy;
    RunHolds(run, k);
    if e !in run[k].terminated {
      var w :| w in run[k].workers && run[k].workers[w].phase.Finishing? && run[k].workers[w].phase.m.event == e;
      assert WorkerOk(run[k], run[k].workers[w]);
    }
  }

  /** The count in a header stays between zero and the budget, and a copy with count n has
      seen at least n failed handler runs. */
  lemma CountsStayInBudget(run: seq<System>, k: nat, m: Message)
    requires IsRun(run) && k < |run|
    requires m in run[k].main || m in run[k].retry || m in run[k].dead
    ensures 0 <= RetryCount(m.headers) <= MAX_RETRIES
    ensures RetryCount(m.headers) <= Failures(run[k], m.event)
  {
    hide IsRun, HasCopy, WorkerOk;
    RunHolds(run, k);
    assert CopyOk(run[k], m);
  }
}
