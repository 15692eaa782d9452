/** What one Approve does from its claim to its last write when nothing else runs meanwhile
    and no store fails: the exact final records, for every answer of the outside system and
    every verification. */
module ClosedLoopAlone {
  import opened Basics
  import opened Incidents
  import opened ClosedLoop
  import opened ClosedLoopSteps
  import IR = IncidentRepository
  import AR = ApprovalRepository
  import V = Verifier

  /** The call runs by itself, one choice a step, until the choices end or it is done. */
  ghost function Alone(s: Shared, me: nat, p: Phase, cs: seq<Choice>): (Shared, Phase)
    decreases |cs|
  {
    if cs == [] || p.Done? then (s, p)
    else
      var (t, q) := Step(s, me, p, cs[0]);
      Alone(t, me, q, cs[1..])
  }

  lemma OneStep(s: Shared, me: nat, p: Phase, cs: seq<Choice>, n: nat)
    requires n < |cs| && !p.Done?
    ensures var (t, q) := Step(s, me, p, cs[n]);
            Alone(s, me, p, cs[n..]) == Alone(t, me, q, cs[n + 1..])
  {
  }

  lemma TakenAfter(events: map<string, seq<Event>>, i: string, e: Event, id: string)
    ensures IR.EventIdTaken(events[i := IR.Log(events, i) + [e]], id) <==>
            IR.EventIdTaken(events, id) || e.id == id
  {
    var after := events[i := IR.Log(events, i) + [e]];
    var log := after[i];
    assert log[|log| - 1] == e;
    if IR.EventIdTaken(events, id) {
      var j :| j in events && exists k :: 0 <= k < |events[j]| && events[j][k].id == id;
      var k :| 0 <= k < |events[j]| && events[j][k].id == id;
      assert after[j][k] == events[j][k];
    }
    if IR.EventIdTaken(after, id) && e.id != id {
      var j :| j in after && exists k :: 0 <= k < |after[j]| && after[j][k].id == id;
      var k :| 0 <= k < |after[j]| && after[j][k].id == id;
      assert j in events && events[j][k] == after[j][k];
    }
  }

  /** The event identifiers from choice `n` on are new, and no two are equal. */
  ghost predicate FreshFrom(s: Shared, cs: seq<Choice>, n: nat) {
    && (forall k | n <= k < |cs| ::
          && !IR.EventIdTaken(s.incidents.events, cs[k].statusEvent)
          && !IR.EventIdTaken(s.incidents.events, cs[k].auditEvent)
          && cs[k].statusEvent != cs[k].auditEvent)
    && (forall j, k | n <= j < |cs| && n <= k < |cs| && j != k ::
          && cs[j].statusEvent != cs[k].statusEvent && cs[j].statusEvent != cs[k].auditEvent
          && cs[j].auditEvent != cs[k].statusEvent && cs[j].auditEvent != cs[k].auditEvent)
  }

  /** The stores after a guarded move by an undisturbed call. */
  function Moved1(s: Shared, m: Move, c: Choice): Shared
    requires m.incident in s.incidents.items
  {
    var snap := s.incidents.items[m.incident];
    s.(incidents := Committed(s.incidents, MovedTo(snap, m.to, c.now).(version := snap.version + 1),
                              StatusEvent(m, snap, c), AuditEvent(m, snap, c)),
       mover := if m.andThen.Mitigate? then s.mover[snap.id := m.andThen.a.id] else s.mover)
  }

  /** A guarded move along a table edge, undisturbed: two accesses, and it succeeds. */
  lemma MoveAlone(s: Shared, me: nat, m: Move, cs: seq<Choice>, n: nat)
    requires n + 1 < |cs| && FreshFrom(s, cs, n + 1)
    requires cs[n].fault.Answered? && cs[n + 1].fault.Answered?
    requires m.incident in s.incidents.items && s.incidents.items[m.incident].id == m.incident
    requires CanTransition(s.incidents.items[m.incident].status, m.to)
    ensures var t := Moved1(s, m, cs[n + 1]);
            && Alone(s, me, ReadForMove(m), cs[n..])
               == Alone(t, me, Continue(s.config, m.andThen, true, cs[n + 1].text), cs[n + 2..])
            && FreshFrom(t, cs, n + 2)
  {
    hide Alone, Continue, CanTransition, FreshFrom;
    var snap := s.incidents.items[m.incident];
    var c := cs[n + 1];
    OneStep(s, me, ReadForMove(m), cs, n);
    OneStep(s, me, WriteMove(m, snap), cs, n + 1);
    MoveCommits(s, m, snap, cs, n + 1);
    MoveStaysFresh(s, m, cs, n + 1);
  }

  lemma MoveCommits(s: Shared, m: Move, snap: Incident, cs: seq<Choice>, n: nat)
    requires n < |cs| && FreshFrom(s, cs, n) && cs[n].fault.Answered?
    requires m.incident in s.incidents.items && s.incidents.items[m.incident] == snap && snap.id == m.incident
    ensures StepWriteMove(s, m, snap, cs[n])
         == (Moved1(s, m, cs[n]), Continue(s.config, m.andThen, true, cs[n].text))
  {
    hide Continue;
    var c := cs[n];
    var inc := MovedTo(snap, m.to, c.now);
    var evs := MoveEvents(m, snap, c);
    assert evs == Batch(StatusEvent(m, snap, c), AuditEvent(m, snap, c));
    assert !IR.BatchConflicts(s.incidents.events, evs);
    UpdateIsCommit(s.incidents, inc, StatusEvent(m, snap, c), AuditEvent(m, snap, c));
  }

  lemma MoveStaysFresh(s: Shared, m: Move, cs: seq<Choice>, n: nat)
    requires n < |cs| && FreshFrom(s, cs, n) && m.incident in s.incidents.items
    ensures FreshFrom(Moved1(s, m, cs[n]), cs, n + 1)
  {
    var c := cs[n];
    var snap := s.incidents.items[m.incident];
    var t := Moved1(s, m, c);
    var one := s.incidents.events[snap.id := IR.Log(s.incidents.events, snap.id) + [StatusEvent(m, snap, c)]];
    forall id | id != c.statusEvent && id != c.auditEvent && !IR.EventIdTaken(s.incidents.events, id)
      ensures !IR.EventIdTaken(t.incidents.events, id)
    {
      TakenAfter(s.incidents.events, snap.id, StatusEvent(m, snap, c), id);
      if m.audit.Some? {
        var e := AuditEvent(m, snap, c).value;
        TakenAfter(one, snap.id, e, id);
        assert t.incidents.events == one[snap.id := IR.Log(one, snap.id) + [e]];
      } else {
        assert t.incidents.events == one;
      }
    }
  }

  // ---- the whole call ----

  /** An approval waiting for a decision, with the run and the incident it is bound to. */
  ghost predicate ReadyToApprove(s: Shared, id: string) {
    && id in s.approvals
    && var a := s.approvals[id];
       && a.id == id && a.status == AR.Pending
       && a.run in s.runs && s.runs[a.run].incident == a.incident && a.incident != ""
       && a.incident in s.incidents.items
       && s.incidents.items[a.incident].id == a.incident
       && s.incidents.items[a.incident].status == WaitingApproval
  }

  /** Where the incident ends. An unknown result leaves it in MITIGATING. */
  ghost function EndStatus(s: Shared, action: ActionResult, feed: seq<V.Gathered>): Status {
    match action
    case ActionUnknown => Mitigating
    case ActionRefused(_) => Incidents.Failed
    case Acted(_) => if SequencePasses(s.config, feed) then Resolved else Incidents.Failed
  }

  function EndApproval(action: ActionResult): AR.ApprovalStatus {
    match action
    case ActionUnknown => AR.Unknown
    case ActionRefused(_) => AR.Failed
    case Acted(_) => AR.Executed
  }

  /** The events the call leaves in the log after the move to MITIGATING, in order. */
  ghost function EndTrail(s: Shared, id: string, action: ActionResult, feed: seq<V.Gathered>): seq<EventKind> {
    match action
    case ActionUnknown => []
    case ActionRefused(_) => [Moved(Mitigating, Incidents.Failed, MachineTransition), ActionFailed(id)]
    case Acted(_) =>
      [Moved(Mitigating, Verifying, MachineTransition), ActionCompleted(id)]
      + (if SequencePasses(s.config, feed)
         then [Moved(Verifying, Resolved, MachineTransition), PostmortemGenerated(id)]
         else [Moved(Verifying, Incidents.Failed, MachineTransition), VerificationFailed(id)])
  }

  function Kinds(log: seq<Event>): seq<EventKind> {
    seq(|log|, k requires 0 <= k < |log| => log[k].kind)
  }

  lemma KindsAppend(log: seq<Event>, e: Event)
    ensures Kinds(log + [e]) == Kinds(log) + [e.kind]
  {
  }

  /** The first three steps: the claim and the move to MITIGATING. */
  function Claimed(s: Shared, me: nat, id: string, signer: string, cs: seq<Choice>): Shared
    requires ReadyToApprove(s, id) && |cs| >= 7
  {
    var a := AR.Changed(s.approvals[id], AR.Approved, cs[0].now, AR.Sign(signer, cs[0].now));
    Moved1(s.(approvals := s.approvals[id := a], claimer := s.claimer[id := me]),
           Move(a.incident, Mitigating, MachineTransition, None, Mitigate(a)), cs[2])
  }

  /** The first seven steps, from the claim up to the action. */
  function Begun(s: Shared, me: nat, id: string, signer: string, cs: seq<Choice>): Shared
    requires ReadyToApprove(s, id) && |cs| >= 7
  {
    var t := Claimed(s, me, id, signer, cs);
    var a := AR.Changed(t.approvals[id], AR.Executing, cs[3].now, AR.Keep);
    t.(approvals := t.approvals[id := a], actions := t.actions + [Action(a.incident, id)])
  }

  lemma ClaimAlone(s: Shared, me: nat, id: string, signer: string, cs: seq<Choice>)
    requires ReadyToApprove(s, id) && s.config.executor && |cs| >= 7
    requires FreshFrom(s, cs, 0) && forall k | 0 <= k < |cs| :: cs[k].fault.Answered?
    ensures var t := Claimed(s, me, id, signer, cs);
            && Alone(s, me, Claim(id, signer), cs) == Alone(t, me, MarkExecuting(t.approvals[id]), cs[3..])
            && FreshFrom(t, cs, 3)
  {
    hide Alone, FreshFrom;
    var a := AR.Changed(s.approvals[id], AR.Approved, cs[0].now, AR.Sign(signer, cs[0].now));
    var claimed := s.(approvals := s.approvals[id := a], claimer := s.claimer[id := me]);
    assert cs[0..] == cs;
    OneStep(s, me, Claim(id, signer), cs, 0);
    FreshLater(s, claimed, cs, 0, 2);
    MoveAlone(claimed, me, Move(a.incident, Mitigating, MachineTransition, None, Mitigate(a)), cs, 1);
  }

  /** What the claimed state looks like to the executor. */
  ghost predicate ReadyToExecute(t: Shared, a: AR.Approval) {
    && a.id in t.approvals && t.approvals[a.id] == a && a.status == AR.Approved
    && a.run in t.runs && t.runs[a.run].incident == a.incident && a.incident != ""
    && a.incident in t.incidents.items && t.incidents.items[a.incident].status == Mitigating
  }

  /** Where the call stands right after the outside system answered. */
  function AfterAct(a: AR.Approval, c: Choice): Phase {
    match c.action
    case ActionUnknown => Persist(a, UnknownResult(c.text))
    case ActionRefused(cause) =>
      ReadForMove(Move(a.incident, Incidents.Failed, MachineTransition, Some(ActionFailed(a.id)),
                       AfterRefusal(a, cause)))
    case Acted(operation) =>
      ReadForMove(Move(a.incident, Verifying, MachineTransition, Some(ActionCompleted(a.id)),
                       AfterAction(a, operation)))
  }

  lemma ExecuteAlone(t: Shared, me: nat, a: AR.Approval, cs: seq<Choice>)
    requires ReadyToExecute(t, a) && |cs| >= 7 && forall k | 0 <= k < |cs| :: cs[k].fault.Answered?
    ensures var b := AR.Changed(a, AR.Executing, cs[3].now, AR.Keep);
            var u := t.(approvals := t.approvals[a.id := b], actions := t.actions + [Action(a.incident, a.id)]);
            Alone(t, me, MarkExecuting(a), cs[3..]) == Alone(u, me, AfterAct(b, cs[6]), cs[7..])
  {
    hide Alone;
    var b := AR.Changed(a, AR.Executing, cs[3].now, AR.Keep);
    var t1 := t.(approvals := t.approvals[a.id := b]);
    OneStep(t, me, MarkExecuting(a), cs, 3);
    OneStep(t1, me, ExecuteRun(b), cs, 4);
    OneStep(t1, me, ExecuteRead(b, b.incident), cs, 5);
    OneStep(t1, me, ExecuteAct(b, b.incident), cs, 6);
  }

  lemma ApproveUpToAction(s: Shared, me: nat, id: string, signer: string, cs: seq<Choice>)
    requires ReadyToApprove(s, id) && s.config.executor && |cs| >= 7
    requires FreshFrom(s, cs, 0) && forall k | 0 <= k < |cs| :: cs[k].fault.Answered?
    ensures var t := Begun(s, me, id, signer, cs);
            && Alone(s, me, Claim(id, signer), cs) == Alone(t, me, AfterAct(t.approvals[id], cs[6]), cs[7..])
            && FreshFrom(t, cs, 7)
  {
    hide Alone, FreshFrom;
    ClaimAlone(s, me, id, signer, cs);
    var t := Claimed(s, me, id, signer, cs);
    ExecuteAlone(t, me, t.approvals[id], cs);
    FreshLater(t, Begun(s, me, id, signer, cs), cs, 3, 7);
  }

  lemma FreshLater(s: Shared, t: Shared, cs: seq<Choice>, n: nat, k: nat)
    requires FreshFrom(s, cs, n) && n <= k && t.incidents == s.incidents
    ensures FreshFrom(t, cs, k)
  {
  }

  /** The state the action left behind. */
  lemma BegunFacts(s: Shared, me: nat, id: string, signer: string, cs: seq<Choice>)
    requires ReadyToApprove(s, id) && |cs| >= 7
    ensures var t := Begun(s, me, id, signer, cs);
            var a := t.approvals[id];
            && Acting(t, a) && a.id == id && a.incident == s.approvals[id].incident
            && a.approvedBy == signer && a.approvedAt == Some(cs[0].now)
            && t.config == s.config && t.actions == s.actions + [Action(a.incident, id)]
            && Kinds(IR.Log(t.incidents.events, a.incident))
               == Kinds(IR.Log(s.incidents.events, a.incident))
                  + [Moved(WaitingApproval, Mitigating, MachineTransition)]
  {
  }

  ghost predicate Acting(t: Shared, a: AR.Approval) {
    && a.id in t.approvals && t.approvals[a.id] == a && a.status == AR.Executing
    && a.incident in t.incidents.items && t.incidents.items[a.incident].id == a.incident
    && t.incidents.items[a.incident].status == Mitigating
  }

  /** The answer of the outside system and the verification decide where all ends. */
  ghost predicate Ended(t: Shared, u: Shared, a: AR.Approval, c: Choice, feed: seq<V.Gathered>) {
    && u.actions == t.actions
    && a.id in u.approvals && a.incident in u.incidents.items
    && u.approvals[a.id].status == EndApproval(c.action)
    && u.approvals[a.id].approvedBy == a.approvedBy && u.approvals[a.id].approvedAt == a.approvedAt
    && (c.action.Acted? ==> u.approvals[a.id].operation == c.action.operation)
    && (c.action.ActionRefused? ==> u.approvals[a.id].error == AR.Because(c.action.cause))
    && u.incidents.items[a.incident].status == EndStatus(t, c.action, feed)
    && Kinds(IR.Log(u.incidents.events, a.incident))
       == Kinds(IR.Log(t.incidents.events, a.incident)) + EndTrail(t, a.id, c.action, feed)
  }

  lemma AnswerAlone(t: Shared, me: nat, a: AR.Approval, cs: seq<Choice>)
    requires |cs| == 13 && FreshFrom(t, cs, 7) && forall k | 0 <= k < |cs| :: cs[k].fault.Answered?
    requires Acting(t, a)
    ensures var (u, q) := Alone(t, me, AfterAct(a, cs[6]), cs[7..]);
            q == Done(true) && Ended(t, u, a, cs[6], cs[9].feed)
  {
    hide Alone, FreshFrom, SequencePasses;
    match cs[6].action {
      case ActionUnknown => Finish(t, me, a, UnknownResult(cs[6].text), cs, 7);
      case ActionRefused(cause) => RefusedAlone(t, me, a, cause, cs);
      case Acted(operation) => ActedAlone(t, me, a, operation, cs);
    }
  }

  /** An undisturbed Approve, whatever the outside system and the gatherer answer. */
  lemma ApproveAlone(s: Shared, me: nat, id: string, signer: string, cs: seq<Choice>)
    requires ReadyToApprove(s, id) && s.config.executor && |cs| == 13
    requires FreshFrom(s, cs, 0) && forall k | 0 <= k < |cs| :: cs[k].fault.Answered?
    ensures var (t, q) := Alone(s, me, Claim(id, signer), cs);
            var i := s.approvals[id].incident;
            && q == Done(true)
            && id in t.approvals && i in t.incidents.items
            && t.approvals[id].status == EndApproval(cs[6].action)
            && t.approvals[id].approvedBy == signer && t.approvals[id].approvedAt == Some(cs[0].now)
            && (cs[6].action.Acted? ==> t.approvals[id].operation == cs[6].action.operation)
            && (cs[6].action.ActionRefused? ==> t.approvals[id].error == AR.Because(cs[6].action.cause))
            && t.incidents.items[i].status == EndStatus(s, cs[6].action, cs[9].feed)
            && Kinds(IR.Log(t.incidents.events, i))
               == Kinds(IR.Log(s.incidents.events, i)) + [Moved(WaitingApproval, Mitigating, MachineTransition)]
                  + EndTrail(s, id, cs[6].action, cs[9].feed)
            && t.actions == s.actions + [Action(i, id)]
  {
    hide Alone, FreshFrom, SequencePasses, Begun, AfterAct, Acting;
    ApproveUpToAction(s, me, id, signer, cs);
    BegunFacts(s, me, id, signer, cs);
    var t := Begun(s, me, id, signer, cs);
    AnswerAlone(t, me, t.approvals[id], cs);
  }

  lemma Finish(t: Shared, me: nat, a: AR.Approval, e: Execution, cs: seq<Choice>, n: nat)
    requires n < |cs| && cs[n].fault.Answered?
    requires a.id in t.approvals && t.approvals[a.id] == a && a.status == AR.Executing
    ensures Alone(t, me, Persist(a, e), cs[n..])
         == (t.(approvals := t.approvals[a.id := AR.Changed(a, FinalStatus(e), cs[n].now, FinalMutation(e))]),
             Done(true))
  {
  }

  /** An audited move and then the last write of the approval. */
  lemma MoveThenPersist(t: Shared, me: nat, m: Move, a: AR.Approval, e: Execution, cs: seq<Choice>, n: nat)
    requires n + 2 < |cs| && FreshFrom(t, cs, n + 1)
    requires cs[n].fault.Answered? && cs[n + 1].fault.Answered? && cs[n + 2].fault.Answered?
    requires a.id in t.approvals && t.approvals[a.id] == a && a.status == AR.Executing
    requires m.incident in t.incidents.items && t.incidents.items[m.incident].id == m.incident
    requires CanTransition(t.incidents.items[m.incident].status, m.to)
    requires m.audit.Some? && Continue(t.config, m.andThen, true, cs[n + 1].text) == Persist(a, e)
    ensures var (u, q) := Alone(t, me, ReadForMove(m), cs[n..]);
            var i := m.incident;
            && q == Done(true) && u.actions == t.actions
            && u.approvals == t.approvals[a.id := AR.Changed(a, FinalStatus(e), cs[n + 2].now, FinalMutation(e))]
            && i in u.incidents.items && u.incidents.items[i].status == m.to
            && Kinds(IR.Log(u.incidents.events, i))
               == Kinds(IR.Log(t.incidents.events, i))
                  + [Moved(t.incidents.items[i].status, m.to, m.reason), m.audit.value]
  {
    hide Alone, FreshFrom, Moved1, Kinds, Continue, CanTransition, FinalStatus, FinalMutation;
    MoveAlone(t, me, m, cs, n);
    Trail(t, m, cs[n + 1]);
    Finish(Moved1(t, m, cs[n + 1]), me, a, e, cs, n + 2);
  }

  lemma RefusedAlone(t: Shared, me: nat, a: AR.Approval, cause: string, cs: seq<Choice>)
    requires |cs| == 13 && FreshFrom(t, cs, 7) && forall k | 0 <= k < |cs| :: cs[k].fault.Answered?
    requires Acting(t, a) && cs[6].action == ActionRefused(cause)
    ensures var (u, q) := Alone(t, me, AfterAct(a, cs[6]), cs[7..]);
            q == Done(true) && Ended(t, u, a, cs[6], cs[9].feed)
  {
    hide Alone, FreshFrom, SequencePasses, Kinds;
    FreshLater(t, t, cs, 7, 8);
    MoveThenPersist(t, me, AfterAct(a, cs[6]).move, a, Failure(cause), cs, 7);
  }

  /** A move with an audit event appends exactly its two events. */
  lemma Trail(t: Shared, m: Move, c: Choice)
    requires m.incident in t.incidents.items && t.incidents.items[m.incident].id == m.incident
    requires m.audit.Some?
    ensures var u := Moved1(t, m, c);
            var snap := t.incidents.items[m.incident];
            && Kinds(IR.Log(u.incidents.events, m.incident))
               == Kinds(IR.Log(t.incidents.events, m.incident)) + [Moved(snap.status, m.to, m.reason), m.audit.value]
            && m.incident in u.incidents.items && u.incidents.items[m.incident].status == m.to
            && u.incidents.items[m.incident].id == m.incident
            && u.approvals == t.approvals && u.actions == t.actions && u.config == t.config
  {
  }

  /** The move that follows a verification. */
  ghost function Verdict(t: Shared, a: AR.Approval, operation: string, feed: seq<V.Gathered>): (Shared, Move) {
    if SequencePasses(t.config, feed)
    then (t.(checked := t.checked[a.id := feed]),
          Move(a.incident, Resolved, MachineTransition, Some(PostmortemGenerated(a.id)), AfterGoodCheck(a, operation)))
    else (t, Move(a.incident, Incidents.Failed, MachineTransition, Some(VerificationFailed(a.id)),
                  AfterBadCheck(a, operation)))
  }

  lemma VerdictIsStep(t: Shared, me: nat, a: AR.Approval, operation: string, c: Choice)
    ensures var (t1, m) := Verdict(t, a, operation, c.feed);
            Step(t, me, ExecuteVerify(a, a.incident, operation), c) == (t1, ReadForMove(m))
  {
  }

  lemma CheckedAlone(t: Shared, me: nat, a: AR.Approval, operation: string, cs: seq<Choice>)
    requires |cs| == 13 && FreshFrom(t, cs, 9) && forall k | 0 <= k < |cs| :: cs[k].fault.Answered?
    requires a.id in t.approvals && t.approvals[a.id] == a && a.status == AR.Executing
    requires a.incident in t.incidents.items && t.incidents.items[a.incident].id == a.incident
    requires t.incidents.items[a.incident].status == Verifying
    ensures var (u, q) := Alone(t, me, ExecuteVerify(a, a.incident, operation), cs[9..]);
            var (_, m) := Verdict(t, a, operation, cs[9].feed);
            && q == Done(true) && u.actions == t.actions
            && u.approvals == t.approvals[a.id :=
                 AR.Changed(a, AR.Executed, cs[12].now, AR.Finish(cs[11].text, operation))]
            && a.incident in u.incidents.items && u.incidents.items[a.incident].status == m.to
            && Kinds(IR.Log(u.incidents.events, a.incident))
               == Kinds(IR.Log(t.incidents.events, a.incident)) + [Moved(Verifying, m.to, m.reason), m.audit.value]
  {
    hide Alone, FreshFrom, SequencePasses, Kinds, Step, MovedTo;
    var (t1, m) := Verdict(t, a, operation, cs[9].feed);
    VerdictIsStep(t, me, a, operation, cs[9]);
    OneStep(t, me, ExecuteVerify(a, a.incident, operation), cs, 9);
    FreshLater(t, t1, cs, 9, 11);
    MoveThenPersist(t1, me, m, a, Succeeded(cs[11].text, operation), cs, 10);
  }

  lemma ActedEnds(t: Shared, v: Shared, u: Shared, a: AR.Approval, operation: string, cs: seq<Choice>)
    requires |cs| == 13 && cs[6].action == Acted(operation)
    requires v.actions == t.actions && v.approvals == t.approvals && v.config == t.config
    requires Kinds(IR.Log(v.incidents.events, a.incident))
          == Kinds(IR.Log(t.incidents.events, a.incident))
             + [Moved(Mitigating, Verifying, MachineTransition), ActionCompleted(a.id)]
    requires u.actions == v.actions && u.approvals == v.approvals[a.id :=
               AR.Changed(a, AR.Executed, cs[12].now, AR.Finish(cs[11].text, operation))]
    requires a.incident in u.incidents.items
    requires var (_, m) := Verdict(v, a, operation, cs[9].feed);
             && u.incidents.items[a.incident].status == m.to
             && Kinds(IR.Log(u.incidents.events, a.incident))
                == Kinds(IR.Log(v.incidents.events, a.incident)) + [Moved(Verifying, m.to, m.reason), m.audit.value]
    ensures Ended(t, u, a, cs[6], cs[9].feed)
  {
    hide V.Passes, Kinds, IR.Log;
  }

  lemma ActedAlone(t: Shared, me: nat, a: AR.Approval, operation: string, cs: seq<Choice>)
    requires |cs| == 13 && FreshFrom(t, cs, 7) && forall k | 0 <= k < |cs| :: cs[k].fault.Answered?
    requires Acting(t, a) && cs[6].action == Acted(operation)
    ensures var (u, q) := Alone(t, me, AfterAct(a, cs[6]), cs[7..]);
            q == Done(true) && Ended(t, u, a, cs[6], cs[9].feed)
  {
    hide Alone, FreshFrom, SequencePasses, Moved1, MovedTo, Kinds, IR.Log, Ended, Verdict;
    var m := AfterAct(a, cs[6]).move;
    FreshLater(t, t, cs, 7, 8);
    MoveAlone(t, me, m, cs, 7);
    Trail(t, m, cs[8]);
    var v := Moved1(t, m, cs[8]);
    CheckedAlone(v, me, a, operation, cs);
    ActedEnds(t, v, Alone(v, me, ExecuteVerify(a, a.incident, operation), cs[9..]).0, a, operation, cs);
  }
}
