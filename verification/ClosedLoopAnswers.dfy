/** What a finished call answered, and why: for every call of every run, whatever the stores and
    the other calls did meanwhile. */
module ClosedLoopAnswers {
  import opened Basics
  import opened Incidents
  import opened ClosedLoop
  import opened ClosedLoopInvariant
  import opened ClosedLoopSteps
  import opened ClosedLoopTheorems
  import opened ClosedLoopRuns
  import opened ClosedLoopDeliveries
  import IR = IncidentRepository
  import AR = ApprovalRepository
  import RR = RunRepository

  /** The call has answered with an error, or only cleans up before it does. */
  predicate Doomed(p: Phase) {
    p == Done(false) || p.Expire? || p.DiagnoseFail?
  }

  /** The moves that decide their call; the others record how an action ended. */
  predicate Decides(m: Move) {
    m.andThen.Return? || m.andThen.Requested? || m.andThen.Mitigate? || m.andThen.ThenDiagnose?
  }

  /** A stored record or event stands in the way of a new incident. */
  predicate NewIncidentBlocked(s: Shared, fingerprint: string, c: Choice) {
    || c.id in s.incidents.items || IR.EventIdTaken(s.incidents.events, c.statusEvent)
    || exists i | i in s.incidents.items ::
         s.incidents.items[i].fingerprint == fingerprint && !s.incidents.items[i].status.IsTerminal()
  }

  /** The record changed since it was read, or the new event's identifier is taken. */
  predicate SwapLost(s: Shared, snap: Incident, c: Choice) {
    || snap.id !in s.incidents.items || s.incidents.items[snap.id].version != snap.version
    || IR.EventIdTaken(s.incidents.events, c.statusEvent)
  }

  predicate NewRunBlocked(s: Shared, incident: string, id: string) {
    id in s.runs || exists r | r in s.runs ::
      s.runs[r].incident == incident && (s.runs[r].status == RR.Running || s.runs[r].status == RR.Completed)
  }

  /** The accesses at which a call fails. */
  predicate Fails(s: Shared, p: Phase, c: Choice) {
    match p
    case CreateFind(_, _) => !c.fault.Answered?
    case CreateWrite(f, _) => c.fault.Refused? || (c.fault.Lost? && !NewIncidentBlocked(s, f, c))
    case CreateFindAgain(_) => !c.fault.Answered? || c.found == None
    case ReadForMove(m) =>
      Decides(m) && (!c.fault.Answered? || m.incident !in s.incidents.items
                     || !CanTransition(s.incidents.items[m.incident].status, m.to))
    case WriteMove(m, snap) => Decides(m) && (!c.fault.Answered? || SwapLost(s, snap, c))
    case RequestRun(run, _) => !c.fault.Answered? || run == "" || run !in s.runs
    case RequestIncident(_, i, _) => !c.fault.Answered? || i !in s.incidents.items
    case RequestWrite(_, _, _) => !c.fault.Answered? || c.id in s.approvals
    case Claim(id, _) => !c.fault.Answered? || id !in s.approvals || s.approvals[id].status != AR.Pending
    case Decline(id, _) => !c.fault.Answered? || id !in s.approvals || s.approvals[id].status != AR.Pending
    case MarkExecuting(_) => !c.fault.Answered?
    case Persist(_, _) => !c.fault.Answered?
    case RecoverFind(_) =>
      || !c.fault.Answered?
      || (c.found.Some? && (c.found.value.status == Mitigating || c.found.value.status == Verifying))
    case RecoverLatest(_) => !c.fault.Answered? || c.found == None
    case RecoverSweep(snap) => !c.fault.Answered? || snap.id == ""
    case RecoverWrite(snap) => !c.fault.Answered? || SwapLost(s, snap, c)
    case DiagnoseRead(i) => !c.fault.Answered? || i !in s.incidents.items
    case DiagnoseStart(i, fine) =>
      || c.fault.Refused?
      || (if NewRunBlocked(s, i, c.id) then !fine else c.fault.Lost?)
    case DiagnoseEnd(_) => !c.fault.Answered? || !c.diagnosed
    case _ => false
  }

  // ---- one step ----

  /** A call whose own state is in order can always complete the run it holds. */
  ghost predicate Ready(s: Shared, me: nat, p: Phase) {
    PhaseOk(s, me, p) && (p.DiagnoseEnd? ==> RR.UpdateRun(s.runs, p.record.(status := RR.Completed)).Ok?)
  }

  lemma LoneEvent(events: map<string, seq<Event>>, e: Event)
    ensures IR.BatchConflicts(events, [Some(e)]) <==> IR.EventIdTaken(events, e.id)
  {
    assert [Some(e)][0].value.id == e.id;
  }

  /** The step fails its call exactly if it is among the named ones, and then, unless only its
      answer was lost, it leaves the stores as they were. */
  ghost predicate AnswersAsNamed(s: Shared, me: nat, p: Phase, c: Choice)
    requires !p.Done?
  {
    var (t, q) := Step(s, me, p, c);
    && (if Doomed(p) then q == Done(false) && !Fails(s, p, c) else Doomed(q) <==> Fails(s, p, c))
    && (Fails(s, p, c) && !c.fault.Lost? ==> t == s.(faulted := t.faulted))
  }

  predicate IsRequest(p: Phase) {
    p.RequestRun? || p.RequestIncident? || p.RequestWrite?
  }

  predicate IsDecision(p: Phase) {
    p.Claim? || p.Decline? || p.MarkExecuting? || p.Persist?
  }

  predicate IsAction(p: Phase) {
    p.ExecuteRun? || p.ExecuteRead? || p.ExecuteAct? || p.ExecuteVerify?
  }

  predicate IsRecovery(p: Phase) {
    p.RecoverFind? || p.RecoverLatest? || p.RecoverSweep? || p.RecoverWrite?
  }

  predicate IsDiagnosis(p: Phase) {
    p.DiagnoseRead? || p.DiagnoseList? || p.DiagnoseStart? || p.DiagnoseEnd?
  }

  lemma CreateFails(s: Shared, me: nat, p: Phase, c: Choice)
    requires p.CreateFind? || (p.CreateWrite? && p.fingerprint != "") || p.CreateFindAgain?
    ensures AnswersAsNamed(s, me, p, c)
  {
    hide IR.EventIdTaken, IR.BatchConflicts;
    LoneEvent(s.incidents.events, Event(c.statusEvent, c.id, Created));
  }

  lemma ReadFails(s: Shared, me: nat, m: Move, c: Choice)
    ensures AnswersAsNamed(s, me, ReadForMove(m), c)
  {
    hide CanTransition;
  }

  lemma WriteFails(s: Shared, me: nat, m: Move, snap: Incident, c: Choice)
    requires MoveOk(s, me, m)
    ensures AnswersAsNamed(s, me, WriteMove(m, snap), c)
  {
    hide IR.EventIdTaken, IR.BatchConflicts, CanTransition, Owns, Working, Completed;
    LoneEvent(s.incidents.events, Event(c.statusEvent, snap.id, Moved(snap.status, m.to, m.reason)));
  }

  lemma RequestFails(s: Shared, me: nat, p: Phase, c: Choice)
    requires IsRequest(p)
    ensures AnswersAsNamed(s, me, p, c)
  {
  }

  lemma DecisionFails(s: Shared, me: nat, p: Phase, c: Choice)
    requires IsDecision(p) && PhaseOk(s, me, p)
    ensures AnswersAsNamed(s, me, p, c)
  {
    hide NotActed, ClosedFor, Completed, AR.Changed;
  }

  lemma ActionNeverFails(s: Shared, me: nat, p: Phase, c: Choice)
    requires IsAction(p)
    ensures AnswersAsNamed(s, me, p, c)
  {
    hide SequencePasses;
  }

  lemma RecoveryFails(s: Shared, me: nat, p: Phase, c: Choice)
    requires IsRecovery(p)
    ensures AnswersAsNamed(s, me, p, c)
  {
    hide IR.EventIdTaken, IR.BatchConflicts, AR.ExpirePending;
    if p.RecoverWrite? {
      var moved := Moved(p.snap.status, Resolved, AlertResolvedOutside);
      LoneEvent(s.incidents.events, Event(c.statusEvent, p.snap.id, moved));
    }
  }

  lemma DiagnosisFails(s: Shared, me: nat, p: Phase, c: Choice)
    requires IsDiagnosis(p) && Ready(s, me, p)
    ensures AnswersAsNamed(s, me, p, c)
  {
  }

  lemma CleaningUpEnds(s: Shared, me: nat, p: Phase, c: Choice)
    requires p.Expire? || p.DiagnoseFail?
    ensures AnswersAsNamed(s, me, p, c)
  {
  }

  /** A call that is not failing starts to fail at a step exactly if the step is among the
      named ones; one that is failing stays so. */
  lemma StepFails(s: Shared, me: nat, p: Phase, c: Choice)
    requires !p.Done? && Ready(s, me, p)
    ensures var q := Step(s, me, p, c).1;
            if Doomed(p) then q == Done(false) else Doomed(q) <==> Fails(s, p, c)
  {
    hide Step, Fails, Doomed;
    StepAnswers(s, me, p, c);
  }

  /** An access at which a call fails, unless only its answer was lost, leaves every store as
      it was. */
  lemma FailedStepWritesNothing(s: Shared, me: nat, p: Phase, c: Choice)
    requires !p.Done? && Ready(s, me, p) && Fails(s, p, c) && !c.fault.Lost?
    ensures var t := Step(s, me, p, c).0; t == s.(faulted := t.faulted)
  {
    hide Step, Fails;
    StepAnswers(s, me, p, c);
  }

  lemma StepAnswers(s: Shared, me: nat, p: Phase, c: Choice)
    requires !p.Done? && Ready(s, me, p)
    ensures AnswersAsNamed(s, me, p, c)
  {
    hide AnswersAsNamed, MoveOk, Owns, Working, NotActed, Completed, ClosedFor, SnapOk;
    if p.CreateFind? || p.CreateWrite? || p.CreateFindAgain? {
      CreateFails(s, me, p, c);
    } else if p.ReadForMove? {
      ReadFails(s, me, p.move, c);
    } else if p.WriteMove? {
      WriteFails(s, me, p.move, p.snap, c);
    } else if IsRequest(p) {
      RequestFails(s, me, p, c);
    } else if IsDecision(p) {
      DecisionFails(s, me, p, c);
    } else if IsAction(p) {
      ActionNeverFails(s, me, p, c);
    } else if IsRecovery(p) {
      RecoveryFails(s, me, p, c);
    } else if IsDiagnosis(p) {
      DiagnosisFails(s, me, p, c);
    } else {
      CleaningUpEnds(s, me, p, c);
    }
  }

  /** A refused access takes no effect, and one whose answer is lost takes the effect it would
      have taken; only the note of the fault differs. */
  ghost predicate FaultIsExact(s: Shared, me: nat, p: Phase, c: Choice)
    requires !p.Done?
  {
    var t, u := Step(s, me, p, c).0, Step(s, me, p, c.(fault := Answered)).0;
    && (c.fault.Refused? ==> t == s.(faulted := t.faulted))
    && (c.fault.Lost? ==> t == u.(faulted := t.faulted))
  }

  lemma IncidentFaults(s: Shared, me: nat, p: Phase, c: Choice)
    requires p.CreateFind? || p.CreateWrite? || p.CreateFindAgain? || p.ReadForMove? || p.WriteMove?
    ensures FaultIsExact(s, me, p, c)
  {
    hide IR.UpdateWithEvents, IR.CreateWithEvent, CanTransition, Continue;
    if p.WriteMove? {
      assert MoveEvents(p.move, p.snap, c) == MoveEvents(p.move, p.snap, c.(fault := Answered));
    }
  }

  lemma RequestFaults(s: Shared, me: nat, p: Phase, c: Choice)
    requires IsRequest(p) || p.ExecuteRun? || p.ExecuteRead?
    ensures FaultIsExact(s, me, p, c)
  {
    hide StepCreate, StepReadForMove, StepWriteMove, StepDecline, StepClaim, StepExpire, StepMarkExecuting;
    hide StepVerify, StepPersist, StepRecover, StepDiagnose;
    hide AR.Create;
  }

  lemma DecisionFaults(s: Shared, me: nat, p: Phase, c: Choice)
    requires p.Claim? || p.Decline?
    ensures FaultIsExact(s, me, p, c)
  {
    hide AR.Changed;
  }

  lemma ExpireFaults(s: Shared, me: nat, a: AR.Approval, source: AR.ApprovalStatus, c: Choice)
    ensures FaultIsExact(s, me, Expire(a, source), c)
  {
    hide StepCreate, StepReadForMove, StepWriteMove, StepRequest, StepDecline, StepClaim, StepMarkExecuting;
    hide StepExecute, StepVerify, StepPersist, StepRecover, StepDiagnose;
    hide AR.TransitionStatus;
  }

  lemma ExecutingFaults(s: Shared, me: nat, a: AR.Approval, c: Choice)
    ensures FaultIsExact(s, me, MarkExecuting(a), c)
  {
    hide AR.Changed;
  }

  lemma PersistFaults(s: Shared, me: nat, a: AR.Approval, e: Execution, c: Choice)
    ensures FaultIsExact(s, me, Persist(a, e), c)
  {
    hide AR.TransitionStatus, FinalStatus, FinalMutation;
  }

  lemma RecoveryFaults(s: Shared, me: nat, p: Phase, c: Choice)
    requires IsRecovery(p)
    ensures FaultIsExact(s, me, p, c)
  {
    hide StepCreate, StepReadForMove, StepWriteMove, StepRequest, StepDecline, StepClaim, StepExpire;
    hide StepMarkExecuting, StepExecute, StepVerify, StepPersist, StepDiagnose;
    hide IR.UpdateWithEvents, AR.ExpirePending, MovedTo;
  }

  lemma DiagnosisFaults(s: Shared, me: nat, p: Phase, c: Choice)
    requires p.DiagnoseRead? || p.DiagnoseList? || p.DiagnoseStart?
    ensures FaultIsExact(s, me, p, c)
  {
    hide StepCreate, StepReadForMove, StepWriteMove, StepRequest, StepDecline, StepClaim, StepExpire;
    hide StepMarkExecuting, StepExecute, StepVerify, StepPersist, StepRecover;
    hide RR.CreateRun, RR.HasActiveRun;
  }

  lemma RunEndFaults(s: Shared, me: nat, p: Phase, c: Choice)
    requires p.DiagnoseEnd? || p.DiagnoseFail?
    ensures FaultIsExact(s, me, p, c)
  {
    hide RR.UpdateRun;
  }

  lemma FaultsAreExact(s: Shared, me: nat, p: Phase, c: Choice)
    requires !p.Done? && !p.ExecuteAct? && !p.ExecuteVerify?
    ensures FaultIsExact(s, me, p, c)
  {
    hide FaultIsExact;
    if IsRecovery(p) {
      RecoveryFaults(s, me, p, c);
    } else if p.DiagnoseEnd? || p.DiagnoseFail? {
      RunEndFaults(s, me, p, c);
    } else if IsDiagnosis(p) {
      DiagnosisFaults(s, me, p, c);
    } else if p.Claim? || p.Decline? {
      DecisionFaults(s, me, p, c);
    } else if p.Expire? {
      ExpireFaults(s, me, p.a, p.source, c);
    } else if p.MarkExecuting? {
      ExecutingFaults(s, me, p.a, c);
    } else if p.Persist? {
      PersistFaults(s, me, p.a, p.execution, c);
    } else if IsRequest(p) || IsAction(p) {
      RequestFaults(s, me, p, c);
    } else {
      IncidentFaults(s, me, p, c);
    }
  }

  // ---- over a run ----

  ghost predicate FailedBy(run: seq<World>, labels: seq<Label>, me: nat, n: nat)
    requires |run| == |labels| + 1 && n < |labels|
  {
    Own(labels, me, n) && me in run[n].calls && Fails(run[n].shared, run[n].calls[me], labels[n].choice)
  }

  lemma EntryIsNotDoomed(p: Phase)
    requires IsEntry(p)
    ensures !Doomed(p) && !p.Done?
  {
  }

  lemma Arrived(w: World, w': World, me: nat, p: Phase)
    requires Follows(w, w', Arrival(me, p))
    ensures w'.shared == w.shared && me !in w.calls && me in w'.calls && w'.calls[me] == p && IsEntry(p)
  {
    hide IsEntry;
  }

  /** A call of a run can always take its next step as `StepFails` describes it. */
  lemma CallIsReady(run: seq<World>, labels: seq<Label>, me: nat, k: nat)
    requires Labelled(run, labels) && k < |run| && me in run[k].calls
    ensures Ready(run[k].shared, me, run[k].calls[me])
  {
    hide Labelled, SharedInv, PhaseOk, ClaimsKept, RunsOk;
    LabelledIsRun(run, labels);
    RunHolds(run, k);
    assert LocalInv(run[k].shared, me, run[k].calls[me]);
    RunsAreHeld(run, labels, k);
    RunFacts(run[k].shared);
    if run[k].calls[me].DiagnoseEnd? {
      CompletionSucceeds(run[k].shared, run[k].calls[me].record);
    }
  }

  lemma {:induction false} DoomedExactlyAfter(run: seq<World>, labels: seq<Label>, me: nat, p: Phase, a: nat, k: nat)
    requires Labelled(run, labels) && a < k < |run| && labels[a] == Arrival(me, p)
    ensures me in run[k].calls
    ensures Doomed(run[k].calls[me]) <==> exists n :: a < n < k && FailedBy(run, labels, me, n)
    decreases k
  {
    hide Step, Enabled, IsEntry, Init, Fails, Ready, Doomed, Follows;
    FollowsAt(run, labels, k - 1);
    if k == a + 1 {
      Arrived(run[a], run[k], me, p);
      EntryIsNotDoomed(p);
    } else {
      DoomedExactlyAfter(run, labels, me, p, a, k - 1);
      if Own(labels, me, k - 1) {
        OwnStepDooms(run, labels, me, k);
      } else {
        OthersLeave(run[k - 1], run[k], labels[k - 1], me);
      }
    }
  }

  lemma OwnStepDooms(run: seq<World>, labels: seq<Label>, me: nat, k: nat)
    requires Labelled(run, labels) && 0 < k < |run| && Own(labels, me, k - 1)
    ensures me in run[k - 1].calls && me in run[k].calls
    ensures if Doomed(run[k - 1].calls[me]) then Doomed(run[k].calls[me])
            else Doomed(run[k].calls[me]) <==> FailedBy(run, labels, me, k - 1)
  {
    hide Step, Enabled, Init, Fails, Ready;
    FollowsAt(run, labels, k - 1);
    OwnMoves(run[k - 1], run[k], me, labels[k - 1].choice);
    CallIsReady(run, labels, me, k - 1);
    StepFails(run[k - 1].shared, me, run[k - 1].calls[me], labels[k - 1].choice);
  }

  /** A finished call, of whatever service and however the others interleaved, answered with an
      error if and only if one of its own accesses was among those `Fails` names. */
  lemma AnswerIsExact(run: seq<World>, labels: seq<Label>, me: nat, p: Phase, a: nat, k: nat)
    requires Labelled(run, labels) && a < k < |run| && labels[a] == Arrival(me, p)
    requires me in run[k].calls && run[k].calls[me].Done?
    ensures run[k].calls[me] == Done(false) <==> exists n :: a < n < k && FailedBy(run, labels, me, n)
  {
    hide Labelled, FailedBy;
    DoomedExactlyAfter(run, labels, me, p, a, k);
  }
}
