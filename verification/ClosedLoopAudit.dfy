/** Which actions the audit log records: exactly those whose guarded move was committed; and
    what a dead letter does to an action that is under way. */
module ClosedLoopAudit {
  import opened Basics
  import opened Incidents
  import opened ClosedLoop
  import opened ClosedLoopInvariant
  import opened ClosedLoopSteps
  import opened ClosedLoopTheorems
  import opened ClosedLoopAlone
  import opened ClosedLoopRuns
  import opened ClosedLoopDeliveries
  import IR = IncidentRepository
  import AR = ApprovalRepository

  // ---- events and commits ----

  /** A call's guarded move of the incident is written at step n, with the audit event. */
  ghost predicate CommitsAt(run: seq<World>, labels: seq<Label>, n: nat, i: string, kind: EventKind)
    requires |run| == |labels| + 1 && n < |labels|
  {
    && labels[n].Turn? && labels[n].call in run[n].calls
    && Writes(run[n].calls[labels[n].call], i, kind)
    && run[n + 1].shared.incidents != run[n].shared.incidents
  }

  predicate Writes(p: Phase, i: string, kind: EventKind) {
    p.WriteMove? && p.move.incident == i && p.move.audit == Some(kind)
  }

  lemma StepRecordsExactly(s: Shared, me: nat, p: Phase, c: Choice, i: string, kind: EventKind)
    requires !p.Done? && IsAudit(kind) && (p.WriteMove? ==> p.snap.id == p.move.incident)
    ensures var t := Step(s, me, p, c).0;
            Records(IR.Log(t.incidents.events, i), kind) <==>
            Records(IR.Log(s.incidents.events, i), kind) || (Writes(p, i, kind) && t.incidents != s.incidents)
  {
    hide Records, StepCreate, StepWriteMove, StepRecover;
    if p.WriteMove? {
      MoveRecordsExactly(s, p.move, p.snap, c, i, kind);
    } else if p.CreateWrite? {
      CreateRecordsNothing(s, p, c, i, kind);
    } else if p.RecoverWrite? {
      RecoverRecordsNothing(s, p.snap, c, i, kind);
    } else {
      OtherStepsWriteNoIncident(s, me, p, c);
    }
  }

  lemma RecordsAppend(log: seq<Event>, e: Event, kind: EventKind)
    ensures Records(log + [e], kind) <==> Records(log, kind) || e.kind == kind
  {
    if Records(log, kind) {
      var k :| 0 <= k < |log| && log[k].kind == kind;
      assert (log + [e])[k].kind == kind;
    }
    assert (log + [e])[|log|] == e;
  }

  lemma MoveRecordsExactly(s: Shared, m: Move, snap: Incident, c: Choice, i: string, kind: EventKind)
    requires IsAudit(kind) && snap.id == m.incident
    ensures var t := StepWriteMove(s, m, snap, c).0;
            Records(IR.Log(t.incidents.events, i), kind) <==>
            Records(IR.Log(s.incidents.events, i), kind)
            || (m.incident == i && m.audit == Some(kind) && t.incidents != s.incidents)
  {
    hide Records, Continue, IR.UpdateWithEvents;
    var inc := MovedTo(snap, m.to, c.now);
    var moved, audit := StatusEvent(m, snap, c), AuditEvent(m, snap, c);
    assert MoveEvents(m, snap, c) == Batch(moved, audit);
    if !c.fault.Refused? && IR.UpdateWithEvents(s.incidents, inc, Batch(moved, audit)).Ok? {
      UpdateIsCommit(s.incidents, inc, moved, audit);
      var log := IR.Log(s.incidents.events, snap.id);
      RecordsAppend(log, moved, kind);
      if audit.Some? {
        RecordsAppend(log + [moved], audit.value, kind);
      }
    }
  }

  lemma CreateRecordsNothing(s: Shared, p: Phase, c: Choice, i: string, kind: EventKind)
    requires IsAudit(kind) && p.CreateWrite?
    ensures Records(IR.Log(StepCreate(s, p, c).0.incidents.events, i), kind) <==>
        Records(IR.Log(s.incidents.events, i), kind)
  {
    hide Records, IR.CreateBlocked, IR.BatchConflicts;
    RecordsAppend(IR.Log(s.incidents.events, c.id), Event(c.statusEvent, c.id, Created), kind);
  }

  lemma RecoverRecordsNothing(s: Shared, snap: Incident, c: Choice, i: string, kind: EventKind)
    requires IsAudit(kind)
    ensures Records(IR.Log(StepRecover(s, RecoverWrite(snap), c).0.incidents.events, i), kind) <==>
            Records(IR.Log(s.incidents.events, i), kind)
  {
    hide Records, IR.UpdateWithEvents;
    var moved := Event(c.statusEvent, snap.id, Moved(snap.status, Resolved, AlertResolvedOutside));
    assert [Some(moved)] == Batch(moved, None);
    UpdateIsCommit(s.incidents, MovedTo(snap, Resolved, c.now), moved, None);
    RecordsAppend(IR.Log(s.incidents.events, snap.id), moved, kind);
  }

  /** An audit event is in the log of an incident if and only if some call committed a guarded
      move of the incident that carried it. */
  lemma {:induction false} RecordedIffCommitted(run: seq<World>, labels: seq<Label>, k: nat, i: string, kind: EventKind)
    requires Labelled(run, labels) && k < |run| && IsAudit(kind)
    ensures Records(IR.Log(run[k].shared.incidents.events, i), kind) <==>
            exists n :: 0 <= n < k && CommitsAt(run, labels, n, i, kind)
  {
    hide Follows, CommitsAt, Records, Init, Inv, IR.Log, IsAudit;
    if k == 0 {
      NothingRecordedYet(run[0], i, kind);
    } else {
      RecordedIffCommitted(run, labels, k - 1, i, kind);
      FollowsAt(run, labels, k - 1);
      LabelledIsRun(run, labels);
      RunHolds(run, k - 1);
      StepOfRunRecords(run, labels, k - 1, i, kind);
    }
  }

  lemma NothingRecordedYet(w: World, i: string, kind: EventKind)
    requires Init(w)
    ensures !Records(IR.Log(w.shared.incidents.events, i), kind)
  {
  }

  lemma StepOfRunRecords(run: seq<World>, labels: seq<Label>, n: nat, i: string, kind: EventKind)
    requires |run| == |labels| + 1 && n < |labels| && IsAudit(kind)
    requires Follows(run[n], run[n + 1], labels[n]) && Inv(run[n])
    ensures Records(IR.Log(run[n + 1].shared.incidents.events, i), kind) <==>
            Records(IR.Log(run[n].shared.incidents.events, i), kind) || CommitsAt(run, labels, n, i, kind)
  {
    hide Step, Enabled, IsEntry, Records, SharedInv, ClaimsKept, MoveOk, IR.Log;
    if labels[n].Turn? {
      var me, c := labels[n].call, labels[n].choice;
      OwnMoves(run[n], run[n + 1], me, c);
      assert LocalInv(run[n].shared, me, run[n].calls[me]);
      StepRecordsExactly(run[n].shared, me, run[n].calls[me], c, i, kind);
    }
  }

  // ---- answered actions ----

  /** The event that records an answered action. */
  function Trace(a: AR.Approval, action: ActionResult): EventKind
    requires !action.ActionUnknown?
  {
    if action.Acted? then ActionCompleted(a.id) else ActionFailed(a.id)
  }

  /** A call that writes the trace of an approval owns it and has acted. */
  lemma TraceIsOwn(s: Shared, you: nat, p: Phase, i: string, id: string)
    requires PhaseOk(s, you, p)
    requires Writes(p, i, ActionCompleted(id)) || Writes(p, i, ActionFailed(id))
    ensures id in s.claimer && s.claimer[id] == you
    ensures exists x :: x in s.actions && x.approval == id
  {
    match p.move.andThen
    case AfterRefusal(a, _) => assert Action(a.incident, a.id) in s.actions;
    case AfterAction(a, _) => assert Action(a.incident, a.id) in s.actions;
    case _ =>
  }

  lemma ActingPhase(w: World, me: nat)
    requires Inv(w) && me in w.calls && w.calls[me].ExecuteAct?
    ensures var a := w.calls[me].a;
            && w.calls[me].incident == a.incident && NotActed(w.shared, a.id)
            && a.id in w.shared.claimer && w.shared.claimer[a.id] == me
  {
    assert LocalInv(w.shared, me, w.calls[me]);
  }

  /** The commit of a trace comes after the action and is the claimer's own. */
  lemma CommitFollowsAction(run: seq<World>, labels: seq<Label>, me: nat, n: nat, m: nat, i: string, kind: EventKind)
    requires Labelled(run, labels) && n < |labels| && m < |labels|
    requires me in run[n].calls && run[n].calls[me].ExecuteAct?
    requires var id := run[n].calls[me].a.id; kind == ActionCompleted(id) || kind == ActionFailed(id)
    requires CommitsAt(run, labels, m, i, kind)
    ensures n < m && labels[m].call == me
  {
    hide Follows, Init, Inv, Grows, MoveOk, ClaimsKept, SharedInv;
    var id, you := run[n].calls[me].a.id, labels[m].call;
    LabelledIsRun(run, labels);
    RunHolds(run, n);
    RunHolds(run, m);
    ActingPhase(run[n], me);
    PhaseFact(run[m], you);
    TraceIsOwn(run[m].shared, you, run[m].calls[you], i, id);
    if m <= n {
      RunGrows(run, m, n);
      ActionsOnlyGrow(run[m].shared, run[n].shared, id);
    } else {
      RunGrows(run, n, m);
      SameClaimer(run[n].shared, run[m].shared, id);
    }
  }

  lemma PhaseFact(w: World, me: nat)
    requires Inv(w) && me in w.calls
    ensures PhaseOk(w.shared, me, w.calls[me])
  {
    hide SharedInv, ClaimsKept, PhaseOk;
    assert LocalInv(w.shared, me, w.calls[me]);
  }

  lemma ActionsOnlyGrow(s: Shared, t: Shared, id: string)
    requires Grows(s, t) && exists x :: x in s.actions && x.approval == id
    ensures !NotActed(t, id)
  {
    var x :| x in s.actions && x.approval == id;
    var k :| 0 <= k < |s.actions| && s.actions[k] == x;
    assert t.actions[k] == x;
  }

  /** An action that the outside answered is recorded in the log of its incident if and only
      if the claimer's guarded move after it was committed. */
  lemma ActionRecordedIffMoveCommitted(run: seq<World>, labels: seq<Label>, me: nat, n: nat, k: nat)
    requires Labelled(run, labels) && n < k < |run|
    requires labels[n].Turn? && labels[n].call == me && me in run[n].calls && run[n].calls[me].ExecuteAct?
    requires !labels[n].choice.action.ActionUnknown?
    ensures var a := run[n].calls[me].a;
            var kind := Trace(a, labels[n].choice.action);
            Records(IR.Log(run[k].shared.incidents.events, a.incident), kind) <==>
            exists m :: n < m < k && labels[m].call == me && CommitsAt(run, labels, m, a.incident, kind)
  {
    hide Follows, Init, CommitsAt, Records, IR.Log;
    var a := run[n].calls[me].a;
    var kind := Trace(a, labels[n].choice.action);
    RecordedIffCommitted(run, labels, k, a.incident, kind);
    if m :| 0 <= m < k && CommitsAt(run, labels, m, a.incident, kind) {
      CommitFollowsAction(run, labels, me, n, m, a.incident, kind);
    }
  }

  /** An action whose result stayed unknown is never recorded, neither as completed nor as
      failed. */
  lemma UnknownActionLeavesNoTrace(run: seq<World>, labels: seq<Label>, me: nat, n: nat, k: nat)
    requires Labelled(run, labels) && n < k < |run|
    requires labels[n].Turn? && labels[n].call == me && me in run[n].calls && run[n].calls[me].ExecuteAct?
    requires labels[n].choice.action.ActionUnknown?
    ensures var a := run[n].calls[me].a;
            forall i :: !Records(IR.Log(run[k].shared.incidents.events, i), ActionCompleted(a.id))
                        && !Records(IR.Log(run[k].shared.incidents.events, i), ActionFailed(a.id))
  {
    hide Follows, Init, CommitsAt, Records, IR.Log;
    var id := run[n].calls[me].a.id;
    forall i, kind | kind == ActionCompleted(id) || kind == ActionFailed(id)
      ensures !Records(IR.Log(run[k].shared.incidents.events, i), kind)
    {
      RecordedIffCommitted(run, labels, k, i, kind);
      forall m: nat | m < k ensures !CommitsAt(run, labels, m, i, kind) {
        UnknownCommitsNothing(run, labels, me, n, m, i, kind);
      }
    }
  }

  lemma UnknownCommitsNothing(run: seq<World>, labels: seq<Label>, me: nat, n: nat, m: nat, i: string, kind: EventKind)
    requires Labelled(run, labels) && n < |labels| && m < |labels|
    requires labels[n].Turn? && labels[n].call == me && me in run[n].calls && run[n].calls[me].ExecuteAct?
    requires labels[n].choice.action.ActionUnknown?
    requires var id := run[n].calls[me].a.id; kind == ActionCompleted(id) || kind == ActionFailed(id)
    ensures !CommitsAt(run, labels, m, i, kind)
  {
    hide Follows, Init;
    if CommitsAt(run, labels, m, i, kind) {
      CommitFollowsAction(run, labels, me, n, m, i, kind);
      OnlyPersists(run, labels, me, n, m);
    }
  }

  lemma {:induction false} OnlyPersists(run: seq<World>, labels: seq<Label>, me: nat, n: nat, m: nat)
    requires Labelled(run, labels) && n < m < |run|
    requires labels[n].Turn? && labels[n].call == me && me in run[n].calls && run[n].calls[me].ExecuteAct?
    requires labels[n].choice.action.ActionUnknown?
    ensures me in run[m].calls && (run[m].calls[me].Persist? || run[m].calls[me].Done?)
    decreases m
  {
    hide Step, Enabled, Init, IsEntry;
    FollowsAt(run, labels, m - 1);
    if m - 1 > n {
      OnlyPersists(run, labels, me, n, m - 1);
    }
    if Own(labels, me, m - 1) {
      OwnMoves(run[m - 1], run[m], me, labels[m - 1].choice);
      UnknownOnlyPersists(run[m - 1].shared, me, run[m - 1].calls[me], labels[m - 1].choice);
    } else {
      OthersLeave(run[m - 1], run[m], labels[m - 1], me);
    }
  }

  lemma UnknownOnlyPersists(s: Shared, me: nat, p: Phase, c: Choice)
    requires p.Persist? || (p.ExecuteAct? && c.action.ActionUnknown?)
    ensures Step(s, me, p, c).1.Persist? || Step(s, me, p, c).1.Done?
  {
    hide AR.TransitionStatus;
  }

  // ---- a dead letter during the action ----

  /** Before it acts, the trace of an approval is in no log. */
  lemma NotYetRecorded(w: World, me: nat)
    requires Inv(w) && me in w.calls && w.calls[me].ExecuteAct?
    ensures var a := w.calls[me].a;
            !Records(IR.Log(w.shared.incidents.events, a.incident), ActionCompleted(a.id))
  {
    hide SharedInv, LocalInv;
    var a := w.calls[me].a;
    ActingPhase(w, me);
    var log := IR.Log(w.shared.incidents.events, a.incident);
    if k :| 0 <= k < |log| && log[k].kind == ActionCompleted(a.id) {
      EventOf(w, a.incident, k);
    }
  }

  /** A dead letter fails the incident while its action runs: the action happens and succeeds,
      yet the incident and the approval end FAILED, and no event records the completion. */
  lemma DeadLetterDuringAction(run: seq<World>, labels: seq<Label>, me: nat, dead: nat, reason: string,
                               operation: string, cs: seq<Choice>)
    returns (longer: seq<World>, more: seq<Label>)
    requires Labelled(run, labels) && me != dead && me in Last(run).calls && dead in Last(run).calls
    requires Last(run).calls[me].ExecuteAct?
    requires Last(run).calls[dead] == Fail(Last(run).calls[me].incident, reason)
    requires var s, a := Last(run).shared, Last(run).calls[me].a;
             a.incident in s.incidents.items && s.incidents.items[a.incident].status == Mitigating
    requires |cs| == 5 && (forall k | 0 <= k < |cs| :: cs[k].fault.Answered?) && cs[0].action == Acted(operation)
    requires FreshFrom(Last(run).shared, cs, 0)
    ensures Labelled(longer, more) && run <= longer && labels <= more
    ensures var a, t := Last(run).calls[me].a, Last(longer).shared;
            && Action(a.incident, a.id) in t.actions
            && a.incident in t.incidents.items && t.incidents.items[a.incident].status == Incidents.Failed
            && a.id in t.approvals && t.approvals[a.id].status == AR.Failed
            && !Records(IR.Log(t.incidents.events, a.incident), ActionCompleted(a.id))
            && dead in Last(longer).calls && Last(longer).calls[dead] == Done(true)
            && me in Last(longer).calls && Last(longer).calls[me].Done?
  {
    hide Step, Enabled, FreshFrom, Follows, Init, Inv, Records, IR.Log;
    var w := Last(run);
    var a := w.calls[me].a;
    LabelledIsRun(run, labels);
    RunHolds(run, |run| - 1);
    NotYetRecorded(w, me);
    ActingRow(w, me);
    longer, more := ActThenDeadLetter(run, labels, me, dead, reason, operation, cs);
    longer, more := DeniedEnds(longer, more, me, a, operation, cs[3], cs[4]);
  }

  lemma DeniedEnds(run: seq<World>, labels: seq<Label>, me: nat, a: AR.Approval, operation: string, c: Choice,
                   d: Choice)
    returns (longer: seq<World>, more: seq<Label>)
    requires Labelled(run, labels) && me in Last(run).calls && c.fault.Answered? && d.fault.Answered?
    requires Last(run).calls[me] == ReadForMove(Move(a.incident, Verifying, MachineTransition,
                                                     Some(ActionCompleted(a.id)), AfterAction(a, operation)))
    requires var s := Last(run).shared;
             && a.incident in s.incidents.items && s.incidents.items[a.incident].status == Incidents.Failed
             && a.id in s.approvals && s.approvals[a.id] == a && a.status == AR.Executing
    ensures Labelled(longer, more) && run <= longer && labels <= more
    ensures var s, t := Last(run).shared, Last(longer).shared;
            && t == s.(approvals := t.approvals) && a.id in t.approvals && t.approvals[a.id].status == AR.Failed
            && Last(longer).calls == Last(run).calls[me := Done(true)]
  {
    hide Step, Enabled, Follows, Init;
    var s := Last(run).shared;
    var row := AR.Changed(a, AR.Failed, d.now, AR.Note(AR.Because(c.text)));
    DeniedPersists(s, me, a, operation, c, d);
    longer, more := StepOn(run, labels, me, c, s, Persist(a, Failure(c.text)));
    longer, more := StepOn(longer, more, me, d, s.(approvals := s.approvals[a.id := row]), Done(true));
    assert Last(longer).calls == Last(run).calls[me := Done(true)];
  }

  /** The action is answered, and before its call moves on the dead letter fails the incident. */
  lemma ActThenDeadLetter(run: seq<World>, labels: seq<Label>, me: nat, dead: nat, reason: string,
                          operation: string, cs: seq<Choice>)
    returns (longer: seq<World>, more: seq<Label>)
    requires Labelled(run, labels) && me != dead && me in Last(run).calls && dead in Last(run).calls
    requires Last(run).calls[me].ExecuteAct? && Last(run).calls[me].incident == Last(run).calls[me].a.incident
    requires Last(run).calls[dead] == Fail(Last(run).calls[me].incident, reason)
    requires var s, i := Last(run).shared, Last(run).calls[me].a.incident;
             i in s.incidents.items && s.incidents.items[i].status == Mitigating && s.incidents.items[i].id == i
    requires |cs| == 5 && (forall k | 0 <= k < |cs| :: cs[k].fault.Answered?) && cs[0].action == Acted(operation)
    requires FreshFrom(Last(run).shared, cs, 0)
    ensures Labelled(longer, more) && run <= longer && labels <= more
    ensures var a, s, t := Last(run).calls[me].a, Last(run).shared, Last(longer).shared;
            var done := Move(a.incident, Verifying, MachineTransition, Some(ActionCompleted(a.id)),
                             AfterAction(a, operation));
            && t.actions == s.actions + [Action(a.incident, a.id)] && t.approvals == s.approvals
            && a.incident in t.incidents.items && t.incidents.items[a.incident].status == Incidents.Failed
            && (Records(IR.Log(t.incidents.events, a.incident), ActionCompleted(a.id)) <==>
                Records(IR.Log(s.incidents.events, a.incident), ActionCompleted(a.id)))
            && dead in Last(longer).calls && Last(longer).calls[dead] == Done(true)
            && me in Last(longer).calls && Last(longer).calls[me] == ReadForMove(done)
  {
    hide Step, Enabled, FreshFrom, Follows, Init, Moved1, Records, IR.Log;
    var s, a := Last(run).shared, Last(run).calls[me].a;
    var acted := s.(actions := s.actions + [Action(a.incident, a.id)]);
    var fail := Move(a.incident, Incidents.Failed, Given(reason), None, Return);
    var done := Move(a.incident, Verifying, MachineTransition, Some(ActionCompleted(a.id)), AfterAction(a, operation));
    ActStep(s, me, a, operation, cs[0]);
    DeadLetterMoves(s, acted, dead, a.incident, reason, cs);
    longer, more := StepOn(run, labels, me, cs[0], acted, ReadForMove(done));
    longer, more := StepOn(longer, more, dead, cs[1], acted, WriteMove(fail, s.incidents.items[a.incident]));
    longer, more := StepOn(longer, more, dead, cs[2], Moved1(acted, fail, cs[2]), Done(true));
  }

  lemma ActingRow(w: World, me: nat)
    requires Inv(w) && me in w.calls && w.calls[me].ExecuteAct?
    ensures var a := w.calls[me].a;
            && a.id in w.shared.approvals && w.shared.approvals[a.id] == a && a.status == AR.Executing
            && w.calls[me].incident == a.incident
    ensures forall i | i in w.shared.incidents.items :: w.shared.incidents.items[i].id == i
  {
    hide SharedInv;
    assert LocalInv(w.shared, me, w.calls[me]);
    forall i | i in w.shared.incidents.items ensures w.shared.incidents.items[i].id == i {
      IncidentFacts(w.shared, i);
    }
  }

  lemma ActStep(s: Shared, me: nat, a: AR.Approval, operation: string, c: Choice)
    requires c.action == Acted(operation)
    ensures Step(s, me, ExecuteAct(a, a.incident), c) ==
            (s.(actions := s.actions + [Action(a.incident, a.id)]),
             ReadForMove(Move(a.incident, Verifying, MachineTransition, Some(ActionCompleted(a.id)),
                              AfterAction(a, operation))))
  {
  }

  lemma DeadLetterMoves(s0: Shared, s: Shared, dead: nat, i: string, reason: string, cs: seq<Choice>)
    requires |cs| == 5 && cs[1].fault.Answered? && cs[2].fault.Answered? && FreshFrom(s0, cs, 0)
    requires s.incidents == s0.incidents
    requires i in s.incidents.items && s.incidents.items[i].id == i && s.incidents.items[i].status == Mitigating
    ensures var m, was := Move(i, Incidents.Failed, Given(reason), None, Return), s.incidents.items[i];
            var t := Moved1(s, m, cs[2]);
            && Step(s, dead, ReadForMove(m), cs[1]) == (s, WriteMove(m, was))
            && Step(s, dead, WriteMove(m, was), cs[2]) == (t, Done(true))
            && t.actions == s.actions && t.approvals == s.approvals
            && i in t.incidents.items && t.incidents.items[i].status == Incidents.Failed
            && forall kind | IsAudit(kind) ::
                 Records(IR.Log(t.incidents.events, i), kind) <==> Records(IR.Log(s.incidents.events, i), kind)
  {
    hide Records;
    var m, was := Move(i, Incidents.Failed, Given(reason), None, Return), s.incidents.items[i];
    FreshLater(s0, s, cs, 0, 2);
    MoveCommits(s, m, was, cs, 2);
    forall kind | IsAudit(kind)
      ensures Records(IR.Log(Moved1(s, m, cs[2]).incidents.events, i), kind) <==>
          Records(IR.Log(s.incidents.events, i), kind)
    {
      RecordsAppend(IR.Log(s.incidents.events, i), StatusEvent(m, was, cs[2]), kind);
    }
  }

  lemma DeniedPersists(s: Shared, me: nat, a: AR.Approval, operation: string, c: Choice, d: Choice)
    requires c.fault.Answered? && d.fault.Answered?
    requires a.incident in s.incidents.items && s.incidents.items[a.incident].status == Incidents.Failed
    requires a.id in s.approvals && s.approvals[a.id] == a && a.status == AR.Executing
    ensures var m := Move(a.incident, Verifying, MachineTransition, Some(ActionCompleted(a.id)),
                          AfterAction(a, operation));
            var row := AR.Changed(a, AR.Failed, d.now, AR.Note(AR.Because(c.text)));
            && Step(s, me, ReadForMove(m), c) == (s, Persist(a, Failure(c.text)))
            && Step(s, me, Persist(a, Failure(c.text)), d) == (s.(approvals := s.approvals[a.id := row]), Done(true))
            && row.status == AR.Failed
  {
  }
}
