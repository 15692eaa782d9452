/** What the closed loop guarantees over every finite interleaving of its calls. */
module ClosedLoopTheorems {
  import opened Basics
  import opened Incidents
  import opened ClosedLoop
  import opened ClosedLoopInvariant
  import opened ClosedLoopSteps
  import IR = IncidentRepository
  import AR = ApprovalRepository
  import RR = RunRepository
  import V = Verifier

  // ---- the invariant holds along every run ----

  lemma InitHolds(w: World)
    requires Init(w)
    ensures Inv(w)
  {
  }

  lemma ArrivalKeeps(w: World, w': World, me: nat, p: Phase)
    requires Inv(w) && Arrives(w, w', me, p)
    ensures Inv(w')
  {
    hide SharedInv, MayRest;
    forall you | you in w'.calls ensures LocalInv(w'.shared, you, w'.calls[you]) {
      if you == me {
        assert ClaimsKept(w.shared, me, p) by {
          assert forall id | id in w.shared.claimer :: w.shared.claimer[id] in w.calls;
        }
      }
    }
  }

  lemma AdvanceKeeps(w: World, w': World, me: nat, c: Choice)
    requires Inv(w) && Advances(w, w', me, c)
    ensures Inv(w') && Evolves(w.shared, w'.shared, me)
  {
    hide IncidentsOk, UniqueActive, LogsOk, ActionsOk, ChecksOk, RunsOk, ApprovalsOk, PhaseOk, ClaimsKept, Enabled;
    hide Step, Grows;
    StepKeeps(w.shared, me, w.calls[me], c);
    forall you | you in w'.calls ensures LocalInv(w'.shared, you, w'.calls[you]) {
      if you != me {
        LocalInvKept(w.shared, w'.shared, me, you, w.calls[you]);
      }
    }
    forall id | id in w'.shared.claimer ensures w'.shared.claimer[id] in w'.calls {
      if id in w.shared.claimer {
        assert w'.shared.claimer[id] == w.shared.claimer[id] by { SameClaimer(w.shared, w'.shared, id); }
      }
    }
  }

  lemma SameClaimer(s: Shared, t: Shared, id: string)
    requires Grows(s, t) && id in s.claimer
    ensures id in t.claimer && t.claimer[id] == s.claimer[id]
  {
  }

  lemma NextKeeps(w: World, w': World)
    requires Inv(w) && Next(w, w')
    ensures Inv(w') && Grows(w.shared, w'.shared)
  {
    hide Inv, Grows, Enabled, Step, IsEntry;
    if me, p :| Arrives(w, w', me, p) {
      ArrivalKeeps(w, w', me, p);
      GrowsReflexive(w.shared);
    } else {
      var me, c :| Advances(w, w', me, c);
      AdvanceKeeps(w, w', me, c);
    }
  }

  lemma {:induction false} RunHolds(run: seq<World>, k: nat)
    requires IsRun(run) && k < |run|
    ensures Inv(run[k])
  {
    hide Inv, Init, Next;
    if k == 0 {
      InitHolds(run[0]);
    } else {
      RunHolds(run, k - 1);
      StepInRun(run, k - 1);
      NextKeeps(run[k - 1], run[k]);
    }
  }

  /** Along a run records, logs, approvals and history only grow. */
  lemma {:induction false} RunGrows(run: seq<World>, j: nat, k: nat)
    requires IsRun(run) && j <= k < |run|
    ensures Grows(run[j].shared, run[k].shared)
    decreases k
  {
    hide Inv, Init, Next, Grows;
    if j == k {
      GrowsReflexive(run[j].shared);
    } else {
      RunGrows(run, j, k - 1);
      RunHolds(run, k - 1);
      StepInRun(run, k - 1);
      NextKeeps(run[k - 1], run[k]);
      GrowsTransitive(run[j].shared, run[k - 1].shared, run[k].shared);
    }
  }

  lemma RowOf(w: World, id: string)
    requires Inv(w) && id in w.shared.approvals
    ensures ApprovalOk(w.shared, id)
    ensures var a := w.shared.approvals[id];
            Started(a.status) ==> a.incident in w.shared.mover && w.shared.mover[a.incident] == id
  {
    RowFacts(w.shared, id);
  }

  lemma ActionOf(w: World, k: nat)
    requires Inv(w) && k < |w.shared.actions|
    ensures ActionOk(w.shared, w.shared.actions[k])
    ensures var x := w.shared.actions[k];
            x.incident in w.shared.mover && w.shared.mover[x.incident] == x.approval
  {
    hide IncidentsOk, LogsOk, UniqueActive, LocalInv;
    assert ActionOk(w.shared, w.shared.actions[k]);
    assert ApprovalOk(w.shared, w.shared.actions[k].approval);
  }

  // ---- at most one action ----

  /** However many approvals an incident has and however its calls interleave, the outside
      action is invoked at most once for it: two invocations are of different incidents. */
  lemma ActionAtMostOncePerIncident(run: seq<World>, k: nat, x: nat, y: nat)
    requires IsRun(run) && k < |run| && x < y < |run[k].shared.actions|
    ensures run[k].shared.actions[x].incident != run[k].shared.actions[y].incident
    ensures run[k].shared.actions[x].approval != run[k].shared.actions[y].approval
  {
    hide IncidentsOk, UniqueActive, LogsOk, ApprovalsOk, ChecksOk, RunsOk, LocalInv, IsRun;
    RunHolds(run, k);
    ActionOf(run[k], x);
    ActionOf(run[k], y);
  }

  /** At most one approval of an incident ever reaches EXECUTING, even in different states. */
  lemma OneExecutingApprovalPerIncident(run: seq<World>, j: nat, k: nat, a: string, b: string)
    requires IsRun(run) && j <= k < |run|
    requires a in run[j].shared.approvals && Started(run[j].shared.approvals[a].status)
    requires b in run[k].shared.approvals && Started(run[k].shared.approvals[b].status)
    requires run[j].shared.approvals[a].incident == run[k].shared.approvals[b].incident
    ensures a == b
  {
    hide IsRun, Inv;
    RunHolds(run, j);
    RunHolds(run, k);
    RunGrows(run, j, k);
    RowOf(run[j], a);
    RowOf(run[k], b);
  }

  /** A call acts only after it has itself seen the incident in MITIGATING, with its approval
      EXECUTING, at an earlier moment of the run. */
  lemma {:induction false} CheckedBeforeActing(run: seq<World>, k: nat, me: nat)
    requires IsRun(run) && k < |run| && me in run[k].calls && run[k].calls[me].ExecuteAct?
    ensures exists j | 0 <= j < k ::
              && me in run[j].calls && run[j].calls[me] == ExecuteRead(run[k].calls[me].a, run[k].calls[me].incident)
              && run[k].calls[me].incident == run[k].calls[me].a.incident
              && run[k].calls[me].incident in run[j].shared.incidents.items
              && run[j].shared.incidents.items[run[k].calls[me].incident].status == Mitigating
  {
    hide IsRun, Init, Next, Inv;
    RunStartsEmpty(run);
    StepInRun(run, k - 1);
    RunHolds(run, k - 1);
    EntersActFromRead(run[k - 1], run[k], me);
    if run[k - 1].calls[me] == run[k].calls[me] {
      CheckedBeforeActing(run, k - 1, me);
    }
  }

  lemma RunStartsEmpty(run: seq<World>)
    requires IsRun(run)
    ensures run[0].calls == map[]
  {
  }

  lemma EntersActFromRead(w: World, w': World, me: nat)
    requires Inv(w) && Next(w, w') && me in w'.calls && w'.calls[me].ExecuteAct?
    ensures me in w.calls
    ensures var p := w'.calls[me];
            || w.calls[me] == p
            || (w.calls[me] == ExecuteRead(p.a, p.incident) && p.incident == p.a.incident
                && p.incident in w.shared.incidents.items
                && w.shared.incidents.items[p.incident].status == Mitigating)
  {
    hide SharedInv, ClaimsKept, Enabled;
    if you, p :| Arrives(w, w', you, p) {
      assert me != you;
    } else {
      var you, c :| Advances(w, w', you, c);
      if you == me {
        assert LocalInv(w.shared, me, w.calls[me]);
        OnlyReadEntersAct(w.shared, me, w.calls[me], c);
      }
    }
  }

  lemma OnlyReadEntersAct(s: Shared, me: nat, p: Phase, c: Choice)
    requires !p.Done? && Step(s, me, p, c).1.ExecuteAct?
    ensures p.ExecuteRead? && Step(s, me, p, c).1 == ExecuteAct(p.a, p.incident)
    ensures p.incident in s.incidents.items && s.incidents.items[p.incident].status == Mitigating
  {
    hide IR.UpdateWithEvents, IR.CreateWithEvent, AR.TransitionStatus, AR.Create, RR.CreateRun, RR.UpdateRun;
    hide SequencePasses, MovedTo, CanTransition, AR.ExpirePending;
  }

  // ---- outside recovery and action exclude each other ----

  lemma ClosedOutsideMeansUnmoved(w: World, i: string)
    requires Inv(w) && ClosedOutside(IR.Log(w.shared.incidents.events, i))
    ensures i !in w.shared.mover
    ensures i in w.shared.incidents.items && w.shared.incidents.items[i].status == Resolved
  {
    hide SharedInv, LocalInv;
    IncidentFacts(w.shared, i);
  }

  /** An incident that an outside recovery closed, at any moment of the run, has no approval
      that ever reached or will ever reach EXECUTING, and no action at any moment. */
  lemma RecoveryExcludesAction(run: seq<World>, j: nat, k: nat, i: string)
    requires IsRun(run) && j < |run| && k < |run|
    requires ClosedOutside(IR.Log(run[j].shared.incidents.events, i))
    ensures forall a | a in run[k].shared.approvals && run[k].shared.approvals[a].incident == i ::
              !Started(run[k].shared.approvals[a].status)
    ensures forall x | 0 <= x < |run[k].shared.actions| :: run[k].shared.actions[x].incident != i
  {
    hide IsRun, Inv, Started, ClosedOutside, Grows;
    var last := if j <= k then k else j;
    RunHolds(run, k);
    RunHolds(run, last);
    RunGrows(run, j, last);
    RunGrows(run, k, last);
    ClosedOutsideGrows(run[j].shared, run[last].shared, i);
    ClosedOutsideMeansUnmoved(run[last], i);
    MoversGrow(run[k].shared, run[last].shared);
    forall a | a in run[k].shared.approvals && run[k].shared.approvals[a].incident == i
      ensures !Started(run[k].shared.approvals[a].status)
    {
      RowOf(run[k], a);
    }
    forall x | 0 <= x < |run[k].shared.actions| ensures run[k].shared.actions[x].incident != i {
      ActionOf(run[k], x);
    }
  }

  lemma ClosedOutsideGrows(s: Shared, t: Shared, i: string)
    requires Grows(s, t) && ClosedOutside(IR.Log(s.incidents.events, i))
    ensures ClosedOutside(IR.Log(t.incidents.events, i))
  {
  }

  lemma MoversGrow(s: Shared, t: Shared)
    requires Grows(s, t)
    ensures forall i | i in s.mover :: i in t.mover && t.mover[i] == s.mover[i]
  {
  }

  /** The write of a recovery call, once committed, is what closes the incident outside. */
  lemma RecoveryCommitClosesOutside(w: World, w': World, me: nat, c: Choice)
    requires Inv(w) && Advances(w, w', me, c) && w.calls[me].RecoverWrite?
    requires w'.shared.incidents != w.shared.incidents
    ensures ClosedOutside(IR.Log(w'.shared.incidents.events, w.calls[me].snap.id))
  {
    hide Inv;
    var snap := w.calls[me].snap;
    var moved := Event(c.statusEvent, snap.id, Moved(snap.status, Resolved, AlertResolvedOutside));
    assert [Some(moved)] == Batch(moved, None);
    UpdateIsCommit(w.shared.incidents, MovedTo(snap, Resolved, c.now), moved, None);
    var log := IR.Log(w'.shared.incidents.events, snap.id);
    assert log[|log| - 1] == moved;
  }

  // ---- the audit log ----

  /** In every reachable state the log of an incident replays to its stored record: its moves
      form a chain from OPEN to the stored status along legal edges, and the stored version is
      their number, which is at most five. */
  lemma AuditLogReplaysToRecord(run: seq<World>, k: nat, i: string)
    requires IsRun(run) && k < |run| && i in run[k].shared.incidents.items
    ensures i in run[k].shared.incidents.events
    ensures var inc := run[k].shared.incidents.items[i];
            var log := run[k].shared.incidents.events[i];
            && 0 <= inc.version && Replay(log) == At(inc.status, inc.version)
            && IsChain(Moves(log), inc.status)
            && |Moves(log)| == inc.version <= 5
  {
    hide IsRun, IsChain, SharedInv, LocalInv;
    RunHolds(run, k);
    IncidentFacts(run[k].shared, i);
    ReplayIsChain(run[k].shared.incidents.events[i]);
  }

  /** No event is ever rewritten or removed: a log only grows at its end. */
  lemma AuditLogIsAppendOnly(run: seq<World>, j: nat, k: nat, i: string)
    requires IsRun(run) && j <= k < |run|
    ensures IR.Log(run[j].shared.incidents.events, i) <= IR.Log(run[k].shared.incidents.events, i)
  {
    hide IsRun;
    RunGrows(run, j, k);
  }

  lemma EventOf(w: World, i: string, e: nat)
    requires Inv(w) && e < |IR.Log(w.shared.incidents.events, i)|
    ensures EventOk(w.shared, i, IR.Log(w.shared.incidents.events, i)[e].kind)
  {
    hide IncidentsOk, UniqueActive, ActionsOk, ApprovalsOk, RunsOk, LocalInv, EventOk;
  }

  /** Every audit event is true: a completed or failed action was invoked for that approval of
      that incident, and a postmortem follows a completed action and a passed verification. */
  lemma AuditEventsAreTrue(run: seq<World>, k: nat, i: string, e: nat)
    requires IsRun(run) && k < |run| && e < |IR.Log(run[k].shared.incidents.events, i)|
    ensures var s := run[k].shared;
            match IR.Log(s.incidents.events, i)[e].kind
            case ActionCompleted(a) => Action(i, a) in s.actions
            case ActionFailed(a) => Action(i, a) in s.actions
            case VerificationFailed(a) => Records(IR.Log(s.incidents.events, i), ActionCompleted(a))
            case PostmortemGenerated(a) =>
              && Records(IR.Log(s.incidents.events, i), ActionCompleted(a))
              && a in s.checked
              && V.Passes(s.config.thresholds.Filled(), s.config.verification, s.checked[a])
            case _ => true
  {
    hide IsRun, IncidentsOk, UniqueActive, ActionsOk, ApprovalsOk, RunsOk, LocalInv, LogsOk, V.Passes;
    RunHolds(run, k);
    EventOf(run[k], i, e);
  }

  /** An EXECUTED approval belongs to an incident that is RESOLVED or FAILED and whose log
      holds the completion of that very approval. */
  lemma ExecutedIsClosedAndAudited(run: seq<World>, k: nat, id: string)
    requires IsRun(run) && k < |run| && id in run[k].shared.approvals
    requires run[k].shared.approvals[id].status == AR.Executed
    ensures var s := run[k].shared;
            var i := s.approvals[id].incident;
            && i in s.incidents.items
            && (s.incidents.items[i].status == Resolved || s.incidents.items[i].status == Incidents.Failed)
            && Records(IR.Log(s.incidents.events, i), ActionCompleted(id))
            && Action(i, id) in s.actions
  {
    hide IsRun, SharedInv, LocalInv;
    RunHolds(run, k);
    var s := run[k].shared;
    RowOf(run[k], id);
    var i := s.approvals[id].incident;
    IncidentFacts(s, i);
    var log := IR.Log(s.incidents.events, i);
    var e :| 0 <= e < |log| && log[e].kind == ActionCompleted(id);
    EventOf(run[k], i, e);
  }

  /** UNKNOWN is only for an action that was invoked: whatever fails before the action, with
      its outcome in doubt or not, leaves the approval FAILED. */
  lemma UnknownMeansInvoked(run: seq<World>, k: nat, id: string)
    requires IsRun(run) && k < |run| && id in run[k].shared.approvals
    requires run[k].shared.approvals[id].status == AR.Unknown
    ensures Action(run[k].shared.approvals[id].incident, id) in run[k].shared.actions
  {
    hide IsRun, SharedInv, LocalInv;
    RunHolds(run, k);
    RowOf(run[k], id);
  }

  /** A RESOLVED incident was closed outside, or one of its actions was completed. */
  lemma ResolvedHasAReason(run: seq<World>, k: nat, i: string)
    requires IsRun(run) && k < |run| && i in run[k].shared.incidents.items
    requires run[k].shared.incidents.items[i].status == Resolved
    ensures var log := IR.Log(run[k].shared.incidents.events, i);
            ClosedOutside(log)
            || exists e, a :: 0 <= e < |log| && log[e].kind == ActionCompleted(a)
                              && Action(i, a) in run[k].shared.actions
  {
    hide IsRun, SharedInv, LocalInv;
    RunHolds(run, k);
    IncidentFacts(run[k].shared, i);
    var log := IR.Log(run[k].shared.incidents.events, i);
    if !ClosedOutside(log) {
      var e :| 0 <= e < |log| && log[e].kind.ActionCompleted?;
      EventOf(run[k], i, e);
      assert log[e].kind == ActionCompleted(log[e].kind.approval);
    }
  }

  // ---- claim ownership ----

  /** Once a call has claimed an approval, no step of another call changes the row. */
  lemma OnlyTheClaimerWrites(run: seq<World>, k: nat, me: nat, c: Choice, id: string)
    requires IsRun(run) && k < |run| - 1 && Advances(run[k], run[k + 1], me, c)
    requires id in run[k].shared.claimer && run[k].shared.claimer[id] != me
    ensures id in run[k].shared.approvals && id in run[k + 1].shared.approvals
    ensures run[k + 1].shared.approvals[id] == run[k].shared.approvals[id]
  {
    hide IsRun, Advances, SharedInv, LocalInv, Grows;
    RunHolds(run, k);
    RowFacts(run[k].shared, id);
    AdvanceKeeps(run[k], run[k + 1], me, c);
  }

  /** The status swap a claimer asks for after its claim never meets a conflict. */
  lemma ClaimerNeverConflicts(run: seq<World>, k: nat, me: nat, now: int, m: AR.Mutation)
    requires IsRun(run) && k < |run| && me in run[k].calls
    ensures var rows := run[k].shared.approvals;
            match run[k].calls[me]
            case Expire(a, source) =>
              source == AR.Approved ==> AR.TransitionStatus(rows, a.id, AR.Approved, AR.Expired, now, m).Ok?
            case MarkExecuting(a) => AR.TransitionStatus(rows, a.id, AR.Approved, AR.Executing, now, m).Ok?
            case Persist(a, e) => AR.TransitionStatus(rows, a.id, AR.Executing, FinalStatus(e), now, m).Ok?
            case _ => true
  {
    hide IsRun, SharedInv, ClaimsKept;
    RunHolds(run, k);
    assert LocalInv(run[k].shared, me, run[k].calls[me]);
  }

  /** With an executor wired and a store that did not fail its claimer, a finished call leaves
      every approval it claimed in EXECUTED, FAILED, UNKNOWN or EXPIRED; without an executor it
      may also leave it in APPROVED. */
  lemma FinishedApproveIsFinal(run: seq<World>, k: nat, me: nat, id: string)
    requires IsRun(run) && k < |run| && me in run[k].calls && run[k].calls[me].Done?
    requires id in run[k].shared.claimer && run[k].shared.claimer[id] == me
    requires id !in run[k].shared.faulted
    ensures id in run[k].shared.approvals
    ensures var st := run[k].shared.approvals[id].status;
            || st == AR.Executed || st == AR.Failed || st == AR.Unknown || st == AR.Expired
            || (!run[k].shared.config.executor && st == AR.Approved)
  {
    hide IsRun, SharedInv, PhaseOk;
    RunHolds(run, k);
    RowFacts(run[k].shared, id);
    assert LocalInv(run[k].shared, me, run[k].calls[me]);
    assert MayRest(run[k].shared, id) || Held(run[k].calls[me]) == Some(id);
  }

  // ---- one active incident per fingerprint, one active run per incident ----

  lemma OneActiveIncidentPerFingerprint(run: seq<World>, k: nat, i: string, j: string)
    requires IsRun(run) && k < |run|
    requires i in run[k].shared.incidents.items && j in run[k].shared.incidents.items
    requires var x, y := run[k].shared.incidents.items[i], run[k].shared.incidents.items[j];
             x.fingerprint == y.fingerprint && !x.status.IsTerminal() && !y.status.IsTerminal()
    ensures i == j
  {
    hide IsRun, IncidentsOk, LogsOk, ActionsOk, ApprovalsOk, ChecksOk, RunsOk, LocalInv;
    RunHolds(run, k);
    assert Rivals(run[k].shared, i, j);
  }

  /** A record that a step adds is OPEN. */
  lemma NewRecordsAreOpen(w: World, w': World, j: string)
    requires Next(w, w')
    requires j in w'.shared.incidents.items && j !in w.shared.incidents.items
    ensures w'.shared.incidents.items[j].status == Open
  {
    hide IsEntry, Enabled, StepReadForMove, StepRequest, StepExecute, StepDiagnose, StepVerify;
    if me, p :| Arrives(w, w', me, p) {
    } else {
      var me, c :| Advances(w, w', me, c);
      StepAddsOpen(w.shared, me, w.calls[me], c, j);
    }
  }

  lemma StepAddsOpen(s: Shared, me: nat, p: Phase, c: Choice, j: string)
    requires !p.Done? && j !in s.incidents.items
    requires j in Step(s, me, p, c).0.incidents.items
    ensures Step(s, me, p, c).0.incidents.items[j].status == Open
  {
    hide Continue, StepReadForMove, SequencePasses, IR.BatchConflicts, IR.CreateBlocked, IR.AddEvents;
    if !p.CreateWrite? && !p.WriteMove? && !p.RecoverWrite? {
      OtherStepsWriteNoIncident(s, me, p, c);
    }
  }

  lemma OtherStepsWriteNoIncident(s: Shared, me: nat, p: Phase, c: Choice)
    requires !p.Done? && !p.CreateWrite? && !p.WriteMove? && !p.RecoverWrite?
    ensures Step(s, me, p, c).0.incidents == s.incidents
  {
    hide StepReadForMove, StepWriteMove, StepCreate, StepRequest, StepDecline, StepClaim, StepExpire;
    hide StepMarkExecuting, StepExecute, StepVerify, StepPersist, StepRecover, StepDiagnose;
    ApprovalStepsWriteNoIncident(s, me, p, c);
    CallStepsWriteNoIncident(s, p, c);
    OtherFamiliesWriteNoIncident(s, p, c);
  }

  lemma ApprovalStepsWriteNoIncident(s: Shared, me: nat, p: Phase, c: Choice)
    ensures p.Claim? ==> StepClaim(s, me, p.approval, p.signer, c).0.incidents == s.incidents
    ensures p.Decline? ==> StepDecline(s, p.approval, p.signer, c).0.incidents == s.incidents
    ensures p.Expire? ==> StepExpire(s, p.a, p.source, c).0.incidents == s.incidents
    ensures p.MarkExecuting? ==> StepMarkExecuting(s, p.a, c).0.incidents == s.incidents
    ensures p.Persist? ==> StepPersist(s, p.a, p.execution, c).0.incidents == s.incidents
  {
    hide AR.TransitionStatus;
  }

  lemma CallStepsWriteNoIncident(s: Shared, p: Phase, c: Choice)
    ensures p.CreateFind? || p.CreateFindAgain? ==> StepCreate(s, p, c).0.incidents == s.incidents
    ensures p.RequestRun? || p.RequestIncident? || p.RequestWrite? ==> StepRequest(s, p, c).0.incidents == s.incidents
    ensures p.ExecuteRun? || p.ExecuteRead? || p.ExecuteAct? ==> StepExecute(s, p, c).0.incidents == s.incidents
    ensures p.ExecuteVerify? ==> StepVerify(s, p.a, p.incident, p.operation, c).0.incidents == s.incidents
  {
    hide SequencePasses, AR.Create;
  }

  lemma OtherFamiliesWriteNoIncident(s: Shared, p: Phase, c: Choice)
    ensures p.RecoverFind? || p.RecoverLatest? || p.RecoverSweep? ==> StepRecover(s, p, c).0.incidents == s.incidents
    ensures p.DiagnoseRead? || p.DiagnoseList? || p.DiagnoseStart? || p.DiagnoseEnd? || p.DiagnoseFail? ==>
              StepDiagnose(s, p, c).0.incidents == s.incidents
  {
    hide RR.CreateRun, RR.UpdateRun, AR.ExpirePending, RR.HasActiveRun;
  }

  /** While one alert cycle lasts, that is while some incident of a fingerprint stays active,
      no call adds a record of that fingerprint. */
  lemma {:induction false} AlertCycleAddsNoRecord(run: seq<World>, j: nat, k: nat, i: string, other: string)
    requires IsRun(run) && j <= k < |run|
    requires i in run[j].shared.incidents.items && i in run[k].shared.incidents.items
    requires !run[k].shared.incidents.items[i].status.IsTerminal()
    requires other in run[k].shared.incidents.items
    requires run[k].shared.incidents.items[other].fingerprint == run[k].shared.incidents.items[i].fingerprint
    ensures other in run[j].shared.incidents.items
    decreases k
  {
    hide IsRun, Next, IsRun;
    if j < k && other !in run[j].shared.incidents.items {
      RunGrows(run, j, k - 1);
      StepInRun(run, k - 1);
      if other in run[k - 1].shared.incidents.items {
        RunGrows(run, k - 1, k);
        assert RecordGrows(run[k - 1].shared.incidents.items[i], run[k].shared.incidents.items[i]);
        assert RecordGrows(run[k - 1].shared.incidents.items[other], run[k].shared.incidents.items[other]);
        AlertCycleAddsNoRecord(run, j, k - 1, i, other);
      } else {
        NewRecordsAreOpen(run[k - 1], run[k], other);
        OneActiveIncidentPerFingerprint(run, k, i, other);
      }
    }
  }

  lemma StepInRun(run: seq<World>, k: nat)
    requires IsRun(run) && k < |run| - 1
    ensures Next(run[k], run[k + 1])
  {
  }

  /** No incident ever has two runs that are running or completed. */
  lemma OneActiveRunPerIncident(run: seq<World>, k: nat, r: string, q: string)
    requires IsRun(run) && k < |run| && r in run[k].shared.runs && q in run[k].shared.runs
    requires var x, y := run[k].shared.runs[r], run[k].shared.runs[q];
             && x.incident == y.incident
             && (x.status == RR.Running || x.status == RR.Completed)
             && (y.status == RR.Running || y.status == RR.Completed)
    ensures r == q
  {
    hide IsRun, IncidentsOk, UniqueActive, LogsOk, ActionsOk, ApprovalsOk, ChecksOk, LocalInv;
    RunHolds(run, k);
    assert RR.Rivals(run[k].shared.runs, r, q);
  }

  // ---- the two incident stores agree ----

  /** Whenever a guarded write finds its version unchanged, updating the four columns status,
      resolved_at, updated_at and version gives the row that replacing the record gives. */
  lemma ColumnUpdateAgreesWithReplacement(run: seq<World>, k: nat, me: nat, to: Status, now: int)
    requires IsRun(run) && k < |run| && me in run[k].calls
    requires run[k].calls[me].WriteMove? || run[k].calls[me].RecoverWrite?
    requires var snap := run[k].calls[me].snap;
             snap.id in run[k].shared.incidents.items ==>
               run[k].shared.incidents.items[snap.id].version == snap.version
    ensures var snap := run[k].calls[me].snap;
            && snap.id in run[k].shared.incidents.items
            && IR.UpdateColumns(run[k].shared.incidents.items[snap.id], MovedTo(snap, to, now))
               == MovedTo(snap, to, now).(version := snap.version + 1)
  {
    hide IsRun, SharedInv, ClaimsKept, MoveOk;
    RunHolds(run, k);
    assert LocalInv(run[k].shared, me, run[k].calls[me]);
  }
}
