/** Each step of each call keeps the invariant. */
module ClosedLoopSteps {
  import opened Basics
  import opened Incidents
  import opened ClosedLoop
  import opened ClosedLoopInvariant
  import IR = IncidentRepository
  import AR = ApprovalRepository
  import RR = RunRepository

  /** What a step of `me` from `s` to `t`, now in phase `q`, must achieve. */
  ghost predicate Keeps(s: Shared, t: Shared, me: nat, q: Phase) {
    SharedInv(t) && Evolves(s, t, me) && LocalInv(t, me, q)
  }

  // ---- what carries over ----

  lemma RowFacts(s: Shared, id: string)
    requires SharedInv(s)
    ensures id in s.approvals ==> ApprovalOk(s, id) && s.approvals[id].id == id
    ensures id in s.approvals && s.approvals[id].status.Pending? ==> id !in s.claimer
    ensures id in s.claimer ==> id in s.approvals
  {
  }

  lemma IncidentFacts(s: Shared, i: string)
    requires SharedInv(s)
    ensures i in s.incidents.items <==> i in s.incidents.events
    ensures i in s.incidents.items ==> IncidentOk(s, i)
    ensures i in s.mover ==> i in s.incidents.items
  {
  }

  lemma LogsGrow(s: Shared, t: Shared)
    requires LogsOk(s) && Grows(s, t) && t.incidents == s.incidents
    ensures LogsOk(t)
  {
  }

  lemma IncidentsStay(s: Shared, t: Shared)
    requires IncidentsOk(s) && t.incidents == s.incidents && t.mover == s.mover
    ensures IncidentsOk(t)
  {
    forall i | i in t.incidents.items ensures IncidentOk(t, i) {
      assert IncidentOk(s, i);
    }
  }

  lemma RowsGrow(s: Shared, t: Shared)
    requires ApprovalsOk(s) && Grows(s, t) && t.approvals == s.approvals && t.claimer == s.claimer
    ensures ApprovalsOk(t)
  {
    hide ApprovalOk, Grows;
    forall a | a in t.approvals ensures ApprovalOk(t, a) {
      ApprovalOkGrows(s, t, a);
    }
  }

  /** A step that writes no incident keeps all that is said about incidents and old actions. */
  lemma IncidentSideKept(s: Shared, t: Shared)
    requires SharedInv(s) && Grows(s, t) && t.incidents == s.incidents && t.mover == s.mover
    ensures IncidentsOk(t) && UniqueActive(t) && LogsOk(t)
    ensures forall k | 0 <= k < |s.actions| :: ActionOk(t, t.actions[k])
  {
    hide IncidentOk, EventOk, ApprovalsOk, ActionOk, ActionsOk, Grows, LogsOk, IncidentsOk;
    LogsGrow(s, t);
    IncidentsStay(s, t);
    forall i, j | Rivals(t, i, j) ensures i == j {
      assert Rivals(s, i, j);
    }
    OldActionsGrow(s, t);
  }

  // ---- writes to the approval store ----

  /** `t` differs from `s` in the row `id`, and possibly in who claimed it and in the faults. */
  ghost predicate RowWrite(s: Shared, t: Shared, me: nat, id: string) {
    && id in s.approvals && id in t.approvals
    && t == s.(approvals := s.approvals[id := t.approvals[id]], claimer := t.claimer, faulted := t.faulted)
    && s.faulted <= t.faulted
    && (t.claimer == s.claimer || (id !in s.claimer && t.claimer == s.claimer[id := me]))
    && (id in s.claimer ==> s.claimer[id] == me)
    && ApprovalGrows(s.approvals[id], t.approvals[id])
  }

  lemma RowWriteGrows(s: Shared, t: Shared, me: nat, id: string)
    requires RowWrite(s, t, me, id)
    ensures Evolves(s, t, me)
  {
    assert Grows(s, t);
  }

  /** A write of one row by its claimer, or of a row nobody has claimed. */
  lemma RowWriteKeeps(s: Shared, t: Shared, me: nat, id: string)
    requires SharedInv(s) && RowWrite(s, t, me, id) && ApprovalOk(t, id)
    ensures SharedInv(t) && Evolves(s, t, me)
  {
    hide ApprovalOk, IncidentsOk, UniqueActive, LogsOk, ActionOk, Grows, RespectsClaims, ApprovalGrows;
    RowWriteGrows(s, t, me, id);
    IncidentSideKept(s, t);
    forall a | a in t.approvals ensures ApprovalOk(t, a) {
      if a != id {
        ApprovalOkGrows(s, t, a);
      }
    }
  }

  lemma OnlyFaulted(s: Shared, t: Shared, me: nat)
    requires SharedInv(s) && t == s.(faulted := t.faulted) && s.faulted <= t.faulted
    ensures SharedInv(t) && Evolves(s, t, me)
  {
    hide IncidentsOk, UniqueActive, LogsOk, ApprovalsOk, ActionOk;
    assert Grows(s, t);
    IncidentSideKept(s, t);
    RowsGrow(s, t);
  }

  lemma Unchanged(s: Shared, me: nat)
    ensures Evolves(s, s, me)
  {
  }

  /** The claimer of `id` wrote nothing but that row, and either may leave it or still holds it. */
  lemma HolderKept(s: Shared, t: Shared, me: nat, p: Phase, q: Phase, id: string)
    requires ClaimsKept(s, me, p) && (Held(p) == Some(id) || Held(p) == None)
    requires id in s.approvals && id in t.approvals
    requires t.approvals == s.approvals[id := t.approvals[id]]
    requires t.claimer == s.claimer || t.claimer == s.claimer[id := me]
    requires t.config == s.config && s.faulted <= t.faulted
    requires MayRest(t, id) || Held(q) == Some(id)
    ensures ClaimsKept(t, me, q)
  {
  }

  /** A call that holds nothing owes nothing after a step that touches no claimed row. */
  lemma NothingHeldKept(s: Shared, t: Shared, me: nat, p: Phase, q: Phase)
    requires ClaimsKept(s, me, p) && Held(p) == None
    requires t.claimer == s.claimer && t.config == s.config && s.faulted <= t.faulted
    requires forall a | a in s.claimer :: a in s.approvals && a in t.approvals && t.approvals[a] == s.approvals[a]
    ensures ClaimsKept(t, me, q)
  {
  }

  lemma ClaimedRowsExist(s: Shared)
    requires SharedInv(s)
    ensures forall a | a in s.claimer :: a in s.approvals
    ensures forall a | a in s.claimer :: !s.approvals[a].status.Pending?
  {
    forall a | a in s.claimer ensures a in s.approvals && !s.approvals[a].status.Pending? {
      assert ApprovalOk(s, a);
    }
  }

  lemma ClaimWrites(s: Shared, t: Shared, me: nat, id: string, next: AR.Approval, faulted: set<string>)
    requires SharedInv(s) && id in s.approvals && s.approvals[id].status.Pending?
    requires ApprovalGrows(s.approvals[id], next) && next.status.Approved?
    requires s.faulted <= faulted
    requires t == s.(approvals := s.approvals[id := next], claimer := s.claimer[id := me], faulted := faulted)
    ensures SharedInv(t) && Evolves(s, t, me)
  {
    hide SharedInv, Grows, RespectsClaims, Evolves, ClaimsKept, IncidentOk, EventOk, ActionOk;
    RowFacts(s, id);
    RowWriteKeeps(s, t, me, id);
  }

  lemma ClaimStep(s: Shared, me: nat, id: string, signer: string, c: Choice)
    requires SharedInv(s) && ClaimsKept(s, me, Claim(id, signer))
    ensures var (t, q) := StepClaim(s, me, id, signer, c); Keeps(s, t, me, q)
  {
    hide SharedInv, Grows, RespectsClaims, Evolves, ClaimsKept, IncidentOk, EventOk, ActionOk, ApprovalOk;
    var p := Claim(id, signer);
    var (t, q) := StepClaim(s, me, id, signer, c);
    RowFacts(s, id);
    var r := AR.TransitionStatus(s.approvals, id, AR.Pending, AR.Approved, c.now, AR.Sign(signer, c.now));
    if c.fault.Refused? || r.Err? {
      Unchanged(s, me);
      ClaimedRowsExist(s);
      NothingHeldKept(s, t, me, p, q);
    } else {
      ClaimWrites(s, t, me, id, r.value[id], t.faulted);
      HolderKept(s, t, me, p, q, id);
    }
  }

  lemma DeclineStep(s: Shared, me: nat, id: string, signer: string, c: Choice)
    requires SharedInv(s) && ClaimsKept(s, me, Decline(id, signer))
    ensures var (t, q) := StepDecline(s, id, signer, c); Keeps(s, t, me, q)
  {
    hide SharedInv, Grows, RespectsClaims, Evolves, ClaimsKept, IncidentOk, EventOk, ActionOk;
    var p := Decline(id, signer);
    var (t, q) := StepDecline(s, id, signer, c);
    ClaimedRowsExist(s);
    if t == s {
      Unchanged(s, me);
    } else {
      RowFacts(s, id);
      RowWriteKeeps(s, t, me, id);
    }
    NothingHeldKept(s, t, me, p, q);
  }

  lemma ExpireClaimedStep(s: Shared, me: nat, a: AR.Approval, c: Choice)
    requires SharedInv(s) && LocalInv(s, me, Expire(a, AR.Approved))
    ensures var (t, q) := StepExpire(s, a, AR.Approved, c); Keeps(s, t, me, q)
  {
    hide SharedInv, Grows, RespectsClaims, Evolves, ClaimsKept, IncidentOk, EventOk, ActionOk;
    var (t, q) := StepExpire(s, a, AR.Approved, c);
    RowFacts(s, a.id);
    if t.approvals != s.approvals {
      RowWriteKeeps(s, t, me, a.id);
    } else {
      OnlyFaulted(s, t, me);
    }
    HolderKept(s, t, me, Expire(a, AR.Approved), q, a.id);
  }

  lemma ExpirePendingStep(s: Shared, me: nat, a: AR.Approval, c: Choice)
    requires SharedInv(s) && LocalInv(s, me, Expire(a, AR.Pending))
    ensures var (t, q) := StepExpire(s, a, AR.Pending, c); Keeps(s, t, me, q)
  {
    hide SharedInv, Grows, RespectsClaims, Evolves, ClaimsKept, IncidentOk, EventOk, ActionOk;
    var (t, q) := StepExpire(s, a, AR.Pending, c);
    RowFacts(s, a.id);
    ClaimedRowsExist(s);
    if t.approvals != s.approvals {
      RowWriteKeeps(s, t, me, a.id);
    } else {
      Unchanged(s, me);
    }
    NothingHeldKept(s, t, me, Expire(a, AR.Pending), q);
  }

  /** An approval that is not yet EXECUTING has not acted. */
  lemma ApprovedHasNotActed(s: Shared, id: string)
    requires SharedInv(s) && id in s.approvals && !Started(s.approvals[id].status)
    ensures NotActed(s, id)
  {
    hide IncidentsOk, UniqueActive, LogsOk, ApprovalsOk, RunsOk, ChecksOk;
    forall k | 0 <= k < |s.actions| ensures s.actions[k].approval != id {
      assert ActionOk(s, s.actions[k]);
    }
  }

  lemma MarkExecutingStep(s: Shared, me: nat, a: AR.Approval, c: Choice)
    requires SharedInv(s) && LocalInv(s, me, MarkExecuting(a))
    ensures var (t, q) := StepMarkExecuting(s, a, c); Keeps(s, t, me, q)
  {
    hide SharedInv, Grows, RespectsClaims, Evolves, ClaimsKept, IncidentOk, EventOk, ActionOk;
    var (t, q) := StepMarkExecuting(s, a, c);
    RowFacts(s, a.id);
    ApprovedHasNotActed(s, a.id);
    if t.approvals != s.approvals {
      RowWriteKeeps(s, t, me, a.id);
    } else {
      OnlyFaulted(s, t, me);
    }
    HolderKept(s, t, me, MarkExecuting(a), q, a.id);
  }

  /** The claimer's last write: the row it works on, in its final status. */
  lemma PersistWrites(s: Shared, t: Shared, me: nat, a: AR.Approval, e: Execution, next: AR.Approval)
    requires SharedInv(s) && PhaseOk(s, me, Persist(a, e))
    requires ApprovalGrows(a, next) && next.status == FinalStatus(e)
    requires t == s.(approvals := s.approvals[a.id := next], faulted := t.faulted) && s.faulted <= t.faulted
    ensures SharedInv(t) && Evolves(s, t, me)
  {
    hide SharedInv, Evolves;
    RowFacts(s, a.id);
    assert ApprovalOk(t, a.id);
    hide ApprovalOk;
    RowWriteKeeps(s, t, me, a.id);
  }

  /** The last write either changes that one row to its final status or is noted as a fault. */
  lemma PersistShape(s: Shared, me: nat, a: AR.Approval, e: Execution, c: Choice)
    requires Owns(s, me, a, AR.Executing)
    ensures var (t, q) := StepPersist(s, a, e, c);
            && q.Done? && s.faulted <= t.faulted
            && ((t == s.(faulted := t.faulted) && a.id in t.faulted)
                || (a.id in t.approvals && ApprovalGrows(a, t.approvals[a.id])
                    && t.approvals[a.id].status == FinalStatus(e)
                    && t == s.(approvals := s.approvals[a.id := t.approvals[a.id]], faulted := t.faulted)))
  {
  }

  lemma PersistStep(s: Shared, me: nat, a: AR.Approval, e: Execution, c: Choice)
    requires SharedInv(s) && LocalInv(s, me, Persist(a, e))
    ensures var (t, q) := StepPersist(s, a, e, c); Keeps(s, t, me, q)
  {
    hide SharedInv, Evolves, ClaimsKept, ClosedFor, ApprovalOk, StepPersist, ApprovalGrows;
    var (t, q) := StepPersist(s, a, e, c);
    PersistShape(s, me, a, e, c);
    if t == s.(faulted := t.faulted) && a.id in t.faulted {
      OnlyFaulted(s, t, me);
    } else {
      PersistWrites(s, t, me, a, e, t.approvals[a.id]);
    }
    HolderKept(s, t, me, Persist(a, e), q, a.id);
  }

  /** A new row that nobody has claimed. */
  lemma NewRowKeeps(s: Shared, t: Shared, me: nat, a: AR.Approval)
    requires SharedInv(s) && a.id !in s.approvals
    requires t == s.(approvals := s.approvals[a.id := a]) && ApprovalOk(t, a.id)
    ensures SharedInv(t) && Evolves(s, t, me)
  {
    hide ApprovalOk, IncidentsOk, UniqueActive, LogsOk, ActionOk;
    assert Grows(s, t);
    IncidentSideKept(s, t);
    forall b | b in t.approvals ensures ApprovalOk(t, b) {
      if b != a.id {
        ApprovalOkGrows(s, t, b);
      }
    }
  }

  lemma RequestReadStep(s: Shared, me: nat, p: Phase, c: Choice)
    requires SharedInv(s) && LocalInv(s, me, p) && (p.RequestRun? || p.RequestIncident?)
    ensures var (t, q) := StepRequest(s, p, c); Keeps(s, t, me, q)
  {
    hide SharedInv, Grows, RespectsClaims, Evolves, ClaimsKept, IncidentOk, EventOk, ActionOk;
    var (t, q) := StepRequest(s, p, c);
    Unchanged(s, me);
    ClaimedRowsExist(s);
    NothingHeldKept(s, t, me, p, q);
  }

  lemma NewRequestOk(s: Shared, t: Shared, run: string, i: string, request: string, c: Choice)
    requires SharedInv(s) && PhaseOk(s, 0, RequestWrite(run, i, request)) && c.id !in s.approvals
    requires var a := NewApproval(run, i, request, c); t == s.(approvals := s.approvals[a.id := a])
    ensures ApprovalOk(t, c.id)
  {
    hide SharedInv;
    RowFacts(s, c.id);
    IncidentFacts(s, i);
  }

  lemma RequestWriteStep(s: Shared, me: nat, run: string, i: string, request: string, c: Choice)
    requires SharedInv(s) && LocalInv(s, me, RequestWrite(run, i, request))
    ensures var (t, q) := StepRequest(s, RequestWrite(run, i, request), c); Keeps(s, t, me, q)
  {
    hide SharedInv, Evolves, ClaimsKept, ApprovalOk;
    var p := RequestWrite(run, i, request);
    var (t, q) := StepRequest(s, p, c);
    ClaimedRowsExist(s);
    if t.approvals == s.approvals {
      Unchanged(s, me);
    } else {
      NewRequestOk(s, t, run, i, request, c);
      NewRowKeeps(s, t, me, NewApproval(run, i, request, c));
    }
    NothingHeldKept(s, t, me, p, q);
  }

  // ---- runs, actions and checks ----

  lemma RunsWriteKeeps(s: Shared, t: Shared, me: nat)
    requires SharedInv(s) && t == s.(runs := t.runs) && RunsOk(t)
    requires forall r | r in s.runs :: r in t.runs && t.runs[r].incident == s.runs[r].incident
    ensures SharedInv(t) && Evolves(s, t, me)
  {
    hide IncidentsOk, UniqueActive, LogsOk, ApprovalsOk, ActionOk, RunsOk;
    assert Grows(s, t);
    IncidentSideKept(s, t);
    RowsGrow(s, t);
  }

  lemma DiagnoseStep(s: Shared, me: nat, p: Phase, c: Choice)
    requires SharedInv(s) && LocalInv(s, me, p) && (p.DiagnoseRead? || p.DiagnoseList?)
    ensures var (t, q) := StepDiagnose(s, p, c); Keeps(s, t, me, q)
  {
    hide SharedInv, Grows, RespectsClaims, Evolves, ClaimsKept, IncidentOk, EventOk, ActionOk;
    var (t, q) := StepDiagnose(s, p, c);
    Unchanged(s, me);
    ClaimedRowsExist(s);
    NothingHeldKept(s, t, me, p, q);
  }

  lemma RunFacts(s: Shared)
    requires SharedInv(s)
    ensures RunsOk(s)
  {
  }

  lemma DiagnoseStartStep(s: Shared, me: nat, i: string, fine: bool, c: Choice)
    requires SharedInv(s) && LocalInv(s, me, DiagnoseStart(i, fine))
    ensures var (t, q) := StepDiagnose(s, DiagnoseStart(i, fine), c); Keeps(s, t, me, q)
  {
    hide SharedInv, Grows, RespectsClaims, Evolves, ClaimsKept, IncidentOk, EventOk, ActionOk, RunsOk;
    var (t, q) := StepDiagnose(s, DiagnoseStart(i, fine), c);
    RunsCreate(s, RR.Run(c.id, i, RR.Running));
    RunsWriteKeeps(s, t, me);
    ClaimedRowsExist(s);
    NothingHeldKept(s, t, me, DiagnoseStart(i, fine), q);
  }

  lemma RunsCreate(s: Shared, run: RR.Run)
    requires SharedInv(s)
    ensures RunsOk(s)
    ensures var r := RR.CreateRun(s.runs, run); r.Ok? ==> RunsOk(s.(runs := r.value))
  {
    hide SharedInv;
    RunFacts(s);
    RR.CreateKeepsOneActive(s.runs, run);
  }

  lemma RunsUpdate(s: Shared, run: RR.Run)
    requires SharedInv(s)
    ensures RunsOk(s)
    ensures var r := RR.UpdateRun(s.runs, run); r.Ok? ==> RunsOk(s.(runs := r.value))
  {
    hide SharedInv;
    RunFacts(s);
    RR.UpdateKeepsOneActive(s.runs, run);
  }

  lemma DiagnoseEndStep(s: Shared, me: nat, run: RR.Run, c: Choice)
    requires SharedInv(s) && LocalInv(s, me, DiagnoseEnd(run))
    ensures var (t, q) := StepDiagnose(s, DiagnoseEnd(run), c); Keeps(s, t, me, q)
  {
    hide SharedInv, Grows, RespectsClaims, Evolves, ClaimsKept, IncidentOk, EventOk, ActionOk, RunsOk;
    var (t, q) := StepDiagnose(s, DiagnoseEnd(run), c);
    RunsUpdate(s, run.(status := RR.Completed));
    RunsWriteKeeps(s, t, me);
    ClaimedRowsExist(s);
    NothingHeldKept(s, t, me, DiagnoseEnd(run), q);
  }

  lemma DiagnoseFailStep(s: Shared, me: nat, run: RR.Run, c: Choice)
    requires SharedInv(s) && LocalInv(s, me, DiagnoseFail(run))
    ensures var (t, q) := StepDiagnose(s, DiagnoseFail(run), c); Keeps(s, t, me, q)
  {
    hide SharedInv, Grows, RespectsClaims, Evolves, ClaimsKept, IncidentOk, EventOk, ActionOk, RunsOk;
    var (t, q) := StepDiagnose(s, DiagnoseFail(run), c);
    RunsUpdate(s, run.(status := RR.Failed));
    RunsWriteKeeps(s, t, me);
    ClaimedRowsExist(s);
    NothingHeldKept(s, t, me, DiagnoseFail(run), q);
  }

  lemma ExecuteReadStep(s: Shared, me: nat, p: Phase, c: Choice)
    requires SharedInv(s) && LocalInv(s, me, p) && (p.ExecuteRun? || p.ExecuteRead?)
    ensures var (t, q) := StepExecute(s, p, c); Keeps(s, t, me, q)
  {
    hide SharedInv, Grows, RespectsClaims, Evolves, ClaimsKept, IncidentOk, EventOk, ActionOk;
    var (t, q) := StepExecute(s, p, c);
    RowFacts(s, p.a.id);
    Unchanged(s, me);
    HolderKept(s, t, me, p, q, p.a.id);
  }

  lemma ActionKeeps(s: Shared, t: Shared, me: nat, a: AR.Approval)
    requires SharedInv(s) && Working(s, me, a) && NotActed(s, a.id)
    requires t == s.(actions := s.actions + [Action(a.incident, a.id)])
    ensures SharedInv(t) && Evolves(s, t, me)
  {
    hide IncidentsOk, UniqueActive, LogsOk, ApprovalsOk;
    assert Grows(s, t);
    IncidentSideKept(s, t);
    RowsGrow(s, t);
  }

  lemma ActStep(s: Shared, me: nat, a: AR.Approval, i: string, c: Choice)
    requires SharedInv(s) && LocalInv(s, me, ExecuteAct(a, i))
    ensures var (t, q) := StepExecute(s, ExecuteAct(a, i), c); Keeps(s, t, me, q)
  {
    hide SharedInv, Grows, RespectsClaims, Evolves, ClaimsKept, IncidentOk, EventOk, ActionOk;
    var (t, q) := StepExecute(s, ExecuteAct(a, i), c);
    ActionKeeps(s, t, me, a);
    HolderKept(s, t, me, ExecuteAct(a, i), q, a.id);
    assert t.actions[|s.actions|] == Action(i, a.id);
  }

  lemma CheckKeeps(s: Shared, t: Shared, me: nat, a: string)
    requires SharedInv(s)
    requires t == s || (a in t.checked && t == s.(checked := s.checked[a := t.checked[a]])
                        && SequencePasses(s.config, t.checked[a]))
    ensures SharedInv(t) && Evolves(s, t, me)
  {
    hide IncidentsOk, UniqueActive, LogsOk, ApprovalsOk, ActionOk, SequencePasses;
    assert Grows(s, t);
    IncidentSideKept(s, t);
    RowsGrow(s, t);
  }

  lemma VerifyStep(s: Shared, me: nat, a: AR.Approval, i: string, operation: string, c: Choice)
    requires SharedInv(s) && LocalInv(s, me, ExecuteVerify(a, i, operation))
    ensures var (t, q) := StepVerify(s, a, i, operation, c); Keeps(s, t, me, q)
  {
    hide SharedInv, Grows, RespectsClaims, Evolves, ClaimsKept, IncidentOk, EventOk, ActionOk, SequencePasses;
    var (t, q) := StepVerify(s, a, i, operation, c);
    CheckKeeps(s, t, me, a.id);
    HolderKept(s, t, me, ExecuteVerify(a, i, operation), q, a.id);
  }

  // ---- writes to the incident store ----

  /** The store after a record, read earlier and still current, moved along an edge together
      with its status event and at most one audit event. */
  function Committed(store: IR.Store, next: Incident, moved: Event, audit: Option<Event>): IR.Store {
    var log := IR.Log(store.events, next.id) + [moved];
    IR.Store(store.items[next.id := next],
             store.events[next.id := if audit.Some? then log + [audit.value] else log])
  }

  function Batch(moved: Event, audit: Option<Event>): seq<Option<Event>> {
    if audit.Some? then [Some(moved), audit] else [Some(moved)]
  }

  /** What the store's update writes when it succeeds. */
  lemma UpdateIsCommit(store: IR.Store, inc: Incident, moved: Event, audit: Option<Event>)
    requires moved.incident == inc.id && (audit.Some? ==> audit.value.incident == inc.id)
    ensures var r := IR.UpdateWithEvents(store, inc, Batch(moved, audit));
            r.Ok? ==> r.value == Committed(store, inc.(version := inc.version + 1), moved, audit)
                      && inc.id in store.items && store.items[inc.id].version == inc.version
  {
    match audit
    case None => IR.AddOne(store.events, moved);
    case Some(e) => IR.AddTwo(store.events, moved, e);
  }

  predicate IsAudit(k: EventKind) {
    !k.Created? && !k.Moved?
  }

  /** What a commit may do to one incident. */
  ghost predicate LegalCommit(s: Shared, snap: Incident, next: Incident, moved: Event, audit: Option<Event>) {
    && snap.id in s.incidents.items && s.incidents.items[snap.id] == snap
    && moved.kind.Moved? && moved.kind.from == snap.status && moved.kind.to == next.status
    && Edge(snap.status, next.status, moved.kind.reason)
    && next.id == snap.id && next.fingerprint == snap.fingerprint && next.version == snap.version + 1
    && (audit.Some? ==> IsAudit(audit.value.kind) && EventOk(s, snap.id, audit.value.kind))
    && (next.status == Verifying ==> audit.Some? && audit.value.kind.ActionCompleted?)
    && (next.status == Resolved ==> (IsOutsideRecovery(moved.kind) <==> BeforeMitigation(snap.status)))
  }

  lemma CommitLog(log: seq<Event>, moved: Event, audit: Option<Event>)
    requires Replay(log).At? && moved.kind.Moved? && moved.kind.from == Replay(log).status
    requires Edge(moved.kind.from, moved.kind.to, moved.kind.reason)
    requires audit.Some? ==> IsAudit(audit.value.kind)
    ensures var log' := if audit.Some? then log + [moved] + [audit.value] else log + [moved];
            && log <= log' && Replay(log') == At(moved.kind.to, Replay(log).version + 1)
            && (ClosedOutside(log') <==> ClosedOutside(log) || IsOutsideRecovery(moved.kind))
            && (HasCompletion(log') <==> HasCompletion(log) || (audit.Some? && audit.value.kind.ActionCompleted?))
            && (audit.Some? ==> Records(log', audit.value.kind))
  {
    hide Edge;
    var one := log + [moved];
    ReplayAppend(log, moved);
    assert one[|log|] == moved;
    assert forall k | 0 <= k < |log| :: one[k] == log[k];
    if audit.Some? {
      var two := one + [audit.value];
      ReplayAppend(one, audit.value);
      assert two[|one|] == audit.value;
      assert forall k | 0 <= k < |log| :: two[k] == log[k];
      assert two[|log|] == moved;
    }
  }

  lemma CommittedIncident(s: Shared, t: Shared, snap: Incident, next: Incident, moved: Event, audit: Option<Event>)
    requires SharedInv(s) && LegalCommit(s, snap, next, moved, audit)
    requires t.incidents == Committed(s.incidents, next, moved, audit)
    requires snap.id in t.mover <==> snap.id in s.mover || next.status == Mitigating
    ensures IncidentOk(t, snap.id)
    ensures RecordGrows(snap, next)
    ensures next.status == Mitigating ==> snap.id !in s.mover
    ensures s.incidents.events[snap.id] <= t.incidents.events[snap.id]
  {
    hide SharedInv, EventOk;
    IncidentFacts(s, snap.id);
    EdgesClimb(snap.status, next.status, moved.kind.reason);
    CommitLog(s.incidents.events[snap.id], moved, audit);
  }

  /** A committed move; `ap` names the approval that owns it when it leads to MITIGATING. */
  ghost predicate Commit(s: Shared, t: Shared, snap: Incident, next: Incident, moved: Event,
                         audit: Option<Event>, ap: string)
  {
    && LegalCommit(s, snap, next, moved, audit)
    && t == s.(incidents := Committed(s.incidents, next, moved, audit),
               mover := if next.status == Mitigating then s.mover[snap.id := ap] else s.mover)
  }

  lemma CommitGrows(s: Shared, t: Shared, me: nat, snap: Incident, next: Incident, moved: Event,
                    audit: Option<Event>, ap: string)
    requires SharedInv(s) && Commit(s, t, snap, next, moved, audit, ap)
    ensures Evolves(s, t, me) && IncidentOk(t, snap.id)
  {
    hide SharedInv, EventOk, IncidentOk, RecordGrows, Edge, BeforeMitigation;
    CommittedIncident(s, t, snap, next, moved, audit);
    forall i | i in s.incidents.items
      ensures i in t.incidents.items && RecordGrows(s.incidents.items[i], t.incidents.items[i])
    {
      if i != snap.id {
        SameRecordGrows(s.incidents.items[i]);
      }
    }
    IncidentFacts(s, snap.id);
  }

  lemma SameRecordGrows(x: Incident)
    ensures RecordGrows(x, x)
  {
  }

  lemma CommitLogs(s: Shared, t: Shared, me: nat, snap: Incident, next: Incident, moved: Event,
                   audit: Option<Event>, ap: string)
    requires SharedInv(s) && Commit(s, t, snap, next, moved, audit, ap) && Grows(s, t)
    ensures LogsOk(t)
  {
    hide IncidentsOk, IncidentOk, UniqueActive, ApprovalsOk, ActionsOk, ChecksOk, RunsOk, Grows;
    hide EventOk, Edge, BeforeMitigation;
    forall i, k | i in t.incidents.events && 0 <= k < |t.incidents.events[i]|
      ensures EventOk(t, i, t.incidents.events[i][k].kind)
    {
      CommitEvent(s, t, snap, next, moved, audit, ap, i, k);
      EventOkGrows(s, t, i, t.incidents.events[i][k].kind);
    }
  }

  lemma CommitEvent(s: Shared, t: Shared, snap: Incident, next: Incident, moved: Event,
                    audit: Option<Event>, ap: string, i: string, k: nat)
    requires SharedInv(s) && Commit(s, t, snap, next, moved, audit, ap)
    requires i in t.incidents.events && k < |t.incidents.events[i]|
    ensures EventOk(s, i, t.incidents.events[i][k].kind)
  {
    hide IncidentOk, UniqueActive, ApprovalsOk, ActionsOk, ChecksOk, RunsOk, Edge, BeforeMitigation;
    if i == snap.id {
      var log := s.incidents.events[i];
      if k < |log| {
        assert t.incidents.events[i][k] == log[k];
      } else {
        assert t.incidents.events[i][k] == moved || Some(t.incidents.events[i][k]) == audit;
      }
    }
  }

  lemma CommitKeepsIncidents(s: Shared, t: Shared, snap: Incident, next: Incident, moved: Event,
                             audit: Option<Event>, ap: string)
    requires SharedInv(s) && Commit(s, t, snap, next, moved, audit, ap) && IncidentOk(t, snap.id)
    ensures IncidentsOk(t)
  {
    hide UniqueActive, LogsOk, ApprovalsOk, ActionsOk, ChecksOk, RunsOk, Edge, EventOk, BeforeMitigation;
    forall i | i in t.incidents.items ensures IncidentOk(t, i) {
      if i != snap.id {
        assert IncidentOk(s, i);
      }
    }
  }

  lemma CommitKeepsUnique(s: Shared, t: Shared, snap: Incident, next: Incident, moved: Event,
                          audit: Option<Event>, ap: string)
    requires SharedInv(s) && Commit(s, t, snap, next, moved, audit, ap)
    ensures UniqueActive(t)
  {
    hide IncidentsOk, LogsOk, ApprovalsOk, ActionsOk, ChecksOk, RunsOk, EventOk, Edge;
    EdgesClimb(snap.status, next.status, moved.kind.reason);
    forall i, j | Rivals(t, i, j) ensures i == j {
      assert Rivals(s, i, j);
    }
  }

  lemma CommitKeeps(s: Shared, t: Shared, me: nat, snap: Incident, next: Incident, moved: Event,
                    audit: Option<Event>, ap: string)
    requires SharedInv(s) && Commit(s, t, snap, next, moved, audit, ap)
    ensures SharedInv(t) && Evolves(s, t, me)
  {
    hide IncidentsOk, IncidentOk, UniqueActive, LogsOk, ApprovalsOk, ActionOk, Grows, LegalCommit;
    CommitGrows(s, t, me, snap, next, moved, audit, ap);
    CommitLogs(s, t, me, snap, next, moved, audit, ap);
    CommitKeepsIncidents(s, t, snap, next, moved, audit, ap);
    CommitKeepsUnique(s, t, snap, next, moved, audit, ap);
    OldActionsGrow(s, t);
    RowsGrow(s, t);
  }

  // ---- guarded moves ----

  /** Going on after a guarded move that did not happen. */
  lemma ContinueFailed(s: Shared, me: nat, m: Move, p: Phase, text: string)
    requires MoveOk(s, me, m) && HeldByMove(m) == Held(p) && ClaimsKept(s, me, p)
    ensures LocalInv(s, me, Continue(s.config, m.andThen, false, text))
  {
    hide MoveOk, PhaseOk, MayRest;
    FailedPhaseOk(s, me, m, text);
    FailedHolder(s.config, m, text);
  }

  lemma FailedHolder(config: Config, m: Move, text: string)
    ensures Held(Continue(config, m.andThen, false, text)) == HeldByMove(m)
  {
  }

  lemma FailedPhaseOk(s: Shared, me: nat, m: Move, text: string)
    requires MoveOk(s, me, m)
    ensures PhaseOk(s, me, Continue(s.config, m.andThen, false, text))
  {
    hide Owns, Completed, ClosedFor;
  }

  lemma ReadForMoveStep(s: Shared, me: nat, m: Move, c: Choice)
    requires SharedInv(s) && LocalInv(s, me, ReadForMove(m))
    ensures Keeps(s, s, me, StepReadForMove(s, m, c))
  {
    hide SharedInv, Evolves, MoveOk, MayRest, Continue;
    Unchanged(s, me);
    IncidentFacts(s, m.incident);
    ContinueFailed(s, me, m, ReadForMove(m), c.text);
  }

  function StatusEvent(m: Move, snap: Incident, c: Choice): Event {
    Event(c.statusEvent, snap.id, Moved(snap.status, m.to, m.reason))
  }

  function AuditEvent(m: Move, snap: Incident, c: Choice): Option<Event> {
    if m.audit.Some? then Some(Event(c.auditEvent, snap.id, m.audit.value)) else None
  }

  /** A guarded move whose version still matches is a legal commit. */
  lemma MoveIsLegal(s: Shared, me: nat, m: Move, snap: Incident, c: Choice)
    requires SharedInv(s) && PhaseOk(s, me, WriteMove(m, snap))
    requires s.incidents.items[snap.id].version == snap.version
    ensures LegalCommit(s, snap, MovedTo(snap, m.to, c.now).(version := snap.version + 1),
                        StatusEvent(m, snap, c), AuditEvent(m, snap, c))
    ensures m.to == Mitigating <==> m.andThen.Mitigate?
  {
    hide SharedInv, Owns;
    EdgesClimb(snap.status, m.to, m.reason);
  }

  lemma WriteMoveCommits(s: Shared, t: Shared, me: nat, m: Move, snap: Incident, c: Choice)
    requires SharedInv(s) && PhaseOk(s, me, WriteMove(m, snap))
    requires t == StepWriteMove(s, m, snap, c).0
    ensures SharedInv(t) && Evolves(s, t, me)
  {
    hide SharedInv, Evolves, LegalCommit, MoveOk, Continue;
    var inc := MovedTo(snap, m.to, c.now);
    var moved, audit := StatusEvent(m, snap, c), AuditEvent(m, snap, c);
    assert MoveEvents(m, snap, c) == Batch(moved, audit);
    if !c.fault.Refused? && IR.UpdateWithEvents(s.incidents, inc, Batch(moved, audit)).Ok? {
      UpdateIsCommit(s.incidents, inc, moved, audit);
      MoveIsLegal(s, me, m, snap, c);
      CommitKeeps(s, t, me, snap, inc.(version := snap.version + 1), moved, audit,
                  if m.andThen.Mitigate? then m.andThen.a.id else "");
    } else {
      Unchanged(s, me);
    }
  }

  /** What the caller may rely on once its move has been committed. */
  ghost predicate MoveLanded(t: Shared, m: Move, i: string) {
    && i in t.incidents.items && t.incidents.items[i].status == m.to
    && (m.audit.Some? ==> Records(IR.Log(t.incidents.events, i), m.audit.value))
    && (m.andThen.Mitigate? ==> i in t.mover && t.mover[i] == m.andThen.a.id)
  }

  lemma CommitLands(s: Shared, t: Shared, me: nat, m: Move, snap: Incident, c: Choice)
    requires t == StepWriteMove(s, m, snap, c).0
    requires !c.fault.Refused?
    requires IR.UpdateWithEvents(s.incidents, MovedTo(snap, m.to, c.now), MoveEvents(m, snap, c)).Ok?
    ensures MoveLanded(t, m, snap.id)
  {
    hide Continue;
    var inc := MovedTo(snap, m.to, c.now);
    var moved, audit := StatusEvent(m, snap, c), AuditEvent(m, snap, c);
    assert MoveEvents(m, snap, c) == Batch(moved, audit);
    UpdateIsCommit(s.incidents, inc, moved, audit);
    if m.audit.Some? {
      var log := IR.Log(t.incidents.events, snap.id);
      assert log[|log| - 1] == audit.value;
    }
  }

  lemma WriteMoveStep(s: Shared, me: nat, m: Move, snap: Incident, c: Choice)
    requires SharedInv(s) && LocalInv(s, me, WriteMove(m, snap))
    ensures var (t, q) := StepWriteMove(s, m, snap, c); Keeps(s, t, me, q)
  {
    hide SharedInv, MoveOk, Continue, MoveLanded, Grows, MayRest, RespectsClaims, IR.UpdateWithEvents;
    var p := WriteMove(m, snap);
    var (t, q) := StepWriteMove(s, m, snap, c);
    WriteMoveCommits(s, t, me, m, snap, c);
    MoveOkSurvives(s, t, me, m);
    ClaimsAfterMove(s, t, me, p, p);
    ContinueFailed(t, me, m, p, c.text);
    if q != Continue(s.config, m.andThen, false, c.text) {
      CommitLands(s, t, me, m, snap, c);
      MoveDone(t, me, m, snap.id, c.text);
      ClaimsAfterMove(s, t, me, p, q) by { SameHolder(s.config, m, c.text); }
    }
  }

  lemma SameHolder(config: Config, m: Move, text: string)
    ensures var q := Continue(config, m.andThen, true, text);
            Held(q) == HeldByMove(m) || (m.andThen.Mitigate? && !config.executor)
  {
  }

  /** The call's own picture survives its own move: the approval rows did not change. */
  lemma MoveOkSurvives(s: Shared, t: Shared, me: nat, m: Move)
    requires MoveOk(s, me, m) && Grows(s, t)
    requires t.approvals == s.approvals && t.claimer == s.claimer
    ensures MoveOk(t, me, m)
  {
    match m.andThen
    case AfterBadCheck(a, _) => RecordsGrow(s, t, a.incident, ActionCompleted(a.id));
    case AfterGoodCheck(a, _) => RecordsGrow(s, t, a.incident, ActionCompleted(a.id));
    case _ =>
  }

  lemma ClaimsAfterMove(s: Shared, t: Shared, me: nat, p: Phase, q: Phase)
    requires ClaimsKept(s, me, p)
    requires t.approvals == s.approvals && t.claimer == s.claimer && t.faulted == s.faulted && t.config == s.config
    requires p.WriteMove? && MoveOk(s, me, p.move)
    requires Held(q) == Held(p) || (p.move.andThen.Mitigate? && !s.config.executor)
    ensures ClaimsKept(t, me, q)
  {
  }

  lemma MoveDone(t: Shared, me: nat, m: Move, i: string, text: string)
    requires MoveOk(t, me, m) && i == m.incident && MoveLanded(t, m, i)
    ensures PhaseOk(t, me, Continue(t.config, m.andThen, true, text))
  {
  }

  // ---- creating an incident ----

  lemma NewIncidentKeeps(s: Shared, t: Shared, me: nat, inc: Incident, ev: Event)
    requires SharedInv(s) && !IR.CreateBlocked(s.incidents, inc)
    requires inc.id != "" && inc.fingerprint != "" && inc.status == Open && inc.version == 0
    requires ev.kind == Created
    requires t == s.(incidents := IR.Store(s.incidents.items[inc.id := inc], s.incidents.events[inc.id := [ev]]))
    ensures SharedInv(t) && Evolves(s, t, me)
  {
    hide IncidentsOk, IncidentOk, UniqueActive, LogsOk, ApprovalsOk, ActionOk;
    NewIncidentGrows(s, t, me, inc, ev);
    NewIncidentOk(s, t, inc, ev);
    NewIsAlone(s, t, inc);
    NewLogOk(s, t, inc, ev);
    OldActionsGrow(s, t);
    RowsGrow(s, t);
  }

  lemma NewIncidentGrows(s: Shared, t: Shared, me: nat, inc: Incident, ev: Event)
    requires SharedInv(s) && inc.id !in s.incidents.items
    requires t == s.(incidents := IR.Store(s.incidents.items[inc.id := inc], s.incidents.events[inc.id := [ev]]))
    ensures Evolves(s, t, me)
  {
    hide SharedInv;
    IncidentFacts(s, inc.id);
    assert Grows(s, t);
  }

  lemma NewIncidentOk(s: Shared, t: Shared, inc: Incident, ev: Event)
    requires IncidentsOk(s) && inc.id !in s.incidents.items
    requires inc.id != "" && inc.fingerprint != "" && inc.status == Open && inc.version == 0
    requires ev.kind == Created && t.mover == s.mover
    requires t.incidents == IR.Store(s.incidents.items[inc.id := inc], s.incidents.events[inc.id := [ev]])
    ensures IncidentsOk(t)
  {
    assert Replay([ev]) == At(Open, 0) by { ReplayAppend([], ev); assert [] + [ev] == [ev]; }
    forall i | i in t.incidents.items ensures IncidentOk(t, i) {
      if i != inc.id {
        assert IncidentOk(s, i);
      }
    }
  }

  lemma NewIsAlone(s: Shared, t: Shared, inc: Incident)
    requires UniqueActive(s) && inc.fingerprint != "" && !IR.CreateBlocked(s.incidents, inc)
    requires t.incidents.items == s.incidents.items[inc.id := inc]
    ensures UniqueActive(t)
  {
    forall i, j | Rivals(t, i, j) ensures i == j {
      assert i != inc.id && j != inc.id ==> Rivals(s, i, j);
    }
  }

  lemma NewLogOk(s: Shared, t: Shared, inc: Incident, ev: Event)
    requires LogsOk(s) && Grows(s, t) && ev.kind == Created
    requires t.incidents.events == s.incidents.events[inc.id := [ev]]
    ensures LogsOk(t)
  {
  }

  lemma CreateStep(s: Shared, me: nat, p: Phase, c: Choice)
    requires SharedInv(s) && LocalInv(s, me, p) && (p.CreateFind? || p.CreateFindAgain?)
    ensures var (t, q) := StepCreate(s, p, c); Keeps(s, t, me, q)
  {
    hide SharedInv, Grows, RespectsClaims, Evolves, ClaimsKept, IncidentOk, EventOk, ActionOk;
    var (t, q) := StepCreate(s, p, c);
    Unchanged(s, me);
    ClaimedRowsExist(s);
    NothingHeldKept(s, t, me, p, q);
  }

  lemma CreateWriteStep(s: Shared, me: nat, f: string, details: string, c: Choice)
    requires SharedInv(s) && LocalInv(s, me, CreateWrite(f, details)) && c.id != ""
    ensures var (t, q) := StepCreate(s, CreateWrite(f, details), c); Keeps(s, t, me, q)
  {
    hide SharedInv, Grows, RespectsClaims, Evolves, ClaimsKept, IncidentOk, EventOk, ActionOk;
    var p := CreateWrite(f, details);
    var (t, q) := StepCreate(s, p, c);
    if t.incidents == s.incidents {
      Unchanged(s, me);
    } else {
      IncidentFacts(s, c.id);
      assert [] + [Event(c.statusEvent, c.id, Created)] == [Event(c.statusEvent, c.id, Created)];
      NewIncidentKeeps(s, t, me, NewIncident(f, details, c), Event(c.statusEvent, c.id, Created));
    }
    ClaimedRowsExist(s);
    NothingHeldKept(s, t, me, p, q);
  }

  // ---- outside recovery ----

  lemma RecoverReadStep(s: Shared, me: nat, p: Phase, c: Choice)
    requires SharedInv(s) && LocalInv(s, me, p) && Enabled(s, p, c) && (p.RecoverFind? || p.RecoverLatest?)
    ensures var (t, q) := StepRecover(s, p, c); Keeps(s, t, me, q)
  {
    hide SharedInv, Grows, RespectsClaims, Evolves, ClaimsKept, EventOk, ActionOk;
    var (t, q) := StepRecover(s, p, c);
    Unchanged(s, me);
    if q.RecoverSweep? {
      var i :| i in s.incidents.items && s.incidents.items[i] == c.found.value;
      IncidentFacts(s, i);
    }
    ClaimedRowsExist(s);
    NothingHeldKept(s, t, me, p, q);
  }

  lemma SweepRowOk(s: Shared, t: Shared, a: string, incident: string, now: int)
    requires SharedInv(s) && a in s.approvals && Grows(s, t)
    requires t == s.(approvals := AR.ExpirePending(s.approvals, incident, now))
    ensures ApprovalOk(t, a)
  {
    hide SharedInv, Grows;
    RowFacts(s, a);
    if t.approvals[a] == s.approvals[a] {
      ApprovalOkGrows(s, t, a);
    }
  }

  lemma SweepGrows(s: Shared, t: Shared, me: nat, incident: string, now: int)
    requires SharedInv(s)
    requires t == s.(approvals := AR.ExpirePending(s.approvals, incident, now))
    ensures Evolves(s, t, me)
    ensures forall a | a in s.claimer :: a in s.approvals && a in t.approvals && t.approvals[a] == s.approvals[a]
  {
    hide SharedInv;
    ClaimedRowsExist(s);
    assert Grows(s, t);
  }

  lemma SweepKeeps(s: Shared, t: Shared, me: nat, incident: string, now: int)
    requires SharedInv(s)
    requires t == s.(approvals := AR.ExpirePending(s.approvals, incident, now))
    ensures SharedInv(t) && Evolves(s, t, me)
    ensures forall a | a in s.claimer :: a in s.approvals && a in t.approvals && t.approvals[a] == s.approvals[a]
  {
    hide IncidentsOk, UniqueActive, LogsOk, ActionOk, ApprovalOk, Grows, RespectsClaims;
    SweepGrows(s, t, me, incident, now);
    IncidentSideKept(s, t);
    forall a | a in t.approvals ensures ApprovalOk(t, a) {
      SweepRowOk(s, t, a, incident, now);
    }
  }

  lemma RecoverSweepShape(s: Shared, snap: Incident, c: Choice)
    ensures var (t, q) := StepRecover(s, RecoverSweep(snap), c);
            && (q.Done? || q == RecoverWrite(snap))
            && (t == s || t == s.(approvals := AR.ExpirePending(s.approvals, snap.id, c.now)))
  {
    hide AR.ExpirePending;
  }

  lemma RecoverSweepStep(s: Shared, me: nat, snap: Incident, c: Choice)
    requires SharedInv(s) && LocalInv(s, me, RecoverSweep(snap))
    ensures var (t, q) := StepRecover(s, RecoverSweep(snap), c); Keeps(s, t, me, q)
  {
    hide SharedInv, Evolves, ClaimsKept, AR.ExpirePending, StepRecover, SnapOk;
    var (t, q) := StepRecover(s, RecoverSweep(snap), c);
    RecoverSweepShape(s, snap, c);
    ClaimedRowsExist(s);
    if t == s {
      Unchanged(s, me);
    } else {
      SweepKeeps(s, t, me, snap.id, c.now);
      SameSnap(s, t, snap);
    }
    NothingHeldKept(s, t, me, RecoverSweep(snap), q);
  }

  lemma SameSnap(s: Shared, t: Shared, snap: Incident)
    requires SnapOk(s, snap) && t.incidents == s.incidents
    ensures SnapOk(t, snap)
  {
  }

  lemma RecoverWriteKeeps(s: Shared, t: Shared, me: nat, snap: Incident, c: Choice)
    requires SharedInv(s) && PhaseOk(s, me, RecoverWrite(snap))
    requires t == StepRecover(s, RecoverWrite(snap), c).0
    ensures SharedInv(t) && Evolves(s, t, me)
    ensures t.approvals == s.approvals && t.claimer == s.claimer && t.config == s.config && t.faulted == s.faulted
  {
    hide SharedInv, Evolves, IncidentOk;
    var moved := Event(c.statusEvent, snap.id, Moved(snap.status, Resolved, AlertResolvedOutside));
    var inc := MovedTo(snap, Resolved, c.now);
    assert [Some(moved)] == Batch(moved, None);
    if !c.fault.Refused? && IR.UpdateWithEvents(s.incidents, inc, [Some(moved)]).Ok? {
      UpdateIsCommit(s.incidents, inc, moved, None);
      CommitKeeps(s, t, me, snap, inc.(version := snap.version + 1), moved, None, "");
    } else {
      Unchanged(s, me);
    }
  }

  lemma RecoverWriteStep(s: Shared, me: nat, snap: Incident, c: Choice)
    requires SharedInv(s) && LocalInv(s, me, RecoverWrite(snap))
    ensures var (t, q) := StepRecover(s, RecoverWrite(snap), c); Keeps(s, t, me, q)
  {
    hide SharedInv, Evolves, ClaimsKept, IR.UpdateWithEvents;
    var (t, q) := StepRecover(s, RecoverWrite(snap), c);
    RecoverWriteKeeps(s, t, me, snap, c);
    ClaimedRowsExist(s);
    NothingHeldKept(s, t, me, RecoverWrite(snap), q);
  }

  // ---- any step of any call ----

  lemma StepKeeps(s: Shared, me: nat, p: Phase, c: Choice)
    requires SharedInv(s) && LocalInv(s, me, p) && Enabled(s, p, c) && !p.Done?
    ensures var (t, q) := Step(s, me, p, c); Keeps(s, t, me, q)
  {
    hide SharedInv, Keeps, PhaseOk, ClaimsKept, IR.IsActiveLookup, IR.IsLatestLookup;
    hide StepCreate, StepWriteMove, StepReadForMove, StepRequest, StepDecline, StepClaim, StepExpire;
    hide StepMarkExecuting, StepExecute, StepVerify, StepPersist, StepRecover, StepDiagnose;
    match p
    case CreateFind(_, _) => CreateStep(s, me, p, c);
    case CreateWrite(f, details) => CreateWriteStep(s, me, f, details, c);
    case CreateFindAgain(_) => CreateStep(s, me, p, c);
    case ReadForMove(m) => ReadForMoveStep(s, me, m, c);
    case WriteMove(m, snap) => WriteMoveStep(s, me, m, snap, c);
    case RequestRun(_, _) => RequestReadStep(s, me, p, c);
    case RequestIncident(_, _, _) => RequestReadStep(s, me, p, c);
    case RequestWrite(run, i, request) => RequestWriteStep(s, me, run, i, request, c);
    case Claim(id, signer) => ClaimStep(s, me, id, signer, c);
    case Decline(id, signer) => DeclineStep(s, me, id, signer, c);
    case Expire(a, source) => ExpireStep(s, me, a, source, c);
    case MarkExecuting(a) => MarkExecutingStep(s, me, a, c);
    case ExecuteRun(_) => ExecuteReadStep(s, me, p, c);
    case ExecuteRead(_, _) => ExecuteReadStep(s, me, p, c);
    case ExecuteAct(a, i) => ActStep(s, me, a, i, c);
    case ExecuteVerify(a, i, operation) => VerifyStep(s, me, a, i, operation, c);
    case Persist(a, e) => PersistStep(s, me, a, e, c);
    case RecoverFind(_) => RecoverReadStep(s, me, p, c);
    case RecoverLatest(_) => RecoverReadStep(s, me, p, c);
    case RecoverSweep(snap) => RecoverSweepStep(s, me, snap, c);
    case RecoverWrite(snap) => RecoverWriteStep(s, me, snap, c);
    case DiagnoseRead(_) => DiagnoseStep(s, me, p, c);
    case DiagnoseList(_) => DiagnoseStep(s, me, p, c);
    case DiagnoseStart(i, fine) => DiagnoseStartStep(s, me, i, fine, c);
    case DiagnoseEnd(run) => DiagnoseEndStep(s, me, run, c);
    case DiagnoseFail(run) => DiagnoseFailStep(s, me, run, c);
  }

  lemma ExpireStep(s: Shared, me: nat, a: AR.Approval, source: AR.ApprovalStatus, c: Choice)
    requires SharedInv(s) && LocalInv(s, me, Expire(a, source))
    ensures var (t, q) := StepExpire(s, a, source, c); Keeps(s, t, me, q)
  {
    hide SharedInv, Keeps, ClaimsKept, StepExpire;
    if source == AR.Approved {
      ExpireClaimedStep(s, me, a, c);
    } else {
      ExpirePendingStep(s, me, a, c);
    }
  }
}
