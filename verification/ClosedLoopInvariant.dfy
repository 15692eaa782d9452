/** What holds in every reachable state of the closed loop, and why every step keeps it.

    Three parts: `SharedInv` speaks of the stores alone; `LocalInv` of one call and the
    stores; `Evolves` is what any step of a call promises to all the others, and every
    `LocalInv` survives it. */
module ClosedLoopInvariant {
  import opened Basics
  import opened Incidents
  import opened ClosedLoop
  import IR = IncidentRepository
  import AR = ApprovalRepository
  import RR = RunRepository

  // ---- the stores ----

  /** EXECUTING and what follows it. */
  predicate Started(st: AR.ApprovalStatus) {
    st.Executing? || st.Executed? || st.Failed? || st.Unknown?
  }

  /** The statuses an incident can have once it has been MITIGATING. */
  predicate SinceMitigation(st: Status) {
    st.Mitigating? || st.Verifying? || st.Resolved? || st.Failed?
  }

  ghost predicate HasCompletion(log: seq<Event>) {
    exists k | 0 <= k < |log| :: log[k].kind.ActionCompleted?
  }

  ghost predicate IncidentOk(s: Shared, i: string)
    requires i in s.incidents.items && i in s.incidents.events
  {
    var inc := s.incidents.items[i];
    var log := s.incidents.events[i];
    && inc.id == i && i != "" && inc.fingerprint != ""
    && 0 <= inc.version && Replay(log) == At(inc.status, inc.version)
    && inc.status != NeedApproval && inc.status != Cancelled
    && (ClosedOutside(log) ==> inc.status == Resolved)
    && (inc.status == Verifying ==> HasCompletion(log))
    && (inc.status == Resolved ==> ClosedOutside(log) || HasCompletion(log))
    && (inc.status == Mitigating || inc.status == Verifying ==> i in s.mover)
    && (i in s.mover ==> SinceMitigation(inc.status) && !ClosedOutside(log))
  }

  ghost predicate IncidentsOk(s: Shared) {
    && s.incidents.items.Keys == s.incidents.events.Keys
    && (forall i {:trigger IncidentOk(s, i)} | i in s.incidents.items :: IncidentOk(s, i))
    && (forall i | i in s.mover :: i in s.incidents.items)
  }

  /** Two active incidents of one fingerprint. */
  ghost predicate Rivals(s: Shared, i: string, j: string) {
    && i in s.incidents.items && j in s.incidents.items
    && var x, y := s.incidents.items[i], s.incidents.items[j];
       x.fingerprint == y.fingerprint && !x.status.IsTerminal() && !y.status.IsTerminal()
  }

  ghost predicate UniqueActive(s: Shared) {
    forall i, j {:trigger Rivals(s, i, j)} :: Rivals(s, i, j) ==> i == j
  }

  /** Each audit event tells the truth about the run. */
  ghost predicate EventOk(s: Shared, i: string, kind: EventKind) {
    match kind
    case ActionCompleted(a) => Action(i, a) in s.actions
    case ActionFailed(a) => Action(i, a) in s.actions
    case VerificationFailed(a) => Records(IR.Log(s.incidents.events, i), ActionCompleted(a))
    case PostmortemGenerated(a) =>
      a in s.checked && Records(IR.Log(s.incidents.events, i), ActionCompleted(a))
    case _ => true
  }

  ghost predicate LogsOk(s: Shared) {
    forall i | i in s.incidents.events :: forall k | 0 <= k < |s.incidents.events[i]| ::
      EventOk(s, i, s.incidents.events[i][k].kind)
  }

  ghost predicate ApprovalOk(s: Shared, id: string)
    requires id in s.approvals
  {
    var a := s.approvals[id];
    && a.id == id
    && a.run in s.runs && s.runs[a.run].incident == a.incident
    && a.incident != "" && a.incident in s.incidents.items
    && (id in s.claimer ==> !a.status.Pending? && !a.status.Rejected?)
    && (a.status.Approved? || Started(a.status) ==> id in s.claimer)
    && (Started(a.status) ==> a.incident in s.mover && s.mover[a.incident] == id)
    && (a.status.Unknown? ==> Action(a.incident, id) in s.actions)
    && (a.status.Executed? ==>
          && s.incidents.items[a.incident].status.IsTerminal()
          && Records(IR.Log(s.incidents.events, a.incident), ActionCompleted(id)))
  }

  ghost predicate ApprovalsOk(s: Shared) {
    && (forall id {:trigger ApprovalOk(s, id)} | id in s.approvals :: ApprovalOk(s, id))
    && (forall id | id in s.claimer :: id in s.approvals)
  }

  ghost predicate ActionOk(s: Shared, x: Action) {
    && x.approval in s.approvals
    && s.approvals[x.approval].incident == x.incident
    && Started(s.approvals[x.approval].status)
  }

  ghost predicate ActionsOk(s: Shared) {
    && (forall k | 0 <= k < |s.actions| :: ActionOk(s, s.actions[k]))
    && (forall j, k | 0 <= j < k < |s.actions| :: s.actions[j].approval != s.actions[k].approval)
  }

  ghost predicate ChecksOk(s: Shared) {
    forall a | a in s.checked :: SequencePasses(s.config, s.checked[a])
  }

  ghost predicate RunsOk(s: Shared) {
    RR.Keyed(s.runs) && RR.AtMostOneActive(s.runs)
  }

  ghost predicate SharedInv(s: Shared) {
    && IncidentsOk(s) && UniqueActive(s) && LogsOk(s)
    && ApprovalsOk(s) && ActionsOk(s) && ChecksOk(s) && RunsOk(s)
  }

  // ---- one call ----

  /** The call owns the approval, and its copy of the row is current. */
  ghost predicate Owns(s: Shared, me: nat, a: AR.Approval, st: AR.ApprovalStatus) {
    && a.id in s.approvals && s.approvals[a.id] == a && a.status == st
    && a.id in s.claimer && s.claimer[a.id] == me
  }

  /** The call owns an EXECUTING approval, whose incident it moved to MITIGATING. */
  ghost predicate Working(s: Shared, me: nat, a: AR.Approval) {
    Owns(s, me, a, AR.Executing) && a.incident in s.mover && s.mover[a.incident] == a.id
  }

  ghost predicate NotActed(s: Shared, approval: string) {
    forall k | 0 <= k < |s.actions| :: s.actions[k].approval != approval
  }

  ghost predicate Completed(s: Shared, a: AR.Approval) {
    Records(IR.Log(s.incidents.events, a.incident), ActionCompleted(a.id))
  }

  ghost predicate ClosedFor(s: Shared, a: AR.Approval) {
    && a.incident in s.incidents.items
    && s.incidents.items[a.incident].status.IsTerminal()
    && Completed(s, a)
  }

  /** A record read earlier: the stored version is no older, and an equal version means an
      equal record. */
  ghost predicate SnapOk(s: Shared, snap: Incident) {
    && snap.id in s.incidents.items
    && var cur := s.incidents.items[snap.id];
       snap.version <= cur.version && (snap.version == cur.version ==> cur == snap)
  }

  ghost predicate MoveOk(s: Shared, me: nat, m: Move) {
    && (m.to == Resolved ==> m.reason == MachineTransition)
    && match m.andThen
       case Return => m.audit == None && (m.to == Investigating || m.to == Resolved || m.to == Incidents.Failed)
       case Requested(_) => m.audit == None && m.to == WaitingApproval
       case ThenDiagnose(i) => m.audit == None && m.to == Investigating
       case Mitigate(a) =>
         m.audit == None && m.to == Mitigating && m.incident == a.incident && Owns(s, me, a, AR.Approved)
       case AfterRefusal(a, _) =>
         && m.audit == Some(ActionFailed(a.id)) && m.to == Incidents.Failed && m.incident == a.incident
         && Working(s, me, a) && Action(a.incident, a.id) in s.actions
       case AfterAction(a, _) =>
         && m.audit == Some(ActionCompleted(a.id)) && m.to == Verifying && m.incident == a.incident
         && Working(s, me, a) && Action(a.incident, a.id) in s.actions
       case AfterBadCheck(a, _) =>
         && m.audit == Some(VerificationFailed(a.id)) && m.to == Incidents.Failed && m.incident == a.incident
         && Working(s, me, a) && Completed(s, a)
       case AfterGoodCheck(a, _) =>
         && m.audit == Some(PostmortemGenerated(a.id)) && m.to == Resolved && m.incident == a.incident
         && Working(s, me, a) && Completed(s, a) && a.id in s.checked
  }

  ghost predicate PhaseOk(s: Shared, me: nat, p: Phase) {
    match p
    case CreateFind(f, _) => f != ""
    case CreateWrite(f, _) => f != ""
    case ReadForMove(m) => MoveOk(s, me, m)
    case WriteMove(m, snap) =>
      MoveOk(s, me, m) && snap.id == m.incident && SnapOk(s, snap) && CanTransition(snap.status, m.to)
    case RequestIncident(run, i, _) => run in s.runs && s.runs[run].incident == i
    case RequestWrite(run, i, _) => run in s.runs && s.runs[run].incident == i && i in s.incidents.items
    case Expire(a, source) =>
      source == AR.Pending || (source == AR.Approved && Owns(s, me, a, AR.Approved))
    case MarkExecuting(a) =>
      Owns(s, me, a, AR.Approved) && a.incident in s.mover && s.mover[a.incident] == a.id
    case ExecuteRun(a) => Working(s, me, a) && NotActed(s, a.id)
    case ExecuteRead(a, i) => Working(s, me, a) && NotActed(s, a.id) && i == a.incident
    case ExecuteAct(a, i) => Working(s, me, a) && NotActed(s, a.id) && i == a.incident
    case ExecuteVerify(a, i, _) => Working(s, me, a) && i == a.incident && Completed(s, a)
    case Persist(a, e) =>
      && Working(s, me, a) && (e.Succeeded? ==> ClosedFor(s, a))
      && (e.UnknownResult? ==> Action(a.incident, a.id) in s.actions)
    case RecoverSweep(snap) => SnapOk(s, snap) && BeforeMitigation(snap.status)
    case RecoverWrite(snap) => SnapOk(s, snap) && BeforeMitigation(snap.status)
    case DiagnoseEnd(run) => run.id in s.runs && s.runs[run.id].incident == run.incident
    case DiagnoseFail(run) => run.id in s.runs && s.runs[run.id].incident == run.incident
    case _ => true
  }

  /** The claimed approval a call still has to bring to an end. */
  function Held(p: Phase): Option<string> {
    match p
    case ReadForMove(m) => HeldByMove(m)
    case WriteMove(m, _) => HeldByMove(m)
    case Expire(a, source) => if source == AR.Approved then Some(a.id) else None
    case MarkExecuting(a) => Some(a.id)
    case ExecuteRun(a) => Some(a.id)
    case ExecuteRead(a, _) => Some(a.id)
    case ExecuteAct(a, _) => Some(a.id)
    case ExecuteVerify(a, _, _) => Some(a.id)
    case Persist(a, _) => Some(a.id)
    case _ => None
  }

  function HeldByMove(m: Move): Option<string> {
    match m.andThen
    case Mitigate(a) => Some(a.id)
    case AfterRefusal(a, _) => Some(a.id)
    case AfterAction(a, _) => Some(a.id)
    case AfterBadCheck(a, _) => Some(a.id)
    case AfterGoodCheck(a, _) => Some(a.id)
    case _ => None
  }

  /** An approval that its claimer may leave as it is. */
  ghost predicate MayRest(s: Shared, id: string)
    requires id in s.approvals
  {
    || (s.approvals[id].status != AR.Approved && s.approvals[id].status != AR.Executing)
    || id in s.faulted
    || (!s.config.executor && s.approvals[id].status == AR.Approved)
  }

  ghost predicate ClaimsKept(s: Shared, me: nat, p: Phase) {
    forall id | id in s.claimer && s.claimer[id] == me && id in s.approvals ::
      MayRest(s, id) || Held(p) == Some(id)
  }

  ghost predicate LocalInv(s: Shared, me: nat, p: Phase) {
    PhaseOk(s, me, p) && ClaimsKept(s, me, p)
  }

  ghost predicate Inv(w: World) {
    && SharedInv(w.shared)
    && (forall me | me in w.calls :: LocalInv(w.shared, me, w.calls[me]))
    && (forall id | id in w.shared.claimer :: w.shared.claimer[id] in w.calls)
  }

  // ---- what a step promises to everybody else ----

  ghost predicate RecordGrows(x: Incident, y: Incident) {
    && y.id == x.id && y.fingerprint == x.fingerprint
    && x.version <= y.version && (x.version == y.version ==> x == y)
    && (x.status.IsTerminal() ==> x == y)
    && (SinceMitigation(x.status) ==> SinceMitigation(y.status))
  }

  ghost predicate ApprovalGrows(x: AR.Approval, y: AR.Approval) {
    && y.id == x.id && y.incident == x.incident && y.run == x.run && y.request == x.request
    && (x == y || AR.Level(x.status) < AR.Level(y.status))
    && (Started(x.status) ==> Started(y.status))
  }

  ghost predicate Grows(s: Shared, t: Shared) {
    && t.config == s.config
    && (forall i | i in s.incidents.items ::
          i in t.incidents.items && RecordGrows(s.incidents.items[i], t.incidents.items[i]))
    && (forall i | i in s.incidents.events ::
          i in t.incidents.events && s.incidents.events[i] <= t.incidents.events[i])
    && (forall r | r in s.runs :: r in t.runs && t.runs[r].incident == s.runs[r].incident)
    && (forall a | a in s.approvals :: a in t.approvals && ApprovalGrows(s.approvals[a], t.approvals[a]))
    && (forall a | a in s.claimer :: a in t.claimer && t.claimer[a] == s.claimer[a])
    && (forall i | i in s.mover :: i in t.mover && t.mover[i] == s.mover[i])
    && s.actions <= t.actions
    && s.checked.Keys <= t.checked.Keys
    && s.faulted <= t.faulted
  }

  ghost predicate RespectsClaims(s: Shared, t: Shared, me: nat) {
    && (forall a | a in s.claimer && s.claimer[a] != me && a in s.approvals ::
          a in t.approvals && t.approvals[a] == s.approvals[a])
    && (forall a | a in t.claimer && a !in s.claimer :: t.claimer[a] == me)
    && (forall k | |s.actions| <= k < |t.actions| ::
          t.actions[k].approval in s.claimer && s.claimer[t.actions[k].approval] == me)
  }

  ghost predicate Evolves(s: Shared, t: Shared, me: nat) {
    Grows(s, t) && RespectsClaims(s, t, me)
  }

  lemma GrowsReflexive(s: Shared)
    ensures Grows(s, s)
  {
  }

  lemma GrowsTransitive(s: Shared, t: Shared, u: Shared)
    requires Grows(s, t) && Grows(t, u)
    ensures Grows(s, u)
  {
    forall i | i in s.incidents.items
      ensures i in u.incidents.items && RecordGrows(s.incidents.items[i], u.incidents.items[i])
    {
      assert RecordGrows(t.incidents.items[i], u.incidents.items[i]);
    }
    forall a | a in s.approvals
      ensures a in u.approvals && ApprovalGrows(s.approvals[a], u.approvals[a])
    {
      assert ApprovalGrows(t.approvals[a], u.approvals[a]);
    }
  }

  // ---- facts survive growth ----

  lemma RecordsGrow(s: Shared, t: Shared, i: string, kind: EventKind)
    requires Grows(s, t)
    requires Records(IR.Log(s.incidents.events, i), kind)
    ensures Records(IR.Log(t.incidents.events, i), kind)
  {
  }

  lemma EventOkGrows(s: Shared, t: Shared, i: string, kind: EventKind)
    requires Grows(s, t) && EventOk(s, i, kind)
    ensures EventOk(t, i, kind)
  {
  }

  lemma ApprovalOkGrows(s: Shared, t: Shared, id: string)
    requires Grows(s, t) && id in s.approvals && ApprovalOk(s, id)
    requires id in t.approvals && t.approvals[id] == s.approvals[id]
    requires id in t.claimer ==> id in s.claimer
    ensures ApprovalOk(t, id)
  {
  }

  lemma OldActionsGrow(s: Shared, t: Shared)
    requires Grows(s, t) && ActionsOk(s)
    ensures forall k | 0 <= k < |s.actions| :: ActionOk(t, t.actions[k])
  {
  }

  lemma SnapOkGrows(s: Shared, t: Shared, snap: Incident)
    requires Grows(s, t) && SnapOk(s, snap)
    ensures SnapOk(t, snap)
  {
  }

  lemma OwnsKept(s: Shared, t: Shared, me: nat, you: nat, a: AR.Approval, st: AR.ApprovalStatus)
    requires Evolves(s, t, me) && me != you && Owns(s, you, a, st)
    ensures Owns(t, you, a, st)
  {
  }

  lemma MoveOkKept(s: Shared, t: Shared, me: nat, you: nat, m: Move)
    requires Evolves(s, t, me) && me != you && MoveOk(s, you, m)
    ensures MoveOk(t, you, m)
  {
    match m.andThen
    case AfterRefusal(a, _) => OwnsKept(s, t, me, you, a, AR.Executing);
    case AfterAction(a, _) => OwnsKept(s, t, me, you, a, AR.Executing);
    case AfterBadCheck(a, _) =>
      OwnsKept(s, t, me, you, a, AR.Executing);
      RecordsGrow(s, t, a.incident, ActionCompleted(a.id));
    case AfterGoodCheck(a, _) =>
      OwnsKept(s, t, me, you, a, AR.Executing);
      RecordsGrow(s, t, a.incident, ActionCompleted(a.id));
    case _ =>
  }

  lemma NotActedKept(s: Shared, t: Shared, me: nat, you: nat, a: AR.Approval)
    requires Evolves(s, t, me) && me != you && Working(s, you, a) && NotActed(s, a.id)
    ensures NotActed(t, a.id)
  {
  }

  lemma ClosedForKept(s: Shared, t: Shared, a: AR.Approval)
    requires Grows(s, t) && ClosedFor(s, a)
    ensures ClosedFor(t, a)
  {
  }

  lemma ActionKept(s: Shared, t: Shared, x: Action)
    requires Grows(s, t) && x in s.actions
    ensures x in t.actions
  {
  }

  predicate IsExecution(p: Phase) {
    p.ExecuteRun? || p.ExecuteRead? || p.ExecuteAct? || p.ExecuteVerify? || p.Persist?
  }

  lemma WorkingKept(s: Shared, t: Shared, me: nat, you: nat, a: AR.Approval)
    requires Evolves(s, t, me) && me != you && Working(s, you, a)
    ensures Working(t, you, a)
  {
    hide RecordGrows, ApprovalGrows;
    OwnsKept(s, t, me, you, a, AR.Executing);
  }

  lemma ExecutionKept(s: Shared, t: Shared, me: nat, you: nat, p: Phase)
    requires Evolves(s, t, me) && me != you && PhaseOk(s, you, p) && IsExecution(p)
    ensures PhaseOk(t, you, p)
  {
    hide NotActed, Grows, RespectsClaims, Owns, ClosedFor;
    assert Working(s, you, p.a);
    WorkingKept(s, t, me, you, p.a);
    hide Working;
    match p {
      case ExecuteVerify(a, _, _) => CompletedKept(s, t, a);
      case Persist(a, e) =>
        if e.Succeeded? { ClosedForKept(s, t, a); }
        if e.UnknownResult? { ActionKept(s, t, Action(a.incident, a.id)); }
      case ExecuteRun(a) => NotActedKept(s, t, me, you, a);
      case ExecuteRead(a, _) => NotActedKept(s, t, me, you, a);
      case ExecuteAct(a, _) => NotActedKept(s, t, me, you, a);
    }
  }

  lemma CompletedKept(s: Shared, t: Shared, a: AR.Approval)
    requires Grows(s, t) && Completed(s, a)
    ensures Completed(t, a)
  {
    RecordsGrow(s, t, a.incident, ActionCompleted(a.id));
  }

  lemma PhaseOkKept(s: Shared, t: Shared, me: nat, you: nat, p: Phase)
    requires Evolves(s, t, me) && me != you && PhaseOk(s, you, p)
    ensures PhaseOk(t, you, p)
  {
    hide MoveOk, RespectsClaims, Owns, SnapOk, RecordGrows, ApprovalGrows, Working, NotActed, Completed, ClosedFor;
    if IsExecution(p) {
      ExecutionKept(s, t, me, you, p);
    } else {
      match p
      case ReadForMove(m) => MoveOkKept(s, t, me, you, m);
      case WriteMove(m, snap) => MoveOkKept(s, t, me, you, m); SnapOkGrows(s, t, snap);
      case Expire(a, source) => if source == AR.Approved { OwnsKept(s, t, me, you, a, AR.Approved); }
      case MarkExecuting(a) => OwnsKept(s, t, me, you, a, AR.Approved);
      case RecoverSweep(snap) => SnapOkGrows(s, t, snap);
      case RecoverWrite(snap) => SnapOkGrows(s, t, snap);
      case _ =>
    }
  }

  /** Every other call's invariant survives a step of `me`. */
  lemma LocalInvKept(s: Shared, t: Shared, me: nat, you: nat, p: Phase)
    requires ApprovalsOk(s)
    requires Evolves(s, t, me) && me != you && LocalInv(s, you, p)
    ensures LocalInv(t, you, p)
  {
    PhaseOkKept(s, t, me, you, p);
    forall id | id in t.claimer && t.claimer[id] == you && id in t.approvals
      ensures MayRest(t, id) || Held(p) == Some(id)
    {
      assert id in s.claimer && s.claimer[id] == you;
      assert t.approvals[id] == s.approvals[id];
      assert MayRest(s, id) || Held(p) == Some(id);
    }
  }
}
