/** The closed loop of create, diagnose, request, approve, execute, verify and close, as any
    number of service calls running at once over the shared stores.

    A call is cut at every access to a repository. Between two accesses of one call any
    number of accesses of other calls may happen, and a call may stop for ever. */
module ClosedLoop {
  import opened Basics
  import opened Incidents
  import IR = IncidentRepository
  import AR = ApprovalRepository
  import RR = RunRepository
  import V = Verifier

  /** How one access ends: it takes effect and is answered, it is refused (cancelled, or the
      store fails), or it takes effect but its answer is lost and the caller sees an error. */
  datatype Fault = Answered | Refused | Lost

  datatype ActionResult = Acted(operation: string) | ActionRefused(cause: string) | ActionUnknown

  /** What the caller of the executor learns. */
  datatype Execution =
    | Succeeded(output: string, operation: string)
    | Failure(cause: string)
    | UnknownResult(cause: string)

  /** Everything outside the service that decides one step. */
  datatype Choice = Choice(
    fault: Fault,
    now: int,
    id: string,                  // identifier drawn for a new record
    statusEvent: string,         // identifier drawn for the status event
    auditEvent: string,          // identifier drawn for the audit event
    found: Option<Incident>,     // answer of a search by fingerprint
    action: ActionResult,        // answer of the outside system
    feed: seq<V.Gathered>,       // what the gatherer returns before any cancellation
    text: string,                // wording of an error or of an outcome
    diagnosed: bool)             // whether the diagnosis itself succeeded

  datatype Config = Config(executor: bool, thresholds: V.Thresholds, verification: V.RunConfig)

  /** An invocation of the outside action. */
  datatype Action = Action(incident: string, approval: string)

  /** The stores; the last five components are history that no call reads. */
  datatype Shared = Shared(
    config: Config,
    incidents: IR.Store,
    approvals: AR.Rows,
    runs: RR.Runs,
    claimer: map<string, nat>,           // approval -> the call that moved it PENDING -> APPROVED
    mover: map<string, string>,          // incident -> the approval that moved it to MITIGATING
    actions: seq<Action>,
    checked: map<string, seq<V.Gathered>>, // approval -> the collections that passed
    faulted: set<string>)                // approvals whose store failed their claimer

  /** A guarded status move and what its caller does next. */
  datatype Move = Move(incident: string, to: Status, reason: Reason, audit: Option<EventKind>, andThen: After)

  datatype After =
    | Return
    | Requested(a: AR.Approval)
    | Mitigate(a: AR.Approval)
    | AfterRefusal(a: AR.Approval, cause: string)
    | AfterAction(a: AR.Approval, operation: string)
    | AfterBadCheck(a: AR.Approval, operation: string)
    | AfterGoodCheck(a: AR.Approval, operation: string)
    | ThenDiagnose(incident: string)

  /** Where a call stands: the access it performs next, and its local variables. */
  datatype Phase =
    | CreateFind(fingerprint: string, details: string)
    | CreateWrite(fingerprint: string, details: string)
    | CreateFindAgain(fingerprint: string)
    | ReadForMove(move: Move)
    | WriteMove(move: Move, snap: Incident)
    | RequestRun(run: string, request: string)
    | RequestIncident(run: string, incident: string, request: string)
    | RequestWrite(run: string, incident: string, request: string)
    | Claim(approval: string, signer: string)
    | Decline(approval: string, signer: string)
    | Expire(a: AR.Approval, source: AR.ApprovalStatus)
    | MarkExecuting(a: AR.Approval)
    | ExecuteRun(a: AR.Approval)
    | ExecuteRead(a: AR.Approval, incident: string)
    | ExecuteAct(a: AR.Approval, incident: string)
    | ExecuteVerify(a: AR.Approval, incident: string, operation: string)
    | Persist(a: AR.Approval, execution: Execution)
    | RecoverFind(fingerprint: string)
    | RecoverLatest(fingerprint: string)
    | RecoverSweep(snap: Incident)
    | RecoverWrite(snap: Incident)
    | DiagnoseRead(incident: string)
    | DiagnoseList(snap: Incident)
    | DiagnoseStart(incident: string, duplicateIsFine: bool)
    | DiagnoseEnd(record: RR.Run)
    | DiagnoseFail(record: RR.Run)
    | Done(ok: bool)

  datatype World = World(shared: Shared, calls: map<nat, Phase>)

  // ---- entry points ----

  function Analyze(incident: string): Phase {
    ReadForMove(Move(incident, Investigating, MachineTransition, None, Return))
  }

  function Resolve(incident: string): Phase {
    ReadForMove(Move(incident, Resolved, MachineTransition, None, Return))
  }

  function Fail(incident: string, reason: string): Phase {
    ReadForMove(Move(incident, Incidents.Failed, Given(reason), None, Return))
  }

  /** The first phase of some service call. A fingerprint is a digest, never empty. */
  ghost predicate IsEntry(p: Phase) {
    || (p.CreateFind? && p.fingerprint != "")
    || (exists i :: p == Analyze(i))
    || (exists i :: p == Resolve(i))
    || (exists i, reason :: p == Fail(i, reason))
    || p.RequestRun?
    || p.Claim?
    || p.Decline?
    || p.RecoverFind?
    || p.DiagnoseRead?
    || (p.DiagnoseStart? && !p.duplicateIsFine)
  }

  // ---- guarded moves ----

  function MovedTo(snap: Incident, to: Status, now: int): Incident {
    snap.(status := to, updatedAt := now, resolvedAt := if to == Resolved then Some(now) else snap.resolvedAt)
  }

  function MoveEvents(m: Move, snap: Incident, c: Choice): seq<Option<Event>> {
    var moved := Some(Event(c.statusEvent, snap.id, Moved(snap.status, m.to, m.reason)));
    match m.audit
    case None => [moved]
    case Some(kind) => [moved, Some(Event(c.auditEvent, snap.id, kind))]
  }

  function Continue(config: Config, then_: After, ok: bool, text: string): Phase {
    match then_
    case Return => Done(ok)
    case Requested(a) => if ok then Done(true) else Expire(a, AR.Pending)
    case Mitigate(a) =>
      if !ok then Expire(a, AR.Approved)
      else if config.executor then MarkExecuting(a) else Done(true)
    case AfterRefusal(a, cause) => Persist(a, Failure(cause))
    case AfterAction(a, operation) =>
      if ok then ExecuteVerify(a, a.incident, operation) else Persist(a, Failure(text))
    case AfterBadCheck(a, operation) =>
      if ok then Persist(a, Succeeded(text, operation)) else Persist(a, Failure(text))
    case AfterGoodCheck(a, operation) =>
      if ok then Persist(a, Succeeded(text, operation)) else Persist(a, Failure(text))
    case ThenDiagnose(i) => if ok then DiagnoseStart(i, true) else Done(false)
  }

  function StepReadForMove(s: Shared, m: Move, c: Choice): Phase {
    if !c.fault.Answered? || m.incident !in s.incidents.items then Continue(s.config, m.andThen, false, c.text)
    else
      var snap := s.incidents.items[m.incident];
      if CanTransition(snap.status, m.to) then WriteMove(m, snap)
      else Continue(s.config, m.andThen, false, c.text)
  }

  function StepWriteMove(s: Shared, m: Move, snap: Incident, c: Choice): (Shared, Phase) {
    var r := IR.UpdateWithEvents(s.incidents, MovedTo(snap, m.to, c.now), MoveEvents(m, snap, c));
    if c.fault.Refused? || r.Err? then (s, Continue(s.config, m.andThen, false, c.text))
    else
      var mover := if m.andThen.Mitigate? then s.mover[snap.id := m.andThen.a.id] else s.mover;
      (s.(incidents := r.value, mover := mover), Continue(s.config, m.andThen, c.fault.Answered?, c.text))
  }

  // ---- creating an incident ----

  function NewIncident(fingerprint: string, details: string, c: Choice): Incident {
    Incident(c.id, fingerprint, details, Open, c.now, c.now, None, 0)
  }

  function StepCreate(s: Shared, p: Phase, c: Choice): (Shared, Phase)
    requires p.CreateFind? || p.CreateWrite? || p.CreateFindAgain?
  {
    match p
    case CreateFind(fingerprint, details) =>
      if !c.fault.Answered? then (s, Done(false))
      else if c.found.Some? then (s, Done(true))
      else (s, CreateWrite(fingerprint, details))
    case CreateWrite(fingerprint, details) =>
      var created := Event(c.statusEvent, c.id, Created);
      var r := IR.CreateWithEvent(s.incidents, NewIncident(fingerprint, details, c), Some(created));
      if c.fault.Refused? then (s, Done(false))
      else if r.Err? then (s, CreateFindAgain(fingerprint))
      else (s.(incidents := r.value), Done(c.fault.Answered?))
    case CreateFindAgain(_) => (s, Done(c.fault.Answered? && c.found.Some?))
  }

  // ---- asking for an approval, and turning it down ----

  function NewApproval(run: string, incident: string, request: string, c: Choice): AR.Approval {
    AR.Approval(c.id, incident, run, request, AR.Pending, "", None, "", AR.NoError, "", c.now, c.now)
  }

  function StepRequest(s: Shared, p: Phase, c: Choice): (Shared, Phase)
    requires p.RequestRun? || p.RequestIncident? || p.RequestWrite?
  {
    match p
    case RequestRun(run, request) =>
      if run == "" || !c.fault.Answered? || run !in s.runs then (s, Done(false))
      else (s, RequestIncident(run, s.runs[run].incident, request))
    case RequestIncident(run, incident, request) =>
      if !c.fault.Answered? || incident !in s.incidents.items then (s, Done(false))
      else (s, RequestWrite(run, incident, request))
    case RequestWrite(run, incident, request) =>
      var a := NewApproval(run, incident, request, c);
      var r := AR.Create(s.approvals, a);
      if c.fault.Refused? || r.Err? then (s, Done(false))
      else
        (s.(approvals := r.value),
         if c.fault.Answered?
         then ReadForMove(Move(incident, WaitingApproval, MachineTransition, None, Requested(a)))
         else Done(false))
  }

  function StepDecline(s: Shared, id: string, signer: string, c: Choice): (Shared, Phase) {
    var r := AR.TransitionStatus(s.approvals, id, AR.Pending, AR.Rejected, c.now, AR.Sign(signer, c.now));
    if c.fault.Refused? || r.Err? then (s, Done(false))
    else
      (s.(approvals := r.value),
       if c.fault.Answered?
       then ReadForMove(Move(r.value[id].incident, Incidents.Failed, MachineTransition, None, Return))
       else Done(false))
  }

  // ---- approving and executing ----

  function StepClaim(s: Shared, me: nat, id: string, signer: string, c: Choice): (Shared, Phase) {
    var r := AR.TransitionStatus(s.approvals, id, AR.Pending, AR.Approved, c.now, AR.Sign(signer, c.now));
    if c.fault.Refused? || r.Err? then (s, Done(false))
    else
      var a := r.value[id];
      var claimed := s.(approvals := r.value, claimer := s.claimer[id := me]);
      if c.fault.Lost? then (claimed.(faulted := s.faulted + {id}), Done(false))
      else (claimed, ReadForMove(Move(a.incident, Mitigating, MachineTransition, None, Mitigate(a))))
  }

  function StepExpire(s: Shared, a: AR.Approval, source: AR.ApprovalStatus, c: Choice): (Shared, Phase) {
    var r := AR.TransitionStatus(s.approvals, a.id, source, AR.Expired, c.now, AR.Note(AR.Because(c.text)));
    var faulted := if c.fault.Answered? || source != AR.Approved then s.faulted else s.faulted + {a.id};
    if c.fault.Refused? || r.Err? then (s.(faulted := faulted), Done(false))
    else (s.(approvals := r.value, faulted := faulted), Done(false))
  }

  function StepMarkExecuting(s: Shared, a: AR.Approval, c: Choice): (Shared, Phase) {
    var r := AR.TransitionStatus(s.approvals, a.id, AR.Approved, AR.Executing, c.now, AR.Keep);
    if c.fault.Refused? then (s.(faulted := s.faulted + {a.id}), Done(false))
    else if r.Err? then (s, Done(false))
    else if c.fault.Lost? then (s.(approvals := r.value, faulted := s.faulted + {a.id}), Done(false))
    else (s.(approvals := r.value), ExecuteRun(r.value[a.id]))
  }

  function StepExecute(s: Shared, p: Phase, c: Choice): (Shared, Phase)
    requires p.ExecuteRun? || p.ExecuteRead? || p.ExecuteAct?
  {
    match p
    case ExecuteRun(a) =>
      if !c.fault.Answered? || a.run !in s.runs || s.runs[a.run].incident == ""
      then (s, Persist(a, Failure(c.text)))
      else (s, ExecuteRead(a, s.runs[a.run].incident))
    case ExecuteRead(a, incident) =>
      if !c.fault.Answered? || incident !in s.incidents.items
         || s.incidents.items[incident].status != Mitigating
      then (s, Persist(a, Failure(c.text)))
      else (s, ExecuteAct(a, incident))
    case ExecuteAct(a, incident) =>
      var acted := s.(actions := s.actions + [Action(incident, a.id)]);
      match c.action
      case ActionUnknown => (acted, Persist(a, UnknownResult(c.text)))
      case ActionRefused(cause) =>
        (acted, ReadForMove(Move(incident, Incidents.Failed, MachineTransition, Some(ActionFailed(a.id)),
                                 AfterRefusal(a, cause))))
      case Acted(operation) =>
        (acted, ReadForMove(Move(incident, Verifying, MachineTransition, Some(ActionCompleted(a.id)),
                                 AfterAction(a, operation))))
  }

  ghost predicate SequencePasses(config: Config, feed: seq<V.Gathered>) {
    V.Passes(config.thresholds.Filled(), config.verification, feed)
  }

  ghost function StepVerify(s: Shared, a: AR.Approval, incident: string, operation: string, c: Choice)
    : (Shared, Phase)
  {
    if SequencePasses(s.config, c.feed) then
      (s.(checked := s.checked[a.id := c.feed]),
       ReadForMove(Move(incident, Resolved, MachineTransition, Some(PostmortemGenerated(a.id)),
                        AfterGoodCheck(a, operation))))
    else
      (s, ReadForMove(Move(incident, Incidents.Failed, MachineTransition, Some(VerificationFailed(a.id)),
                           AfterBadCheck(a, operation))))
  }

  function FinalStatus(e: Execution): AR.ApprovalStatus {
    match e
    case Succeeded(_, _) => AR.Executed
    case Failure(_) => AR.Failed
    case UnknownResult(_) => AR.Unknown
  }

  function FinalMutation(e: Execution): AR.Mutation {
    match e
    case Succeeded(output, operation) => AR.Finish(output, operation)
    case Failure(cause) => AR.Note(AR.Because(cause))
    case UnknownResult(cause) => AR.Note(AR.Because(cause))
  }

  function StepPersist(s: Shared, a: AR.Approval, e: Execution, c: Choice): (Shared, Phase) {
    var r := AR.TransitionStatus(s.approvals, a.id, AR.Executing, FinalStatus(e), c.now, FinalMutation(e));
    var faulted := if c.fault.Answered? then s.faulted else s.faulted + {a.id};
    if c.fault.Refused? || r.Err? then (s.(faulted := faulted), Done(false))
    else (s.(approvals := r.value, faulted := faulted), Done(c.fault.Answered?))
  }

  // ---- outside recovery ----

  function StepRecover(s: Shared, p: Phase, c: Choice): (Shared, Phase)
    requires p.RecoverFind? || p.RecoverLatest? || p.RecoverSweep? || p.RecoverWrite?
  {
    match p
    case RecoverFind(fingerprint) =>
      if !c.fault.Answered? then (s, Done(false))
      else if c.found.None? then (s, RecoverLatest(fingerprint))
      else if c.found.value.status == Mitigating || c.found.value.status == Verifying then (s, Done(false))
      else (s, RecoverSweep(c.found.value))
    case RecoverLatest(_) => (s, Done(c.fault.Answered? && c.found.Some?))
    case RecoverSweep(snap) =>
      if snap.id == "" || c.fault.Refused? then (s, Done(false))
      else
        (s.(approvals := AR.ExpirePending(s.approvals, snap.id, c.now)),
         if c.fault.Answered? then RecoverWrite(snap) else Done(false))
    case RecoverWrite(snap) =>
      var moved := Event(c.statusEvent, snap.id, Moved(snap.status, Resolved, AlertResolvedOutside));
      var r := IR.UpdateWithEvents(s.incidents, MovedTo(snap, Resolved, c.now), [Some(moved)]);
      if c.fault.Refused? || r.Err? then (s, Done(false))
      else (s.(incidents := r.value), Done(c.fault.Answered?))
  }

  // ---- diagnosis ----

  function StepDiagnose(s: Shared, p: Phase, c: Choice): (Shared, Phase)
    requires p.DiagnoseRead? || p.DiagnoseList? || p.DiagnoseStart? || p.DiagnoseEnd? || p.DiagnoseFail?
  {
    match p
    case DiagnoseRead(incident) =>
      if !c.fault.Answered? || incident !in s.incidents.items then (s, Done(false))
      else
        var snap := s.incidents.items[incident];
        if snap.status.IsTerminal() then (s, Done(true)) else (s, DiagnoseList(snap))
    case DiagnoseList(snap) =>
      // A listing that fails counts as "no active run": the create below decides.
      if c.fault.Answered? && RR.HasActiveRun(s.runs, snap.id) then (s, Done(true))
      else if snap.status == Open then
        (s, ReadForMove(Move(snap.id, Investigating, MachineTransition, None, ThenDiagnose(snap.id))))
      else (s, DiagnoseStart(snap.id, true))
    case DiagnoseStart(incident, duplicateIsFine) =>
      var run := RR.Run(c.id, incident, RR.Running);
      var r := RR.CreateRun(s.runs, run);
      if c.fault.Refused? then (s, Done(false))
      else if r.Err? then (s, Done(duplicateIsFine))
      else (s.(runs := r.value), if c.fault.Answered? then DiagnoseEnd(run) else Done(false))
    case DiagnoseEnd(run) =>
      var r := RR.UpdateRun(s.runs, run.(status := RR.Completed));
      if !c.diagnosed || c.fault.Refused? || r.Err? then (s, DiagnoseFail(run))
      else (s.(runs := r.value), if c.fault.Answered? then Done(true) else DiagnoseFail(run))
    case DiagnoseFail(run) =>
      var r := RR.UpdateRun(s.runs, run.(status := RR.Failed));
      if c.fault.Refused? || r.Err? then (s, Done(false)) else (s.(runs := r.value), Done(false))
  }

  // ---- one step, and whole runs ----

  ghost function Step(s: Shared, me: nat, p: Phase, c: Choice): (Shared, Phase)
    requires !p.Done?
  {
    match p
    case CreateFind(_, _) => StepCreate(s, p, c)
    case CreateWrite(_, _) => StepCreate(s, p, c)
    case CreateFindAgain(_) => StepCreate(s, p, c)
    case ReadForMove(m) => (s, StepReadForMove(s, m, c))
    case WriteMove(m, snap) => StepWriteMove(s, m, snap, c)
    case RequestRun(_, _) => StepRequest(s, p, c)
    case RequestIncident(_, _, _) => StepRequest(s, p, c)
    case RequestWrite(_, _, _) => StepRequest(s, p, c)
    case Claim(id, signer) => StepClaim(s, me, id, signer, c)
    case Decline(id, signer) => StepDecline(s, id, signer, c)
    case Expire(a, source) => StepExpire(s, a, source, c)
    case MarkExecuting(a) => StepMarkExecuting(s, a, c)
    case ExecuteRun(_) => StepExecute(s, p, c)
    case ExecuteRead(_, _) => StepExecute(s, p, c)
    case ExecuteAct(_, _) => StepExecute(s, p, c)
    case ExecuteVerify(a, incident, operation) => StepVerify(s, a, incident, operation, c)
    case Persist(a, e) => StepPersist(s, a, e, c)
    case RecoverFind(_) => StepRecover(s, p, c)
    case RecoverLatest(_) => StepRecover(s, p, c)
    case RecoverSweep(_) => StepRecover(s, p, c)
    case RecoverWrite(_) => StepRecover(s, p, c)
    case DiagnoseRead(_) => StepDiagnose(s, p, c)
    case DiagnoseList(_) => StepDiagnose(s, p, c)
    case DiagnoseStart(_, _) => StepDiagnose(s, p, c)
    case DiagnoseEnd(_) => StepDiagnose(s, p, c)
    case DiagnoseFail(_) => StepDiagnose(s, p, c)
  }

  /** A search answers truthfully, and an incident identifier drawn by the service carries a
      prefix, so it is not empty. */
  ghost predicate Enabled(s: Shared, p: Phase, c: Choice) {
    && ((p.CreateFind? || p.CreateFindAgain? || p.RecoverFind?) ==>
          IR.IsActiveLookup(s.incidents, p.fingerprint, c.found))
    && (p.RecoverLatest? ==> IR.IsLatestLookup(s.incidents, p.fingerprint, c.found))
    && (p.CreateWrite? ==> c.id != "")
  }

  ghost predicate Arrives(w: World, w': World, me: nat, p: Phase) {
    me !in w.calls && IsEntry(p) && w' == w.(calls := w.calls[me := p])
  }

  ghost predicate Advances(w: World, w': World, me: nat, c: Choice) {
    && me in w.calls && !w.calls[me].Done? && Enabled(w.shared, w.calls[me], c)
    && var (s, p) := Step(w.shared, me, w.calls[me], c);
       w' == World(s, w.calls[me := p])
  }

  ghost predicate Next(w: World, w': World) {
    || (exists me, p :: Arrives(w, w', me, p))
    || (exists me, c :: Advances(w, w', me, c))
  }

  ghost predicate Init(w: World) {
    exists config :: w == World(
      Shared(config, IR.Store(map[], map[]), map[], map[], map[], map[], [], map[], {}), map[])
  }

  /** A finite run: any interleaving of any number of calls. */
  ghost predicate IsRun(run: seq<World>) {
    && run != [] && Init(run[0])
    && forall k {:trigger Next(run[k], run[k + 1])} | 0 <= k < |run| - 1 :: Next(run[k], run[k + 1])
  }
}
