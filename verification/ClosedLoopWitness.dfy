/** A run from the empty stores to an action: one incident is created, diagnosed, put to a
    person and approved. The guarantees about actions speak of runs that exist. */
module ClosedLoopWitness {
  import opened Basics
  import opened Incidents
  import opened ClosedLoop
  import opened ClosedLoopSteps
  import opened ClosedLoopTheorems
  import opened ClosedLoopAlone
  import opened ClosedLoopCalls
  import opened ClosedLoopRuns
  import IR = IncidentRepository
  import AR = ApprovalRepository
  import RR = RunRepository

  /** Pairwise different identifiers. */
  function Name(n: nat): string {
    seq(n + 1, _ => 'x')
  }

  /** The n-th choice of the run: everything is answered, and what is drawn is new. */
  function Chosen(n: nat): Choice {
    Choice(Answered, n, Name(n), Name(2 * n), Name(2 * n + 1), None, Acted("restart"), [], "", true)
  }

  function ChosenFrom(n: nat, count: nat): (cs: seq<Choice>)
    ensures |cs| == count
  {
    seq(count, k requires 0 <= k < count => Chosen(n + k))
  }

  /** No stored event has an identifier that is yet to be drawn. */
  ghost predicate DrawnBelow(s: Shared, n: nat) {
    forall id | IR.EventIdTaken(s.incidents.events, id) :: |id| <= 2 * n
  }

  lemma ChoicesAreFresh(s: Shared, n: nat, count: nat)
    requires DrawnBelow(s, n)
    ensures FreshFrom(s, ChosenFrom(n, count), 0) && AllAnswered(ChosenFrom(n, count))
  {
    var cs := ChosenFrom(n, count);
    assert forall k | 0 <= k < count :: cs[k] == Chosen(n + k) && cs[k].fault == Answered;
    forall k | 0 <= k < count
      ensures |cs[k].statusEvent| == 2 * (n + k) + 1 && |cs[k].auditEvent| == 2 * (n + k) + 2
    {
    }
    hide IR.EventIdTaken;
  }

  /** A step adds no event but under the identifiers it drew. */
  lemma StepDraws(s: Shared, me: nat, p: Phase, c: Choice, id: string)
    requires !p.Done? && IR.EventIdTaken(Step(s, me, p, c).0.incidents.events, id)
    requires p.WriteMove? ==> p.snap.id == p.move.incident
    ensures IR.EventIdTaken(s.incidents.events, id) || id == c.statusEvent || id == c.auditEvent
  {
    hide IR.EventIdTaken, StepCreate, StepWriteMove, StepRecover;
    if p.WriteMove? {
      MoveDraws(s, p.move, p.snap, c, id);
    } else if p.CreateWrite? {
      CreateDraws(s, p, c, id);
    } else if p.RecoverWrite? {
      RecoverDraws(s, p.snap, c, id);
    } else {
      OtherStepsWriteNoIncident(s, me, p, c);
    }
  }

  lemma MoveDraws(s: Shared, m: Move, snap: Incident, c: Choice, id: string)
    requires IR.EventIdTaken(StepWriteMove(s, m, snap, c).0.incidents.events, id)
    ensures IR.EventIdTaken(s.incidents.events, id) || id == c.statusEvent || id == c.auditEvent
  {
    hide Continue, IR.UpdateWithEvents, IR.EventIdTaken;
    var inc := MovedTo(snap, m.to, c.now);
    var moved, audit := StatusEvent(m, snap, c), AuditEvent(m, snap, c);
    assert MoveEvents(m, snap, c) == Batch(moved, audit);
    if !c.fault.Refused? && IR.UpdateWithEvents(s.incidents, inc, Batch(moved, audit)).Ok? {
      UpdateIsCommit(s.incidents, inc, moved, audit);
      CommitDraws(s.incidents, inc.(version := inc.version + 1), moved, audit, id);
    }
  }

  lemma CommitDraws(store: IR.Store, next: Incident, moved: Event, audit: Option<Event>, id: string)
    ensures IR.EventIdTaken(Committed(store, next, moved, audit).events, id) ==>
            IR.EventIdTaken(store.events, id) || id == moved.id || (audit.Some? && id == audit.value.id)
  {
    TakenAfter(store.events, next.id, moved, id);
    if audit.Some? {
      var one := store.events[next.id := IR.Log(store.events, next.id) + [moved]];
      TakenAfter(one, next.id, audit.value, id);
      assert Committed(store, next, moved, audit).events == one[next.id := IR.Log(one, next.id) + [audit.value]];
    }
  }

  lemma CreateDraws(s: Shared, p: Phase, c: Choice, id: string)
    requires p.CreateWrite? && IR.EventIdTaken(StepCreate(s, p, c).0.incidents.events, id)
    ensures IR.EventIdTaken(s.incidents.events, id) || id == c.statusEvent
  {
    hide IR.EventIdTaken, IR.CreateBlocked, IR.BatchConflicts;
    TakenAfter(s.incidents.events, c.id, Event(c.statusEvent, c.id, Created), id);
  }

  lemma RecoverDraws(s: Shared, snap: Incident, c: Choice, id: string)
    requires IR.EventIdTaken(StepRecover(s, RecoverWrite(snap), c).0.incidents.events, id)
    ensures IR.EventIdTaken(s.incidents.events, id) || id == c.statusEvent
  {
    hide IR.UpdateWithEvents, IR.EventIdTaken;
    var moved := Event(c.statusEvent, snap.id, Moved(snap.status, Resolved, AlertResolvedOutside));
    assert [Some(moved)] == Batch(moved, None);
    UpdateIsCommit(s.incidents, MovedTo(snap, Resolved, c.now), moved, None);
    CommitDraws(s.incidents, MovedTo(snap, Resolved, c.now).(version := snap.version + 1), moved, None, id);
  }

  /** A call by itself, with the choices from n on, draws no later identifier. */
  lemma {:induction false} AloneDraws(s: Shared, me: nat, p: Phase, n: nat, count: nat)
    requires DrawnBelow(s, n) && KnownMove(s, p)
    ensures DrawnBelow(Alone(s, me, p, ChosenFrom(n, count)).0, n + count)
    decreases count
  {
    hide Step, DrawnBelow, KnownMove;
    var cs := ChosenFrom(n, count);
    if count == 0 || p.Done? {
      LaterBound(s, n, n + count);
    } else {
      assert cs[0] == Chosen(n) && cs[1..] == ChosenFrom(n + 1, count - 1);
      var (t, q) := Step(s, me, p, cs[0]);
      OneStepDraws(s, me, p, n);
      AloneDraws(t, me, q, n + 1, count - 1);
    }
  }

  lemma LaterBound(s: Shared, n: nat, m: nat)
    requires DrawnBelow(s, n) && n <= m
    ensures DrawnBelow(s, m)
  {
  }

  /** A record a call carries is of the incident it moves. */
  predicate KnownMove(s: Shared, p: Phase) {
    && (p.WriteMove? ==> p.snap.id == p.move.incident)
    && forall i | i in s.incidents.items :: s.incidents.items[i].id == i
  }

  lemma OneStepDraws(s: Shared, me: nat, p: Phase, n: nat)
    requires DrawnBelow(s, n) && KnownMove(s, p) && !p.Done?
    ensures var (t, q) := Step(s, me, p, Chosen(n)); DrawnBelow(t, n + 1) && KnownMove(t, q)
  {
    hide Step, IR.EventIdTaken;
    var (t, q) := Step(s, me, p, Chosen(n));
    forall id | IR.EventIdTaken(t.incidents.events, id) ensures |id| <= 2 * (n + 1) {
      StepDraws(s, me, p, Chosen(n), id);
    }
    KnownMoveStays(s, me, p, Chosen(n));
  }

  lemma KnownMoveStays(s: Shared, me: nat, p: Phase, c: Choice)
    requires KnownMove(s, p) && !p.Done?
    ensures var (t, q) := Step(s, me, p, c); KnownMove(t, q)
  {
    hide Step;
    OnlyReadEntersWrite(s, me, p, c);
    IdsStay(s, me, p, c);
  }

  lemma OnlyReadEntersWrite(s: Shared, me: nat, p: Phase, c: Choice)
    requires !p.Done?
    ensures var q := Step(s, me, p, c).1;
            q.WriteMove? ==> && p.ReadForMove? && q.move.incident in s.incidents.items
                             && q.snap == s.incidents.items[q.move.incident]
  {
    hide AR.TransitionStatus, AR.Create, AR.ExpirePending, RR.CreateRun, RR.UpdateRun, SequencePasses;
    hide IR.UpdateWithEvents, IR.CreateWithEvent, CanTransition, RR.HasActiveRun;
  }

  lemma IdsStay(s: Shared, me: nat, p: Phase, c: Choice)
    requires !p.Done? && forall i | i in s.incidents.items :: s.incidents.items[i].id == i
    ensures var t := Step(s, me, p, c).0; forall i | i in t.incidents.items :: t.incidents.items[i].id == i
  {
    hide StepReadForMove, StepRequest, StepDecline, StepClaim, StepExpire, StepMarkExecuting, StepExecute;
    hide StepVerify, StepPersist, StepDiagnose, Continue, IR.BatchConflicts, IR.AddEvents, IR.CreateBlocked;
    if !p.WriteMove? && !p.CreateWrite? && !p.RecoverWrite? {
      OtherStepsWriteNoIncident(s, me, p, c);
    }
  }

  // ---- the run ----

  /** The stores the run starts from. */
  function Empty(config: Config): World {
    World(Shared(config, IR.Store(map[], map[]), map[], map[], map[], map[], [], map[], {}), map[])
  }

  /** One more call, from its arrival to its end, with the choices from n on. */
  lemma WholeCall(run: seq<World>, labels: seq<Label>, me: nat, p: Phase, n: nat, count: nat)
    returns (longer: seq<World>, more: seq<Label>)
    requires Labelled(run, labels) && me !in Last(run).calls && IsEntry(p)
    requires DrawnBelow(Last(run).shared, n) && KnownMove(Last(run).shared, p)
    requires Answerable(Last(run).shared, me, p, ChosenFrom(n, count))
    ensures Labelled(longer, more) && run <= longer
    ensures Last(longer).shared == Alone(Last(run).shared, me, p, ChosenFrom(n, count)).0
    ensures Last(longer).calls.Keys == Last(run).calls.Keys + {me}
    ensures DrawnBelow(Last(longer).shared, n + count)
  {
    hide Follows, Init, IsEntry, DrawnBelow, KnownMove, Alone, Answerable, ChosenFrom;
    longer, more := Arrive(run, labels, me, p);
    longer, more := AloneIsRun(longer, more, me, ChosenFrom(n, count));
    AloneDraws(Last(run).shared, me, p, n, count);
  }

  // ---- what the first three calls leave ----

  ghost predicate AfterReport(s: Shared, config: Config) {
    && s == Empty(config).shared.(incidents := s.incidents)
    && s.incidents.items == map[Name(1) := Incident(Name(1), "fingerprint", "", Open, 1, 1, None, 0)]
  }

  function Report(): Phase {
    CreateFind("fingerprint", "")
  }

  lemma NothingStored(config: Config)
    ensures var s := Empty(config).shared;
            && DrawnBelow(s, 0) && KnownMove(s, Report()) && IsEntry(Report())
            && IR.IsActiveLookup(s.incidents, "fingerprint", None)
  {
  }

  lemma ReportLeaves(config: Config)
    ensures var s := Empty(config).shared;
            && DrawnBelow(s, 0) && KnownMove(s, Report()) && IsEntry(Report())
            && Answerable(s, 0, Report(), ChosenFrom(0, 2))
            && AfterReport(Alone(s, 0, Report(), ChosenFrom(0, 2)).0, config)
  {
    var s, cs := Empty(config).shared, ChosenFrom(0, 2);
    assert cs[0] == Chosen(0) && cs[1] == Chosen(1);
    NothingStored(config);
    hide Alone, Answerable, FreshFrom, Replay, IR.IsActiveLookup, DrawnBelow, IsEntry, KnownMove, Name, IR.Log;
    ChoicesAreFresh(s, 0, 2);
    CreateIsAnswerable(s, Report(), cs);
    CreateAlone(s, 0, "fingerprint", "", cs);
  }

  lemma CreateIsAnswerable(s: Shared, p: Phase, cs: seq<Choice>)
    requires |cs| == 2 && p.CreateFind? && cs[0] == Chosen(0) && cs[1] == Chosen(1)
    requires s.incidents.items == map[]
    ensures Answerable(s, 0, p, cs)
  {
    var (t, q) := Step(s, 0, p, cs[0]);
    assert t == s && q == CreateWrite(p.fingerprint, p.details);
    assert Enabled(s, p, cs[0]) && Enabled(s, q, cs[1]);
    var (u, r) := Step(s, 0, q, cs[1]);
    assert cs[1..][1..] == [];
    hide Step, Enabled;
    assert Answerable(u, 0, r, []);
    assert Answerable(s, 0, q, cs[1..]);
  }

  ghost predicate AfterDiagnosis(s: Shared, config: Config) {
    && s == Empty(config).shared.(incidents := s.incidents, runs := s.runs)
    && s.runs == map[Name(6) := RR.Run(Name(6), Name(1), RR.Completed)]
    && s.incidents.items.Keys == {Name(1)} && s.incidents.items[Name(1)].id == Name(1)
    && s.incidents.items[Name(1)].status == Investigating
  }

  lemma DiagnosisLeaves(s: Shared, config: Config)
    requires AfterReport(s, config) && DrawnBelow(s, 2)
    ensures AfterDiagnosis(Alone(s, 1, DiagnoseRead(Name(1)), ChosenFrom(2, 7)).0, config)
  {
    var cs := ChosenFrom(2, 7);
    assert cs[2] == Chosen(4) && cs[3] == Chosen(5) && cs[4] == Chosen(6) && cs[5] == Chosen(7);
    ChoicesAreFresh(s, 2, 7);
    assert !RR.HasActiveRun(s.runs, Name(1));
    hide Alone, FreshFrom, Name, DrawnBelow, OnlyMoved, ChosenFrom, RR.HasActiveRun, IR.Log, Kinds;
    OpenDiagnosis(s, Name(1), cs);
  }

  lemma OpenDiagnosis(s: Shared, i: string, cs: seq<Choice>)
    requires |cs| == 7 && AllAnswered(cs) && FreshFrom(s, cs, 0) && cs[5].diagnosed
    requires s.incidents.items.Keys == {i} && s.incidents.items[i].id == i && s.incidents.items[i].status == Open
    requires !RR.HasActiveRun(s.runs, i) && s.runs == map[]
    ensures var t := Alone(s, 1, DiagnoseRead(i), cs).0;
            && t == s.(incidents := t.incidents, runs := map[cs[4].id := RR.Run(cs[4].id, i, RR.Completed)])
            && t.incidents.items.Keys == {i} && t.incidents.items[i].id == i
            && t.incidents.items[i].status == Investigating
  {
    hide Alone, FreshFrom, OnlyMoved, RR.HasActiveRun;
    DiagnoseAlone(s, 1, i, cs);
    OnlyOneMoves(s, Alone(s, 1, DiagnoseRead(i), cs).0, i, cs[3].now);
  }

  lemma OnlyOneMoves(s: Shared, t: Shared, i: string, now: int)
    requires OnlyMoved(s, t, i, Investigating, MachineTransition, now) && s.incidents.items.Keys == {i}
    ensures t.incidents.items.Keys == {i} && t.incidents.items[i].id == s.incidents.items[i].id
    ensures t.incidents.items[i].status == Investigating
  {
    hide IR.Log, Kinds;
  }

  lemma RequestLeaves(s: Shared, config: Config)
    requires AfterDiagnosis(s, config) && DrawnBelow(s, 9)
    ensures var t := Alone(s, 2, RequestRun(Name(6), "restart"), ChosenFrom(9, 5)).0;
            ReadyToApprove(t, Name(11)) && t.config == config && t.actions == []
  {
    var cs := ChosenFrom(9, 5);
    assert cs[2] == Chosen(11) && cs[4] == Chosen(13);
    assert |Name(1)| == 2 && |Name(6)| == 7;
    ChoicesAreFresh(s, 9, 5);
    hide Alone, FreshFrom, Name, DrawnBelow, ReadyToApprove, ChosenFrom;
    OpenRequest(s, Name(1), Name(6), cs);
  }

  lemma OpenRequest(s: Shared, i: string, r: string, cs: seq<Choice>)
    requires |cs| == 5 && AllAnswered(cs) && FreshFrom(s, cs, 0) && i != "" && r != ""
    requires r in s.runs && s.runs[r].incident == i && s.approvals == map[]
    requires s.incidents.items.Keys == {i} && s.incidents.items[i].id == i
    requires s.incidents.items[i].status == Investigating
    ensures var t := Alone(s, 2, RequestRun(r, "restart"), cs).0;
            ReadyToApprove(t, cs[2].id) && t.config == s.config && t.actions == s.actions
  {
    hide Alone, FreshFrom, OnlyMoved;
    RequestAlone(s, 2, r, "restart", cs);
    var t := Alone(s, 2, RequestRun(r, "restart"), cs).0;
    MovedToWaiting(s, t, i, cs[4].now);
  }

  lemma MovedToWaiting(s: Shared, t: Shared, i: string, now: int)
    requires OnlyMoved(s, t, i, WaitingApproval, MachineTransition, now) && s.incidents.items[i].id == i
    ensures i in t.incidents.items && t.incidents.items[i].id == i && t.incidents.items[i].status == WaitingApproval
  {
    hide IR.Log, Kinds;
  }

  /** With an executor wired, some run acts. */
  lemma SomeRunActs(config: Config) returns (run: seq<World>)
    requires config.executor
    ensures IsRun(run) && run[0] == Empty(config) && |Last(run).shared.actions| == 1
  {
    hide Follows, FreshFrom, Alone, DrawnBelow, Chosen, AfterReport, AfterDiagnosis, IsEntry, KnownMove, Answerable;
    var labels;
    run, labels := [Empty(config)], [];
    ReportLeaves(config);
    run, labels := WholeCall(run, labels, 0, Report(), 0, 2);
    var reported := Last(run).shared;
    DiagnosisLeaves(reported, config);
    FreeCall(reported, 1, DiagnoseRead(Name(1)), config, 2, 7);
    run, labels := WholeCall(run, labels, 1, DiagnoseRead(Name(1)), 2, 7);
    var diagnosed := Last(run).shared;
    RequestLeaves(diagnosed, config);
    FreeCall(diagnosed, 2, RequestRun(Name(6), "restart"), config, 9, 5);
    run, labels := WholeCall(run, labels, 2, RequestRun(Name(6), "restart"), 9, 5);
    ChoicesAreFresh(Last(run).shared, 14, 13);
    run, labels := ActionIsReachable(run, labels, 3, Name(11), "oncall", ChosenFrom(14, 13));
    LabelledIsRun(run, labels);
  }

  lemma FreeCall(s: Shared, me: nat, p: Phase, config: Config, n: nat, count: nat)
    requires AfterReport(s, config) || AfterDiagnosis(s, config)
    requires Free(p) && (p.DiagnoseRead? || p.RequestRun?)
    ensures IsEntry(p) && KnownMove(s, p) && Answerable(s, me, p, ChosenFrom(n, count))
  {
    hide Answerable;
    FreeIsAnswerable(s, me, p, ChosenFrom(n, count));
  }
}
