/** What each of the other service calls leaves behind when nothing else runs meanwhile and no
    store fails: the exact records, on every path. */
module ClosedLoopCalls {
  import opened Basics
  import opened Incidents
  import opened ClosedLoop
  import opened ClosedLoopSteps
  import opened ClosedLoopAlone
  import IR = IncidentRepository
  import AR = ApprovalRepository
  import RR = RunRepository

  ghost predicate AllAnswered(cs: seq<Choice>) {
    forall k | 0 <= k < |cs| :: cs[k].fault.Answered?
  }

  /** The incident exists and the table lets it move to `to`. */
  predicate MayMove(s: Shared, i: string, to: Status) {
    i in s.incidents.items && s.incidents.items[i].id == i && CanTransition(s.incidents.items[i].status, to)
  }

  /** Exactly one record changed: incident `i` moved to `to`, one version on, with exactly one
      event more, which says so. */
  ghost predicate OnlyMoved(s: Shared, t: Shared, i: string, to: Status, reason: Reason, now: int) {
    && i in s.incidents.items && i in t.incidents.items
    && var was := s.incidents.items[i];
       && t.incidents.items == s.incidents.items[i :=
            was.(status := to, updatedAt := now, version := was.version + 1,
                 resolvedAt := if to == Resolved then Some(now) else was.resolvedAt)]
       && (forall j | j != i :: IR.Log(t.incidents.events, j) == IR.Log(s.incidents.events, j))
       && |IR.Log(t.incidents.events, i)| == |IR.Log(s.incidents.events, i)| + 1
       && Kinds(IR.Log(t.incidents.events, i)) == Kinds(IR.Log(s.incidents.events, i)) + [Moved(was.status, to, reason)]
  }

  lemma PlainMoveAlone(s: Shared, me: nat, i: string, to: Status, reason: Reason, andThen: After, cs: seq<Choice>,
                       n: nat)
    requires n + 1 < |cs| && AllAnswered(cs) && FreshFrom(s, cs, n + 1) && MayMove(s, i, to) && !andThen.Mitigate?
    ensures var m := Move(i, to, reason, None, andThen);
            var t := Moved1(s, m, cs[n + 1]);
            && Alone(s, me, ReadForMove(m), cs[n..]) ==
              Alone(t, me, Continue(s.config, andThen, true, cs[n + 1].text), cs[n + 2..])
            && OnlyMoved(s, t, i, to, reason, cs[n + 1].now)
            && t == s.(incidents := t.incidents)
  {
    hide Alone, Continue, FreshFrom;
    var m := Move(i, to, reason, None, andThen);
    MoveAlone(s, me, m, cs, n);
    KindsAppend(IR.Log(s.incidents.events, i), StatusEvent(m, s.incidents.items[i], cs[n + 1]));
  }

  lemma DeniedMoveAlone(s: Shared, me: nat, m: Move, cs: seq<Choice>, n: nat)
    requires n < |cs|
    requires m.incident !in s.incidents.items || !CanTransition(s.incidents.items[m.incident].status, m.to)
    ensures Alone(s, me, ReadForMove(m), cs[n..]) ==
        Alone(s, me, Continue(s.config, m.andThen, false, cs[n].text), cs[n + 1..])
  {
  }

  lemma AloneDone(s: Shared, me: nat, ok: bool, cs: seq<Choice>)
    ensures Alone(s, me, Done(ok), cs) == (s, Done(ok))
  {
  }

  // ---- approve, when it may not go on ----

  /** Approving an approval that does not exist or is decided is an error and changes nothing,
      whatever the store does. */
  lemma ApproveDecidedAlone(s: Shared, me: nat, id: string, signer: string, cs: seq<Choice>)
    requires cs != [] && (id !in s.approvals || s.approvals[id].status != AR.Pending)
    ensures Alone(s, me, Claim(id, signer), cs) == (s, Done(false))
    ensures Alone(s, me, Decline(id, signer), cs) == (s, Done(false))
  {
    hide Alone;
    assert cs[0..] == cs;
    OneStep(s, me, Claim(id, signer), cs, 0);
    OneStep(s, me, Decline(id, signer), cs, 0);
    AloneDone(s, me, false, cs[1..]);
  }

  /** Approving a PENDING approval whose incident does not wait for it is an error: the approval
      ends EXPIRED, signed and with the cause, and the incident stays as it was. */
  lemma ApproveDeniedAlone(s: Shared, me: nat, id: string, signer: string, cs: seq<Choice>)
    requires |cs| == 3 && AllAnswered(cs)
    requires id in s.approvals && s.approvals[id].id == id && s.approvals[id].status == AR.Pending
    requires var i := s.approvals[id].incident;
             i in s.incidents.items ==> s.incidents.items[i].status != WaitingApproval
    ensures Alone(s, me, Claim(id, signer), cs) ==
            (s.(approvals := s.approvals[id := s.approvals[id].(status := AR.Expired, approvedBy := signer,
                                                approvedAt := Some(cs[0].now), error := AR.Because(cs[2].text),
                                                updatedAt := cs[2].now)],
                claimer := s.claimer[id := me]),
             Done(false))
  {
    hide Alone, CanTransition;
    assert cs[0..] == cs;
    var a := AR.Changed(s.approvals[id], AR.Approved, cs[0].now, AR.Sign(signer, cs[0].now));
    var s1 := s.(approvals := s.approvals[id := a], claimer := s.claimer[id := me]);
    OneStep(s, me, Claim(id, signer), cs, 0);
    OnlyWaitingMitigates(s, a.incident);
    DeniedMoveAlone(s1, me, Move(a.incident, Mitigating, MachineTransition, None, Mitigate(a)), cs, 1);
    OneStep(s1, me, Expire(a, AR.Approved), cs, 2);
    var b := AR.Changed(a, AR.Expired, cs[2].now, AR.Note(AR.Because(cs[2].text)));
    assert s1.approvals[id := b] == s.approvals[id := b];
    AloneDone(s.(approvals := s.approvals[id := b], claimer := s1.claimer), me, false, cs[3..]);
  }

  lemma OnlyWaitingMitigates(s: Shared, i: string)
    ensures i in s.incidents.items ==>
              var st := s.incidents.items[i].status;
              CanTransition(st, Mitigating) <==> st == WaitingApproval
  {
  }

  // ---- reject ----

  /** Reject signs the approval REJECTED; the incident fails with it when the table allows,
      and otherwise the call reports an error and leaves the approval REJECTED all the same. */
  lemma RejectAlone(s: Shared, me: nat, id: string, signer: string, cs: seq<Choice>)
    requires |cs| == 3 && AllAnswered(cs) && FreshFrom(s, cs, 0)
    requires id in s.approvals && s.approvals[id].status == AR.Pending
    requires var i := s.approvals[id].incident; i in s.incidents.items ==> s.incidents.items[i].id == i
    ensures var (t, q) := Alone(s, me, Decline(id, signer), cs);
            var i := s.approvals[id].incident;
            && t.approvals == s.approvals[id := s.approvals[id].(status := AR.Rejected, approvedBy := signer,
                                                 approvedAt := Some(cs[0].now), updatedAt := cs[0].now)]
            && q == Done(MayMove(s, i, Incidents.Failed))
            && (if MayMove(s, i, Incidents.Failed)
                then OnlyMoved(s, t, i, Incidents.Failed, MachineTransition, cs[2].now)
                else t.incidents == s.incidents)
            && t == s.(approvals := t.approvals, incidents := t.incidents)
  {
    hide Alone, FreshFrom, CanTransition, OnlyMoved;
    var r := AR.TransitionStatus(s.approvals, id, AR.Pending, AR.Rejected, cs[0].now, AR.Sign(signer, cs[0].now));
    var s1 := s.(approvals := r.value);
    var i := s.approvals[id].incident;
    assert cs[0..] == cs;
    OneStep(s, me, Decline(id, signer), cs, 0);
    var m := Move(i, Incidents.Failed, MachineTransition, None, Return);
    if MayMove(s, i, Incidents.Failed) {
      FreshLater(s, s1, cs, 0, 2);
      PlainMoveAlone(s1, me, i, Incidents.Failed, MachineTransition, Return, cs, 1);
      SameMove(s, s1, Moved1(s1, m, cs[2]), Moved1(s1, m, cs[2]), i, Incidents.Failed, MachineTransition, cs[2].now);
      AloneDone(Moved1(s1, m, cs[2]), me, true, cs[3..]);
    } else {
      DeniedMoveAlone(s1, me, m, cs, 1);
      AloneDone(s1, me, false, cs[2..]);
    }
  }

  lemma SameMove(s: Shared, s1: Shared, t1: Shared, t: Shared, i: string, to: Status, reason: Reason, now: int)
    requires OnlyMoved(s1, t1, i, to, reason, now) && s.incidents == s1.incidents && t.incidents == t1.incidents
    ensures OnlyMoved(s, t, i, to, reason, now)
  {
  }

  // ---- fail ----

  /** Fail, the terminal callback of a dead letter, moves an incident exactly when the table
      allows it, which is from every status it can have but the closed ones; so also while its
      action runs. */
  lemma FailAlone(s: Shared, me: nat, i: string, reason: string, cs: seq<Choice>)
    requires |cs| == 2 && AllAnswered(cs) && FreshFrom(s, cs, 0)
    requires i in s.incidents.items ==> s.incidents.items[i].id == i
    ensures var (t, q) := Alone(s, me, Fail(i, reason), cs);
            && q == Done(MayMove(s, i, Incidents.Failed))
            && (if MayMove(s, i, Incidents.Failed)
                then OnlyMoved(s, t, i, Incidents.Failed, Given(reason), cs[1].now) && t == s.(incidents := t.incidents)
                else t == s)
    ensures i in s.incidents.items ==>
              var st := s.incidents.items[i].status;
              MayMove(s, i, Incidents.Failed) <==>
              st == Open || st == Investigating || st == WaitingApproval || st == Mitigating || st == Verifying
  {
    FailableStatuses(s, i);
    hide Alone, FreshFrom, CanTransition, OnlyMoved;
    assert cs[0..] == cs;
    var m := Move(i, Incidents.Failed, Given(reason), None, Return);
    if MayMove(s, i, Incidents.Failed) {
      FreshLater(s, s, cs, 0, 1);
      PlainMoveAlone(s, me, i, Incidents.Failed, Given(reason), Return, cs, 0);
      AloneDone(Moved1(s, m, cs[1]), me, true, cs[2..]);
    } else {
      DeniedMoveAlone(s, me, m, cs, 0);
      AloneDone(s, me, false, cs[1..]);
    }
  }

  lemma FailableStatuses(s: Shared, i: string)
    requires i in s.incidents.items ==> s.incidents.items[i].id == i
    ensures i in s.incidents.items ==>
              var st := s.incidents.items[i].status;
              MayMove(s, i, Incidents.Failed) <==>
              st == Open || st == Investigating || st == WaitingApproval || st == Mitigating || st == Verifying
  {
  }

  // ---- request ----

  /** Request binds a new PENDING approval to the run's incident and moves the incident to
      WAITING_APPROVAL; when the incident cannot move, the approval ends EXPIRED and the call
      reports an error. */
  lemma RequestAlone(s: Shared, me: nat, run: string, request: string, cs: seq<Choice>)
    requires |cs| == 5 && AllAnswered(cs) && FreshFrom(s, cs, 0)
    requires run != "" && run in s.runs && s.runs[run].incident in s.incidents.items
    requires var i := s.runs[run].incident; s.incidents.items[i].id == i
    requires cs[2].id !in s.approvals
    ensures var (t, q) := Alone(s, me, RequestRun(run, request), cs);
            var i, id := s.runs[run].incident, cs[2].id;
            && id in t.approvals && t.approvals == s.approvals[id := t.approvals[id]]
            && IsRequest(t.approvals[id], id, run, i, request)
            && q == Done(MayMove(s, i, WaitingApproval))
            && (if MayMove(s, i, WaitingApproval)
                then t.approvals[id].status == AR.Pending
                     && OnlyMoved(s, t, i, WaitingApproval, MachineTransition, cs[4].now)
                else t.approvals[id].status == AR.Expired && t.incidents == s.incidents)
            && t == s.(approvals := t.approvals, incidents := t.incidents)
  {
    hide Alone, FreshFrom, CanTransition, OnlyMoved, Step, Moved1;
    var i := s.runs[run].incident;
    var a := NewApproval(run, i, request, cs[2]);
    var s1 := s.(approvals := s.approvals[a.id := a]);
    var m := Move(i, WaitingApproval, MachineTransition, None, Requested(a));
    RequestBegins(s, me, run, request, cs);
    if MayMove(s, i, WaitingApproval) {
      FreshLater(s, s1, cs, 0, 4);
      PlainMoveAlone(s1, me, i, WaitingApproval, MachineTransition, Requested(a), cs, 3);
      SameMove(s, s1, Moved1(s1, m, cs[4]), Moved1(s1, m, cs[4]), i, WaitingApproval, MachineTransition, cs[4].now);
      AloneDone(Moved1(s1, m, cs[4]), me, true, cs[5..]);
    } else {
      DeniedMoveAlone(s1, me, m, cs, 3);
      OneStep(s1, me, Expire(a, AR.Pending), cs, 4);
      ExpireStep(s1, me, a, cs[4]);
      var b := AR.Changed(a, AR.Expired, cs[4].now, AR.Note(AR.Because(cs[4].text)));
      AloneDone(s1.(approvals := s1.approvals[a.id := b]), me, false, cs[5..]);
    }
  }

  /** An unsigned approval of the request for the run and its incident. */
  predicate IsRequest(a: AR.Approval, id: string, run: string, i: string, request: string) {
    && a.id == id && a.incident == i && a.run == run && a.request == request
    && a.approvedBy == "" && a.approvedAt == None
  }

  lemma RequestBegins(s: Shared, me: nat, run: string, request: string, cs: seq<Choice>)
    requires |cs| == 5 && AllAnswered(cs)
    requires run != "" && run in s.runs && s.runs[run].incident in s.incidents.items && cs[2].id !in s.approvals
    ensures var i := s.runs[run].incident;
            var a := NewApproval(run, i, request, cs[2]);
            Alone(s, me, RequestRun(run, request), cs) ==
            Alone(s.(approvals := s.approvals[a.id := a]), me,
                  ReadForMove(Move(i, WaitingApproval, MachineTransition, None, Requested(a))), cs[3..])
  {
    hide Alone;
    var i := s.runs[run].incident;
    assert cs[0..] == cs;
    OneStep(s, me, RequestRun(run, request), cs, 0);
    OneStep(s, me, RequestIncident(run, i, request), cs, 1);
    OneStep(s, me, RequestWrite(run, i, request), cs, 2);
  }

  lemma ExpireStep(s: Shared, me: nat, a: AR.Approval, c: Choice)
    requires c.fault.Answered? && a.id in s.approvals && s.approvals[a.id] == a && a.status == AR.Pending
    ensures var b := AR.Changed(a, AR.Expired, c.now, AR.Note(AR.Because(c.text)));
            Step(s, me, Expire(a, AR.Pending), c) == (s.(approvals := s.approvals[a.id := b]), Done(false))
  {
  }

  // ---- recovery ----

  /** A recovery closes an incident that mitigation has not reached, after expiring every
      approval that was waiting on it and no other; once mitigation has begun it is refused and
      changes nothing; with only closed records it succeeds and changes nothing, with none at
      all it fails. */
  lemma RecoverAlone(s: Shared, me: nat, fingerprint: string, cs: seq<Choice>)
    requires |cs| == 3 && AllAnswered(cs) && FreshFrom(s, cs, 0)
    requires IR.IsActiveLookup(s.incidents, fingerprint, cs[0].found)
    requires IR.IsLatestLookup(s.incidents, fingerprint, cs[1].found)
    requires forall j | j in s.incidents.items :: s.incidents.items[j].id == j && j != ""
    ensures var (t, q) := Alone(s, me, RecoverFind(fingerprint), cs);
            match cs[0].found
            case None =>
              t == s && q == Done(exists j :: j in s.incidents.items && s.incidents.items[j].fingerprint == fingerprint)
            case Some(inc) =>
              if inc.status == Mitigating || inc.status == Verifying then t == s && q == Done(false)
              else
                && q == Done(true)
                && OnlyMoved(s, t, inc.id, Resolved, AlertResolvedOutside, cs[2].now)
                && t.approvals.Keys == s.approvals.Keys
                && (forall id | id in s.approvals ::
                      var a := s.approvals[id];
                      if a.incident == inc.id && a.status == AR.Pending
                      then t.approvals[id] ==
                        a.(status := AR.Expired, error := AR.RecoveredOutside, updatedAt := cs[1].now)
                      else t.approvals[id] == a)
                && t == s.(approvals := t.approvals, incidents := t.incidents)
  {
    hide Alone, FreshFrom, CanTransition, OnlyMoved, AR.ExpirePending, IR.Log;
    assert cs[0..] == cs;
    OneStep(s, me, RecoverFind(fingerprint), cs, 0);
    match cs[0].found {
      case None =>
        OneStep(s, me, RecoverLatest(fingerprint), cs, 1);
        AloneDone(s, me, cs[1].found.Some?, cs[2..]);
      case Some(inc) =>
        if inc.status == Mitigating || inc.status == Verifying {
          AloneDone(s, me, false, cs[1..]);
        } else {
          RecoverCloses(s, me, inc, cs);
          SweepMeans(s.approvals, inc.id, cs[1].now);
        }
    }
  }

  lemma SweepMeans(rows: AR.Rows, incident: string, now: int)
    requires incident != ""
    ensures var swept := AR.ExpirePending(rows, incident, now);
            && swept.Keys == rows.Keys
            && forall id | id in rows ::
                 swept[id] == if rows[id].incident == incident && rows[id].status == AR.Pending
                              then rows[id].(status := AR.Expired, error := AR.RecoveredOutside, updatedAt := now)
                              else rows[id]
  {
  }

  lemma RecoverCloses(s: Shared, me: nat, inc: Incident, cs: seq<Choice>)
    requires |cs| == 3 && AllAnswered(cs) && FreshFrom(s, cs, 0)
    requires inc.id in s.incidents.items && s.incidents.items[inc.id] == inc && inc.id != ""
    ensures var (t, q) := Alone(s, me, RecoverSweep(inc), cs[1..]);
            && q == Done(true) && OnlyMoved(s, t, inc.id, Resolved, AlertResolvedOutside, cs[2].now)
            && t == s.(approvals := AR.ExpirePending(s.approvals, inc.id, cs[1].now), incidents := t.incidents)
  {
    hide Alone, AR.ExpirePending, Step, OnlyMoved;
    var s1 := s.(approvals := AR.ExpirePending(s.approvals, inc.id, cs[1].now));
    var c := cs[2];
    var moved := Event(c.statusEvent, inc.id, Moved(inc.status, Resolved, AlertResolvedOutside));
    OneStep(s, me, RecoverSweep(inc), cs, 1);
    OneStep(s1, me, RecoverWrite(inc), cs, 2);
    SweepStep(s, me, inc, cs[1]);
    RecoverCommits(s1, me, inc, cs[2]) by { FreshOne(s, s1, cs, 2); }
    var next := MovedTo(inc, Resolved, c.now).(version := inc.version + 1);
    var t := s1.(incidents := Committed(s1.incidents, next, moved, None));
    SameMove(s, s1, t, t, inc.id, Resolved, AlertResolvedOutside, c.now);
    AloneDone(t, me, true, cs[3..]);
  }

  lemma FreshOne(s: Shared, t: Shared, cs: seq<Choice>, n: nat)
    requires FreshFrom(s, cs, 0) && n < |cs| && t.incidents == s.incidents
    ensures !IR.EventIdTaken(t.incidents.events, cs[n].statusEvent)
  {
  }

  lemma SweepStep(s: Shared, me: nat, inc: Incident, c: Choice)
    requires c.fault.Answered? && inc.id != ""
    ensures Step(s, me, RecoverSweep(inc), c) ==
            (s.(approvals := AR.ExpirePending(s.approvals, inc.id, c.now)), RecoverWrite(inc))
  {
  }

  lemma RecoverCommits(s: Shared, me: nat, inc: Incident, c: Choice)
    requires c.fault.Answered? && inc.id in s.incidents.items && s.incidents.items[inc.id] == inc
    requires !IR.EventIdTaken(s.incidents.events, c.statusEvent)
    ensures var moved := Event(c.statusEvent, inc.id, Moved(inc.status, Resolved, AlertResolvedOutside));
            var next := MovedTo(inc, Resolved, c.now).(version := inc.version + 1);
            var t := s.(incidents := Committed(s.incidents, next, moved, None));
            && Step(s, me, RecoverWrite(inc), c) == (t, Done(true))
            && OnlyMoved(s, t, inc.id, Resolved, AlertResolvedOutside, c.now)
  {
    var moved := Event(c.statusEvent, inc.id, Moved(inc.status, Resolved, AlertResolvedOutside));
    assert [Some(moved)] == Batch(moved, None);
    UpdateIsCommit(s.incidents, MovedTo(inc, Resolved, c.now), moved, None);
    KindsAppend(IR.Log(s.incidents.events, inc.id), moved);
  }

  // ---- create ----

  /** Create adds one OPEN record of version 0 whose log is its creation, unless the
      fingerprint has an active incident; then it succeeds and adds nothing. */
  lemma CreateAlone(s: Shared, me: nat, fingerprint: string, details: string, cs: seq<Choice>)
    requires |cs| == 2 && AllAnswered(cs) && FreshFrom(s, cs, 0) && fingerprint != ""
    requires IR.IsActiveLookup(s.incidents, fingerprint, cs[0].found)
    requires cs[1].id !in s.incidents.items && cs[1].id !in s.incidents.events
    ensures var (t, q) := Alone(s, me, CreateFind(fingerprint, details), cs);
            && q == Done(true)
            && if cs[0].found.Some? then t == s
               else
                 var id := cs[1].id;
                 && t.incidents.items == s.incidents.items[id :=
                      Incident(id, fingerprint, details, Open, cs[1].now, cs[1].now, None, 0)]
                 && Replay(IR.Log(t.incidents.events, id)) == At(Open, 0)
                 && (forall j | j != id :: IR.Log(t.incidents.events, j) == IR.Log(s.incidents.events, j))
                 && t == s.(incidents := t.incidents)
  {
    hide Alone, FreshFrom, Replay, IR.Log;
    assert cs[0..] == cs;
    OneStep(s, me, CreateFind(fingerprint, details), cs, 0);
    FreshOne(s, s, cs, 1);
    if cs[0].found.Some? {
      AloneDone(s, me, true, cs[1..]);
    } else {
      OneStep(s, me, CreateWrite(fingerprint, details), cs, 1);
      CreateCommits(s, me, fingerprint, details, cs[1]);
      AloneDone(Step(s, me, CreateWrite(fingerprint, details), cs[1]).0, me, true, cs[2..]);
    }
  }

  lemma CreateCommits(s: Shared, me: nat, fingerprint: string, details: string, c: Choice)
    requires c.fault.Answered? && IR.IsActiveLookup(s.incidents, fingerprint, None)
    requires c.id !in s.incidents.items && c.id !in s.incidents.events
    requires !IR.EventIdTaken(s.incidents.events, c.statusEvent)
    ensures var (t, q) := Step(s, me, CreateWrite(fingerprint, details), c);
            && q == Done(true)
            && t.incidents.items
               == s.incidents.items[c.id := Incident(c.id, fingerprint, details, Open, c.now, c.now, None, 0)]
            && Replay(IR.Log(t.incidents.events, c.id)) == At(Open, 0)
            && (forall j | j != c.id :: IR.Log(t.incidents.events, j) == IR.Log(s.incidents.events, j))
            && t == s.(incidents := t.incidents)
  {
    hide IR.CreateWithEvent, IR.IsActiveLookup, Replay;
    var created := Event(c.statusEvent, c.id, Created);
    CreateIsInsert(s, NewIncident(fingerprint, details, c), created);
    CreatedReplays(created);
  }

  lemma CreatedReplays(e: Event)
    requires e.kind == Created
    ensures Replay([e]) == At(Open, 0)
  {
  }

  lemma CreateIsInsert(s: Shared, inc: Incident, e: Event)
    requires IR.IsActiveLookup(s.incidents, inc.fingerprint, None)
    requires inc.id !in s.incidents.items && inc.id !in s.incidents.events && e.incident == inc.id
    requires !IR.EventIdTaken(s.incidents.events, e.id)
    ensures IR.CreateWithEvent(s.incidents, inc, Some(e)) ==
            Ok(IR.Store(s.incidents.items[inc.id := inc], s.incidents.events[inc.id := [e]]))
  {
    NotBlocked(s, inc.fingerprint, inc);
    assert !IR.BatchConflicts(s.incidents.events, [Some(e)]);
    assert [] + [e] == [e];
  }

  lemma NotBlocked(s: Shared, fingerprint: string, inc: Incident)
    requires IR.IsActiveLookup(s.incidents, fingerprint, None)
    requires inc.fingerprint == fingerprint && inc.id !in s.incidents.items
    ensures !IR.CreateBlocked(s.incidents, inc)
  {
  }

  // ---- diagnosis ----

  /** A diagnosis that finds a closed incident or an active run acknowledges and changes
      nothing; otherwise it starts a run, after moving an OPEN incident to INVESTIGATING, and
      leaves it COMPLETED or, when the diagnosis fails, FAILED. */
  lemma DiagnoseAlone(s: Shared, me: nat, i: string, cs: seq<Choice>)
    requires |cs| == 7 && AllAnswered(cs) && FreshFrom(s, cs, 0)
    requires i in s.incidents.items && s.incidents.items[i].id == i
    requires cs[2].id !in s.runs && cs[4].id !in s.runs
    ensures var (t, q) := Alone(s, me, DiagnoseRead(i), cs);
            var was := s.incidents.items[i];
            var n := if was.status == Open then 4 else 2;
            if was.status.IsTerminal()
               || (exists r :: r in s.runs && s.runs[r].incident == i
                               && (s.runs[r].status == RR.Running || s.runs[r].status == RR.Completed))
            then t == s && q == Done(true)
            else
              && q == Done(cs[n + 1].diagnosed)
              && t.runs == s.runs[cs[n].id :=
                   RR.Run(cs[n].id, i, if cs[n + 1].diagnosed then RR.Completed else RR.Failed)]
              && (if was.status == Open then OnlyMoved(s, t, i, Investigating, MachineTransition, cs[3].now)
                  else t.incidents == s.incidents)
              && t == s.(runs := t.runs, incidents := t.incidents)
  {
    hide Alone, FreshFrom, OnlyMoved, Step, RR.HasActiveRun, Moved1;
    assert cs[0..] == cs;
    var was := s.incidents.items[i];
    ActiveMeans(s.runs, i);
    OneStep(s, me, DiagnoseRead(i), cs, 0);
    DiagnoseSteps(s, me, i, cs[0], cs[1]);
    if was.status.IsTerminal() {
      AloneDone(s, me, true, cs[1..]);
    } else {
      OneStep(s, me, DiagnoseList(was), cs, 1);
      if RR.HasActiveRun(s.runs, i) {
        AloneDone(s, me, true, cs[2..]);
      } else if was.status == Open {
        OpenDiagnosedAlone(s, me, i, cs);
      } else {
        RunAlone(s, me, i, cs, 2);
      }
    }
  }

  lemma OpenDiagnosedAlone(s: Shared, me: nat, i: string, cs: seq<Choice>)
    requires |cs| == 7 && AllAnswered(cs) && FreshFrom(s, cs, 0)
    requires i in s.incidents.items && s.incidents.items[i].id == i && s.incidents.items[i].status == Open
    requires !RR.HasActiveRun(s.runs, i) && cs[4].id !in s.runs
    ensures var m := Move(i, Investigating, MachineTransition, None, ThenDiagnose(i));
            var (t, q) := Alone(s, me, ReadForMove(m), cs[2..]);
            && q == Done(cs[5].diagnosed)
            && t.runs == s.runs[cs[4].id := RR.Run(cs[4].id, i, if cs[5].diagnosed then RR.Completed else RR.Failed)]
            && OnlyMoved(s, t, i, Investigating, MachineTransition, cs[3].now)
            && t == s.(runs := t.runs, incidents := t.incidents)
  {
    hide Alone, FreshFrom, OnlyMoved, Step, RR.HasActiveRun, Moved1;
    PlainMoveAlone(s, me, i, Investigating, MachineTransition, ThenDiagnose(i), cs, 2)
      by { FreshLater(s, s, cs, 0, 3); }
    var m := Move(i, Investigating, MachineTransition, None, ThenDiagnose(i));
    var t := Moved1(s, m, cs[3]);
    RunAlone(t, me, i, cs, 4);
    SameMove(s, s, t, Alone(t, me, DiagnoseStart(i, true), cs[4..]).0, i, Investigating, MachineTransition,
             cs[3].now);
  }

  lemma ActiveMeans(runs: RR.Runs, i: string)
    ensures RR.HasActiveRun(runs, i) <==>
            exists r :: r in runs && runs[r].incident == i
                        && (runs[r].status == RR.Running || runs[r].status == RR.Completed)
  {
  }

  lemma DiagnoseSteps(s: Shared, me: nat, i: string, c: Choice, d: Choice)
    requires c.fault.Answered? && d.fault.Answered? && i in s.incidents.items && s.incidents.items[i].id == i
    ensures var was := s.incidents.items[i];
            && Step(s, me, DiagnoseRead(i), c) == (s, if was.status.IsTerminal() then Done(true) else DiagnoseList(was))
            && Step(s, me, DiagnoseList(was), d) ==
               (s, if RR.HasActiveRun(s.runs, i) then Done(true)
                   else if was.status == Open
                   then ReadForMove(Move(i, Investigating, MachineTransition, None, ThenDiagnose(i)))
                   else DiagnoseStart(i, true))
  {
  }

  lemma RunSteps(s: Shared, me: nat, i: string, c: Choice, d: Choice, e: Choice)
    requires c.fault.Answered? && d.fault.Answered? && e.fault.Answered?
    requires !RR.HasActiveRun(s.runs, i) && c.id !in s.runs
    ensures var run := RR.Run(c.id, i, RR.Running);
            var s1 := s.(runs := s.runs[run.id := run]);
            && Step(s, me, DiagnoseStart(i, true), c) == (s1, DiagnoseEnd(run))
            && Step(s1, me, DiagnoseEnd(run), d) ==
               (if d.diagnosed then (s.(runs := s.runs[run.id := run.(status := RR.Completed)]), Done(true))
                else (s1, DiagnoseFail(run)))
            && Step(s1, me, DiagnoseFail(run), e) ==
              (s.(runs := s.runs[run.id := run.(status := RR.Failed)]), Done(false))
  {
    var run := RR.Run(c.id, i, RR.Running);
    var runs := s.runs[run.id := run];
    assert runs[run.id := run.(status := RR.Completed)] == s.runs[run.id := run.(status := RR.Completed)];
    assert runs[run.id := run.(status := RR.Failed)] == s.runs[run.id := run.(status := RR.Failed)];
  }

  lemma RunAlone(s: Shared, me: nat, i: string, cs: seq<Choice>, n: nat)
    requires n + 2 < |cs| && AllAnswered(cs) && !RR.HasActiveRun(s.runs, i) && cs[n].id !in s.runs
    ensures var (t, q) := Alone(s, me, DiagnoseStart(i, true), cs[n..]);
            && q == Done(cs[n + 1].diagnosed)
            && t == s.(runs := s.runs[cs[n].id :=
                         RR.Run(cs[n].id, i, if cs[n + 1].diagnosed then RR.Completed else RR.Failed)])
  {
    hide Alone, Step, RR.HasActiveRun;
    var run := RR.Run(cs[n].id, i, RR.Running);
    var s1 := s.(runs := s.runs[run.id := run]);
    RunSteps(s, me, i, cs[n], cs[n + 1], cs[n + 2]);
    OneStep(s, me, DiagnoseStart(i, true), cs, n);
    OneStep(s1, me, DiagnoseEnd(run), cs, n + 1);
    if cs[n + 1].diagnosed {
      AloneDone(s.(runs := s.runs[run.id := run.(status := RR.Completed)]), me, true, cs[n + 2..]);
    } else {
      OneStep(s1, me, DiagnoseFail(run), cs, n + 2);
      AloneDone(s.(runs := s.runs[run.id := run.(status := RR.Failed)]), me, false, cs[n + 3..]);
    }
  }
}
