/** What a call that answered success has done: Approve and outside recovery, however other
    calls interleave with them. */
module ClosedLoopOutcomes {
  import opened Basics
  import opened Incidents
  import opened ClosedLoop
  import opened ClosedLoopInvariant
  import opened ClosedLoopSteps
  import opened ClosedLoopTheorems
  import opened ClosedLoopRuns
  import opened ClosedLoopDeliveries
  import opened ClosedLoopAnswers
  import IR = IncidentRepository
  import AR = ApprovalRepository

  // ---- approve ----

  /** What a successful Approve leaves in its approval. */
  predicate Settled(s: Shared, id: string)
    requires id in s.approvals
  {
    var st := s.approvals[id].status;
    st == AR.Executed || st == AR.Failed || st == AR.Unknown || (st == AR.Approved && !s.config.executor)
  }

  /** Where a call that set out to approve can stand. */
  ghost predicate OnApprove(s: Shared, me: nat, id: string, signer: string, p: Phase) {
    || p == Claim(id, signer) || p == Done(false)
    || (&& id in s.claimer && s.claimer[id] == me && id in s.approvals
        && (Held(p) == Some(id) || (p == Done(true) && Settled(s, id))))
  }

  lemma ClaimHolds(s: Shared, me: nat, id: string, signer: string, c: Choice)
    requires id in s.approvals ==> s.approvals[id].id == id
    ensures var (t, q) := Step(s, me, Claim(id, signer), c); OnApprove(t, me, id, signer, q)
  {
  }

  /** A call keeps hold of its approval until it ends, and ends in success only once the
      approval is settled. */
  lemma HolderSettles(s: Shared, me: nat, p: Phase, c: Choice, id: string)
    requires !p.Done? && Held(p) == Some(id) && PhaseOk(s, me, p)
    ensures var (t, q) := Step(s, me, p, c);
            Held(q) == Some(id) || q == Done(false) || (q == Done(true) && id in t.approvals && Settled(t, id))
  {
    hide StepReadForMove, StepWriteMove, StepExpire, StepMarkExecuting, StepExecute, StepVerify, StepPersist, MoveOk;
    hide Working, NotActed, Completed, ClosedFor, SnapOk;
    match p
    case ReadForMove(m) => MoveHolds(s, me, m, Incident("", "", "", Open, 0, 0, None, 0), c);
    case WriteMove(m, snap) => MoveHolds(s, me, m, snap, c);
    case Expire(a, source) => RowHolds(s, me, p, c);
    case MarkExecuting(a) => RowHolds(s, me, p, c);
    case Persist(a, e) => PersistSettles(s, a, e, c);
    case ExecuteVerify(a, i, operation) => VerifyHolds(s, a, i, operation, c);
    case _ => ExecuteHolds(s, p, c);
  }

  lemma MoveHolds(s: Shared, me: nat, m: Move, snap: Incident, c: Choice)
    requires HeldByMove(m).Some? && MoveOk(s, me, m)
    ensures var q := StepReadForMove(s, m, c); Held(q) == HeldByMove(m)
    ensures var (t, q) := StepWriteMove(s, m, snap, c);
            || Held(q) == HeldByMove(m)
            || (q == Done(true) && HeldByMove(m).value in t.approvals && Settled(t, HeldByMove(m).value))
  {
    hide IR.UpdateWithEvents, CanTransition, Working, Completed;
  }

  lemma RowHolds(s: Shared, me: nat, p: Phase, c: Choice)
    requires p.Expire? || (p.MarkExecuting? && Owns(s, me, p.a, AR.Approved))
    ensures var q := Step(s, me, p, c).1; q == Done(false) || (p.MarkExecuting? && Held(q) == Held(p))
  {
  }

  lemma PersistSettles(s: Shared, a: AR.Approval, e: Execution, c: Choice)
    ensures var (t, q) := StepPersist(s, a, e, c);
            q == Done(false) || (q == Done(true) && a.id in t.approvals && Settled(t, a.id))
  {
  }

  lemma VerifyHolds(s: Shared, a: AR.Approval, i: string, operation: string, c: Choice)
    ensures Held(StepVerify(s, a, i, operation, c).1) == Some(a.id)
  {
    hide SequencePasses;
  }

  lemma ExecuteHolds(s: Shared, p: Phase, c: Choice)
    requires p.ExecuteRun? || p.ExecuteRead? || p.ExecuteAct?
    ensures Held(StepExecute(s, p, c).1) == Some(p.a.id)
  {
  }

  lemma OwnStepOnApprove(s: Shared, t: Shared, me: nat, id: string, signer: string, p: Phase, q: Phase, c: Choice)
    requires !p.Done? && OnApprove(s, me, id, signer, p) && (t, q) == Step(s, me, p, c)
    requires PhaseOk(s, me, p) && Evolves(s, t, me) && (id in s.approvals ==> s.approvals[id].id == id)
    ensures OnApprove(t, me, id, signer, q)
  {
    hide Step, PhaseOk;
    if p == Claim(id, signer) {
      ClaimHolds(s, me, id, signer, c);
    } else {
      HolderSettles(s, me, p, c, id);
    }
  }

  lemma OtherStepOnApprove(s: Shared, t: Shared, me: nat, you: nat, id: string, signer: string, p: Phase)
    requires OnApprove(s, me, id, signer, p) && me != you && Evolves(s, t, you)
    ensures OnApprove(t, me, id, signer, p)
  {
  }

  lemma RowIsKeyed(w: World, id: string)
    requires Inv(w)
    ensures id in w.shared.approvals ==> w.shared.approvals[id].id == id
  {
    hide SharedInv, LocalInv;
    if id in w.shared.approvals {
      RowFacts(w.shared, id);
    }
  }

  lemma ApproveAdvances(w: World, w': World, me: nat, you: nat, id: string, signer: string, c: Choice)
    requires Inv(w) && Advances(w, w', you, c) && me in w.calls && OnApprove(w.shared, me, id, signer, w.calls[me])
    ensures me in w'.calls && OnApprove(w'.shared, me, id, signer, w'.calls[me])
  {
    hide Step, Enabled, Evolves, OnApprove, SharedInv, PhaseOk, ClaimsKept;
    AdvanceKeeps(w, w', you, c);
    if me == you {
      RowIsKeyed(w, id);
      assert LocalInv(w.shared, me, w.calls[me]);
      OwnStepOnApprove(w.shared, w'.shared, me, id, signer, w.calls[me], w'.calls[me], c);
    } else {
      OtherStepOnApprove(w.shared, w'.shared, me, you, id, signer, w.calls[me]);
    }
  }

  lemma {:induction false} ApproveStays(run: seq<World>, labels: seq<Label>, me: nat, id: string, signer: string,
                                        a: nat, k: nat)
    requires Labelled(run, labels) && a < k < |run| && labels[a] == Arrival(me, Claim(id, signer))
    ensures me in run[k].calls && OnApprove(run[k].shared, me, id, signer, run[k].calls[me])
    decreases k
  {
    hide Advances, IsEntry, Init, Inv;
    FollowsAt(run, labels, k - 1);
    if k == a + 1 {
      Arrived(run[a], run[k], me, Claim(id, signer));
    } else {
      ApproveStays(run, labels, me, id, signer, a, k - 1);
      match labels[k - 1] {
        case Arrival(_, _) =>
        case Turn(you, c) =>
          LabelledIsRun(run, labels);
          RunHolds(run, k - 1);
          ApproveAdvances(run[k - 1], run[k], me, you, id, signer, c);
      }
    }
  }

  /** An Approve that answered success is the one that claimed its approval, and the approval is
      EXECUTED, FAILED or UNKNOWN, or, without an executor, APPROVED. */
  lemma ApprovedByItsClaimer(run: seq<World>, labels: seq<Label>, me: nat, id: string, signer: string, a: nat, k: nat)
    requires Labelled(run, labels) && a < k < |run| && labels[a] == Arrival(me, Claim(id, signer))
    requires me in run[k].calls && run[k].calls[me] == Done(true)
    ensures var s := run[k].shared;
            && id in s.claimer && s.claimer[id] == me && id in s.approvals
            && var st := s.approvals[id].status;
               || st == AR.Executed || st == AR.Failed || st == AR.Unknown
               || (st == AR.Approved && !s.config.executor)
  {
    hide Labelled;
    ApproveStays(run, labels, me, id, signer, a, k);
  }

  /** However many calls approve one approval, at most one of them answers success. */
  lemma AtMostOneApproveSucceeds(run: seq<World>, labels: seq<Label>, k: nat, id: string,
                                 me: nat, a: nat, signer: string, you: nat, b: nat, other: string)
    requires Labelled(run, labels) && a < k < |run| && b < k
    requires labels[a] == Arrival(me, Claim(id, signer)) && labels[b] == Arrival(you, Claim(id, other))
    requires me in run[k].calls && run[k].calls[me] == Done(true)
    requires you in run[k].calls && run[k].calls[you] == Done(true)
    ensures me == you
  {
    hide Labelled;
    ApprovedByItsClaimer(run, labels, me, id, signer, a, k);
    ApprovedByItsClaimer(run, labels, you, id, other, b, k);
  }

  // ---- outside recovery ----

  /** No record of the fingerprint is open. */
  predicate NothingOpen(s: Shared, f: string) {
    forall i | i in s.incidents.items && s.incidents.items[i].fingerprint == f ::
      s.incidents.items[i].status.IsTerminal()
  }

  predicate RecordOf(s: Shared, i: string, f: string) {
    i in s.incidents.items && s.incidents.items[i].fingerprint == f
  }

  ghost predicate IsResolvedOutside(s: Shared, i: string, f: string) {
    RecordOf(s, i, f) && s.incidents.items[i].status == Resolved && ClosedOutside(IR.Log(s.incidents.events, i))
  }

  ghost predicate ResolvedOutside(s: Shared, f: string) {
    exists i :: IsResolvedOutside(s, i, f)
  }

  /** Between its arrival and `k` the call found nothing open. */
  ghost predicate SawNothingOpen(run: seq<World>, labels: seq<Label>, me: nat, f: string, a: nat, k: nat)
    requires |run| == |labels| + 1 && k <= |labels|
  {
    exists n :: a < n < k && Own(labels, me, n) && NothingOpen(run[n].shared, f)
  }

  /** Between its arrival and `k` the call first found nothing open, and then some record. */
  ghost predicate SawOnlyHistory(run: seq<World>, labels: seq<Label>, me: nat, f: string, a: nat, k: nat)
    requires |run| == |labels| + 1 && k <= |labels|
  {
    exists n, m, i :: a < n < m < k && Own(labels, me, n) && Own(labels, me, m)
                      && NothingOpen(run[n].shared, f) && RecordOf(run[m].shared, i, f)
  }

  ghost predicate OnRecovery(run: seq<World>, labels: seq<Label>, me: nat, f: string, a: nat, k: nat)
    requires |run| == |labels| + 1 && k <= |labels| && me in run[k].calls
  {
    var s := run[k].shared;
    match run[k].calls[me]
    case RecoverFind(g) => g == f
    case RecoverLatest(g) => g == f && SawNothingOpen(run, labels, me, f, a, k)
    case RecoverSweep(snap) => RecordOf(s, snap.id, f)
    case RecoverWrite(snap) => RecordOf(s, snap.id, f)
    case Done(ok) => ok ==> SawOnlyHistory(run, labels, me, f, a, k) || ResolvedOutside(s, f)
    case _ => false
  }

  lemma FindIsOnRecovery(s: Shared, me: nat, f: string, c: Choice)
    requires IncidentsOk(s) && Enabled(s, RecoverFind(f), c)
    ensures var q := Step(s, me, RecoverFind(f), c).1;
            || q == Done(false) || (q == RecoverLatest(f) && NothingOpen(s, f))
            || (q.RecoverSweep? && RecordOf(s, q.snap.id, f))
  {
    if c.found.Some? {
      RecordsKnown(s, c.found.value);
    }
  }

  lemma RecordsKnown(s: Shared, inc: Incident)
    requires IncidentsOk(s) && exists i :: i in s.incidents.items && s.incidents.items[i] == inc
    ensures inc.id in s.incidents.items && s.incidents.items[inc.id] == inc
  {
    var i :| i in s.incidents.items && s.incidents.items[i] == inc;
    assert IncidentOk(s, i);
  }

  lemma LatestIsHistory(s: Shared, me: nat, f: string, c: Choice)
    requires Enabled(s, RecoverLatest(f), c)
    ensures var q := Step(s, me, RecoverLatest(f), c).1;
            q == Done(false) || (q == Done(true) && exists i :: RecordOf(s, i, f))
  {
    if c.found.Some? {
      var i :| i in s.incidents.items && s.incidents.items[i] == c.found.value;
      assert RecordOf(s, i, f);
    }
  }

  lemma SweepGoesOn(s: Shared, me: nat, snap: Incident, c: Choice)
    ensures var (t, q) := Step(s, me, RecoverSweep(snap), c);
            t.incidents == s.incidents && (q == Done(false) || q == RecoverWrite(snap))
  {
  }

  /** A recovery that answers success after its write has closed its own incident. */
  lemma WriteResolves(w: World, w': World, me: nat, f: string, c: Choice)
    requires Inv(w) && Advances(w, w', me, c) && w.calls[me].RecoverWrite? && RecordOf(w.shared, w.calls[me].snap.id, f)
    ensures w'.calls[me] == Done(false) || (w'.calls[me] == Done(true) && ResolvedOutside(w'.shared, f))
  {
    hide SharedInv, ClaimsKept, ClosedOutside;
    var snap := w.calls[me].snap;
    if w'.calls[me] != Done(false) {
      RecoveryCommitClosesOutside(w, w', me, c);
      assert SnapOk(w.shared, snap) by { assert LocalInv(w.shared, me, w.calls[me]); }
      assert IsResolvedOutside(w'.shared, snap.id, f);
    }
  }

  lemma HistoryGrows(s: Shared, t: Shared, f: string)
    requires Grows(s, t)
    ensures forall i | RecordOf(s, i, f) :: RecordOf(t, i, f)
    ensures ResolvedOutside(s, f) ==> ResolvedOutside(t, f)
    ensures NothingOpen(s, f) ==> forall i | RecordOf(s, i, f) :: t.incidents.items[i] == s.incidents.items[i]
  {
    hide ClosedOutside;
    if ResolvedOutside(s, f) {
      var i :| IsResolvedOutside(s, i, f);
      ClosedOutsideGrows(s, t, i);
      assert IsResolvedOutside(t, i, f);
    }
  }

  lemma OwnStepOnRecovery(run: seq<World>, labels: seq<Label>, me: nat, f: string, a: nat, k: nat)
    requires Labelled(run, labels) && a + 1 < k < |run| && Own(labels, me, k - 1)
    requires me in run[k - 1].calls && OnRecovery(run, labels, me, f, a, k - 1)
    ensures me in run[k].calls && OnRecovery(run, labels, me, f, a, k)
  {
    hide Step, Enabled, Init, Inv, NothingOpen, RecordOf, ResolvedOutside, IncidentsOk;
    var w, c := run[k - 1], labels[k - 1].choice;
    FollowsAt(run, labels, k - 1);
    OwnMoves(w, run[k], me, c);
    LabelledIsRun(run, labels);
    RunHolds(run, k - 1);
    match w.calls[me]
    case RecoverFind(_) =>
      RecordsInOrder(w);
      FindIsOnRecovery(w.shared, me, f, c);
      SameRecords(w.shared, me, w.calls[me], c, f);
    case RecoverLatest(_) => LatestIsHistory(w.shared, me, f, c);
    case RecoverSweep(snap) =>
      SweepGoesOn(w.shared, me, snap, c);
      SameRecords(w.shared, me, w.calls[me], c, f);
    case RecoverWrite(_) => WriteResolves(w, run[k], me, f, c);
  }

  lemma RecordsInOrder(w: World)
    requires Inv(w)
    ensures IncidentsOk(w.shared)
  {
    hide IncidentsOk, LocalInv;
  }

  lemma SameRecords(s: Shared, me: nat, p: Phase, c: Choice, f: string)
    requires p.RecoverFind? || p.RecoverSweep?
    ensures forall i :: RecordOf(s, i, f) ==> RecordOf(Step(s, me, p, c).0, i, f)
  {
    hide AR.ExpirePending;
  }

  lemma OthersStepOnRecovery(run: seq<World>, labels: seq<Label>, me: nat, f: string, a: nat, k: nat)
    requires Labelled(run, labels) && a + 1 < k < |run| && !Own(labels, me, k - 1)
    requires me in run[k - 1].calls && OnRecovery(run, labels, me, f, a, k - 1)
    ensures me in run[k].calls && OnRecovery(run, labels, me, f, a, k)
  {
    hide Follows, Init, Grows, NothingOpen, RecordOf, ResolvedOutside;
    FollowsAt(run, labels, k - 1);
    OthersLeave(run[k - 1], run[k], labels[k - 1], me);
    LabelledIsRun(run, labels);
    RunGrows(run, k - 1, k);
    HistoryGrows(run[k - 1].shared, run[k].shared, f);
  }

  lemma {:induction false} RecoveryStays(run: seq<World>, labels: seq<Label>, me: nat, f: string, a: nat, k: nat)
    requires Labelled(run, labels) && a < k < |run| && labels[a] == Arrival(me, RecoverFind(f))
    ensures me in run[k].calls && OnRecovery(run, labels, me, f, a, k)
    decreases k
  {
    hide Follows, Init;
    FollowsAt(run, labels, k - 1);
    if k == a + 1 {
      Arrived(run[a], run[k], me, RecoverFind(f));
    } else {
      RecoveryStays(run, labels, me, f, a, k - 1);
      if Own(labels, me, k - 1) {
        OwnStepOnRecovery(run, labels, me, f, a, k);
      } else {
        OthersStepOnRecovery(run, labels, me, f, a, k);
      }
    }
  }

  /** An outside recovery that answered success has closed an incident of its fingerprint, which
      is RESOLVED with the outside recovery in its log; or at its first read no record of the
      fingerprint was open, and at its second there was one. Whatever was stored at the first
      read is then closed for good; only a record created between the two may be open. */
  lemma RecoveredOrHistory(run: seq<World>, labels: seq<Label>, me: nat, f: string, a: nat, k: nat)
    requires Labelled(run, labels) && a < k < |run| && labels[a] == Arrival(me, RecoverFind(f))
    requires me in run[k].calls && run[k].calls[me] == Done(true)
    ensures
      var s := run[k].shared;
      || (exists i :: i in s.incidents.items && s.incidents.items[i].fingerprint == f
                      && s.incidents.items[i].status == Resolved && ClosedOutside(IR.Log(s.incidents.events, i)))
      || (exists n, m, i :: a < n < m < k && Own(labels, me, n) && Own(labels, me, m)
                            && RecordOf(run[m].shared, i, f) && ClosedForGood(run[n].shared, s, f))
  {
    hide Follows, Init, Inv, Grows, IsRun, NothingOpen, ClosedForGood, ClosedOutside;
    RecoveryStays(run, labels, me, f, a, k);
    LabelledIsRun(run, labels);
    var s := run[k].shared;
    if ResolvedOutside(s, f) {
      var i :| IsResolvedOutside(s, i, f);
    } else {
      var n, m, i :| a < n < m < k && Own(labels, me, n) && Own(labels, me, m)
                     && NothingOpen(run[n].shared, f) && RecordOf(run[m].shared, i, f);
      RunGrows(run, n, k);
      StillClosed(run[n].shared, s, f);
    }
  }

  /** The records of the fingerprint in the earlier store are closed, and still the same. */
  ghost predicate ClosedForGood(s: Shared, t: Shared, f: string) {
    forall i | i in s.incidents.items && s.incidents.items[i].fingerprint == f ::
      s.incidents.items[i].status.IsTerminal() && i in t.incidents.items && t.incidents.items[i] == s.incidents.items[i]
  }

  lemma StillClosed(s: Shared, t: Shared, f: string)
    requires Grows(s, t) && NothingOpen(s, f)
    ensures ClosedForGood(s, t, f)
  {
  }

  /** A guarded write whose incident has moved on, or whose event identifier is taken, is an
      error and changes nothing. */
  lemma LostSwapIsAnError(w: World, w': World, me: nat, c: Choice)
    requires Advances(w, w', me, c) && w.calls[me].RecoverWrite?
    requires var snap := w.calls[me].snap;
             || snap.id !in w.shared.incidents.items || w.shared.incidents.items[snap.id].version != snap.version
             || IR.EventIdTaken(w.shared.incidents.events, c.statusEvent)
    ensures w'.shared == w.shared && w'.calls[me] == Done(false)
  {
    hide IR.EventIdTaken, IR.BatchConflicts, Enabled;
    var snap := w.calls[me].snap;
    var moved := Moved(snap.status, Resolved, AlertResolvedOutside);
    LoneEvent(w.shared.incidents.events, Event(c.statusEvent, snap.id, moved));
  }

  // ---- a record created between the two reads ----

  /** A recovery reads that nothing is open; then an alert creates a new incident; the recovery
      takes it for history and answers success, and the incident stays OPEN. */
  lemma RecoveryMissesNewIncident(run: seq<World>, labels: seq<Label>, first: nat, second: nat,
                                  f: string, details: string, cs: seq<Choice>)
    returns (longer: seq<World>, more: seq<Label>)
    requires Labelled(run, labels) && first != second && |cs| == 4
    requires first in Last(run).calls && Last(run).calls[first] == RecoverFind(f)
    requires second in Last(run).calls && Last(run).calls[second] == CreateFind(f, details)
    requires NothingOpen(Last(run).shared, f) && forall k | 0 <= k < 4 :: cs[k].fault.Answered?
    requires cs[0].found == None && cs[1].found == None && cs[3].found == Some(NewIncident(f, details, cs[2]))
    requires var s := Last(run).shared.incidents;
             && cs[2].id != "" && cs[2].id !in s.items && !IR.EventIdTaken(s.events, cs[2].statusEvent)
             && forall i | i in s.items && s.items[i].fingerprint == f :: s.items[i].createdAt <= cs[2].now
    ensures Labelled(longer, more) && run <= longer && labels <= more
    ensures var w := Last(longer);
            && first in w.calls && w.calls[first] == Done(true)
            && cs[2].id in w.shared.incidents.items
            && w.shared.incidents.items[cs[2].id].fingerprint == f
            && w.shared.incidents.items[cs[2].id].status == Open
  {
    hide Step, Enabled, Follows, Init, IR.EventIdTaken, NothingOpen;
    var s := Last(run).shared;
    var t := AfterCreate(s, f, details, cs[2]);
    BothFindNothing(s, first, second, f, details, cs[0], cs[1]);
    CreateAdds(s, second, f, details, cs[2]);
    LatestFinds(s, t, first, f, details, cs[2], cs[3]);
    longer, more := TakeTurn(run, labels, first, cs[0]);
    longer, more := TakeTurn(longer, more, second, cs[1]);
    longer, more := TakeTurn(longer, more, second, cs[2]);
    longer, more := TakeTurn(longer, more, first, cs[3]);
  }

  function AfterCreate(s: Shared, f: string, details: string, c: Choice): Shared {
    var created := Event(c.statusEvent, c.id, Created);
    s.(incidents := IR.Store(s.incidents.items[c.id := NewIncident(f, details, c)],
                             IR.AddEvent(s.incidents.events, Some(created))))
  }

  lemma BothFindNothing(s: Shared, first: nat, second: nat, f: string, details: string, c: Choice, d: Choice)
    requires NothingOpen(s, f) && c.fault.Answered? && d.fault.Answered? && c.found == None && d.found == None
    ensures Enabled(s, RecoverFind(f), c) && Step(s, first, RecoverFind(f), c) == (s, RecoverLatest(f))
    ensures Enabled(s, CreateFind(f, details), d)
    ensures Step(s, second, CreateFind(f, details), d) == (s, CreateWrite(f, details))
  {
  }

  lemma CreateAdds(s: Shared, me: nat, f: string, details: string, c: Choice)
    requires NothingOpen(s, f) && c.fault.Answered? && c.id != "" && c.id !in s.incidents.items
    requires !IR.EventIdTaken(s.incidents.events, c.statusEvent)
    ensures Enabled(s, CreateWrite(f, details), c)
    ensures Step(s, me, CreateWrite(f, details), c) == (AfterCreate(s, f, details, c), Done(true))
  {
    hide IR.EventIdTaken, IR.BatchConflicts;
    LoneEvent(s.incidents.events, Event(c.statusEvent, c.id, Created));
  }

  lemma LatestFinds(s: Shared, t: Shared, me: nat, f: string, details: string, c: Choice, d: Choice)
    requires t == AfterCreate(s, f, details, c) && d.fault.Answered? && d.found == Some(NewIncident(f, details, c))
    requires forall i | i in s.incidents.items && s.incidents.items[i].fingerprint == f ::
               s.incidents.items[i].createdAt <= c.now
    ensures Enabled(t, RecoverLatest(f), d) && Step(t, me, RecoverLatest(f), d) == (t, Done(true))
  {
    assert t.incidents.items[c.id] == NewIncident(f, details, c);
  }
}
