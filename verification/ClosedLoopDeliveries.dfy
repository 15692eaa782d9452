/** What a delivery of the diagnosis event reports over a whole run: when it is acknowledged,
    and when it fails and is delivered again. */
module ClosedLoopDeliveries {
  import opened Basics
  import opened Incidents
  import opened ClosedLoop
  import opened ClosedLoopInvariant
  import opened ClosedLoopSteps
  import opened ClosedLoopTheorems
  import opened ClosedLoopAlone
  import opened ClosedLoopCalls
  import opened ClosedLoopRuns
  import IR = IncidentRepository
  import AR = ApprovalRepository
  import RR = RunRepository

  function DeliveryMove(i: string): Move {
    Move(i, Investigating, MachineTransition, None, ThenDiagnose(i))
  }

  /** Where a delivery for the incident can stand. */
  predicate OnPath(p: Phase, i: string) {
    match p
    case DiagnoseRead(j) => j == i
    case DiagnoseList(snap) => snap.id == i
    case ReadForMove(m) => m == DeliveryMove(i)
    case WriteMove(m, snap) => m == DeliveryMove(i) && snap.id == i
    case DiagnoseStart(j, fine) => j == i && fine
    case DiagnoseEnd(r) => r.incident == i
    case DiagnoseFail(r) => r.incident == i
    case Done(_) => true
    case _ => false
  }

  /** The delivery has failed, or is only recording that its diagnosis did. */
  predicate Failing(p: Phase) {
    p == Done(false) || p.DiagnoseFail?
  }

  /** What makes a delivery fail at a step: the incident is unknown; its move, decided on an
      OPEN record, finds another status or loses the version swap (or draws a used event id);
      or the diagnosis fails. */
  predicate FailsAt(s: Shared, p: Phase, c: Choice) {
    match p
    case DiagnoseRead(i) => i !in s.incidents.items
    case ReadForMove(m) => m.incident !in s.incidents.items || s.incidents.items[m.incident].status != Open
    case WriteMove(_, snap) =>
      || snap.id !in s.incidents.items || s.incidents.items[snap.id].version != snap.version
      || IR.EventIdTaken(s.incidents.events, c.statusEvent)
    case DiagnoseEnd(_) => !c.diagnosed
    case _ => false
  }

  // ---- a run started by a delivery stays its own ----

  predicate HoldsRun(p: Phase) {
    p.DiagnoseEnd? || p.DiagnoseFail?
  }

  /** Started runs are held by one call each, and are RUNNING until that call ends them. */
  ghost predicate RunsHeld(w: World) {
    && (forall me | me in w.calls && HoldsRun(w.calls[me]) ::
          && w.calls[me].record.id in w.shared.runs
          && (w.calls[me].DiagnoseEnd? ==> w.shared.runs[w.calls[me].record.id] == w.calls[me].record
                                           && w.calls[me].record.status == RR.Running))
    && (forall me, you |
          me in w.calls && you in w.calls && me != you && HoldsRun(w.calls[me]) && HoldsRun(w.calls[you]) ::
          w.calls[me].record.id != w.calls[you].record.id)
  }

  /** The runs a step writes: one it creates under a new id, or the one its call holds. */
  ghost predicate OwnRunOnly(s: Shared, t: Shared, p: Phase, q: Phase) {
    && (forall r | r in s.runs :: r in t.runs && (t.runs[r] == s.runs[r] || (HoldsRun(p) && r == p.record.id)))
    && (HoldsRun(q) ==> q.record.id in t.runs)
    && (q.DiagnoseEnd? ==> q.record.id !in s.runs && t.runs[q.record.id] == q.record && q.record.status == RR.Running)
    && (q.DiagnoseFail? ==> HoldsRun(p) && q.record == p.record)
  }

  lemma StepOwnRun(s: Shared, me: nat, p: Phase, c: Choice)
    requires !p.Done? && (HoldsRun(p) ==> p.record.id in s.runs)
    ensures var (t, q) := Step(s, me, p, c); OwnRunOnly(s, t, p, q)
  {
    hide StepCreate, StepWriteMove, StepReadForMove, StepRequest, StepDecline, StepClaim, StepExpire;
    hide StepMarkExecuting, StepExecute, StepVerify, StepPersist, StepRecover, StepDiagnose;
    if p.DiagnoseRead? || p.DiagnoseList? || p.DiagnoseStart? || HoldsRun(p) {
      DiagnoseOwnRun(s, p, c);
    } else {
      OtherStepsWriteNoRun(s, me, p, c);
    }
  }

  lemma DiagnoseOwnRun(s: Shared, p: Phase, c: Choice)
    requires p.DiagnoseRead? || p.DiagnoseList? || p.DiagnoseStart? || (HoldsRun(p) && p.record.id in s.runs)
    ensures var (t, q) := StepDiagnose(s, p, c); OwnRunOnly(s, t, p, q)
  {
    hide RR.HasActiveRun, RR.OtherActive;
  }

  lemma ContinueHoldsNoRun(config: Config, m: Move, ok: bool, text: string)
    ensures !HoldsRun(Continue(config, m.andThen, ok, text))
  {
  }

  lemma OtherStepsWriteNoRun(s: Shared, me: nat, p: Phase, c: Choice)
    requires !p.Done? && !p.DiagnoseRead? && !p.DiagnoseList? && !p.DiagnoseStart? && !HoldsRun(p)
    ensures var (t, q) := Step(s, me, p, c); t.runs == s.runs && !HoldsRun(q)
  {
    hide StepCreate, StepWriteMove, StepReadForMove, StepRequest, StepDecline, StepClaim, StepExpire;
    hide StepMarkExecuting, StepExecute, StepVerify, StepPersist, StepRecover, StepDiagnose;
    MoveStepsWriteNoRun(s, p, c);
    ApprovalStepsWriteNoRun(s, me, p, c);
    CallStepsWriteNoRun(s, p, c);
    ActionStepsWriteNoRun(s, p, c);
  }

  lemma MoveStepsWriteNoRun(s: Shared, p: Phase, c: Choice)
    ensures p.ReadForMove? ==> !HoldsRun(StepReadForMove(s, p.move, c))
    ensures p.WriteMove? ==> var (t, q) := StepWriteMove(s, p.move, p.snap, c); t.runs == s.runs && !HoldsRun(q)
  {
    hide Continue, IR.UpdateWithEvents, CanTransition;
    if p.ReadForMove? || p.WriteMove? {
      ContinueHoldsNoRun(s.config, p.move, true, c.text);
      ContinueHoldsNoRun(s.config, p.move, false, c.text);
    }
  }

  lemma ApprovalStepsWriteNoRun(s: Shared, me: nat, p: Phase, c: Choice)
    ensures p.Claim? ==> var (t, q) := StepClaim(s, me, p.approval, p.signer, c); t.runs == s.runs && !HoldsRun(q)
    ensures p.Decline? ==> var (t, q) := StepDecline(s, p.approval, p.signer, c); t.runs == s.runs && !HoldsRun(q)
    ensures p.Expire? ==> var (t, q) := StepExpire(s, p.a, p.source, c); t.runs == s.runs && !HoldsRun(q)
    ensures p.MarkExecuting? ==> var (t, q) := StepMarkExecuting(s, p.a, c); t.runs == s.runs && !HoldsRun(q)
    ensures p.Persist? ==> var (t, q) := StepPersist(s, p.a, p.execution, c); t.runs == s.runs && !HoldsRun(q)
  {
    hide AR.TransitionStatus;
  }

  lemma CallStepsWriteNoRun(s: Shared, p: Phase, c: Choice)
    ensures p.CreateFind? || p.CreateWrite? || p.CreateFindAgain? ==>
              var (t, q) := StepCreate(s, p, c); t.runs == s.runs && !HoldsRun(q)
    ensures p.RequestRun? || p.RequestIncident? || p.RequestWrite? ==>
              var (t, q) := StepRequest(s, p, c); t.runs == s.runs && !HoldsRun(q)
  {
    hide AR.Create, IR.CreateWithEvent;
  }

  lemma ActionStepsWriteNoRun(s: Shared, p: Phase, c: Choice)
    ensures p.ExecuteRun? || p.ExecuteRead? || p.ExecuteAct? ==>
              var (t, q) := StepExecute(s, p, c); t.runs == s.runs && !HoldsRun(q)
    ensures p.ExecuteVerify? ==>
              var (t, q) := StepVerify(s, p.a, p.incident, p.operation, c); t.runs == s.runs && !HoldsRun(q)
    ensures p.RecoverFind? || p.RecoverLatest? || p.RecoverSweep? || p.RecoverWrite? ==>
              var (t, q) := StepRecover(s, p, c); t.runs == s.runs && !HoldsRun(q)
  {
    hide SequencePasses, IR.UpdateWithEvents, AR.ExpirePending;
  }

  lemma {:induction false} RunsAreHeld(run: seq<World>, labels: seq<Label>, k: nat)
    requires Labelled(run, labels) && k < |run|
    ensures RunsHeld(run[k])
  {
    hide Follows, RunsHeld;
    if k == 0 {
      assert RunsHeld(run[0]) by { NoCallsYet(run[0]); }
    } else {
      RunsAreHeld(run, labels, k - 1);
      FollowsAt(run, labels, k - 1);
      StepHoldsRuns(run[k - 1], run[k], labels[k - 1]);
    }
  }

  lemma NoCallsYet(w: World)
    requires Init(w)
    ensures w.calls == map[] && RunsHeld(w)
  {
  }

  lemma StepHoldsRuns(w: World, w': World, l: Label)
    requires RunsHeld(w) && Follows(w, w', l)
    ensures RunsHeld(w')
  {
    hide Step, Enabled, IsEntry;
    match l {
      case Arrival(me, p) => EntryHoldsNoRun(p);
      case Turn(me, c) => StepOwnRun(w.shared, me, w.calls[me], c);
    }
  }

  lemma EntryHoldsNoRun(p: Phase)
    requires IsEntry(p)
    ensures !HoldsRun(p)
  {
  }

  /** The call that started a run can always complete it. */
  lemma CompletionSucceeds(s: Shared, record: RR.Run)
    requires RunsOk(s) && record.id in s.runs && s.runs[record.id] == record && record.status == RR.Running
    ensures RR.UpdateRun(s.runs, record.(status := RR.Completed)).Ok?
  {
    forall r | r in s.runs && s.runs[r].incident == record.incident
      && (s.runs[r].status == RR.Running || s.runs[r].status == RR.Completed)
      ensures r == record.id
    {
      assert RR.Rivals(s.runs, r, record.id);
    }
  }

  // ---- one step of a delivery ----

  lemma StepStaysOnPath(s: Shared, me: nat, p: Phase, c: Choice, i: string)
    requires OnPath(p, i) && !p.Done?
    requires i in s.incidents.items ==> s.incidents.items[i].id == i
    ensures OnPath(Step(s, me, p, c).1, i)
  {
    hide IR.UpdateWithEvents, RR.CreateRun, RR.UpdateRun, RR.HasActiveRun, CanTransition, MovedTo;
  }

  /** With its accesses answered, all but perhaps the listing, a delivery starts failing exactly
      at a step of the named kinds. */
  lemma StepFailsExactly(s: Shared, me: nat, p: Phase, c: Choice, i: string)
    requires OnPath(p, i) && !p.Done? && (c.fault.Answered? || p.DiagnoseList?)
    requires p.DiagnoseEnd? ==> RR.UpdateRun(s.runs, p.record.(status := RR.Completed)).Ok?
    ensures p.DiagnoseFail? ==> Step(s, me, p, c).1 == Done(false)
    ensures !p.DiagnoseFail? ==> (Failing(Step(s, me, p, c).1) <==> FailsAt(s, p, c))
  {
    hide IR.UpdateWithEvents, RR.CreateRun, RR.UpdateRun, RR.HasActiveRun, IR.EventIdTaken, MovedTo;
    if p.WriteMove? {
      LoneEventConflicts(s, p.snap, c, i);
    }
  }

  lemma LoneEventConflicts(s: Shared, snap: Incident, c: Choice, i: string)
    ensures var m := DeliveryMove(i);
            IR.UpdateWithEvents(s.incidents, MovedTo(snap, m.to, c.now), MoveEvents(m, snap, c)).Ok? <==>
            && snap.id in s.incidents.items && s.incidents.items[snap.id].version == snap.version
            && !IR.EventIdTaken(s.incidents.events, c.statusEvent)
  {
    var e := Event(c.statusEvent, snap.id, Moved(snap.status, Investigating, MachineTransition));
    assert MoveEvents(DeliveryMove(i), snap, c) == [Some(e)];
    assert IR.BatchConflicts(s.incidents.events, [Some(e)]) <==> IR.EventIdTaken(s.incidents.events, e.id) by {
      assert [Some(e)][0].value.id == e.id;
    }
  }

  // ---- over a run ----

  predicate Own(labels: seq<Label>, me: nat, n: nat)
    requires n < |labels|
  {
    labels[n].Turn? && labels[n].call == me
  }

  ghost predicate FailedAt(run: seq<World>, labels: seq<Label>, me: nat, n: nat)
    requires |run| == |labels| + 1 && n < |labels|
  {
    Own(labels, me, n) && me in run[n].calls && FailsAt(run[n].shared, run[n].calls[me], labels[n].choice)
  }

  /** Between its arrival and `k` every access of the call was answered, but for its listing of
      runs, whose failure the call takes for an empty list. */
  ghost predicate AccessesAnswered(run: seq<World>, labels: seq<Label>, me: nat, a: nat, k: nat)
    requires |run| == |labels| + 1 && k <= |labels|
  {
    forall n | a < n < k && Own(labels, me, n) && me in run[n].calls ::
      labels[n].choice.fault.Answered? || run[n].calls[me].DiagnoseList?
  }

  lemma OthersLeave(w: World, w': World, l: Label, me: nat)
    requires Follows(w, w', l) && me in w.calls && !(l.Turn? && l.call == me)
    ensures me in w'.calls && w'.calls[me] == w.calls[me]
  {
    hide Step, Enabled, IsEntry;
  }

  lemma OwnMoves(w: World, w': World, me: nat, c: Choice)
    requires Follows(w, w', Turn(me, c))
    ensures me in w.calls && !w.calls[me].Done? && me in w'.calls
    ensures (w'.shared, w'.calls[me]) == Step(w.shared, me, w.calls[me], c)
  {
    hide Step, Enabled;
  }

  lemma {:induction false} DeliveryStaysOnPath(run: seq<World>, labels: seq<Label>, me: nat, i: string, a: nat, k: nat)
    requires Labelled(run, labels) && a < k < |run| && labels[a] == Arrival(me, DiagnoseRead(i))
    ensures me in run[k].calls && OnPath(run[k].calls[me], i)
    decreases k
  {
    hide Step, Enabled, IsEntry, Inv, Init;
    FollowsAt(run, labels, k - 1);
    if k > a + 1 {
      DeliveryStaysOnPath(run, labels, me, i, a, k - 1);
      if Own(labels, me, k - 1) {
        LabelledIsRun(run, labels);
        RunHolds(run, k - 1);
        KnownIds(run[k - 1], i);
        StepStaysOnPath(run[k - 1].shared, me, run[k - 1].calls[me], labels[k - 1].choice, i);
      } else {
        OthersLeave(run[k - 1], run[k], labels[k - 1], me);
      }
    }
  }

  lemma KnownIds(w: World, i: string)
    requires Inv(w)
    ensures i in w.shared.incidents.items ==> w.shared.incidents.items[i].id == i
    ensures RunsOk(w.shared)
  {
    hide SharedInv, LocalInv;
    IncidentFacts(w.shared, i);
    RunFacts(w.shared);
  }

  lemma {:induction false} FailingExactlyAfter(run: seq<World>, labels: seq<Label>, me: nat, i: string, a: nat, k: nat)
    requires Labelled(run, labels) && a < k < |run| && labels[a] == Arrival(me, DiagnoseRead(i))
    requires AccessesAnswered(run, labels, me, a, k)
    ensures me in run[k].calls
    ensures Failing(run[k].calls[me]) <==> exists n :: a < n < k && FailedAt(run, labels, me, n)
    decreases k
  {
    hide Step, Enabled, IsEntry, Init, FailsAt, OnPath;
    DeliveryStaysOnPath(run, labels, me, i, a, k);
    FollowsAt(run, labels, k - 1);
    if k > a + 1 {
      FailingExactlyAfter(run, labels, me, i, a, k - 1);
      if Own(labels, me, k - 1) {
        OwnStepFails(run, labels, me, i, a, k);
      } else {
        OthersLeave(run[k - 1], run[k], labels[k - 1], me);
      }
    }
  }

  lemma OwnStepFails(run: seq<World>, labels: seq<Label>, me: nat, i: string, a: nat, k: nat)
    requires Labelled(run, labels) && a + 1 < k < |run| && labels[a] == Arrival(me, DiagnoseRead(i))
    requires AccessesAnswered(run, labels, me, a, k) && Own(labels, me, k - 1)
    ensures me in run[k - 1].calls && me in run[k].calls
    ensures if run[k - 1].calls[me].DiagnoseFail? then run[k].calls[me] == Done(false)
            else !Failing(run[k - 1].calls[me]) && (Failing(run[k].calls[me]) <==> FailedAt(run, labels, me, k - 1))
    ensures run[k - 1].calls[me].DiagnoseFail? ==> !FailedAt(run, labels, me, k - 1)
  {
    hide Step, Enabled, Init, OnPath, Inv, RunsOk;
    var w, c := run[k - 1], labels[k - 1].choice;
    FollowsAt(run, labels, k - 1);
    OwnMoves(w, run[k], me, c);
    DeliveryStaysOnPath(run, labels, me, i, a, k - 1);
    LabelledIsRun(run, labels);
    RunHolds(run, k - 1);
    KnownIds(w, i);
    RunsAreHeld(run, labels, k - 1);
    if w.calls[me].DiagnoseEnd? {
      CompletionSucceeds(w.shared, w.calls[me].record);
    }
    StepFailsExactly(w.shared, me, w.calls[me], c, i);
  }

  /** A finished delivery whose accesses were answered reported an error if and only if the
      incident was unknown, its move from an OPEN record was denied or lost the version swap,
      or its diagnosis failed. Losing the race to start a run is not among them. */
  lemma DeliveryFailsExactlyWhen(run: seq<World>, labels: seq<Label>, me: nat, i: string, a: nat, k: nat)
    requires Labelled(run, labels) && a < k < |run| && labels[a] == Arrival(me, DiagnoseRead(i))
    requires AccessesAnswered(run, labels, me, a, k)
    requires me in run[k].calls && run[k].calls[me].Done?
    ensures run[k].calls[me] == Done(false) <==> exists n :: a < n < k && FailedAt(run, labels, me, n)
  {
    hide Labelled, AccessesAnswered, FailedAt;
    FailingExactlyAfter(run, labels, me, i, a, k);
  }

  /** A delivery that finds a run of its incident, running or completed, is acknowledged there
      and changes no store at that step: when it lists the runs, and, should its listing have
      failed, when it is about to start its own. */
  lemma DeliveryMeetsRun(run: seq<World>, labels: seq<Label>, me: nat, i: string, a: nat, n: nat, r: string)
    requires Labelled(run, labels) && a < n < |labels| && labels[a] == Arrival(me, DiagnoseRead(i))
    requires Own(labels, me, n) && me in run[n].calls
    requires || (run[n].calls[me].DiagnoseList? && labels[n].choice.fault.Answered?)
             || (run[n].calls[me].DiagnoseStart? && !labels[n].choice.fault.Refused?)
    requires var runs := run[n].shared.runs;
             r in runs && runs[r].incident == i && (runs[r].status == RR.Running || runs[r].status == RR.Completed)
    ensures run[n + 1].shared == run[n].shared
    ensures me in run[n + 1].calls && run[n + 1].calls[me] == Done(true)
  {
    hide Enabled, Init, IsEntry;
    DeliveryStaysOnPath(run, labels, me, i, a, n);
    var c := labels[n].choice;
    FollowsAt(run, labels, n);
    OwnMoves(run[n], run[n + 1], me, c);
    MeetsRun(run[n].shared, me, run[n].calls[me], i, c);
  }

  lemma MeetsRun(s: Shared, me: nat, p: Phase, i: string, c: Choice)
    requires RR.HasActiveRun(s.runs, i) && OnPath(p, i)
    requires (p.DiagnoseList? && c.fault.Answered?) || (p.DiagnoseStart? && !c.fault.Refused?)
    ensures Step(s, me, p, c) == (s, Done(true))
  {
  }

  // ---- the failing interleaving ----

  /** Two deliveries of one OPEN incident: both read it and list no run before the first moves
      it on and starts its run; the second is then denied the same move, and fails although a
      diagnosis is under way. */
  lemma SecondDeliveryFails(run: seq<World>, labels: seq<Label>, first: nat, second: nat, i: string, cs: seq<Choice>)
    returns (longer: seq<World>, more: seq<Label>)
    requires Labelled(run, labels) && first != second
    requires first in Last(run).calls && Last(run).calls[first] == DiagnoseRead(i)
    requires second in Last(run).calls && Last(run).calls[second] == DiagnoseRead(i)
    requires i in Last(run).shared.incidents.items && Last(run).shared.incidents.items[i].status == Open
    requires !RR.HasActiveRun(Last(run).shared.runs, i)
    requires |cs| == 8 && AllAnswered(cs) && FreshFrom(Last(run).shared, cs, 0)
    requires cs[6].id !in Last(run).shared.runs
    ensures Labelled(longer, more) && run <= longer && labels <= more
    ensures var w := Last(longer);
            && i in w.shared.incidents.items && w.shared.incidents.items[i].status == Investigating
            && RR.HasActiveRun(w.shared.runs, i)
            && second in w.calls && w.calls[second] == Done(false)
  {
    hide Step, Enabled, FreshFrom, RR.HasActiveRun, Follows, Init, Moved1;
    var s := Last(run).shared;
    LabelledIsRun(run, labels);
    assert s.incidents.items[i].id == i by { RunHolds(run, |run| - 1); KnownIds(Last(run), i); }
    longer, more := BothList(run, labels, first, second, i, cs);
    longer, more := FirstWins(longer, more, first, i, cs);
    var u := Last(longer).shared;
    SecondIsDenied(u, second, i, cs[7]);
    longer, more := StepOn(longer, more, second, cs[7], u, Done(false));
  }

  /** Both have read the OPEN record and found no run. */
  lemma BothList(run: seq<World>, labels: seq<Label>, first: nat, second: nat, i: string, cs: seq<Choice>)
    returns (longer: seq<World>, more: seq<Label>)
    requires Labelled(run, labels) && first != second && |cs| == 8 && AllAnswered(cs)
    requires first in Last(run).calls && Last(run).calls[first] == DiagnoseRead(i)
    requires second in Last(run).calls && Last(run).calls[second] == DiagnoseRead(i)
    requires var s := Last(run).shared;
             && i in s.incidents.items && s.incidents.items[i].status == Open && s.incidents.items[i].id == i
             && !RR.HasActiveRun(s.runs, i)
    ensures Labelled(longer, more) && run <= longer && labels <= more
    ensures Last(longer) == World(Last(run).shared,
              Last(run).calls[first := ReadForMove(DeliveryMove(i))][second := ReadForMove(DeliveryMove(i))])
  {
    hide Step, Enabled, RR.HasActiveRun, Follows, Init;
    var s := Last(run).shared;
    var calls: map<nat, Phase> := Last(run).calls;
    var was, move := DiagnoseList(s.incidents.items[i]), ReadForMove(DeliveryMove(i));
    DiagnoseSteps(s, first, i, cs[0], cs[2]);
    DiagnoseSteps(s, second, i, cs[1], cs[3]);
    longer, more := StepOn(run, labels, first, cs[0], s, was);
    longer, more := StepOn(longer, more, second, cs[1], s, was);
    longer, more := StepOn(longer, more, first, cs[2], s, move);
    longer, more := StepOn(longer, more, second, cs[3], s, move);
    var end: map<nat, Phase> := calls[first := move][second := move];
    assert Last(longer).calls == end;
  }

  /** One of them moves the incident on and starts its run. */
  lemma FirstWins(run: seq<World>, labels: seq<Label>, me: nat, i: string, cs: seq<Choice>)
    returns (longer: seq<World>, more: seq<Label>)
    requires Labelled(run, labels) && |cs| == 8 && AllAnswered(cs) && FreshFrom(Last(run).shared, cs, 0)
    requires me in Last(run).calls && Last(run).calls[me] == ReadForMove(DeliveryMove(i))
    requires var s := Last(run).shared;
             && i in s.incidents.items && s.incidents.items[i].status == Open && s.incidents.items[i].id == i
             && !RR.HasActiveRun(s.runs, i) && cs[6].id !in s.runs
    ensures Labelled(longer, more) && run <= longer && labels <= more
    ensures var t := Last(longer).shared;
            && i in t.incidents.items && t.incidents.items[i].status == Investigating && RR.HasActiveRun(t.runs, i)
    ensures Last(longer).calls == Last(run).calls[me := DiagnoseEnd(RR.Run(cs[6].id, i, RR.Running))]
  {
    hide Step, Enabled, FreshFrom, RR.HasActiveRun, Follows, Init, CanTransition;
    longer, more := FirstMovesOn(run, labels, me, i, cs);
    var t := Last(longer).shared;
    var record := RR.Run(cs[6].id, i, RR.Running);
    var u := t.(runs := t.runs[record.id := record]);
    FirstStarts(t, me, i, cs[6]);
    longer, more := StepOn(longer, more, me, cs[6], u, DiagnoseEnd(record));
    ActiveNow(u, record);
    assert Last(longer).calls == Last(run).calls[me := DiagnoseEnd(record)];
  }

  lemma FirstMovesOn(run: seq<World>, labels: seq<Label>, me: nat, i: string, cs: seq<Choice>)
    returns (longer: seq<World>, more: seq<Label>)
    requires Labelled(run, labels) && |cs| == 8 && AllAnswered(cs) && FreshFrom(Last(run).shared, cs, 0)
    requires me in Last(run).calls && Last(run).calls[me] == ReadForMove(DeliveryMove(i))
    requires var s := Last(run).shared;
             i in s.incidents.items && s.incidents.items[i].status == Open && s.incidents.items[i].id == i
    ensures Labelled(longer, more) && run <= longer && labels <= more
    ensures var s, t := Last(run).shared, Last(longer).shared;
            && t.runs == s.runs && i in t.incidents.items && t.incidents.items[i].status == Investigating
            && Last(longer).calls == Last(run).calls[me := DiagnoseStart(i, true)]
  {
    hide Step, Enabled, FreshFrom, Follows, Init, Moved1;
    var s := Last(run).shared;
    var t := Moved1(s, DeliveryMove(i), cs[5]);
    FirstMoves(s, me, i, cs[4], cs[5], cs);
    longer, more := StepOn(run, labels, me, cs[4], s, WriteMove(DeliveryMove(i), s.incidents.items[i]));
    longer, more := StepOn(longer, more, me, cs[5], t, DiagnoseStart(i, true));
    assert Last(longer).calls == Last(run).calls[me := DiagnoseStart(i, true)];
  }

  lemma StepOn(run: seq<World>, labels: seq<Label>, me: nat, c: Choice, t: Shared, q: Phase)
    returns (longer: seq<World>, more: seq<Label>)
    requires Labelled(run, labels) && me in Last(run).calls && !Last(run).calls[me].Done? && Free(Last(run).calls[me])
    requires Step(Last(run).shared, me, Last(run).calls[me], c) == (t, q)
    ensures Labelled(longer, more) && run <= longer && labels <= more
    ensures Last(longer) == World(t, Last(run).calls[me := q])
  {
    hide Step, Enabled, Follows, Init, Free;
    FreeStays(Last(run).shared, me, Last(run).calls[me], c);
    longer, more := TakeTurn(run, labels, me, c);
  }

  lemma FirstMoves(s: Shared, me: nat, i: string, c: Choice, d: Choice, cs: seq<Choice>)
    requires i in s.incidents.items && s.incidents.items[i].id == i && s.incidents.items[i].status == Open
    requires |cs| == 8 && FreshFrom(s, cs, 0) && AllAnswered(cs) && c == cs[4] && d == cs[5]
    ensures var m, was := DeliveryMove(i), s.incidents.items[i];
            var t := Moved1(s, m, d);
            && Step(s, me, ReadForMove(m), c) == (s, WriteMove(m, was))
            && Step(s, me, WriteMove(m, was), d) == (t, DiagnoseStart(i, true))
            && t.runs == s.runs && i in t.incidents.items && t.incidents.items[i].status == Investigating
  {
    var m, was := DeliveryMove(i), s.incidents.items[i];
    FreshLater(s, s, cs, 0, 5);
    MoveCommits(s, m, was, cs, 5);
  }

  lemma FirstStarts(s: Shared, me: nat, i: string, c: Choice)
    requires c.fault.Answered? && !RR.HasActiveRun(s.runs, i) && c.id !in s.runs
    ensures var record := RR.Run(c.id, i, RR.Running);
            Step(s, me, DiagnoseStart(i, true), c) == (s.(runs := s.runs[record.id := record]), DiagnoseEnd(record))
  {
  }

  lemma SecondIsDenied(s: Shared, me: nat, i: string, c: Choice)
    requires i in s.incidents.items && s.incidents.items[i].status == Investigating
    ensures Step(s, me, ReadForMove(DeliveryMove(i)), c) == (s, Done(false))
  {
  }

  lemma ActiveNow(s: Shared, record: RR.Run)
    requires record.id in s.runs && s.runs[record.id] == record && record.status == RR.Running
    ensures RR.HasActiveRun(s.runs, record.incident)
  {
  }
}
