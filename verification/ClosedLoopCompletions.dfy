/** What a completed run means for the deliveries that follow it, and the one way it can be
    taken back. */
module ClosedLoopCompletions {
  import opened Basics
  import opened ClosedLoop
  import opened ClosedLoopInvariant
  import opened ClosedLoopSteps
  import opened ClosedLoopTheorems
  import opened ClosedLoopRuns
  import opened ClosedLoopDeliveries
  import opened ClosedLoopAnswers
  import RR = RunRepository

  /** How far a run has come. */
  function Stage(st: RR.RunStatus): nat {
    match st
    case Running => 0
    case Completed => 1
    case _ => 2
  }

  /** The run is as it was, or the call that holds it has ended it. */
  ghost predicate RunAdvances(s: Shared, t: Shared, p: Phase, c: Choice, r: string)
    requires r in s.runs
  {
    && r in t.runs && t.runs[r].incident == s.runs[r].incident
    && (|| t.runs[r] == s.runs[r]
        || (p.DiagnoseEnd? && p.record.id == r && s.runs[r].status == RR.Running && t.runs[r].status == RR.Completed
            && c.diagnosed && !c.fault.Refused?)
        || (p.DiagnoseFail? && p.record.id == r && t.runs[r].status == RR.Failed && !c.fault.Refused?))
  }

  lemma StepAdvancesRun(s: Shared, me: nat, p: Phase, c: Choice, r: string)
    requires !p.Done? && r in s.runs
    requires p.DiagnoseEnd? ==>
               p.record.id in s.runs && s.runs[p.record.id] == p.record && p.record.status == RR.Running
    requires p.DiagnoseFail? ==> p.record.id in s.runs && s.runs[p.record.id].incident == p.record.incident
    ensures RunAdvances(s, Step(s, me, p, c).0, p, c, r)
  {
    hide StepCreate, StepWriteMove, StepReadForMove, StepRequest, StepDecline, StepClaim, StepExpire;
    hide StepMarkExecuting, StepExecute, StepVerify, StepPersist, StepRecover, StepDiagnose;
    if p.DiagnoseRead? || p.DiagnoseList? || p.DiagnoseStart? || HoldsRun(p) {
      DiagnosisAdvancesRun(s, p, c, r);
    } else {
      OtherStepsWriteNoRun(s, me, p, c);
    }
  }

  lemma DiagnosisAdvancesRun(s: Shared, p: Phase, c: Choice, r: string)
    requires r in s.runs && (IsDiagnosis(p) || p.DiagnoseFail?)
    requires p.DiagnoseEnd? ==>
               p.record.id in s.runs && s.runs[p.record.id] == p.record && p.record.status == RR.Running
    requires p.DiagnoseFail? ==> p.record.id in s.runs && s.runs[p.record.id].incident == p.record.incident
    ensures RunAdvances(s, StepDiagnose(s, p, c).0, p, c, r)
  {
    hide RR.HasActiveRun, RR.OtherActive;
  }

  /** No step adds a run to an incident that has one running or completed. */
  lemma StepAddsNoRun(s: Shared, me: nat, p: Phase, c: Choice, i: string, r: string, q: string)
    requires !p.Done? && (HoldsRun(p) ==> p.record.id in s.runs)
    requires r in s.runs && s.runs[r].incident == i
    requires s.runs[r].status == RR.Running || s.runs[r].status == RR.Completed
    requires var t := Step(s, me, p, c).0; q in t.runs && t.runs[q].incident == i
    ensures q in s.runs
  {
    hide StepCreate, StepWriteMove, StepReadForMove, StepRequest, StepDecline, StepClaim, StepExpire;
    hide StepMarkExecuting, StepExecute, StepVerify, StepPersist, StepRecover;
    if IsDiagnosis(p) || p.DiagnoseFail? {
      hide RR.OtherActive;
    } else {
      OtherStepsWriteNoRun(s, me, p, c);
    }
  }

  // ---- over a run ----

  lemma RunKeptBetween(run: seq<World>, labels: seq<Label>, k: nat, r: string)
    requires Labelled(run, labels) && k < |labels| && r in run[k].shared.runs
    ensures labels[k].Turn? ==>
              var me := labels[k].call;
              me in run[k].calls && RunAdvances(run[k].shared, run[k + 1].shared, run[k].calls[me], labels[k].choice, r)
    ensures labels[k].Arrival? ==> run[k + 1].shared == run[k].shared
  {
    hide Step, Enabled, IsEntry, Init, RunAdvances, SharedInv, ClaimsKept;
    FollowsAt(run, labels, k);
    if labels[k].Turn? {
      var me := labels[k].call;
      RunsAreHeld(run, labels, k);
      LabelledIsRun(run, labels);
      RunHolds(run, k);
      assert LocalInv(run[k].shared, me, run[k].calls[me]);
      StepAdvancesRun(run[k].shared, me, run[k].calls[me], labels[k].choice, r);
    }
  }

  /** A run only goes on from running to completed to its other ends. */
  lemma {:induction false} RunsClimb(run: seq<World>, labels: seq<Label>, j: nat, k: nat, r: string)
    requires Labelled(run, labels) && j <= k < |run| && r in run[j].shared.runs
    ensures r in run[k].shared.runs && run[k].shared.runs[r].incident == run[j].shared.runs[r].incident
    ensures Stage(run[j].shared.runs[r].status) <= Stage(run[k].shared.runs[r].status)
    decreases k
  {
    hide Follows, Init;
    if j < k {
      RunsClimb(run, labels, j, k - 1, r);
      RunKeptBetween(run, labels, k - 1, r);
    }
  }

  /** While a run of an incident is running or completed, no call adds another: every run the
      incident has at the later moment it had at the earlier. */
  lemma {:induction false} CompletedRunIsTheLast(run: seq<World>, labels: seq<Label>, j: nat, k: nat,
                                                 r: string, q: string)
    requires Labelled(run, labels) && j <= k < |run| && r in run[j].shared.runs && r in run[k].shared.runs
    requires run[j].shared.runs[r].status == RR.Running || run[j].shared.runs[r].status == RR.Completed
    requires run[k].shared.runs[r].status == RR.Running || run[k].shared.runs[r].status == RR.Completed
    requires q in run[k].shared.runs && run[k].shared.runs[q].incident == run[j].shared.runs[r].incident
    ensures q in run[j].shared.runs
    decreases k
  {
    hide Follows, Init;
    if j < k {
      RunsClimb(run, labels, j, k - 1, r);
      RunsClimb(run, labels, k - 1, k, r);
      StepAddsNoRunAt(run, labels, k - 1, r, q);
      RunsClimb(run, labels, k - 1, k, q);
      CompletedRunIsTheLast(run, labels, j, k - 1, r, q);
    }
  }

  lemma StepAddsNoRunAt(run: seq<World>, labels: seq<Label>, k: nat, r: string, q: string)
    requires Labelled(run, labels) && k < |labels| && r in run[k].shared.runs
    requires run[k].shared.runs[r].status == RR.Running || run[k].shared.runs[r].status == RR.Completed
    requires q in run[k + 1].shared.runs && run[k + 1].shared.runs[q].incident == run[k].shared.runs[r].incident
    ensures q in run[k].shared.runs
  {
    hide Step, Enabled, IsEntry, Init;
    FollowsAt(run, labels, k);
    if labels[k].Turn? {
      var me := labels[k].call;
      CallIsReady(run, labels, me, k);
      HeldRunExists(run, labels, k, me);
      StepAddsNoRun(run[k].shared, me, run[k].calls[me], labels[k].choice, run[k].shared.runs[r].incident, r, q);
    }
  }

  lemma HeldRunExists(run: seq<World>, labels: seq<Label>, k: nat, me: nat)
    requires Labelled(run, labels) && k < |run| && me in run[k].calls
    ensures HoldsRun(run[k].calls[me]) ==> run[k].calls[me].record.id in run[k].shared.runs
  {
    hide Follows, Init;
    RunsAreHeld(run, labels, k);
  }

  // ---- taking a completion back ----

  /** At step `n` the completion of the run took effect, but its call did not learn of it. */
  ghost predicate CompletionLost(run: seq<World>, labels: seq<Label>, r: string, n: nat)
    requires |run| == |labels| + 1 && n < |labels|
  {
    && labels[n].Turn? && labels[n].call in run[n].calls
    && var p := run[n].calls[labels[n].call];
       p.DiagnoseEnd? && p.record.id == r && labels[n].choice.diagnosed && labels[n].choice.fault.Lost?
  }

  ghost predicate TakesBack(p: Phase, r: string) {
    p.DiagnoseFail? && p.record.id == r
  }

  /** A call that fails a completed run has lost the answer of its completion. */
  lemma {:induction false} OnlyLostIsTakenBack(run: seq<World>, labels: seq<Label>, me: nat, r: string, k: nat)
    requires Labelled(run, labels) && k < |run| && me in run[k].calls && TakesBack(run[k].calls[me], r)
    requires r in run[k].shared.runs && run[k].shared.runs[r].status == RR.Completed
    ensures exists n :: 0 <= n < k && CompletionLost(run, labels, r, n)
    decreases k
  {
    hide Follows, Init, CompletionLost, RunsHeld;
    LabelledIsRun(run, labels);
    RunStartsEmpty(run);
    FollowsAt(run, labels, k - 1);
    if Own(labels, me, k - 1) {
      EntersFailing(run, labels, me, r, k);
    } else {
      StillTakesBack(run, labels, me, r, k);
      OnlyLostIsTakenBack(run, labels, me, r, k - 1);
    }
  }

  lemma EntersFailing(run: seq<World>, labels: seq<Label>, me: nat, r: string, k: nat)
    requires Labelled(run, labels) && 0 < k < |run| && me in run[k].calls && TakesBack(run[k].calls[me], r)
    requires r in run[k].shared.runs && run[k].shared.runs[r].status == RR.Completed && Own(labels, me, k - 1)
    ensures CompletionLost(run, labels, r, k - 1)
  {
    hide Step, Enabled, Init;
    FollowsAt(run, labels, k - 1);
    OwnMoves(run[k - 1], run[k], me, labels[k - 1].choice);
    RunsAreHeld(run, labels, k - 1);
    FailingAfterCompletion(run[k - 1].shared, me, run[k - 1].calls[me], labels[k - 1].choice, r);
  }

  lemma FailingAfterCompletion(s: Shared, me: nat, p: Phase, c: Choice, r: string)
    requires !p.Done? && TakesBack(Step(s, me, p, c).1, r)
    requires HoldsRun(p) ==> p.record.id in s.runs
    requires p.DiagnoseEnd? ==> s.runs[p.record.id] == p.record && p.record.status == RR.Running
    requires var t := Step(s, me, p, c).0; r in t.runs && t.runs[r].status == RR.Completed
    ensures p.DiagnoseEnd? && p.record.id == r && c.diagnosed && c.fault.Lost?
  {
    hide StepCreate, StepWriteMove, StepReadForMove, StepRequest, StepDecline, StepClaim, StepExpire;
    hide StepMarkExecuting, StepExecute, StepVerify, StepPersist, StepRecover;
    if IsDiagnosis(p) || p.DiagnoseFail? {
      hide RR.HasActiveRun, RR.OtherActive;
    } else {
      OtherStepsWriteNoRun(s, me, p, c);
    }
  }

  lemma StillTakesBack(run: seq<World>, labels: seq<Label>, me: nat, r: string, k: nat)
    requires Labelled(run, labels) && 0 < k < |run| && me in run[k].calls && TakesBack(run[k].calls[me], r)
    requires r in run[k].shared.runs && run[k].shared.runs[r].status == RR.Completed && !Own(labels, me, k - 1)
    ensures me in run[k - 1].calls && TakesBack(run[k - 1].calls[me], r)
    ensures r in run[k - 1].shared.runs && run[k - 1].shared.runs[r].status == RR.Completed
  {
    hide Step, Enabled, Init, IsEntry;
    FollowsAt(run, labels, k - 1);
    if labels[k - 1].Arrival? {
      EntryIsNotDoomed(labels[k - 1].entry);
    }
    RunsAreHeld(run, labels, k - 1);
    RunKeptBetween(run, labels, k - 1, r);
  }

  /** A completed run stays COMPLETED for good, unless its own call, to which the answer of the
      completion was lost, sets it FAILED. */
  lemma {:induction false} CompletionIsFinalUnlessLost(run: seq<World>, labels: seq<Label>, j: nat, k: nat, r: string)
    requires Labelled(run, labels) && j <= k < |run|
    requires r in run[j].shared.runs && run[j].shared.runs[r].status == RR.Completed
    ensures r in run[k].shared.runs
    ensures var st := run[k].shared.runs[r].status;
            || st == RR.Completed
            || (st == RR.Failed && exists n :: 0 <= n < k && CompletionLost(run, labels, r, n))
    decreases k
  {
    hide Follows, Init, CompletionLost;
    if j < k {
      CompletionIsFinalUnlessLost(run, labels, j, k - 1, r);
      RunKeptBetween(run, labels, k - 1, r);
      if run[k - 1].shared.runs[r].status == RR.Completed && run[k].shared.runs[r].status != RR.Completed {
        OnlyLostIsTakenBack(run, labels, labels[k - 1].call, r, k - 1);
      }
    }
  }

  /** The failing interleaving: a completion whose answer is lost, and the call then sets its
      completed run FAILED. */
  lemma LostCompletionIsTakenBack(run: seq<World>, labels: seq<Label>, me: nat, c: Choice, d: Choice)
    returns (longer: seq<World>, more: seq<Label>)
    requires Labelled(run, labels) && me in Last(run).calls && Last(run).calls[me].DiagnoseEnd?
    requires c.fault.Lost? && c.diagnosed && d.fault.Answered?
    ensures Labelled(longer, more) && run <= longer && labels <= more && |longer| == |run| + 2
    ensures var r := Last(run).calls[me].record.id;
            && r in longer[|run|].shared.runs && longer[|run|].shared.runs[r].status == RR.Completed
            && r in Last(longer).shared.runs && Last(longer).shared.runs[r].status == RR.Failed
            && me in Last(longer).calls && Last(longer).calls[me] == Done(false)
  {
    hide Step, Enabled, Follows, Init;
    var s, record := Last(run).shared, Last(run).calls[me].record;
    CallIsReady(run, labels, me, |labels|);
    CompletesThenFails(s, me, record, c, d);
    var mid, some := TakeTurn(run, labels, me, c);
    longer, more := TakeTurn(mid, some, me, d);
    assert longer[|run|] == mid[|run|] == Last(mid);
  }

  lemma CompletesThenFails(s: Shared, me: nat, record: RR.Run, c: Choice, d: Choice)
    requires RR.UpdateRun(s.runs, record.(status := RR.Completed)).Ok?
    requires c.fault.Lost? && c.diagnosed && d.fault.Answered?
    ensures var (t, q) := Step(s, me, DiagnoseEnd(record), c);
            && q == DiagnoseFail(record) && Enabled(s, DiagnoseEnd(record), c) && Enabled(t, q, d)
            && record.id in t.runs && t.runs[record.id].status == RR.Completed
            && var (u, e) := Step(t, me, q, d);
               e == Done(false) && record.id in u.runs && u.runs[record.id].status == RR.Failed
  {
  }

  // ---- deliveries after a completion ----

  /** A delivery that arrives while its incident has a run, running or completed, and runs its
      course before that run is failed, is acknowledged without a diagnosis of its own. */
  lemma {:induction false} DeliveryAfterRunIsAcknowledged(run: seq<World>, labels: seq<Label>, me: nat, i: string,
                                                          a: nat, k: nat, r: string)
    requires Labelled(run, labels) && a < k < |run| && labels[a] == Arrival(me, DiagnoseRead(i))
    requires i in run[a].shared.incidents.items
    requires r in run[a].shared.runs && run[a].shared.runs[r].incident == i && r in run[k].shared.runs
    requires run[k].shared.runs[r].status == RR.Running || run[k].shared.runs[r].status == RR.Completed
    requires forall n | a < n < k && Own(labels, me, n) :: labels[n].choice.fault.Answered?
    ensures me in run[k].calls
    ensures run[k].calls[me] == DiagnoseRead(i) || run[k].calls[me].DiagnoseList? || run[k].calls[me] == Done(true)
    decreases k
  {
    hide Follows, Init;
    FollowsAt(run, labels, k - 1);
    if k == a + 1 {
      Arrived(run[a], run[k], me, DiagnoseRead(i));
    } else {
      RunsClimb(run, labels, a, k - 1, r);
      RunsClimb(run, labels, k - 1, k, r);
      DeliveryAfterRunIsAcknowledged(run, labels, me, i, a, k - 1, r);
      if Own(labels, me, k - 1) {
        KnownDeliveryReads(run, labels, me, i, a, k - 1);
        if run[k - 1].calls[me].DiagnoseList? {
          DeliveryMeetsRun(run, labels, me, i, a, k - 1, r);
        }
      } else {
        OthersLeave(run[k - 1], run[k], labels[k - 1], me);
      }
    }
  }

  lemma KnownDeliveryReads(run: seq<World>, labels: seq<Label>, me: nat, i: string, a: nat, n: nat)
    requires Labelled(run, labels) && a < n < |labels| && i in run[a].shared.incidents.items
    requires Own(labels, me, n) && me in run[n].calls && labels[n].choice.fault.Answered?
    requires run[n].calls[me] == DiagnoseRead(i) || run[n].calls[me].DiagnoseList? || run[n].calls[me] == Done(true)
    ensures me in run[n + 1].calls
    ensures run[n].calls[me] == DiagnoseRead(i) ==>
              run[n + 1].calls[me] == Done(true) || run[n + 1].calls[me].DiagnoseList?
    ensures run[n].calls[me] == DiagnoseRead(i) || run[n].calls[me].DiagnoseList?
  {
    hide Step, Enabled, Init, IsRun, Grows;
    FollowsAt(run, labels, n);
    OwnMoves(run[n], run[n + 1], me, labels[n].choice);
    LabelledIsRun(run, labels);
    RunGrows(run, a, n);
    StillKnown(run[a].shared, run[n].shared, i);
    if run[n].calls[me] == DiagnoseRead(i) {
      ReadGoesOn(run[n].shared, me, i, labels[n].choice);
    }
  }

  lemma StillKnown(s: Shared, t: Shared, i: string)
    requires Grows(s, t) && i in s.incidents.items
    ensures i in t.incidents.items
  {
  }

  lemma ReadGoesOn(s: Shared, me: nat, i: string, c: Choice)
    requires c.fault.Answered? && i in s.incidents.items
    ensures var q := Step(s, me, DiagnoseRead(i), c).1; q == Done(true) || q.DiagnoseList?
  {
  }
}
