/** Runs of the closed loop with every step named: who arrived, or who moved and how the
    outside decided. */
module ClosedLoopRuns {
  import opened Basics
  import opened Incidents
  import opened ClosedLoop
  import opened ClosedLoopTheorems
  import opened ClosedLoopAlone
  import AR = ApprovalRepository

  datatype Label = Arrival(call: nat, entry: Phase) | Turn(call: nat, choice: Choice)

  ghost predicate Follows(w: World, w': World, l: Label) {
    match l
    case Arrival(me, p) => Arrives(w, w', me, p)
    case Turn(me, c) => Advances(w, w', me, c)
  }

  ghost predicate Labelled(run: seq<World>, labels: seq<Label>) {
    && |run| == |labels| + 1 && Init(run[0])
    && forall k {:trigger Follows(run[k], run[k + 1], labels[k])} | 0 <= k < |labels| ::
         Follows(run[k], run[k + 1], labels[k])
  }

  lemma FollowsAt(run: seq<World>, labels: seq<Label>, k: nat)
    requires Labelled(run, labels) && k < |labels|
    ensures Follows(run[k], run[k + 1], labels[k])
  {
  }

  lemma LabelledIsRun(run: seq<World>, labels: seq<Label>)
    requires Labelled(run, labels)
    ensures IsRun(run)
  {
    hide Init, Follows, Next;
    forall k | 0 <= k < |run| - 1 ensures Next(run[k], run[k + 1]) {
      FollowsIsNext(run[k], run[k + 1], labels[k]);
    }
  }

  lemma FollowsIsNext(w: World, w': World, l: Label)
    requires Follows(w, w', l)
    ensures Next(w, w')
  {
    hide Arrives, Advances;
  }

  /** Every run can be labelled. */
  lemma {:induction false} RunHasLabels(run: seq<World>) returns (labels: seq<Label>)
    requires IsRun(run)
    ensures Labelled(run, labels)
  {
    hide Init, Arrives, Advances;
    labels := [];
    if |run| > 1 {
      var last := |run| - 1;
      var init := run[..last];
      forall k | 0 <= k < |init| - 1 ensures Next(init[k], init[k + 1]) {
        assert Next(run[k], run[k + 1]);
      }
      var before := RunHasLabels(init);
      StepInRun(run, last - 1);
      var l := NextHasLabel(run[last - 1], run[last]);
      labels := before + [l];
      assert run == init + [run[last]];
      OneMore(init, before, l, run[last]);
    }
  }

  lemma NextHasLabel(w: World, w': World) returns (l: Label)
    requires Next(w, w')
    ensures Follows(w, w', l)
  {
    hide Arrives, Advances;
    if me, p :| Arrives(w, w', me, p) {
      l := Arrival(me, p);
    } else {
      var me, c :| Advances(w, w', me, c);
      l := Turn(me, c);
    }
  }

  lemma OneMore(run: seq<World>, labels: seq<Label>, l: Label, w: World)
    requires Labelled(run, labels) && Follows(run[|labels|], w, l)
    ensures Labelled(run + [w], labels + [l])
  {
    hide Follows, Init;
    var longer, more := run + [w], labels + [l];
    forall k | 0 <= k < |more| ensures Follows(longer[k], longer[k + 1], more[k]) {
      assert longer[k] == run[k] && (k < |labels| ==> longer[k + 1] == run[k + 1] && more[k] == labels[k]);
    }
  }

  function Last(run: seq<World>): World
    requires run != []
  {
    run[|run| - 1]
  }

  // ---- one call by itself ----

  /** The outside may answer as the choices say, for as long as the call goes on. */
  ghost predicate Answerable(s: Shared, me: nat, p: Phase, cs: seq<Choice>)
    decreases |cs|
  {
    cs == [] || p.Done? ||
    (Enabled(s, p, cs[0]) && var (t, q) := Step(s, me, p, cs[0]); Answerable(t, me, q, cs[1..]))
  }

  /** One turn of one call. */
  lemma TakeTurn(run: seq<World>, labels: seq<Label>, me: nat, c: Choice)
    returns (longer: seq<World>, more: seq<Label>)
    requires Labelled(run, labels) && me in Last(run).calls && !Last(run).calls[me].Done?
    requires Enabled(Last(run).shared, Last(run).calls[me], c)
    ensures Labelled(longer, more) && run <= longer && labels <= more && |more| == |labels| + 1
    ensures var w := Last(run);
            var (t, q) := Step(w.shared, me, w.calls[me], c);
            Last(longer) == World(t, w.calls[me := q])
    ensures more[|labels|] == Turn(me, c)
  {
    hide Step, Enabled, Init;
    var w := Last(run);
    var (t, q) := Step(w.shared, me, w.calls[me], c);
    longer, more := run + [World(t, w.calls[me := q])], labels + [Turn(me, c)];
    OneMore(run, labels, Turn(me, c), World(t, w.calls[me := q]));
  }

  lemma Arrive(run: seq<World>, labels: seq<Label>, me: nat, p: Phase)
    returns (longer: seq<World>, more: seq<Label>)
    requires Labelled(run, labels) && me !in Last(run).calls && IsEntry(p)
    ensures Labelled(longer, more) && run <= longer && labels <= more && |more| == |labels| + 1
    ensures Last(longer) == World(Last(run).shared, Last(run).calls[me := p])
    ensures more[|labels|] == Arrival(me, p)
  {
    hide IsEntry, Init;
    var w := Last(run);
    longer, more := run + [w.(calls := w.calls[me := p])], labels + [Arrival(me, p)];
    OneMore(run, labels, Arrival(me, p), w.(calls := w.calls[me := p]));
  }

  /** A call that runs by itself is part of a run: any run ending where it stands can go on
      with exactly its steps, and ends where it ends. */
  lemma {:induction false} AloneIsRun(run: seq<World>, labels: seq<Label>, me: nat, cs: seq<Choice>)
    returns (longer: seq<World>, more: seq<Label>)
    requires Labelled(run, labels) && me in Last(run).calls
    requires Answerable(Last(run).shared, me, Last(run).calls[me], cs)
    ensures Labelled(longer, more) && run <= longer && labels <= more
    ensures var w := Last(run);
            var (t, q) := Alone(w.shared, me, w.calls[me], cs);
            Last(longer) == World(t, w.calls[me := q])
    ensures forall k | |labels| <= k < |more| :: more[k].Turn? && more[k].call == me
    decreases |cs|
  {
    hide Step, Enabled, Follows, Init;
    longer, more := run, labels;
    var w := Last(run);
    if cs == [] || w.calls[me].Done? {
      assert w == World(w.shared, w.calls[me := w.calls[me]]);
    } else {
      var (t, q) := Step(w.shared, me, w.calls[me], cs[0]);
      longer, more := TakeTurn(run, labels, me, cs[0]);
      var farther, again := AloneIsRun(longer, more, me, cs[1..]);
      assert w.calls[me := q][me := Last(farther).calls[me]] == w.calls[me := Last(farther).calls[me]];
      longer, more := farther, again;
    }
  }

  /** Phases whose steps ask for nothing but stores and answers that are always possible. */
  predicate Free(p: Phase) {
    !p.CreateFind? && !p.CreateWrite? && !p.CreateFindAgain? && !p.RecoverFind? && !p.RecoverLatest?
  }

  lemma FreeStays(s: Shared, me: nat, p: Phase, c: Choice)
    requires Free(p) && !p.Done?
    ensures Enabled(s, p, c) && Free(Step(s, me, p, c).1)
  {
    hide SequencePasses, AR.TransitionStatus, CanTransition, MovedTo;
  }

  lemma {:induction false} FreeIsAnswerable(s: Shared, me: nat, p: Phase, cs: seq<Choice>)
    requires Free(p)
    ensures Answerable(s, me, p, cs)
    decreases |cs|
  {
    hide Step, Enabled, Free;
    if cs != [] && !p.Done? {
      FreeStays(s, me, p, cs[0]);
      var (t, q) := Step(s, me, p, cs[0]);
      FreeIsAnswerable(t, me, q, cs[1..]);
    }
  }

  /** From any state in which an approval waits for its decision, with an executor wired, the
      run can go on to the action: the guarantees about actions speak of runs that exist. */
  lemma ActionIsReachable(run: seq<World>, labels: seq<Label>, me: nat, id: string, signer: string, cs: seq<Choice>)
    returns (longer: seq<World>, more: seq<Label>)
    requires Labelled(run, labels) && me !in Last(run).calls
    requires ReadyToApprove(Last(run).shared, id) && Last(run).shared.config.executor && |cs| == 13
    requires FreshFrom(Last(run).shared, cs, 0) && forall k | 0 <= k < |cs| :: cs[k].fault.Answered?
    ensures Labelled(longer, more) && run <= longer && labels <= more
    ensures var s, t := Last(run).shared, Last(longer).shared;
            && t.actions == s.actions + [Action(s.approvals[id].incident, id)]
            && me in Last(longer).calls && Last(longer).calls[me] == Done(true)
  {
    hide Follows, Init, FreshFrom, Alone, Step;
    var s := Last(run).shared;
    assert IsEntry(Claim(id, signer));
    longer, more := Arrive(run, labels, me, Claim(id, signer));
    FreeIsAnswerable(s, me, Claim(id, signer), cs);
    longer, more := AloneIsRun(longer, more, me, cs);
    ApproveAlone(s, me, id, signer, cs);
  }
}
