/** The incident record, its audit events, and the table of legal status moves. */
module Incidents {
  import opened Basics

  datatype Status =
    | Open | Investigating | NeedApproval | WaitingApproval
    | Mitigating | Verifying | Resolved | Failed | Cancelled
  {
    predicate IsTerminal() { Resolved? || Failed? || Cancelled? }
  }

  datatype Incident = Incident(
    id: string,
    fingerprint: string,
    details: string,         // service, severity, title, description and alert name
    status: Status,
    createdAt: int,
    updatedAt: int,
    resolvedAt: Option<int>,
    version: int)

  datatype EventKind =
    | Created
    | Moved(from: Status, to: Status, reason: Reason)
    | ActionCompleted(approval: string)
    | ActionFailed(approval: string)
    | VerificationFailed(approval: string)
    | PostmortemGenerated(approval: string)

  datatype Event = Event(id: string, incident: string, kind: EventKind)

  /** Why a status changed: the fixed texts of the service, or a text given by the caller. */
  datatype Reason = MachineTransition | AlertResolvedOutside | Given(text: string)

  /** The table of legal moves; a status without an entry has no way out. */
  function AllowedTargets(current: Status): seq<Status> {
    match current
    case Open => [Investigating, Failed]
    case Investigating => [WaitingApproval, Failed]
    case WaitingApproval => [Mitigating, Failed]
    case Mitigating => [Verifying, Failed]
    case Verifying => [Resolved, Failed]
    case _ => []
  }

  predicate CanTransition(current: Status, next: Status) {
    next in AllowedTargets(current)
  }

  /** A status from which an outside recovery may still close the incident. */
  predicate BeforeMitigation(s: Status) {
    !s.IsTerminal() && s != Mitigating && s != Verifying
  }

  /** An edge some call may write: a table edge, or an outside recovery. */
  predicate Edge(from: Status, to: Status, reason: Reason) {
    || CanTransition(from, to)
    || (to == Resolved && reason == AlertResolvedOutside && BeforeMitigation(from))
  }

  /** Height of a status in the acyclic move graph. */
  function Height(s: Status): nat {
    match s
    case Open => 0
    case Investigating => 1
    case NeedApproval => 1
    case WaitingApproval => 2
    case Mitigating => 3
    case Verifying => 4
    case _ => 5
  }

  /** The table, move by move. */
  lemma MoveTable(from: Status, to: Status)
    ensures CanTransition(from, to) <==>
            || (from == Open && to == Investigating)
            || (from == Investigating && to == WaitingApproval)
            || (from == WaitingApproval && to == Mitigating)
            || (from == Mitigating && to == Verifying)
            || (from == Verifying && to == Resolved)
            || (to == Failed && (from == Open || from == Investigating || from == WaitingApproval
                                 || from == Mitigating || from == Verifying))
  {
  }

  /** Every edge climbs, so the graph has no cycle; a terminal status has no exit, and
      VERIFYING is entered from MITIGATING only, RESOLVED from VERIFYING only unless the
      alert recovered outside. */
  lemma EdgesClimb(from: Status, to: Status, reason: Reason)
    requires Edge(from, to, reason)
    ensures Height(from) < Height(to)
    ensures !from.IsTerminal()
    ensures to == Mitigating ==> from == WaitingApproval
    ensures to == Verifying ==> from == Mitigating
    ensures to == Resolved ==> from == Verifying || BeforeMitigation(from)
    ensures from.Mitigating? || from.Verifying? ==> !BeforeMitigation(to)
    ensures to != Open && to != NeedApproval && to != Cancelled
  {
  }

  /** What a log says about its incident when it is read from the first event on. */
  datatype Replayed = Unborn | Broken | At(status: Status, version: nat)

  function ReplayOne(r: Replayed, k: EventKind): Replayed {
    match (r, k)
    case (Unborn, Created) => At(Open, 0)
    case (At(s, v), Moved(from, to, reason)) =>
      if from == s && Edge(from, to, reason) then At(to, v + 1) else Broken
    case (At(_, _), ActionCompleted(_)) => r
    case (At(_, _), ActionFailed(_)) => r
    case (At(_, _), VerificationFailed(_)) => r
    case (At(_, _), PostmortemGenerated(_)) => r
    case _ => Broken
  }

  function Replay(log: seq<Event>): Replayed {
    if log == [] then Unborn
    else ReplayOne(Replay(log[..|log| - 1]), log[|log| - 1].kind)
  }

  lemma ReplayAppend(log: seq<Event>, e: Event)
    ensures Replay(log + [e]) == ReplayOne(Replay(log), e.kind)
  {
  }

  /** The status moves a log records, oldest first. */
  function Moves(log: seq<Event>): seq<EventKind> {
    if log == [] then []
    else
      var last := log[|log| - 1].kind;
      Moves(log[..|log| - 1]) + (if last.Moved? then [last] else [])
  }

  /** A chain of moves from OPEN to `end` along edges. */
  ghost predicate IsChain(moves: seq<EventKind>, end: Status) {
    && (forall k | 0 <= k < |moves| :: moves[k].Moved? && Edge(moves[k].from, moves[k].to, moves[k].reason))
    && (forall k | 1 <= k < |moves| :: moves[k].from == moves[k - 1].to)
    && (moves != [] ==> moves[0].from == Open && moves[|moves| - 1].to == end)
    && (moves == [] ==> end == Open)
  }

  /** A log that replays to a status and a version is a chain of that many moves ending there,
      and it cannot hold more than five of them. */
  lemma {:induction false} ReplayIsChain(log: seq<Event>)
    requires Replay(log).At?
    ensures IsChain(Moves(log), Replay(log).status)
    ensures |Moves(log)| == Replay(log).version <= Height(Replay(log).status) <= 5
  {
    var shorter := log[..|log| - 1];
    if Replay(shorter).At? {
      ReplayIsChain(shorter);
      var last := log[|log| - 1].kind;
      if last.Moved? {
        EdgesClimb(last.from, last.to, last.reason);
        assert Moves(log) == Moves(shorter) + [last];
      } else {
        assert Moves(log) == Moves(shorter);
      }
    } else {
      assert Replay(shorter) == Unborn;
      assert shorter == [] by {
        if shorter != [] {
          UnbornIsEmpty(shorter);
        }
      }
      assert Moves(log) == [];
    }
  }

  lemma {:induction false} UnbornIsEmpty(log: seq<Event>)
    ensures Replay(log) == Unborn <==> log == []
  {
  }

  /** The log records that an outside recovery closed the incident. */
  ghost predicate ClosedOutside(log: seq<Event>) {
    exists k | 0 <= k < |log| :: IsOutsideRecovery(log[k].kind)
  }

  predicate IsOutsideRecovery(k: EventKind) {
    k.Moved? && k.to == Resolved && k.reason == AlertResolvedOutside
  }

  ghost predicate Records(log: seq<Event>, kind: EventKind) {
    exists k | 0 <= k < |log| :: log[k].kind == kind
  }
}
