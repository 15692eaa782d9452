/** The approval store: every status change is a compare-and-swap on the stored status. */
module ApprovalRepository {
  import opened Basics

  datatype ApprovalStatus =
    | Pending | Approved | Executing | Executed | Failed | Rejected | Expired | Unknown

  datatype Approval = Approval(
    id: string,
    incident: string,
    run: string,
    request: string,         // tool call, action, arguments and reason: never rewritten
    status: ApprovalStatus,
    approvedBy: string,
    approvedAt: Option<int>,
    result: string,
    error: Remark,
    operation: string,
    createdAt: int,
    updatedAt: int)

  /** The error column: empty, the fixed text of the recovery sweep, or the text of an error. */
  datatype Remark = NoError | RecoveredOutside | Because(text: string)

  datatype ApprovalError = NotFound | Conflict

  /** What a caller writes besides the status: the four closures the service passes. */
  datatype Mutation =
    | Keep
    | Sign(signer: string, at: int)
    | Note(remark: Remark)
    | Finish(output: string, operationId: string)

  type Rows = map<string, Approval>

  function Mutate(a: Approval, m: Mutation): Approval {
    match m
    case Keep => a
    case Sign(signer, at) => a.(approvedBy := signer, approvedAt := Some(at))
    case Note(remark) => a.(error := remark)
    case Finish(output, operationId) => a.(result := output, operation := operationId)
  }

  /** Height of a status in the acyclic approval graph. */
  function Level(s: ApprovalStatus): nat {
    match s
    case Pending => 0
    case Approved => 1
    case Executing => 2
    case _ => 3
  }

  /** The status moves the service asks for. */
  predicate ServiceEdge(from: ApprovalStatus, to: ApprovalStatus) {
    match from
    case Pending => to == Approved || to == Rejected || to == Expired
    case Approved => to == Executing || to == Expired
    case Executing => to == Executed || to == Failed || to == Unknown
    case _ => false
  }

  lemma ServiceEdgesClimb(from: ApprovalStatus, to: ApprovalStatus)
    requires ServiceEdge(from, to)
    ensures Level(from) < Level(to)
  {
  }

  function Changed(a: Approval, to: ApprovalStatus, now: int, m: Mutation): Approval {
    Mutate(a.(status := to, updatedAt := now), m)
  }

  lemma ChangedKeepsBinding(a: Approval, to: ApprovalStatus, now: int, m: Mutation)
    ensures var b := Changed(a, to, now, m);
            b.status == to && b.id == a.id && b.incident == a.incident && b.run == a.run
            && b.request == a.request && b.createdAt == a.createdAt && b.updatedAt == now
  {
  }

  function TransitionStatus(rows: Rows, id: string, from: ApprovalStatus, to: ApprovalStatus,
                            now: int, m: Mutation): Result<Rows, ApprovalError>
  {
    if id !in rows then Err(NotFound)
    else if rows[id].status != from then Err(Conflict)
    else Ok(rows[id := Changed(rows[id], to, now, m)])
  }

  /** The empty incident id selects nothing. */
  predicate Sweepable(a: Approval, incident: string) {
    incident != "" && a.incident == incident && a.status == Pending
  }

  function Swept(a: Approval, incident: string, now: int): Approval {
    if Sweepable(a, incident) then Changed(a, Expired, now, Note(RecoveredOutside)) else a
  }

  function ExpirePending(rows: Rows, incident: string, now: int): Rows {
    map id | id in rows :: Swept(rows[id], incident, now)
  }

  function Create(rows: Rows, a: Approval): Result<Rows, ApprovalError> {
    if a.id in rows then Err(Conflict) else Ok(rows[a.id := a])
  }

  /** The approvals among `keys` that a sweep of the incident expires. */
  ghost function Hits(rows: Rows, keys: set<string>, incident: string): set<string> {
    set id | id in keys && id in rows && Sweepable(rows[id], incident)
  }

  /** A sweep in progress: the keys in `left` are still to be visited. */
  ghost predicate PartlySwept(before: Rows, left: set<string>, rows: Rows, incident: string, now: int) {
    && rows.Keys == before.Keys
    && forall id | id in before ::
         rows[id] == if id in left then before[id] else Swept(before[id], incident, now)
  }

  lemma SweepOne(before: Rows, left: set<string>, rows: Rows, id: string, incident: string, now: int)
    requires left <= before.Keys && id in left
    requires PartlySwept(before, left, rows, incident, now)
    ensures rows.Keys == before.Keys && rows[id] == before[id]
    ensures PartlySwept(before, left - {id}, rows[id := Swept(before[id], incident, now)], incident, now)
    ensures !Sweepable(before[id], incident) ==> PartlySwept(before, left - {id}, rows, incident, now)
    ensures |Hits(before, before.Keys - (left - {id}), incident)|
         == |Hits(before, before.Keys - left, incident)| + (if Sweepable(before[id], incident) then 1 else 0)
  {
    var was := Hits(before, before.Keys - left, incident);
    var after := Hits(before, before.Keys - (left - {id}), incident);
    assert after == if Sweepable(before[id], incident) then was + {id} else was;
  }

  lemma SweptIs(a: Approval, incident: string, now: int)
    ensures Sweepable(a, incident) <==> !(incident == "" || a.incident != incident || a.status != Pending)
    ensures Sweepable(a, incident) ==>
              Swept(a, incident, now) == a.(status := Expired, error := RecoveredOutside, updatedAt := now)
  {
  }

  lemma SweepEnds(before: Rows, incident: string, now: int)
    ensures PartlySwept(before, before.Keys, before, incident, now)
    ensures forall left, rows | PartlySwept(before, left, rows, incident, now) :: rows.Keys == before.Keys
    ensures |Hits(before, before.Keys - before.Keys, incident)| == 0
    ensures forall rows | PartlySwept(before, {}, rows, incident, now) :: rows == ExpirePending(before, incident, now)
  {
  }

  class Memory {
    var items: Rows

    constructor ()
      ensures items == map[]
    {
      items := map[];
    }

    method Insert(a: Approval) returns (err: Option<ApprovalError>)
      modifies this
      ensures match Create(old(items), a)
              case Ok(rows) => err == None && items == rows
              case Err(e) => err == Some(e) && items == old(items)
    {
      if a.id in items {
        return Some(Conflict);
      }
      items := items[a.id := a];
      return None;
    }

    method Transition(id: string, from: ApprovalStatus, to: ApprovalStatus, now: int, m: Mutation)
      returns (r: Result<Approval, ApprovalError>)
      modifies this
      ensures match TransitionStatus(old(items), id, from, to, now, m)
              case Ok(rows) => items == rows && r == Ok(rows[id])
              case Err(e) => items == old(items) && r == Err(e)
    {
      if id !in items {
        return Err(NotFound);
      }
      var cur := items[id];
      if cur.status != from {
        return Err(Conflict);
      }
      var next := Mutate(cur.(status := to, updatedAt := now), m);
      items := items[id := next];
      return Ok(next);
    }

    /** Expires every pending approval of the incident and counts them. */
    method ExpirePendingByIncident(incident: string, now: int) returns (expired: nat)
      modifies this
      ensures items == ExpirePending(old(items), incident, now)
      ensures expired == |Hits(old(items), old(items).Keys, incident)|
    {
      expired := 0;
      ghost var before := items;
      var left := items.Keys;
      SweepEnds(before, incident, now);
      hide *;
      while left != {}
        invariant left <= before.Keys
        invariant PartlySwept(before, left, items, incident, now)
        invariant expired == |Hits(before, before.Keys - left, incident)|
        decreases |left|
      {
        var id :| id in left;
        var a := items[id];
        SweepOne(before, left, items, id, incident, now);
        SweptIs(a, incident, now);
        if !(incident == "" || a.incident != incident || a.status != Pending) {
          var next := a.(status := Expired, error := RecoveredOutside, updatedAt := now);
          items := items[id := next];
          expired := expired + 1;
        }
        left := left - {id};
      }
      assert before.Keys - left == before.Keys;
      assert PartlySwept(before, {}, items, incident, now);
    }
  }
}
