/** The relational approval store. A status change is two statements, a read and a conditional
    update, with any number of other calls between them; the result is nevertheless that of
    the atomic store. */
module PostgresApproval {
  import opened Basics
  import opened ApprovalRepository

  // ---- the atomic store ----

  datatype Op =
    | Transition(id: string, source: ApprovalStatus, target: ApprovalStatus, now: int, m: Mutation)
    | Insert(a: Approval)
    | Sweep(incident: string, now: int)

  datatype Answer = Row(a: Approval) | Missing | Conflicting | Inserted | Count(n: nat)

  ghost function Apply(rows: Rows, op: Op): (Rows, Answer) {
    match op
    case Transition(id, source, target, now, m) =>
      (match TransitionStatus(rows, id, source, target, now, m)
       case Ok(after) => (after, Row(after[id]))
       case Err(NotFound) => (rows, Missing)
       case Err(Conflict) => (rows, Conflicting))
    case Insert(a) =>
      (match Create(rows, a)
       case Ok(after) => (after, Inserted)
       case Err(_) => (rows, Conflicting))
    case Sweep(incident, now) =>
      (ExpirePending(rows, incident, now), Count(|Hits(rows, rows.Keys, incident)|))
  }

  // ---- the relational store ----

  /** The columns the conditional update of a status change writes. */
  function UpdateColumns(row: Approval, a: Approval): Approval {
    row.(status := a.status, approvedBy := a.approvedBy, approvedAt := a.approvedAt,
         result := a.result, error := a.error, operation := a.operation, updatedAt := a.updatedAt)
  }

  datatype Call =
    | Start(op: Op)
    | HasRead(op: Op, snapshot: Approval)
    | Returned(op: Op, answer: Answer)
    | Broken(op: Op)   // ended with a database error, whether or not its statement took effect

  /** One completed operation, in the order in which the operations took effect. */
  datatype Entry = Entry(call: nat, op: Op, answer: Answer)

  datatype Db = Db(rows: Rows, calls: map<nat, Call>, history: seq<Entry>)

  /** A caller asks only for the status moves of the service. */
  predicate Admissible(op: Op) {
    op.Transition? ==> ServiceEdge(op.source, op.target)
  }

  function Return(db: Db, rows: Rows, c: nat, op: Op, answer: Answer): Db {
    Db(rows, db.calls[c := Returned(op, answer)], db.history + [Entry(c, op, answer)])
  }

  /** The read: a missing row and a wrong status are answered at once. */
  function ReadStatement(db: Db, c: nat, op: Op): Db
    requires op.Transition?
  {
    if op.id !in db.rows then Return(db, db.rows, c, op, Missing)
    else if db.rows[op.id].status != op.source then Return(db, db.rows, c, op, Conflicting)
    else db.(calls := db.calls[c := HasRead(op, db.rows[op.id])])
  }

  /** The update of the row whose id and status still match; no such row is a conflict. */
  function UpdateStatement(db: Db, c: nat, op: Op, snapshot: Approval): Db
    requires op.Transition?
  {
    var a := Changed(snapshot, op.target, op.now, op.m);
    if op.id in db.rows && db.rows[op.id].status == op.source
    then Return(db, db.rows[op.id := UpdateColumns(db.rows[op.id], a)], c, op, Row(a))
    else Return(db, db.rows, c, op, Conflicting)
  }

  /** One statement for the sweep: the pending rows of the incident, three columns each. */
  ghost function SweepStatement(db: Db, c: nat, op: Op): Db
    requires op.Sweep?
  {
    var chosen := set id | id in db.rows && op.incident != "" && db.rows[id].incident == op.incident
                           && db.rows[id].status == Pending;
    var rows := map id | id in db.rows ::
      if id in chosen then db.rows[id].(status := Expired, error := RecoveredOutside, updatedAt := op.now)
      else db.rows[id];
    Return(db, rows, c, op, Count(|chosen|))
  }

  function InsertStatement(db: Db, c: nat, op: Op): Db
    requires op.Insert?
  {
    if op.a.id in db.rows then Return(db, db.rows, c, op, Conflicting)
    else Return(db, db.rows[op.a.id := op.a], c, op, Inserted)
  }

  ghost predicate Arrives(db: Db, db': Db, c: nat, op: Op) {
    c !in db.calls && Admissible(op) && db' == db.(calls := db.calls[c := Start(op)])
  }

  ghost predicate Executes(db: Db, db': Db, c: nat) {
    && c in db.calls
    && match db.calls[c]
       case Start(op) =>
         (match op
          case Transition(_, _, _, _, _) => db' == ReadStatement(db, c, op)
          case Insert(_) => db' == InsertStatement(db, c, op)
          case Sweep(_, _) => db' == SweepStatement(db, c, op))
       case HasRead(op, snapshot) => op.Transition? && db' == UpdateStatement(db, c, op, snapshot)
       case Returned(_, _) => false
       case Broken(_) => false
  }

  predicate Unfinished(call: Call) {
    call.Start? || call.HasRead?
  }

  function Abandon(db: Db, c: nat): Db
    requires c in db.calls
  {
    db.(calls := db.calls[c := Broken(db.calls[c].op)])
  }

  /** A statement fails, or takes effect and its answer is lost; the caller sees an error. */
  ghost predicate Breaks(db: Db, db': Db, c: nat) {
    && c in db.calls && Unfinished(db.calls[c])
    && (db' == Abandon(db, c) || exists done :: Executes(db, done, c) && c in done.calls && db' == Abandon(done, c))
  }

  ghost predicate Next(db: Db, db': Db) {
    || (exists c, op :: Arrives(db, db', c, op))
    || (exists c :: Executes(db, db', c))
    || (exists c :: Breaks(db, db', c))
  }

  ghost predicate IsRun(run: seq<Db>) {
    && run != [] && run[0].calls == map[] && run[0].history == []
    && Keyed(run[0].rows)
    && forall k {:trigger Next(run[k], run[k + 1])} | 0 <= k < |run| - 1 :: Next(run[k], run[k + 1])
  }

  lemma StepInRun(run: seq<Db>, k: nat)
    requires IsRun(run) && k < |run| - 1
    ensures Next(run[k], run[k + 1])
  {
  }

  ghost predicate Keyed(rows: Rows) {
    forall id | id in rows :: rows[id].id == id
  }

  // ---- the refinement ----

  /** The rows after the operations of a history, executed one after the other atomically. */
  ghost function Fold(start: Rows, history: seq<Entry>): Rows {
    if history == [] then start
    else Apply(Fold(start, history[..|history| - 1]), history[|history| - 1].op).0
  }

  /** Every answer given is the answer of the atomic store at that point of the history. */
  ghost predicate AnswersAtomic(start: Rows, history: seq<Entry>) {
    forall k | 0 <= k < |history| :: history[k].answer == Apply(Fold(start, history[..k]), history[k].op).1
  }

  /** The row read earlier is the row now, unless its status has climbed. */
  ghost predicate SnapshotOk(rows: Rows, op: Op, snapshot: Approval) {
    && op.Transition? && Admissible(op)
    && snapshot.id == op.id && snapshot.status == op.source
    && op.id in rows
    && (rows[op.id] == snapshot || Level(snapshot.status) < Level(rows[op.id].status))
  }

  ghost predicate CallOk(db: Db, c: nat)
    requires c in db.calls
  {
    match db.calls[c]
    case Start(op) => Admissible(op)
    case HasRead(op, snapshot) => SnapshotOk(db.rows, op, snapshot)
    case Returned(op, answer) => Entry(c, op, answer) in db.history
    case Broken(_) => true
  }

  ghost predicate Refines(start: Rows, db: Db) {
    && db.rows == Fold(start, db.history)
    && AnswersAtomic(start, db.history)
    && (forall c | c in db.calls :: CallOk(db, c))
    && Keyed(db.rows)
  }

  /** Rows stay, and one that changes climbs. */
  ghost predicate Climbs(rows: Rows, after: Rows) {
    forall id | id in rows ::
      && id in after && after[id].id == rows[id].id
      && (after[id] == rows[id] || Level(rows[id].status) < Level(after[id].status))
  }

  lemma CallsSurvive(db: Db, db': Db, c: nat)
    requires c in db.calls && CallOk(db, c) && c in db'.calls && db'.calls[c] == db.calls[c]
    requires Climbs(db.rows, db'.rows) && db.history <= db'.history
    ensures CallOk(db', c)
  {
  }

  /** A return that agrees with the atomic operation on rows and answer keeps the refinement. */
  lemma ReturnRefines(start: Rows, db: Db, c: nat, op: Op, rows: Rows, answer: Answer)
    requires Refines(start, db) && c in db.calls
    requires Apply(db.rows, op) == (rows, answer)
    requires Climbs(db.rows, rows) && Keyed(rows)
    ensures Refines(start, Return(db, rows, c, op, answer))
  {
    hide Apply, Climbs, Keyed, CallOk;
    var db' := Return(db, rows, c, op, answer);
    var n := |db.history|;
    assert db'.history[..n] == db.history;
    forall k | 0 <= k < |db'.history|
      ensures db'.history[k].answer == Apply(Fold(start, db'.history[..k]), db'.history[k].op).1
    {
      if k < n {
        assert db'.history[..k] == db.history[..k];
      }
    }
    forall d | d in db'.calls ensures CallOk(db', d) {
      if d != c {
        CallsSurvive(db, db', d);
      } else {
        ReturnedIsLogged(db', c, op, answer, n);
      }
    }
  }

  lemma ReturnedIsLogged(db: Db, c: nat, op: Op, answer: Answer, n: nat)
    requires c in db.calls && db.calls[c] == Returned(op, answer)
    requires n < |db.history| && db.history[n] == Entry(c, op, answer)
    ensures CallOk(db, c)
  {
  }

  /** The heart of the refinement: when the status still matches at the update, nothing was
      written between the two statements, so writing the columns of the mutated snapshot
      gives the row that the atomic change gives, and no other call's field is lost. */
  lemma MatchingStatusMeansUnchangedRow(rows: Rows, op: Op, snapshot: Approval)
    requires SnapshotOk(rows, op, snapshot) && rows[op.id].status == op.source
    ensures rows[op.id] == snapshot
    ensures UpdateColumns(rows[op.id], Changed(snapshot, op.target, op.now, op.m))
         == Changed(rows[op.id], op.target, op.now, op.m)
  {
  }

  lemma ReadRefines(start: Rows, db: Db, c: nat, op: Op)
    requires Refines(start, db) && c in db.calls && db.calls[c] == Start(op) && op.Transition?
    ensures Refines(start, ReadStatement(db, c, op))
  {
    hide AnswersAtomic, Fold;
    assert CallOk(db, c);
    if op.id !in db.rows {
      ReturnRefines(start, db, c, op, db.rows, Missing);
    } else if db.rows[op.id].status != op.source {
      ReturnRefines(start, db, c, op, db.rows, Conflicting);
    } else {
      var db' := ReadStatement(db, c, op);
      forall d | d in db'.calls ensures CallOk(db', d) {
        if d != c {
          CallsSurvive(db, db', d);
        }
      }
    }
  }

  lemma UpdateRefines(start: Rows, db: Db, c: nat, op: Op, snapshot: Approval)
    requires Refines(start, db) && c in db.calls && db.calls[c] == HasRead(op, snapshot)
    ensures op.Transition? && Refines(start, UpdateStatement(db, c, op, snapshot))
  {
    hide AnswersAtomic, Fold, UpdateColumns;
    assert CallOk(db, c);
    if db.rows[op.id].status == op.source {
      MatchingStatusMeansUnchangedRow(db.rows, op, snapshot);
      var next := Changed(snapshot, op.target, op.now, op.m);
      ServiceEdgesClimb(op.source, op.target);
      ReturnRefines(start, db, c, op, db.rows[op.id := next], Row(next));
    } else {
      ReturnRefines(start, db, c, op, db.rows, Conflicting);
    }
  }

  lemma SweepRefines(start: Rows, db: Db, c: nat, op: Op)
    requires Refines(start, db) && c in db.calls && db.calls[c] == Start(op) && op.Sweep?
    ensures Refines(start, SweepStatement(db, c, op))
  {
    hide AnswersAtomic, Fold, CallOk;
    var rows := ExpirePending(db.rows, op.incident, op.now);
    var chosen := set id | id in db.rows && op.incident != "" && db.rows[id].incident == op.incident
                           && db.rows[id].status == Pending;
    assert chosen == Hits(db.rows, db.rows.Keys, op.incident);
    assert rows == map id | id in db.rows ::
      if id in chosen then db.rows[id].(status := Expired, error := RecoveredOutside, updatedAt := op.now)
      else db.rows[id];
    ReturnRefines(start, db, c, op, rows, Count(|chosen|));
  }

  lemma InsertRefines(start: Rows, db: Db, c: nat, op: Op)
    requires Refines(start, db) && c in db.calls && db.calls[c] == Start(op) && op.Insert?
    ensures Refines(start, InsertStatement(db, c, op))
  {
    hide AnswersAtomic, Fold, CallOk;
    if op.a.id in db.rows {
      ReturnRefines(start, db, c, op, db.rows, Conflicting);
    } else {
      ReturnRefines(start, db, c, op, db.rows[op.a.id := op.a], Inserted);
    }
  }

  lemma ArrivalRefines(start: Rows, db: Db, db': Db, c: nat, op: Op)
    requires Refines(start, db) && Arrives(db, db', c, op)
    ensures Refines(start, db')
  {
    hide AnswersAtomic, Fold, Keyed;
    forall d | d in db'.calls ensures CallOk(db', d) {
      if d != c {
        CallsSurvive(db, db', d);
      }
    }
  }

  lemma ExecutionRefines(start: Rows, db: Db, db': Db, c: nat)
    requires Refines(start, db) && Executes(db, db', c)
    ensures Refines(start, db')
  {
    hide AnswersAtomic, Fold, ReadStatement, UpdateStatement, SweepStatement, InsertStatement, Keyed, CallOk;
    match db.calls[c] {
      case Start(op) =>
        match op {
          case Transition(_, _, _, _, _) => ReadRefines(start, db, c, op);
          case Insert(_) => InsertRefines(start, db, c, op);
          case Sweep(_, _) => SweepRefines(start, db, c, op);
        }
      case HasRead(op, snapshot) => UpdateRefines(start, db, c, op, snapshot);
    }
  }

  lemma AbandonRefines(start: Rows, db: Db, c: nat)
    requires Refines(start, db) && c in db.calls
    ensures Refines(start, Abandon(db, c))
  {
    hide AnswersAtomic, Fold, Keyed;
    var db' := Abandon(db, c);
    forall d | d in db'.calls ensures CallOk(db', d) {
      if d != c {
        CallsSurvive(db, db', d);
      }
    }
  }

  lemma NextRefines(start: Rows, db: Db, db': Db)
    requires Refines(start, db) && Next(db, db')
    ensures Refines(start, db')
  {
    hide Refines, Arrives, Executes;
    if c, op :| Arrives(db, db', c, op) {
      ArrivalRefines(start, db, db', c, op);
    } else if c :| Executes(db, db', c) {
      ExecutionRefines(start, db, db', c);
    } else {
      var c :| Breaks(db, db', c);
      if db' == Abandon(db, c) {
        AbandonRefines(start, db, c);
      } else {
        var done :| Executes(db, done, c) && c in done.calls && db' == Abandon(done, c);
        ExecutionRefines(start, db, done, c);
        AbandonRefines(start, done, c);
      }
    }
  }

  /** Every run of the relational store is a run of the atomic store: the operations, in the
      order in which they took effect, give exactly the rows and exactly the answers that the
      atomic store gives, and every call that returned is one of them. */
  lemma {:induction false} RelationalRunIsAtomic(run: seq<Db>, k: nat)
    requires IsRun(run) && k < |run|
    ensures run[k].rows == Fold(run[0].rows, run[k].history)
    ensures AnswersAtomic(run[0].rows, run[k].history)
    ensures forall c | c in run[k].calls && run[k].calls[c].Returned? ::
              Entry(c, run[k].calls[c].op, run[k].calls[c].answer) in run[k].history
    ensures Refines(run[0].rows, run[k])
  {
    hide Next, Fold, AnswersAtomic;
    if k == 0 {
      StartRefines(run[0]);
    } else {
      RelationalRunIsAtomic(run, k - 1);
      StepInRun(run, k - 1);
      NextRefines(run[0].rows, run[k - 1], run[k]);
    }
    forall c | c in run[k].calls && run[k].calls[c].Returned?
      ensures Entry(c, run[k].calls[c].op, run[k].calls[c].answer) in run[k].history
    {
      assert CallOk(run[k], c);
    }
  }

  // ---- the order of the operations ----

  /** Every entry is of a call that arrived, and of what it asked for; a call has at most one,
      and none while it is unfinished. */
  ghost predicate Linear(db: Db) {
    && (forall n | 0 <= n < |db.history| ::
          && db.history[n].call in db.calls
          && db.history[n].op == db.calls[db.history[n].call].op
          && !Unfinished(db.calls[db.history[n].call]))
    && (forall m, n | 0 <= m < n < |db.history| :: db.history[m].call != db.history[n].call)
  }

  /** What one step does to the calls and the history. */
  ghost predicate Moves(db: Db, db': Db) {
    && db.history <= db'.history
    && (forall c | c in db.calls ::
          c in db'.calls && db'.calls[c].op == db.calls[c].op
          && (!Unfinished(db.calls[c]) ==> db'.calls[c] == db.calls[c]))
  }

  lemma ArrivalIsLinear(db: Db, db': Db, c: nat, op: Op)
    requires Linear(db) && Arrives(db, db', c, op)
    ensures Linear(db') && Moves(db, db')
  {
  }

  lemma ReturnIsLinear(db: Db, rows: Rows, c: nat, op: Op, answer: Answer)
    requires Linear(db) && c in db.calls && Unfinished(db.calls[c]) && db.calls[c].op == op
    ensures Linear(Return(db, rows, c, op, answer)) && Moves(db, Return(db, rows, c, op, answer))
  {
  }

  /** A statement either returns or goes on from the read to the update. */
  lemma ExecutionShape(db: Db, db': Db, c: nat)
    requires Executes(db, db', c)
    ensures c in db.calls && Unfinished(db.calls[c])
    ensures || (exists rows, answer :: db' == Return(db, rows, c, db.calls[c].op, answer))
            || (exists snapshot :: db' == db.(calls := db.calls[c := HasRead(db.calls[c].op, snapshot)]))
  {
    hide Changed, UpdateColumns, Return;
  }

  lemma ExecutionIsLinear(db: Db, db': Db, c: nat)
    requires Linear(db) && Executes(db, db', c)
    ensures Linear(db') && Moves(db, db') && c in db.calls && Unfinished(db.calls[c])
  {
    hide Executes, Return, Linear;
    ExecutionShape(db, db', c);
    if rows, answer :| db' == Return(db, rows, c, db.calls[c].op, answer) {
      ReturnIsLinear(db, rows, c, db.calls[c].op, answer);
    } else {
      var snapshot :| db' == db.(calls := db.calls[c := HasRead(db.calls[c].op, snapshot)]);
      ReadIsLinear(db, c, snapshot);
    }
  }

  lemma ReadIsLinear(db: Db, c: nat, snapshot: Approval)
    requires Linear(db) && c in db.calls && Unfinished(db.calls[c])
    ensures var db' := db.(calls := db.calls[c := HasRead(db.calls[c].op, snapshot)]); Linear(db') && Moves(db, db')
  {
  }

  lemma AbandonIsLinear(db: Db, done: Db, c: nat)
    requires Linear(done) && Moves(db, done) && c in db.calls && Unfinished(db.calls[c])
    ensures c in done.calls && Linear(Abandon(done, c)) && Moves(db, Abandon(done, c))
  {
  }

  lemma NextIsLinear(db: Db, db': Db)
    requires Linear(db) && Next(db, db')
    ensures Linear(db') && Moves(db, db')
  {
    hide Arrives, Executes, Linear, Moves;
    if c, op :| Arrives(db, db', c, op) {
      ArrivalIsLinear(db, db', c, op);
    } else if c :| Executes(db, db', c) {
      ExecutionIsLinear(db, db', c);
    } else {
      var c :| Breaks(db, db', c);
      if db' == Abandon(db, c) {
        Stays(db);
        AbandonIsLinear(db, db, c);
      } else {
        var done :| Executes(db, done, c) && c in done.calls && db' == Abandon(done, c);
        ExecutionIsLinear(db, done, c);
        AbandonIsLinear(db, done, c);
      }
    }
  }

  lemma Stays(db: Db)
    ensures Moves(db, db)
  {
  }

  lemma MovesOn(db: Db, db1: Db, db2: Db)
    requires Moves(db, db1) && Moves(db1, db2)
    ensures Moves(db, db2)
  {
  }

  lemma {:induction false} RunMoves(run: seq<Db>, j: nat, k: nat)
    requires IsRun(run) && j <= k < |run|
    ensures Linear(run[j]) && Linear(run[k]) && Moves(run[j], run[k])
    decreases k
  {
    hide Next, Linear, Moves;
    Stays(run[k]);
    if k == 0 {
      NothingYet(run[0]);
    } else {
      var i := if j < k then j else k - 1;
      RunMoves(run, i, k - 1);
      StepInRun(run, k - 1);
      NextIsLinear(run[k - 1], run[k]);
      MovesOn(run[i], run[k - 1], run[k]);
    }
  }

  lemma NothingYet(db: Db)
    requires db.calls == map[] && db.history == []
    ensures Linear(db)
  {
  }

  ghost predicate HasEntry(db: Db, c: nat) {
    exists n :: 0 <= n < |db.history| && db.history[n].call == c
  }

  /** The order of the atomic operations is that of the calls in time: the history only grows,
      no call has two entries, none has one before it arrived or while it is unfinished, and a
      call that returned has its own. So each operation takes effect between the arrival and
      the return of its call, and an operation whose caller saw an error took effect once or
      not at all. */
  lemma OperationsFollowTime(run: seq<Db>, j: nat, k: nat, c: nat)
    requires IsRun(run) && j <= k < |run|
    ensures run[j].history <= run[k].history
    ensures forall m, n | 0 <= m < n < |run[k].history| :: run[k].history[m].call != run[k].history[n].call
    ensures c !in run[j].calls || Unfinished(run[j].calls[c]) ==> !HasEntry(run[j], c)
    ensures c in run[j].calls && run[j].calls[c].Returned? ==>
              && Entry(c, run[j].calls[c].op, run[j].calls[c].answer) in run[j].history
              && c in run[k].calls && run[k].calls[c] == run[j].calls[c]
    ensures c in run[j].calls && !Unfinished(run[j].calls[c]) ==> (HasEntry(run[k], c) <==> HasEntry(run[j], c))
  {
    RunMoves(run, j, k);
    RelationalRunIsAtomic(run, j);
    hide IsRun, Refines, Fold, AnswersAtomic;
    if c in run[j].calls && !Unfinished(run[j].calls[c]) {
      NoLateEntry(run, j, k, c);
    }
  }

  lemma {:induction false} NoLateEntry(run: seq<Db>, j: nat, k: nat, c: nat)
    requires IsRun(run) && j <= k < |run| && c in run[j].calls && !Unfinished(run[j].calls[c])
    ensures HasEntry(run[k], c) <==> HasEntry(run[j], c)
    decreases k
  {
    hide Next, Linear, Moves;
    if j < k {
      NoLateEntry(run, j, k - 1, c);
      RunMoves(run, j, k - 1);
      assert c in run[k - 1].calls && !Unfinished(run[k - 1].calls[c]) by { StaysFinished(run[j], run[k - 1], c); }
      StepInRun(run, k - 1);
      OnlyUnfinishedEnter(run[k - 1], run[k], c);
    }
  }

  lemma StaysFinished(db: Db, db': Db, c: nat)
    requires Moves(db, db') && c in db.calls && !Unfinished(db.calls[c])
    ensures c in db'.calls && !Unfinished(db'.calls[c])
  {
  }

  lemma OnlyUnfinishedEnter(db: Db, db': Db, c: nat)
    requires Next(db, db') && c in db.calls && !Unfinished(db.calls[c])
    ensures HasEntry(db', c) <==> HasEntry(db, c)
  {
    hide Arrives, Executes;
    if d, op :| Arrives(db, db', d, op) {
      assert db'.history == db.history by { ArrivalKeepsHistory(db, db', d, op); }
    } else if d :| Executes(db, db', d) {
      ExecutionEnters(db, db', d, c);
    } else {
      var d :| Breaks(db, db', d);
      if db' != Abandon(db, d) {
        var done :| Executes(db, done, d) && d in done.calls && db' == Abandon(done, d);
        ExecutionEnters(db, done, d, c);
      }
    }
  }

  lemma ArrivalKeepsHistory(db: Db, db': Db, c: nat, op: Op)
    requires Arrives(db, db', c, op)
    ensures db'.history == db.history
  {
  }

  lemma ExecutionEnters(db: Db, db': Db, d: nat, c: nat)
    requires Executes(db, db', d) && c in db.calls && !Unfinished(db.calls[c])
    ensures HasEntry(db', c) <==> HasEntry(db, c)
  {
    hide Executes;
    ExecutionShape(db, db', d);
    if rows, answer :| db' == Return(db, rows, d, db.calls[d].op, answer) {
      var n := |db.history|;
      assert forall m | 0 <= m < n :: db'.history[m] == db.history[m];
      assert db'.history[n].call == d != c;
    }
  }

  lemma StartRefines(db: Db)
    requires db.calls == map[] && db.history == [] && Keyed(db.rows)
    ensures Refines(db.rows, db)
  {
  }
}
