/** The run store: at most one run of an incident may be running or completed. */
module RunRepository {
  import opened Basics

  datatype RunStatus = Running | Completed | Failed | Interrupted {
    predicate IsActive() { Running? || Completed? }
  }

  datatype Run = Run(id: string, incident: string, status: RunStatus)

  datatype RunError = NotFound | Conflict

  type Runs = map<string, Run>

  predicate HasActiveRun(runs: Runs, incident: string) {
    exists id | id in runs ::
      runs[id].incident == incident && (runs[id].status == Running || runs[id].status == Completed)
  }

  predicate OtherActive(runs: Runs, run: Run) {
    exists id | id in runs ::
      runs[id].id != run.id && runs[id].incident == run.incident
      && (runs[id].status == Running || runs[id].status == Completed)
  }

  function CreateRun(runs: Runs, run: Run): Result<Runs, RunError> {
    if run.id in runs || HasActiveRun(runs, run.incident) then Err(Conflict)
    else Ok(runs[run.id := run])
  }

  function UpdateRun(runs: Runs, run: Run): Result<Runs, RunError> {
    if run.id !in runs then Err(NotFound)
    else if run.status.IsActive() && OtherActive(runs, run) then Err(Conflict)
    else Ok(runs[run.id := run])
  }

  ghost predicate Keyed(runs: Runs) {
    forall id | id in runs :: runs[id].id == id
  }

  /** Two runs of one incident, each running or completed. */
  ghost predicate Rivals(runs: Runs, i: string, j: string) {
    && i in runs && j in runs && runs[i].incident == runs[j].incident
    && (runs[i].status == Running || runs[i].status == Completed)
    && (runs[j].status == Running || runs[j].status == Completed)
  }

  ghost predicate AtMostOneActive(runs: Runs) {
    forall i, j {:trigger Rivals(runs, i, j)} :: Rivals(runs, i, j) ==> i == j
  }

  lemma CreateKeepsOneActive(runs: Runs, run: Run)
    requires Keyed(runs) && AtMostOneActive(runs)
    ensures var r := CreateRun(runs, run); r.Ok? ==> Keyed(r.value) && AtMostOneActive(r.value)
  {
    var r := CreateRun(runs, run);
    if r.Ok? {
      forall i, j | Rivals(r.value, i, j) ensures i == j {
        assert i in runs && j in runs ==> Rivals(runs, i, j);
      }
    }
  }

  lemma UpdateKeepsOneActive(runs: Runs, run: Run)
    requires Keyed(runs) && AtMostOneActive(runs)
    ensures var r := UpdateRun(runs, run); r.Ok? ==> Keyed(r.value) && AtMostOneActive(r.value)
  {
    var r := UpdateRun(runs, run);
    if r.Ok? {
      forall i, j | Rivals(r.value, i, j) ensures i == j {
        assert i != run.id && j != run.id ==> Rivals(runs, i, j);
      }
    }
  }

  class Memory {
    var runs: Runs

    constructor ()
      ensures runs == map[]
    {
      runs := map[];
    }

    /** Scan for an active run of the incident other than the one named `self`. */
    method AnyActive(incident: string, self: Option<string>) returns (found: bool)
      ensures found <==> exists id | id in runs ::
                runs[id].incident == incident && (runs[id].status == Running || runs[id].status == Completed)
                && (self.Some? ==> runs[id].id != self.value)
    {
      var left := runs.Keys;
      while left != {}
        invariant left <= runs.Keys
        invariant forall id | id in runs.Keys - left ::
            !(runs[id].incident == incident && runs[id].status.IsActive()
              && (self.Some? ==> runs[id].id != self.value))
        decreases |left|
      {
        var id :| id in left;
        var run := runs[id];
        if run.incident == incident && run.status.IsActive()
           && (self.None? || run.id != self.value) {
          return true;
        }
        left := left - {id};
      }
      return false;
    }

    method Create(run: Run) returns (err: Option<RunError>)
      modifies this
      ensures match CreateRun(old(runs), run)
              case Ok(rs) => err == None && runs == rs
              case Err(e) => err == Some(e) && runs == old(runs)
    {
      if run.id in runs {
        return Some(Conflict);
      }
      var taken := AnyActive(run.incident, None);
      if taken {
        return Some(Conflict);
      }
      runs := runs[run.id := run];
      return None;
    }

    method Update(run: Run) returns (err: Option<RunError>)
      modifies this
      ensures match UpdateRun(old(runs), run)
              case Ok(rs) => err == None && runs == rs
              case Err(e) => err == Some(e) && runs == old(runs)
    {
      if run.id !in runs {
        return Some(NotFound);
      }
      if run.status.IsActive() {
        var taken := AnyActive(run.incident, Some(run.id));
        if taken {
          return Some(Conflict);
        }
      }
      runs := runs[run.id := run];
      return None;
    }
  }
}
