/** The incident store: versioned records and their audit logs, written together. */
module IncidentRepository {
  import opened Basics
  import opened Incidents

  datatype RepoError = NotFound | Conflict | Concurrent

  datatype Store = Store(items: map<string, Incident>, events: map<string, seq<Event>>)

  // ---- what the operations mean, on values ----

  function Log(events: map<string, seq<Event>>, id: string): seq<Event> {
    if id in events then events[id] else []
  }

  predicate Clashes(existing: Incident, inc: Incident) {
    && existing.fingerprint != ""
    && existing.fingerprint == inc.fingerprint
    && !existing.status.IsTerminal()
  }

  predicate CreateBlocked(s: Store, inc: Incident) {
    inc.id in s.items || exists id | id in s.items :: Clashes(s.items[id], inc)
  }

  predicate EventIdTaken(events: map<string, seq<Event>>, id: string) {
    exists i | i in events :: exists k | 0 <= k < |events[i]| :: events[i][k].id == id
  }

  function AddEvent(events: map<string, seq<Event>>, ev: Option<Event>): map<string, seq<Event>> {
    match ev
    case None => events
    case Some(e) => events[e.incident := Log(events, e.incident) + [e]]
  }

  function AddEvents(events: map<string, seq<Event>>, evs: seq<Option<Event>>): map<string, seq<Event>>
    decreases |evs|
  {
    if evs == [] then events else AddEvents(AddEvent(events, evs[0]), evs[1..])
  }

  /** Some event of the batch reuses a stored primary key, or two of them share one. */
  predicate BatchConflicts(events: map<string, seq<Event>>, evs: seq<Option<Event>>) {
    || (exists k | 0 <= k < |evs| :: evs[k].Some? && EventIdTaken(events, evs[k].value.id))
    || (exists j, k | 0 <= j < k < |evs| ::
          evs[j].Some? && evs[k].Some? && evs[j].value.id == evs[k].value.id)
  }

  function CreateWithEvent(s: Store, inc: Incident, ev: Option<Event>): Result<Store, RepoError> {
    if CreateBlocked(s, inc) || BatchConflicts(s.events, [ev]) then Err(Conflict)
    else Ok(Store(s.items[inc.id := inc], AddEvent(s.events, ev)))
  }

  /** Version compare-and-swap: the stored version must be the one the caller read. */
  function UpdateWithEvents(s: Store, inc: Incident, evs: seq<Option<Event>>): Result<Store, RepoError> {
    if inc.id !in s.items then Err(NotFound)
    else if s.items[inc.id].version != inc.version then Err(Concurrent)
    else if BatchConflicts(s.events, evs) then Err(Conflict)
    else Ok(Store(s.items[inc.id := inc.(version := inc.version + 1)], AddEvents(s.events, evs)))
  }

  predicate IsActive(inc: Incident, fingerprint: string) {
    inc.fingerprint == fingerprint && !inc.status.IsTerminal()
  }

  /** `found` answers a search among `keys` for the newest record that `wanted` accepts. */
  ghost predicate IsNewest(items: map<string, Incident>, keys: set<string>,
                           wanted: Incident -> bool, found: Option<Incident>)
    requires keys <= items.Keys
  {
    match found
    case None => forall id | id in keys :: !wanted(items[id])
    case Some(inc) =>
      && wanted(inc)
      && (exists id | id in keys :: items[id] == inc)
      && (forall id | id in keys && wanted(items[id]) :: items[id].createdAt <= inc.createdAt)
  }

  ghost predicate IsActiveLookup(s: Store, fingerprint: string, found: Option<Incident>) {
    IsNewest(s.items, s.items.Keys, inc => IsActive(inc, fingerprint), found)
  }

  ghost predicate IsLatestLookup(s: Store, fingerprint: string, found: Option<Incident>) {
    IsNewest(s.items, s.items.Keys, (inc: Incident) => inc.fingerprint == fingerprint, found)
  }

  // ---- the in-memory implementation ----

  class Memory {
    var items: map<string, Incident>
    var events: map<string, seq<Event>>

    ghost function View(): Store
      reads this
    {
      Store(items, events)
    }

    constructor ()
      ensures View() == Store(map[], map[])
    {
      items, events := map[], map[];
    }

    method CheckCreateConflicts(inc: Incident) returns (conflict: bool)
      ensures conflict <==> CreateBlocked(View(), inc)
    {
      if inc.id in items {
        return true;
      }
      var left := items.Keys;
      while left != {}
        invariant left <= items.Keys
        invariant forall id | id in items.Keys - left :: !Clashes(items[id], inc)
        decreases |left|
      {
        var id :| id in left;
        if Clashes(items[id], inc) {
          return true;
        }
        left := left - {id};
      }
      return false;
    }

    method CheckEventConflict(ev: Option<Event>) returns (conflict: bool)
      ensures conflict <==> ev.Some? && EventIdTaken(events, ev.value.id)
    {
      if ev.None? {
        return false;
      }
      var left := events.Keys;
      while left != {}
        invariant left <= events.Keys
        invariant forall i | i in events.Keys - left ::
            forall k | 0 <= k < |events[i]| :: events[i][k].id != ev.value.id
        decreases |left|
      {
        var i :| i in left;
        var list := events[i];
        for k := 0 to |list|
          invariant forall j | 0 <= j < k :: list[j].id != ev.value.id
        {
          if list[k].id == ev.value.id {
            return true;
          }
        }
        left := left - {i};
      }
      return false;
    }

    method AddEventLocked(ev: Option<Event>)
      modifies this`events
      ensures events == AddEvent(old(events), ev)
    {
      if ev.Some? {
        events := events[ev.value.incident := Log(events, ev.value.incident) + [ev.value]];
      }
    }

    /** All checks come before the first write: either both the record and its event are
        stored, or nothing changes. */
    method CreateRecord(inc: Incident, ev: Option<Event>) returns (err: Option<RepoError>)
      modifies this
      ensures match CreateWithEvent(old(View()), inc, ev)
              case Ok(s) => err == None && View() == s
              case Err(e) => err == Some(e) && View() == old(View())
    {
      var blocked := CheckCreateConflicts(inc);
      if blocked {
        return Some(Conflict);
      }
      var taken := CheckEventConflict(ev);
      assert [ev][0] == ev;
      if taken {
        return Some(Conflict);
      }
      items := items[inc.id := inc];
      AddEventLocked(ev);
      return None;
    }

    method CheckUpdateConflicts(inc: Incident) returns (err: Option<RepoError>)
      ensures err == if inc.id !in items then Some(NotFound)
                     else if items[inc.id].version != inc.version then Some(Concurrent)
                     else None
    {
      if inc.id !in items {
        return Some(NotFound);
      }
      if items[inc.id].version != inc.version {
        return Some(Concurrent);
      }
      return None;
    }

    /** The record and every event of the batch, or nothing. The returned record carries the
        stored version. */
    method UpdateRecord(inc: Incident, evs: seq<Option<Event>>) returns (r: Result<Incident, RepoError>)
      modifies this
      ensures match UpdateWithEvents(old(View()), inc, evs)
              case Ok(s) => r == Ok(inc.(version := inc.version + 1)) && View() == s
                            && s.items[inc.id] == r.value
              case Err(e) => r == Err(e) && View() == old(View())
    {
      var err := CheckUpdateConflicts(inc);
      if err.Some? {
        return Err(err.value);
      }
      var seen := {};
      for k := 0 to |evs|
        invariant View() == old(View())
        invariant forall j | 0 <= j < k :: evs[j].Some? ==> !EventIdTaken(events, evs[j].value.id)
        invariant forall j | 0 <= j < k :: evs[j].Some? ==> evs[j].value.id in seen
        invariant forall id | id in seen :: exists j | 0 <= j < k :: evs[j].Some? && evs[j].value.id == id
        invariant forall i, j | 0 <= i < j < k ::
            evs[i].Some? && evs[j].Some? ==> evs[i].value.id != evs[j].value.id
      {
        var taken := CheckEventConflict(evs[k]);
        if taken {
          return Err(Conflict);
        }
        if evs[k].Some? {
          if evs[k].value.id in seen {
            return Err(Conflict);
          }
          seen := seen + {evs[k].value.id};
        }
      }
      items := items[inc.id := inc.(version := inc.version + 1)];
      for k := 0 to |evs|
        invariant items == old(items)[inc.id := inc.(version := inc.version + 1)]
        invariant AddEvents(events, evs[k..]) == AddEvents(old(events), evs)
      {
        AddEventLocked(evs[k]);
      }
      return Ok(inc.(version := inc.version + 1));
    }

    method GetActiveByFingerprint(fingerprint: string) returns (r: Option<Incident>)
      ensures IsActiveLookup(View(), fingerprint, r)
    {
      r := None;
      var left := items.Keys;
      while left != {}
        invariant left <= items.Keys
        invariant IsNewest(items, items.Keys - left, inc => IsActive(inc, fingerprint), r)
        decreases |left|
      {
        var id :| id in left;
        var inc := items[id];
        if IsActive(inc, fingerprint) && (r.None? || inc.createdAt > r.value.createdAt) {
          r := Some(inc);
        }
        left := left - {id};
      }
      assert items.Keys - left == items.Keys;
    }

    method GetByFingerprint(fingerprint: string) returns (r: Option<Incident>)
      ensures IsLatestLookup(View(), fingerprint, r)
    {
      r := None;
      var left := items.Keys;
      while left != {}
        invariant left <= items.Keys
        invariant IsNewest(items, items.Keys - left, (inc: Incident) => inc.fingerprint == fingerprint, r)
        decreases |left|
      {
        var id :| id in left;
        var inc := items[id];
        if inc.fingerprint == fingerprint && (r.None? || inc.createdAt > r.value.createdAt) {
          r := Some(inc);
        }
        left := left - {id};
      }
      assert items.Keys - left == items.Keys;
    }
  }

  // ---- facts about the operations ----

  /** A version match on an unchanged snapshot makes the update of the four columns
      status, resolved_at, updated_at and version the same as replacing the whole record. */
  function UpdateColumns(row: Incident, inc: Incident): Incident {
    row.(status := inc.status, resolvedAt := inc.resolvedAt, updatedAt := inc.updatedAt,
         version := row.version + 1)
  }

  /** Two events of one incident are appended to that incident's log and to no other. */
  lemma AddTwo(events: map<string, seq<Event>>, a: Event, b: Event)
    requires a.incident == b.incident
    ensures AddEvents(events, [Some(a), Some(b)])
         == events[a.incident := Log(events, a.incident) + [a] + [b]]
  {
    var one := AddEvent(events, Some(a));
    assert [Some(a), Some(b)][1..] == [Some(b)];
    assert [Some(b)][1..] == [];
    assert AddEvents(one, [Some(b)]) == AddEvents(AddEvent(one, Some(b)), []);
  }

  lemma AddOne(events: map<string, seq<Event>>, a: Event)
    ensures AddEvents(events, [Some(a)]) == events[a.incident := Log(events, a.incident) + [a]]
  {
  }
}
