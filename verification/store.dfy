/**
 * The appointment store the service calls, as an abstract class: the
 * persisted appointments by id, the next id to hand out, and a `failing`
 * flag standing for a backend whose every call errors. The queries whose
 * SQL the service does not see are left uninterpreted: each is a function
 * of the stored rows and the query's arguments, fixed when the store is
 * made.
 */
module Store {
  import opened Models

  class AppointmentStore {
    var rows: map<int, Appointment>
    var nextId: int
    var failing: bool

    /** GetAppointmentsByCustomerAndTimeRange(name, start, end). */
    const overlapping: (map<int, Appointment>, string, int, int) -> seq<Appointment>
    /** GetRecurringAppointments(limit). */
    const recurring: (map<int, Appointment>, int) -> seq<Appointment>
    /** GetAllAppointments(limit, offset, filters, sort). */
    const listing: (map<int, Appointment>, int, int, map<string, FilterValue>, string) -> seq<Appointment>

    /** Ids are positive, below `nextId`, and each row carries its own id. */
    ghost predicate Valid()
      reads this
    {
      0 < nextId &&
      forall id :: id in rows ==> 0 < id < nextId && rows[id].id == id
    }

    constructor (failing: bool,
                 overlapping: (map<int, Appointment>, string, int, int) -> seq<Appointment>,
                 recurring: (map<int, Appointment>, int) -> seq<Appointment>,
                 listing: (map<int, Appointment>, int, int, map<string, FilterValue>, string) -> seq<Appointment>)
      ensures Valid() && rows == map[] && this.failing == failing
      ensures this.overlapping == overlapping && this.recurring == recurring && this.listing == listing
    {
      rows := map[];
      nextId := 1;
      this.failing := failing;
      this.overlapping := overlapping;
      this.recurring := recurring;
      this.listing := listing;
    }

    /** Inserts `a` under a fresh id and returns that id. */
    method CreateAppointment(a: Appointment) returns (r: Result<int>)
      requires Valid()
      modifies this
      ensures Valid() && failing == old(failing)
      ensures old(failing) ==> r == Err(StoreFailure) && rows == old(rows) && nextId == old(nextId)
      ensures !old(failing) ==> r == Ok(old(nextId)) && old(nextId) !in old(rows) &&
                                rows == old(rows)[old(nextId) := a.(id := old(nextId))]
    {
      if failing {
        return Err(StoreFailure);
      }
      var id := nextId;
      rows := rows[id := a.(id := id)];
      nextId := nextId + 1;
      r := Ok(id);
    }

    /** Looks an appointment up by id. */
    method GetAppointmentByID(id: int) returns (r: Result<Appointment>)
      ensures failing ==> r == Err(StoreFailure)
      ensures !failing && id !in rows ==> r == Err(NotFound(id))
      ensures !failing && id in rows ==> r == Ok(rows[id])
    {
      if failing {
        r := Err(StoreFailure);
      } else if id !in rows {
        r := Err(NotFound(id));
      } else {
        r := Ok(rows[id]);
      }
    }

    /** Replaces the row with `a`'s id; an absent id matches no row and
        changes nothing. */
    method UpdateAppointment(a: Appointment) returns (r: Outcome)
      requires Valid()
      modifies this
      ensures Valid() && failing == old(failing) && nextId == old(nextId)
      ensures r == if old(failing) then Fail(StoreFailure) else Pass
      ensures rows == if !old(failing) && a.id in old(rows) then old(rows)[a.id := a] else old(rows)
    {
      if failing {
        return Fail(StoreFailure);
      }
      if a.id in rows {
        rows := rows[a.id := a];
      }
      r := Pass;
    }

    /** Sets the status of the row with this id; an absent id changes nothing. */
    method UpdateAppointmentStatus(id: int, status: string) returns (r: Outcome)
      requires Valid()
      modifies this
      ensures Valid() && failing == old(failing) && nextId == old(nextId)
      ensures r == if old(failing) then Fail(StoreFailure) else Pass
      ensures rows == if !old(failing) && id in old(rows)
                      then old(rows)[id := old(rows)[id].(status := status)]
                      else old(rows)
    {
      if failing {
        return Fail(StoreFailure);
      }
      if id in rows {
        rows := rows[id := rows[id].(status := status)];
      }
      r := Pass;
    }

    /** Removes the row with this id, if any. */
    method DeleteAppointment(id: int) returns (r: Outcome)
      requires Valid()
      modifies this
      ensures Valid() && failing == old(failing) && nextId == old(nextId)
      ensures r == if old(failing) then Fail(StoreFailure) else Pass
      ensures rows == if old(failing) then old(rows) else old(rows) - {id}
    {
      if failing {
        return Fail(StoreFailure);
      }
      rows := rows - {id};
      r := Pass;
    }

    method GetAppointmentsByCustomerAndTimeRange(name: string, start: int, end: int) returns (r: Result<seq<Appointment>>)
      ensures r == if failing then Err(StoreFailure) else Ok(overlapping(rows, name, start, end))
    {
      r := if failing then Err(StoreFailure) else Ok(overlapping(rows, name, start, end));
    }

    method GetRecurringAppointments(limit: int) returns (r: Result<seq<Appointment>>)
      ensures r == if failing then Err(StoreFailure) else Ok(recurring(rows, limit))
    {
      r := if failing then Err(StoreFailure) else Ok(recurring(rows, limit));
    }

    method GetAllAppointments(limit: int, offset: int, filters: map<string, FilterValue>, sort: string)
      returns (r: Result<seq<Appointment>>)
      ensures r == if failing then Err(StoreFailure) else Ok(listing(rows, limit, offset, filters, sort))
    {
      r := if failing then Err(StoreFailure) else Ok(listing(rows, limit, offset, filters, sort));
    }
  }
}
