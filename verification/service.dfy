/**
 * DefaultAppointmentService: each mutating operation looks the stored
 * record up, authorizes against the STORED ownership, and only then writes
 * to the store. Every method states the whole new store: on any error it is
 * unchanged, on success only the record concerned changes.
 */
module Service {
  import opened Models
  import opened Authorization
  import opened Store
  import opened Occurrences

  class AppointmentService {
    const database: AppointmentStore
    /** Appointment.CalculateFutureOccurences(limit): not part of this model. */
    const calculateFutureOccurrences: (Appointment, int) -> seq<int>

    constructor (database: AppointmentStore, calculateFutureOccurrences: (Appointment, int) -> seq<int>)
      ensures this.database == database
      ensures this.calculateFutureOccurrences == calculateFutureOccurrences
    {
      this.database := database;
      this.calculateFutureOccurrences := calculateFutureOccurrences;
    }

    /** Adds the caller's owner filter to `filters` in place, then lists. */
    method GetAllAppointments(user: User, limit: int, offset: int, filters: FilterMap, sort: string)
      returns (r: Result<seq<Appointment>>)
      modifies filters
      ensures filters.entries == WithOwnerFilter(user, old(filters.entries))
      ensures r == if database.failing then Err(StoreFailure)
                   else Ok(database.listing(database.rows, limit, offset, filters.entries, sort))
    {
      match user.role {
        case "admin" =>
        case "customer" =>
          filters.entries := filters.entries["customer_id" := Number(user.id)];
        case "provider" =>
          filters.entries := filters.entries["provider_id" := Number(user.id)];
        case _ =>
      }
      r := database.GetAllAppointments(limit, offset, filters.entries, sort);
    }

    /** Asks the store for appointments of the same customer name within
        [time, time + duration]; any answer is a conflict. */
    method CheckForConflict(a: Appointment) returns (r: Outcome)
      ensures database.failing ==> r == Fail(StoreFailure)
      ensures !database.failing ==>
                (r == Fail(ConflictDetected) <==>
                   |database.overlapping(database.rows, a.customerName, a.time, a.time + a.duration)| > 0)
      ensures !database.failing ==>
                (r == Pass <==>
                   |database.overlapping(database.rows, a.customerName, a.time, a.time + a.duration)| == 0)
    {
      var existing := database.GetAppointmentsByCustomerAndTimeRange(a.customerName, a.time, a.time + a.duration);
      if existing.Err? {
        return Fail(existing.error);
      }
      if |existing.value| > 0 {
        return Fail(ConflictDetected);
      }
      r := Pass;
    }

    method CreateAppointment(user: User, a: Appointment) returns (r: Result<int>)
      requires database.Valid()
      modifies database
      ensures database.Valid() && database.failing == old(database.failing)
      ensures AuthorizeCreate(user, a).Fail? ==>
                r == Err(AuthorizeCreate(user, a).error) &&
                database.rows == old(database.rows) && database.nextId == old(database.nextId)
      ensures AuthorizeCreate(user, a).Pass? && old(database.failing) ==>
                r == Err(StoreFailure) &&
                database.rows == old(database.rows) && database.nextId == old(database.nextId)
      ensures AuthorizeCreate(user, a).Pass? && !old(database.failing) ==>
                r == Ok(old(database.nextId)) && old(database.nextId) !in old(database.rows) &&
                database.rows == old(database.rows)[old(database.nextId) := a.(id := old(database.nextId))]
    {
      var verdict := AuthorizeCreate(user, a);
      if verdict.Fail? {
        return Err(verdict.error);
      }
      r := database.CreateAppointment(a);
    }

    method GetAppointmentByID(id: int) returns (r: Result<Appointment>)
      ensures database.failing ==> r == Err(StoreFailure)
      ensures !database.failing ==> (r.Ok? <==> id in database.rows)
      ensures !database.failing && id !in database.rows ==> r == Err(NotFound(id))
      ensures r.Ok? ==> r.value == database.rows[id]
    {
      r := database.GetAppointmentByID(id);
    }

    /** Replaces the stored record with `a`'s id by `a`, if the stored
        record exists and the user may update it. */
    method UpdateAppointment(user: User, a: Appointment) returns (r: Outcome)
      requires database.Valid()
      modifies database
      ensures database.Valid() && database.failing == old(database.failing)
      ensures database.nextId == old(database.nextId)
      ensures old(database.failing) ==> r == Fail(StoreFailure)
      ensures !old(database.failing) && a.id !in old(database.rows) ==> r == Fail(NotFound(a.id))
      ensures !old(database.failing) && a.id in old(database.rows) ==>
                r == AuthorizeUpdate(user, old(database.rows)[a.id], a)
      ensures database.rows == if r.Pass? then old(database.rows)[a.id := a] else old(database.rows)
    {
      var existing := database.GetAppointmentByID(a.id);
      if existing.Err? {
        return Fail(existing.error);
      }
      var verdict := AuthorizeUpdate(user, existing.value, a);
      if verdict.Fail? {
        return verdict;
      }
      r := database.UpdateAppointment(a);
    }

    /** Writes the status straight through: no lookup, no authorization. */
    method UpdateAppointmentStatus(id: int, status: string) returns (r: Outcome)
      requires database.Valid()
      modifies database
      ensures database.Valid() && database.failing == old(database.failing)
      ensures database.nextId == old(database.nextId)
      ensures r == if old(database.failing) then Fail(StoreFailure) else Pass
      ensures database.rows == if !old(database.failing) && id in old(database.rows)
                               then old(database.rows)[id := old(database.rows)[id].(status := status)]
                               else old(database.rows)
    {
      r := database.UpdateAppointmentStatus(id, status);
    }

    method DeleteAppointment(user: User, id: int) returns (r: Outcome)
      requires database.Valid()
      modifies database
      ensures database.Valid() && database.failing == old(database.failing)
      ensures database.nextId == old(database.nextId)
      ensures old(database.failing) ==> r == Fail(StoreFailure)
      ensures !old(database.failing) && id !in old(database.rows) ==> r == Fail(NotFound(id))
      ensures !old(database.failing) && id in old(database.rows) ==>
                r == if AuthorizeDelete(user, old(database.rows)[id]) then Pass
                     else Fail(Unauthorized("unauthorized to delete appointment"))
      ensures database.rows == if r.Pass? then old(database.rows) - {id} else old(database.rows)
    {
      var existing := database.GetAppointmentByID(id);
      if existing.Err? {
        return Fail(existing.error);
      }
      if !AuthorizeDelete(user, existing.value) {
        return Fail(Unauthorized("unauthorized to delete appointment"));
      }
      r := database.DeleteAppointment(id);
    }

    /** Admin or the assigned provider sets the status to "Completed"; every
        other field of the stored record is written back unchanged. */
    method MarkAppointmentComplete(user: User, id: int) returns (r: Outcome)
      requires database.Valid()
      modifies database
      ensures database.Valid() && database.failing == old(database.failing)
      ensures database.nextId == old(database.nextId)
      ensures old(database.failing) ==> r == Fail(StoreFailure)
      ensures !old(database.failing) && id !in old(database.rows) ==> r == Fail(NotFound(id))
      ensures !old(database.failing) && id in old(database.rows) ==>
                r == if CanMarkComplete(user, old(database.rows)[id]) then Pass
                     else Fail(Unauthorized("unauthorized: you are not the provider or an admin"))
      ensures database.rows == if r.Pass? then old(database.rows)[id := old(database.rows)[id].(status := "Completed")]
                               else old(database.rows)
    {
      var existing := database.GetAppointmentByID(id);
      if existing.Err? {
        return Fail(existing.error);
      }
      var appointment := existing.value;
      if !CanMarkComplete(user, appointment) {
        return Fail(Unauthorized("unauthorized: you are not the provider or an admin"));
      }
      appointment := appointment.(status := "Completed");
      r := database.UpdateAppointment(appointment);
    }

    /** Projects every recurring appointment the store returns (at most
        `limit` of them, as the store decides) into its future occurrences. */
    method GetFutureOccurrences(limit: int) returns (r: Result<seq<Appointment>>)
      ensures database.failing ==> r == Err(StoreFailure)
      ensures !database.failing ==>
                r == Ok(Expand(database.recurring(database.rows, limit), a => calculateFutureOccurrences(a, limit)))
    {
      var fetched := database.GetRecurringAppointments(limit);
      if fetched.Err? {
        return Err(fetched.error);
      }
      var anchors := fetched.value;
      ghost var occ := a => calculateFutureOccurrences(a, limit);
      var futureOccurrences: seq<Appointment> := [];
      for i := 0 to |anchors|
        invariant futureOccurrences == Expand(anchors[..i], occ)
      {
        var anchor := anchors[i];
        var occurrences := calculateFutureOccurrences(anchor, limit);
        for j := 0 to |occurrences|
          invariant futureOccurrences == Expand(anchors[..i], occ) + Block(anchor, occurrences[..j])
        {
          futureOccurrences := futureOccurrences + [Appointment(0, anchor.customerName, occurrences[j], anchor.duration,
                                                                anchor.notes, anchor.recurrenceRule, "", "", 0, 0)];
        }
        assert anchors[..i + 1][..i] == anchors[..i];
        assert occurrences[..|occurrences|] == occurrences;
      }
      assert anchors[..|anchors|] == anchors;
      r := Ok(futureOccurrences);
    }
  }
}
