/**
 * The values the appointment service works on: appointments, users, the
 * untyped filter values of a list query, and the error results of the
 * service and its store.
 */
module Models {

  /** An appointment as the service reads it. Times are whole minutes since
      an arbitrary epoch; `duration` is in minutes. `id` is 0 before the
      store assigns one. */
  datatype Appointment = Appointment(
    id: int,
    customerName: string,
    time: int,
    duration: int,
    notes: string,
    recurrenceRule: string,
    status: string,
    resource: string,
    customerId: int,
    providerId: int)

  /** The acting user; `role` is free text ("admin", "customer", "provider"
      are the ones the service recognises). */
  datatype User = User(id: int, username: string, email: string, role: string)

  /** A value of the list query's filter map (`map[string]interface{}`):
      handlers put strings there, the service puts user ids. */
  datatype FilterValue = Text(text: string) | Number(number: int)

  /** The kinds of error the service returns. */
  datatype Error =
    | Unauthorized(message: string)
    | NotFound(id: int)
    | ConflictDetected
    | StoreFailure

  datatype Result<T> = Ok(value: T) | Err(error: Error)

  datatype Outcome = Pass | Fail(error: Error)

  /** A filter map shared by reference between a caller and the service,
      which adds entries to it in place. */
  class FilterMap {
    var entries: map<string, FilterValue>

    constructor (entries: map<string, FilterValue>)
      ensures this.entries == entries
    {
      this.entries := entries;
    }
  }
}
