# Kaida appointment service: a Dafny model

Kaida books appointments between customers and providers. This project models two parts of it:

- `DefaultAppointmentService`: the role-based authorization of every write, the owner filter added to list queries, the conflict check, the calls into the appointment store, and the expansion of recurring appointments into future occurrences;
- the list-query builders of the SQLite and PostgreSQL stores: the SQL text and the positional arguments that `GetAllAppointments` builds from the filters, the sort text, the limit and the offset.

Layout, one module per file:

- `models.dfy` (`Models`): the values. This covers appointments, users, filter values and errors. The caller's filter map is a class (`FilterMap`), because the service adds entries to it in place.
- `authorization.dfy` (`Authorization`): the service's decision functions, written the way the service writes them. Each is proved equal to one role-by-action table (`TableAllows`). The module also holds the owner filter of a list query.
- `store.dfy` (`Store`): the store the service calls, as a class. Its state is:
  - the rows by id;
  - the next id;
  - a `failing` flag, which stands for a backend whose every call errors.

  The queries whose SQL the service never sees are uninterpreted functions of the rows.
- `service.dfy` (`Service`): `AppointmentService`, one method per service operation. Each method states its result and the whole new store, for every error path.
- `occurrences.dfy` (`Occurrences`): what `GetFutureOccurrences` produces, stated as a function, with its length, order and field-copy properties.
- `sql_text.dfy` (`SqlText`): what both builders share:
  - the select list;
  - the recognised filter keys;
  - the argument list;
  - `strings.Join`;
  - two readings of a query string: `?` marks counted, and `$n` references listed in order.
- `sqlite_list.dfy` (`SqliteList`) and `postgres_list.dfy` (`PostgresList`): the two builders as methods. Each method is proved equal to a query function and the shared argument function, with lemmas about both.
- `list_scoping.dfy` (`ListScoping`): how the service's owner filter meets the builders.

Where the code and the system's design description disagree, the model follows the code:

- The conflict check asks the store for appointments with the same customer name in `[time, time + duration]`. There is no resource, no half-open interval and no slot suggestion.
- Creating does not validate fields or fill in defaults, and it does not force `customer_id` on a customer's appointment.
- Update does not re-check conflicts.
- An unrecognised role is not denied a listing: it gets the filters unchanged.
- Completing an appointment is allowed to admins and to the assigned provider only. A customer who owns the appointment may delete it but may not complete it.
- The store interface in `db/database.go` lists fewer methods than the service calls. The store class has the methods the service calls.

## Model

| member | source | states |
|---|---|---|
| Authorization.RoleOf | service/default_appointment_service.go:107-122 | a role string is Admin, Customer or Provider exactly when it is "admin", "customer" or "provider"; any other string is Unknown |
| Authorization.AuthorizeCreate | service/default_appointment_service.go:106-123 | passes exactly when the table allows the user to create the PROPOSED appointment (admin always; customer if its customer id is theirs; provider if its provider id is theirs; unknown role never); every failure is an authorization error |
| Authorization.Quoted | service/default_appointment_service.go:121 | the role in the unknown-role message is the role text between double quotes |
| Authorization.AuthorizeUpdate | service/default_appointment_service.go:129-149 | passes exactly when the table allows updating the STORED appointment; passes exactly when a delete of the same record would be allowed; failures are authorization errors |
| Authorization.AuthorizeDelete | service/default_appointment_service.go:151-165 | true exactly when the table allows deleting the stored appointment |
| Authorization.CanMarkComplete | service/default_appointment_service.go:173 | true exactly when the table allows completing: admin, or the provider assigned to the stored appointment |
| Authorization.UpdateVerdictIgnoresPayload | service/default_appointment_service.go:129-149 | the update verdict never depends on the caller's new payload, so ownership cannot be forged through it |
| Authorization.CompleteNarrowerThanDelete | service/default_appointment_service.go:151-175 | whoever may complete may delete; an owning customer may delete and may not complete |
| Authorization.WithOwnerFilter | service/default_appointment_service.go:18-25 | a customer gets customer_id set to their id, a provider gets provider_id; the result has exactly the old keys plus that one key, and no other entry changes; every other role gets the filters unchanged |
| Service.AppointmentService.GetAllAppointments | service/default_appointment_service.go:18-28 | the caller's filter map now holds WithOwnerFilter of its old contents; the result is the store's listing for exactly those filters, or the store error |
| Service.AppointmentService.CheckForConflict | service/default_appointment_service.go:30-39 | store error if the store fails; otherwise a conflict exactly when the store returns any appointment for the same customer name in [time, time + duration], and a pass exactly when it returns none |
| Service.AppointmentService.CreateAppointment | service/default_appointment_service.go:41-52 | a denied create returns the authorization error and leaves the store unchanged; an allowed create on a failing store returns the store error and changes nothing; otherwise the record is inserted under the next id, which is returned and was unused |
| Service.AppointmentService.GetAppointmentByID | service/default_appointment_service.go:125-127 | store error; otherwise success exactly when the id is present, a not-found error naming the id when it is absent, and the stored record on success |
| Service.AppointmentService.UpdateAppointment | service/default_appointment_service.go:54-65 | store error, then not-found for an absent id, then the update verdict on the STORED record; the record is replaced only when the verdict passes, and nothing else changes |
| Service.AppointmentService.UpdateAppointmentStatus | service/default_appointment_service.go:67-69 | the status is written with no lookup and no authorization; an absent id changes nothing |
| Service.AppointmentService.DeleteAppointment | service/default_appointment_service.go:71-82 | store error, not-found, or "unauthorized to delete appointment" unless the delete verdict on the stored record allows it; only an allowed delete removes the row |
| Service.AppointmentService.MarkAppointmentComplete | service/default_appointment_service.go:167-179 | store error, not-found, or "unauthorized: you are not the provider or an admin" unless CanMarkComplete; on success only the status of that record becomes "Completed" |
| Service.AppointmentService.GetFutureOccurrences | service/default_appointment_service.go:84-104 | the nested loops produce exactly Expand of the store's recurring appointments with their occurrence times, or the store error |
| Store.AppointmentStore.constructor | db/sqlite.go:18-38 | a new store is empty, consistent, and fails or not as given (a first-ever Init; see "## Left out" for a reopened file) |
| Store.AppointmentStore.CreateAppointment | db/sqlite.go:40-47 | inserts the record under a fresh id, returns the id, and keeps ids consistent; a failing store changes nothing |
| Store.AppointmentStore.GetAppointmentByID | service/default_appointment_service.go:55 | store error, not-found for an absent id, or the stored record |
| Store.AppointmentStore.UpdateAppointment | db/sqlite.go:99-103 | replaces the row with the record's id; an absent id matches no row and changes nothing |
| Store.AppointmentStore.UpdateAppointmentStatus | service/default_appointment_service.go:68 | sets the status of the row with the id, if any |
| Store.AppointmentStore.DeleteAppointment | db/sqlite.go:105-108 | removes the row with the id, if any |
| Store.AppointmentStore.GetAppointmentsByCustomerAndTimeRange | service/default_appointment_service.go:31 | the overlapping-appointments query, or the store error |
| Store.AppointmentStore.GetRecurringAppointments | service/default_appointment_service.go:85 | the recurring-appointments query, or the store error |
| Store.AppointmentStore.GetAllAppointments | db/sqlite.go:49-97 | the listing query for the given paging, filters and sort, or the store error |
| Occurrences.Project | service/default_appointment_service.go:94-100 | an occurrence copies the anchor's customer name, duration, notes and rule, takes the occurrence time, and has no id and no status |
| Occurrences.Block | service/default_appointment_service.go:93-101 | one entry per occurrence time of an anchor, in order |
| Occurrences.ExpandLength | service/default_appointment_service.go:90-103 | the result has one entry per occurrence per anchor |
| Occurrences.ExpandPrefix | service/default_appointment_service.go:91-102 | expanding the first i anchors gives a prefix of the full expansion |
| Occurrences.ExpandAt | service/default_appointment_service.go:91-102 | the j-th occurrence of anchor i sits right after all occurrences of the anchors before it |
| Occurrences.ExpandEntries | service/default_appointment_service.go:94-100 | every entry has id 0 and an empty status, and copies the descriptive fields of one of the anchors |
| SqlText.WhereClause | db/sqlite.go:68-70 | the where clause is empty exactly when there are no conditions |
| SqlText.OrderClause | db/sqlite.go:72-74 | the order clause is empty exactly when the sort text is empty |
| SqlText.Present | db/sqlite.go:53-66 | the filter keys the builders act on are recognised keys present in the map, at most three |
| SqlText.PresentInOrder | db/sqlite.go:53-66 | exactly the recognised keys of the map, each once, in the builders' checking order |
| SqlText.PresentAll | db/sqlite.go:53-66 | with all three filters given, the keys are customer_name, start, end |
| SqlText.FilterArg | db/sqlite.go:55 | the customer-name argument is the name between `%` signs; a time bound is passed as given |
| SqlText.FilterArgs | db/sqlite.go:53-66 | one argument per present filter, in checking order |
| SqlText.ConditionsOf | db/sqlite.go:53-66 | one condition per present filter, in checking order, each the builder's own text for its key (shared by both builders; the PostgreSQL texts are at db/postgresql.go:51-64) |
| SqlText.ListArgs | db/sqlite.go:53-78 | the arguments are the filter arguments in checking order, then limit, then offset |
| SqlText.JoinOccurrences | db/sqlite.go:69 | joining conditions with one `?` each by " AND " gives one `?` per condition |
| SqlText.JoinRefs | db/postgresql.go:67 | joining by " AND " keeps the `$n` references of the conditions, in order |
| SqlText.QueryShapeRefs | db/postgresql.go:47-74 | the references of a list query are those of its conditions, then of the sort text, then of the paging clause |
| SqliteList.BuildListQuery | db/sqlite.go:49-78 | the method builds exactly Query and ListArgs |
| SqliteList.QueryEndsWithPaging | db/sqlite.go:77 | the query always ends with " LIMIT ? OFFSET ?" |
| SqliteList.PlaceholderCount | db/sqlite.go:49-78 | outside the sort text, the query has exactly as many `?` marks as there are arguments |
| SqliteList.ConditionPlaceholder | db/sqlite.go:54-65 | each condition holds exactly one `?` |
| SqliteList.OtherKeysIgnored | db/sqlite.go:53-66 | keys other than customer_name, start and end change neither the query nor the arguments |
| PostgresList.FixedNumber | db/postgresql.go:52 | the written number of a condition is 1, 2 or 3 by filter kind |
| PostgresList.ConditionLiterals | db/postgresql.go:51-64 | the conditions are the source's three texts with $1, $2, $3 |
| PostgresList.BuildListQuery | db/postgresql.go:47-76 | the method builds exactly Query and ListArgs, as written |
| PostgresList.QueryRefs | db/postgresql.go:47-76 | as written, the query refers to each present filter by the number of its kind, then to the sort text's references, then to $4 and $5 |
| PostgresList.ConditionRef | db/postgresql.go:51-64 | each written condition refers to exactly the number of its kind |
| PostgresList.LimitRefs | db/postgresql.go:74 | the paging clause refers to $4 then $5 |
| PostgresList.AlignedRefs | db/postgresql.go:47-76 | with all three filters given, the query refers to $1, $2, $3, then the sort's references, then $4, $5 |
| PostgresList.AlignedArgs | db/postgresql.go:51-76 | with all three filters given, the five arguments are the name pattern, start, end, limit, offset |
| PostgresList.UnboundPlaceholder | db/postgresql.go:47-76 | as written, with any filter missing there are fewer than five arguments while the query still refers to $5 |
| PostgresList.StartOnlyExample | db/postgresql.go:56-76 | with only a start bound and no sort, the query refers to $2, $4, $5 while the arguments are start, limit, offset |
| PostgresList.PagingRefs | db/postgresql.go:74 | the corrected paging clause after n filter arguments refers to $(n+1) then $(n+2) |
| PostgresList.PagingLiteral | db/postgresql.go:74 | the written paging clause is the corrected one after three filters |
| PostgresList.BuildNumberedListQuery | db/postgresql.go:47-76 | the corrected builder builds exactly NumberedQuery and the same ListArgs |
| PostgresList.CollectNumbered | db/postgresql.go:51-64 | corrected: each present filter's condition takes the number of the argument appended with it |
| PostgresList.NumberedByPosition | db/postgresql.go:51-64 | numbering while appending is numbering by position among the present filters |
| PostgresList.NumberedRefs | db/postgresql.go:47-76 | corrected: outside the sort text the query refers to $1 .. $n+2 in order, n the number of filters, matching the n+2 arguments of ListArgs one to one |
| PostgresList.NumberedAgreesWhenAllPresent | db/postgresql.go:47-76 | with all three filters given, the corrected query equals the written one |
| PostgresList.OtherKeysIgnored | db/postgresql.go:51-64 | keys other than customer_name, start and end change neither query (written or corrected) nor the arguments |
| ListScoping.OwnerFilterUnseen | service/default_appointment_service.go:18-25 | the owner filter is not a recognised key: adding it leaves the recognised filters as they were |
| ListScoping.SqliteIgnoresOwner | service/default_appointment_service.go:18-28 | whoever asks, the SQLite listing query and arguments are those of the unscoped filters: customers and providers are not restricted to their own appointments |
| ListScoping.PostgresIgnoresOwner | service/default_appointment_service.go:18-28 | the same for the PostgreSQL query, written and corrected |

## Left out

- HTTP handlers, JSON decoding, the websocket broadcast, the user service and the example program are not part of this model.
- Opening databases, creating tables, running SQL and scanning rows are not modelled. The store is an abstract map of rows. Every backend error is one `failing` flag: it makes every call fail and change nothing, and no error text is kept.
- The conflict query, the recurring-appointment query and the listing query are uninterpreted functions of the stored rows. The SQL behind the first two is not among the modelled files. The listing's SQL text is modelled separately by the builders; the store does not evaluate it.
- `Appointment.CalculateFutureOccurences` is not part of this model. The service receives it as a function from an appointment and the limit to occurrence times.
- Times are whole minutes, so `time.Duration(duration) * time.Minute` is `time + duration`. The int64 nanosecond overflow of very long durations is not modelled.
- The concrete SQL stores persist only the name, time, duration and notes columns. The store model keeps whole records.
- Store.AppointmentStore.constructor: models only a first-ever `Init`, an empty store whose ids start at 1. `Init` reopens the persistent file `appointments.db` with `CREATE TABLE IF NOT EXISTS`, so rows from earlier runs remain and AUTOINCREMENT continues past them; a reopened store is not modelled.
- Concurrency: the check-then-insert race between two requests is not modelled. Each method runs alone.
- Authorization.Quoted: Go's `%q` also escapes quotes and control characters; the model only adds the surrounding quotes.
- SqlText.TextFilters: the builders' `.(string)` assertions panic on a non-string value. This is a precondition of the builder methods rather than a modelled panic.
- PostgresList.Numbered: the corrected numbering writes one digit, so it is stated for at most nine placeholders. The builders never have more than five.
- `db/postgresql.go` and `db/sqlite.go` outside `GetAllAppointments` (Init, insert, update and delete statements) are modelled only by the store class's abstract effect.

## Findings

| source | as written | input that shows it | evidently intended | confidence | as-written member | corrected member |
|---|---|---|---|---|---|---|
| db/postgresql.go:51-75 | each condition carries the fixed number of its kind ($1 name, $2 start, $3 end) and the paging clause always reads $4 and $5, while only the present filters add arguments | only a start bound, no sort: the query reads `... WHERE time >= $2 LIMIT $4 OFFSET $5` and the arguments are [start, limit, offset], so $2 names the limit and $4, $5 name nothing | placeholders numbered in the order arguments are appended: $1 .. $n for the n filters, then $n+1 for limit and $n+2 for offset | high; not executed | PostgresList.UnboundPlaceholder | PostgresList.NumberedRefs |
