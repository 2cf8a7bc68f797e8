/**
 * The service's authorization policy: who may create, update, delete or
 * complete an appointment, and which owner filter a list query gets.
 *
 * The functions below are written as the service writes them (string
 * comparisons on the role, one `if` after another). `TableAllows` is the
 * same policy written once as a role-by-action table; every decision
 * function is proved against it.
 */
module Authorization {
  import opened Models

  /** The roles the service recognises; any other role string is Unknown. */
  datatype Role = Admin | Customer | Provider | Unknown

  function RoleOf(role: string): (r: Role)
    ensures r == Admin <==> role == "admin"
    ensures r == Customer <==> role == "customer"
    ensures r == Provider <==> role == "provider"
  {
    if role == "admin" then Admin
    else if role == "customer" then Customer
    else if role == "provider" then Provider
    else Unknown
  }

  datatype Action = Create | Update | Delete | Complete

  /** The decision table. `ownsAsCustomer` / `ownsAsProvider` say whether the
      user's id is the appointment's customer / provider id. */
  predicate TableAllows(role: Role, action: Action, ownsAsCustomer: bool, ownsAsProvider: bool)
  {
    match role
    case Admin => true
    case Customer => action != Complete && ownsAsCustomer
    case Provider => ownsAsProvider
    case Unknown => false
  }

  /** The table entry for `user` acting on `a`. */
  predicate Allows(user: User, action: Action, a: Appointment)
  {
    TableAllows(RoleOf(user.role), action, a.customerId == user.id, a.providerId == user.id)
  }

  /** authorizeCreate: judged on the proposed appointment. */
  function AuthorizeCreate(user: User, proposed: Appointment): (r: Outcome)
    ensures r.Pass? <==> Allows(user, Create, proposed)
    ensures r.Fail? ==> r.error.Unauthorized?
  {
    match user.role
    case "admin" => Pass
    case "customer" =>
      if proposed.customerId != user.id
      then Fail(Unauthorized("unauthorized: customers can only create appointments for themselves"))
      else Pass
    case "provider" =>
      if proposed.providerId != user.id
      then Fail(Unauthorized("unauthorized: masseur can only create for themselves as a provider"))
      else Pass
    case _ => Fail(Unauthorized("unauthorized: unknown role " + Quoted(user.role)))
  }

  /** Go's %q for the role in the unknown-role message (escaping left out). */
  function Quoted(s: string): (r: string)
    ensures |r| == |s| + 2 && r[0] == '"' && r[|r| - 1] == '"' && r[1..|r| - 1] == s
  {
    "\"" + s + "\""
  }

  /** authorizeUpdate: judged on the STORED appointment; the new payload is
      a parameter, as in the source, but plays no part in the verdict. */
  function AuthorizeUpdate(user: User, stored: Appointment, payload: Appointment): (r: Outcome)
    ensures r.Pass? <==> Allows(user, Update, stored)
    ensures r.Pass? <==> AuthorizeDelete(user, stored)
    ensures r.Fail? ==> r.error.Unauthorized?
  {
    if user.role == "admin" then Pass
    else if user.role == "customer" then
      if stored.customerId != user.id
      then Fail(Unauthorized("unauthorized: cannot update appointment not owned by you"))
      else Pass
    else if user.role == "provider" then
      if stored.providerId != user.id
      then Fail(Unauthorized("unauthorized: not assigned as provider for this assignment"))
      else Pass
    else Fail(Unauthorized("unauthorized"))
  }

  /** authorizeDelete: a plain yes/no on the stored appointment. */
  function AuthorizeDelete(user: User, stored: Appointment): (r: bool)
    ensures r <==> Allows(user, Delete, stored)
  {
    if user.role == "admin" then true
    else if user.role == "customer" && stored.customerId == user.id then true
    else if user.role == "provider" && stored.providerId == user.id then true
    else false
  }

  /** The guard of MarkAppointmentComplete. */
  function CanMarkComplete(user: User, stored: Appointment): (r: bool)
    ensures r <==> Allows(user, Complete, stored)
  {
    user.role == "admin" || (user.role == "provider" && stored.providerId == user.id)
  }

  /** The verdict on an update never depends on the payload. */
  lemma UpdateVerdictIgnoresPayload(user: User, stored: Appointment, p1: Appointment, p2: Appointment)
    ensures AuthorizeUpdate(user, stored, p1) == AuthorizeUpdate(user, stored, p2)
  {
  }

  /** Completing is strictly narrower than deleting: whoever may complete may
      delete, and a customer who owns the appointment (but is not its
      provider) may delete it and not complete it. */
  lemma CompleteNarrowerThanDelete(user: User, stored: Appointment)
    ensures CanMarkComplete(user, stored) ==> AuthorizeDelete(user, stored)
    ensures user.role == "customer" && stored.customerId == user.id ==>
              AuthorizeDelete(user, stored) && !CanMarkComplete(user, stored)
  {
  }

  /** The owner filter the service adds to a list query (GetAllAppointments):
      customers see their own appointments, providers theirs; admins and
      unknown roles get the filters unchanged, with no denial. */
  function WithOwnerFilter(user: User, filters: map<string, FilterValue>): (r: map<string, FilterValue>)
    ensures user.role == "customer" ==> "customer_id" in r && r["customer_id"] == Number(user.id)
    ensures user.role == "provider" ==> "provider_id" in r && r["provider_id"] == Number(user.id)
    ensures user.role != "customer" && user.role != "provider" ==> r == filters
    ensures r.Keys == filters.Keys + OwnerKey(user)
    ensures forall k :: k in filters && k !in OwnerKey(user) ==> r[k] == filters[k]
  {
    match user.role
    case "admin" => filters
    case "customer" => filters["customer_id" := Number(user.id)]
    case "provider" => filters["provider_id" := Number(user.id)]
    case _ => filters
  }

  /** The key WithOwnerFilter writes for this user, if any. */
  function OwnerKey(user: User): set<string>
  {
    if user.role == "customer" then {"customer_id"}
    else if user.role == "provider" then {"provider_id"}
    else {}
  }
}
