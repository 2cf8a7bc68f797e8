/**
 * How the owner scoping that the service adds to a listing meets the two
 * SQL builders. The service writes `customer_id` or `provider_id` into the
 * filters; the builders read only `customer_name`, `start` and `end`, so
 * the scoping never reaches the SQL: a customer's or a provider's listing
 * is the same query, with the same arguments, as an administrator's.
 */
module ListScoping {
  import opened Models
  import opened Authorization
  import opened SqlText
  import SqliteList
  import PostgresList

  /** The owner key is none of the recognised keys, so adding it leaves the
      recognised part of the filters as it was. */
  lemma OwnerFilterUnseen(user: User, filters: map<string, FilterValue>)
    ensures SameRecognised(filters, WithOwnerFilter(user, filters))
    ensures TextFilters(filters) ==> TextFilters(WithOwnerFilter(user, filters))
  {
    OwnerKeysUnrecognised();
    var r := WithOwnerFilter(user, filters);
    forall k | k in FilterKeys
      ensures (k in filters <==> k in r) && (k in filters ==> filters[k] == r[k])
    {
      assert k !in OwnerKey(user);
    }
  }

  lemma OwnerKeysUnrecognised()
    ensures "customer_id" !in FilterKeys && "provider_id" !in FilterKeys
  {
  }

  /** Whoever asks, the SQLite listing query and its arguments are those of
      the unscoped filters. */
  lemma SqliteIgnoresOwner(user: User, filters: map<string, FilterValue>, sort: string, limit: int, offset: int)
    requires TextFilters(filters)
    ensures TextFilters(WithOwnerFilter(user, filters))
    ensures SqliteList.Query(WithOwnerFilter(user, filters), sort) == SqliteList.Query(filters, sort)
    ensures ListArgs(WithOwnerFilter(user, filters), limit, offset) == ListArgs(filters, limit, offset)
  {
    OwnerFilterUnseen(user, filters);
    SqliteList.OtherKeysIgnored(WithOwnerFilter(user, filters), filters, sort, limit, offset);
  }

  /** Whoever asks, the PostgreSQL listing query, as written and corrected,
      is that of the unscoped filters (the arguments are ListArgs, as for
      SQLite). */
  lemma PostgresIgnoresOwner(user: User, filters: map<string, FilterValue>, sort: string)
    requires TextFilters(filters)
    ensures PostgresList.Query(WithOwnerFilter(user, filters), sort) == PostgresList.Query(filters, sort)
    ensures PostgresList.NumberedQuery(WithOwnerFilter(user, filters), sort) == PostgresList.NumberedQuery(filters, sort)
  {
    OwnerFilterUnseen(user, filters);
    PostgresList.OtherKeysIgnored(WithOwnerFilter(user, filters), filters, sort, 0, 0);
  }
}
