/** The rows the pages fetch from the hosted database, restricted to the columns the modelled
    logic reads. Other columns are only rendered and are left out. */
module Records {
  import opened Common

  type Id = string

  /** A `catalog_items` row; `status` is the stored text, and `categoryIds` holds the
      `category_id` of each joined `catalog_item_categories` row, absent when the join is
      missing. */
  datatype CatalogItem = CatalogItem(
    id: Id,
    name: string,
    description: Option<string>,
    status: string,
    categoryIds: Option<seq<Id>>)

  /** A `bookings` row; `status` is the stored text, which need not be a known status. */
  datatype Booking = Booking(id: Id, status: string)

  /** A `leads` row. */
  datatype Lead = Lead(id: Id, status: string)

  /** A `tenant_features` row: each flag may be null. */
  datatype FeatureRow = FeatureRow(
    catalog: Option<bool>,
    bookings: Option<bool>,
    members: Option<bool>,
    payments: Option<bool>,
    analytics: Option<bool>)

  /** One row of the `tenant_users(count)` aggregate. */
  datatype CountRow = CountRow(count: Option<nat>)

  /** A `tenants` row with its joined `tenant_features` and `tenant_users` aggregates. */
  datatype Tenant = Tenant(
    id: Id,
    name: string,
    slug: string,
    domain: Option<string>,
    description: Option<string>,
    industry: Option<string>,
    isActive: bool,
    features: Option<seq<FeatureRow>>,
    users: Option<seq<CountRow>>)

  /** What the public create RPCs resolve with. */
  datatype RpcResult = RpcResult(success: bool, error: Option<string>)

  predicate RpcSucceeded(reply: Call<RpcResult>) {
    reply.Returned? && reply.value.success
  }

  /** The message a public form shows when its RPC did not succeed: a non-success result is
      rethrown as an `Error` carrying its `error` or `rejectedFallback`, and the catch shows
      the thrown message or `thrownFallback`. */
  function RpcFailureMessage(reply: Call<RpcResult>, rejectedFallback: string, thrownFallback: string): (m: string)
    requires !RpcSucceeded(reply)
    ensures rejectedFallback != "" && thrownFallback != "" ==> m != ""
    ensures reply.Returned? && reply.value.error.Some? && reply.value.error.value != "" ==>
      m == reply.value.error.value
    ensures reply.Returned? && (reply.value.error.None? || reply.value.error.value == "") ==>
      m == rejectedFallback
    ensures reply.Threw? && reply.failure.message != "" ==> m == reply.failure.message
    ensures reply.Threw? && reply.failure.message == "" ==> m == thrownFallback
  {
    match reply
    case Returned(r) => MessageOr(Failure(OrEmpty(r.error)), rejectedFallback)
    case Threw(f) => MessageOr(f, thrownFallback)
  }
}
