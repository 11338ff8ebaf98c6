/** The status and type enumerations of the constants module, each with its stored text, and
    the badge tones the admin pages colour statuses with. */
module Statuses {
  import opened Common

  datatype BookingStatus = Pending | Confirmed | Cancelled | Completed

  function BookingStatusName(s: BookingStatus): string {
    match s
    case Pending => "pending"
    case Confirmed => "confirmed"
    case Cancelled => "cancelled"
    case Completed => "completed"
  }

  /** Reads a stored booking status; unknown text is `None`. */
  function ParseBookingStatus(name: string): (r: Option<BookingStatus>)
    ensures r.Some? ==> BookingStatusName(r.value) == name
  {
    if name == "pending" then Some(Pending)
    else if name == "confirmed" then Some(Confirmed)
    else if name == "cancelled" then Some(Cancelled)
    else if name == "completed" then Some(Completed)
    else None
  }

  lemma BookingStatusRoundTrip(s: BookingStatus)
    ensures ParseBookingStatus(BookingStatusName(s)) == Some(s)
  {
  }

  datatype LeadStatus = New | Contacted | Qualified | Converted | Lost

  function LeadStatusName(s: LeadStatus): string {
    match s
    case New => "new"
    case Contacted => "contacted"
    case Qualified => "qualified"
    case Converted => "converted"
    case Lost => "lost"
  }

  /** Reads a stored lead status; unknown text is `None`. */
  function ParseLeadStatus(name: string): (r: Option<LeadStatus>)
    ensures r.Some? ==> LeadStatusName(r.value) == name
  {
    if name == "new" then Some(New)
    else if name == "contacted" then Some(Contacted)
    else if name == "qualified" then Some(Qualified)
    else if name == "converted" then Some(Converted)
    else if name == "lost" then Some(Lost)
    else None
  }

  lemma LeadStatusRoundTrip(s: LeadStatus)
    ensures ParseLeadStatus(LeadStatusName(s)) == Some(s)
  {
  }

  datatype CatalogItemStatus = Active | Inactive | Archived

  function CatalogItemStatusName(s: CatalogItemStatus): (r: string)
    ensures r in {"active", "inactive", "archived"}
  {
    match s
    case Active => "active"
    case Inactive => "inactive"
    case Archived => "archived"
  }

  datatype CatalogItemType = Service | Product | Membership | Event

  function CatalogItemTypeName(t: CatalogItemType): (r: string)
    ensures r in {"service", "product", "membership", "event"}
  {
    match t
    case Service => "service"
    case Product => "product"
    case Membership => "membership"
    case Event => "event"
  }

  /** The stored names of the two item enumerations are distinct, so each reads back uniquely. */
  lemma CatalogItemNamesInjective()
    ensures forall a: CatalogItemStatus, b: CatalogItemStatus ::
      CatalogItemStatusName(a) == CatalogItemStatusName(b) ==> a == b
    ensures forall a: CatalogItemType, b: CatalogItemType ::
      CatalogItemTypeName(a) == CatalogItemTypeName(b) ==> a == b
  {
  }

  /** The colour of a status badge: `bg-<tone>-500/20 text-<tone>-400`. */
  datatype Tone = Yellow | Green | Red | Blue | Purple | Gray
}
