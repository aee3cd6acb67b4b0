/** The shapes of the stored records (the Mongoose schemas), each with the field-path
    view a MongoDB filter sees, and the payloads the server pushes to sockets. */
module Records {
  import opened Common
  import opened Query

  datatype Status = Ongoing | Completed | Cancelled | OpenMarket

  /** The enum strings of the booking schema. */
  function StatusName(s: Status): string
  {
    match s
    case Ongoing => "Ongoing"
    case Completed => "Completed"
    case Cancelled => "Cancelled"
    case OpenMarket => "OpenMarket"
  }

  /** The `openMarket` sub-document; `pushed` defaults to false and the two dates are
      absent until a push stamps them. */
  datatype OpenMarketInfo = OpenMarketInfo(pushed: bool, pushedAt: Option<int>, whitelistedOnlyUntil: Option<int>)

  const Unpushed := OpenMarketInfo(false, None, None)

  /** A booking. `id` is the storage key `_id`; `other` holds the remaining schema fields
      (guest, locations, times, references), which no handler in this model inspects. */
  datatype Booking = Booking(
    id: nat,
    bookingId: string,
    vendor: Option<string>,
    status: Status,
    openMarket: OpenMarketInfo,
    other: map<string, Value>)

  function OptTime(t: Option<int>): Option<Value>
  {
    if t.Some? then Some(Time(t.value)) else None
  }

  /** The value a MongoDB filter sees at a field path of a booking. */
  function BookingField(b: Booking, path: string): Option<Value>
  {
    if path == "_id" then Some(Num(b.id))
    else if path == "bookingId" then Some(Str(b.bookingId))
    else if path == "vendor" then (if b.vendor.Some? then Some(Str(b.vendor.value)) else None)
    else if path == "status" then Some(Str(StatusName(b.status)))
    else if path == "openMarket.pushed" then Some(Flag(b.openMarket.pushed))
    else if path == "openMarket.pushedAt" then OptTime(b.openMarket.pushedAt)
    else if path == "openMarket.whitelistedOnlyUntil" then OptTime(b.openMarket.whitelistedOnlyUntil)
    else if path in b.other then Some(b.other[path])
    else None
  }

  function BookingView(b: Booking): string -> Option<Value>
  {
    path => BookingField(b, path)
  }

  /** A driver, vehicle, invoice or custom view: a record owned by one vendor, with the
      rest of its fields by path. */
  datatype Doc = Doc(id: nat, vendor: string, fields: map<string, Value>)

  function DocField(d: Doc, path: string): Option<Value>
  {
    if path == "_id" then Some(Num(d.id))
    else if path == "vendor" then Some(Str(d.vendor))
    else if path in d.fields then Some(d.fields[path])
    else None
  }

  function DocView(d: Doc): string -> Option<Value>
  {
    path => DocField(d, path)
  }

  /** The data argument of an emit: a whole record, or the `{ id }` object of a
      booking deletion. */
  datatype Payload = BookingData(booking: Booking) | DocData(doc: Doc) | DeletedId(deleted: nat)

  /** The role carried by the authenticated user. */
  datatype Role = VendorRole | AdminRole

  /** The vendor directory entry the visibility rule reads; `whitelisted` defaults
      to false. */
  datatype VendorRecord = VendorRecord(whitelisted: bool)
}
