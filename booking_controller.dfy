/** The booking REST handlers: create, update and delete change the store and then
    announce the result on the vendor's private room and, for open-market bookings, on
    the broadcast room; the two queries only read the store. */
module BookingController {
  import opened Common
  import opened Query
  import opened Records
  import opened SocketServer
  import opened SocketUtil

  /** A creation request body; absent fields take the schema defaults. */
  datatype BookingBody = BookingBody(
    bookingId: string,
    vendor: Option<string>,
    status: Option<Status>,
    openMarket: Option<OpenMarketInfo>,
    other: map<string, Value>)

  /** An update request body: the fields it names overwrite the stored ones. */
  datatype BookingPatch = BookingPatch(
    bookingId: Option<string>,
    vendor: Option<string>,
    status: Option<Status>,
    openMarket: Option<OpenMarketInfo>,
    other: map<string, Value>)

  /** `new Booking(req.body)` stored under key `id`. */
  function NewBooking(id: nat, body: BookingBody): (b: Booking)
    ensures b.id == id && b.bookingId == body.bookingId && b.vendor == body.vendor && b.other == body.other
    ensures body.status.Some? ==> b.status == body.status.value
    ensures body.status.None? ==> b.status == Ongoing
    ensures body.openMarket.Some? ==> b.openMarket == body.openMarket.value
    ensures body.openMarket.None? ==> !b.openMarket.pushed && b.openMarket.pushedAt.None? && b.openMarket.whitelistedOnlyUntil.None?
  {
    Booking(id, body.bookingId, body.vendor,
            if body.status.Some? then body.status.value else Ongoing,
            if body.openMarket.Some? then body.openMarket.value else Unpushed,
            body.other)
  }

  /** `findByIdAndUpdate(id, req.body)`: the body overwrites the fields it names, with
      no check on the status transition. */
  function Patched(b: Booking, p: BookingPatch): (r: Booking)
    ensures r.id == b.id
    ensures r.bookingId == (if p.bookingId.Some? then p.bookingId.value else b.bookingId)
    ensures r.status == (if p.status.Some? then p.status.value else b.status)
    ensures r.openMarket == (if p.openMarket.Some? then p.openMarket.value else b.openMarket)
    ensures r.vendor == (if p.vendor.Some? then p.vendor else b.vendor)
    ensures forall k :: k in r.other <==> k in b.other || k in p.other
    ensures forall k :: k in r.other ==> r.other[k] == if k in p.other then p.other[k] else b.other[k]
  {
    Booking(b.id,
            if p.bookingId.Some? then p.bookingId.value else b.bookingId,
            if p.vendor.Some? then p.vendor else b.vendor,
            if p.status.Some? then p.status.value else b.status,
            if p.openMarket.Some? then p.openMarket.value else b.openMarket,
            b.other + p.other)
  }

  /** The vendor id as interpolated into a room name: a missing vendor prints as
      `undefined`. */
  function VendorKey(v: Option<string>): string
  {
    if v.Some? then v.value else "undefined"
  }

  /** What a create or update publishes about booking `b`: `event` to the owner's private
      room first, then `booking:openMarket` to every vendor when `b` is in the open market. */
  function Announce(event: string, b: Booking): (r: seq<Message>)
    ensures 1 <= |r| <= 2
    ensures r[0] == ToVendor(VendorKey(b.vendor), event, BookingData(b))
    ensures forall i :: 0 < i < |r| ==> r[i] == ToAllVendors("booking:openMarket", BookingData(b))
    ensures (exists i :: 0 <= i < |r| && r[i].room == AllVendorsRoom) <==> b.status == OpenMarket
  {
    VendorRoomNotBroadcast(VendorKey(b.vendor));
    var r := [ToVendor(VendorKey(b.vendor), event, BookingData(b))]
      + (if b.status == OpenMarket then [ToAllVendors("booking:openMarket", BookingData(b))] else []);
    assert b.status == OpenMarket ==> r[1].room == AllVendorsRoom;
    r
  }

  /** What a delete publishes: the `{ id }` object, to the former owner only. */
  function Retraction(b: Booking, id: nat): (r: seq<Message>)
    ensures |r| == 1 && r[0].event == "booking:delete" && r[0].payload == DeletedId(id)
    ensures forall i :: 0 <= i < |r| ==> r[i].room == VendorRoom(VendorKey(b.vendor)) && r[i].room != AllVendorsRoom
  {
    VendorRoomNotBroadcast(VendorKey(b.vendor));
    [ToVendor(VendorKey(b.vendor), "booking:delete", DeletedId(id))]
  }

  /** The filter `getBookings` builds from its query: a key per truthy query value. */
  function QueryFilter(status: Option<string>, vendorId: Option<string>): (r: Filter)
    ensures r.anyOf.None?
    ensures forall p :: p in r.all <==> (p == "status" && Truthy(status)) || (p == "vendor" && Truthy(vendorId))
    ensures Truthy(status) ==> "status" in r.all && r.all["status"] == Eq(Str(status.value))
    ensures Truthy(vendorId) ==> "vendor" in r.all && r.all["vendor"] == Eq(Str(vendorId.value))
  {
    var f: Conj := map[];
    var f := if Truthy(status) then f["status" := Eq(Str(status.value))] else f;
    var f := if Truthy(vendorId) then f["vendor" := Eq(Str(vendorId.value))] else f;
    Filter(f, None)
  }

  /** The conditions of a `getBookings` query, stated on the booking itself. */
  predicate Selected(b: Booking, status: Option<string>, vendorId: Option<string>)
  {
    && (Truthy(status) ==> StatusName(b.status) == status.value)
    && (Truthy(vendorId) ==> b.vendor == Some(vendorId.value))
  }

  lemma QueryFilterMeaning(b: Booking, status: Option<string>, vendorId: Option<string>)
    ensures Matches(QueryFilter(status, vendorId), BookingView(b)) <==> Selected(b, status, vendorId)
  {
    var f0: Conj := map[];
    var f1 := if Truthy(status) then f0["status" := Eq(Str(status.value))] else f0;
    if Truthy(status) { AddClause(f0, "status", Eq(Str(status.value)), BookingView(b)); }
    if Truthy(vendorId) { AddClause(f1, "vendor", Eq(Str(vendorId.value)), BookingView(b)); }
  }

  /** `getBookings`: every stored booking that meets the truthy query values; with
      neither value, the whole store, whoever asks. */
  function GetBookings(store: map<nat, Booking>, status: Option<string>, vendorId: Option<string>): (r: map<nat, Booking>)
    ensures r.Keys <= store.Keys
    ensures forall id :: id in r ==> r[id] == store[id]
    ensures forall id :: id in store ==> (id in r <==> Selected(store[id], status, vendorId))
    ensures !Truthy(status) && !Truthy(vendorId) ==> r == store
  {
    forall id | id in store
      ensures Matches(QueryFilter(status, vendorId), BookingView(store[id])) <==> Selected(store[id], status, vendorId)
    {
      QueryFilterMeaning(store[id], status, vendorId);
    }
    Find(store, QueryFilter(status, vendorId), BookingView)
  }

  /** `getBooking`. */
  function GetBooking(store: map<nat, Booking>, id: nat): (r: Response<Booking>)
    ensures r.Ok? <==> id in store
    ensures r.Ok? ==> r.code == 200 && r.value == store[id]
    ensures r.Fail? ==> r.code == 404 && r.message == "Booking not found"
  {
    if id in store then Ok(200, store[id]) else Fail(404, "Booking not found")
  }

  class BookingStore {
    var bookings: map<nat, Booking>
    /** The next `_id` the database hands out. */
    var nextId: nat
    const hub: SocketHub

    ghost predicate Valid()
      reads this
    {
      forall id :: id in bookings ==> id < nextId && bookings[id].id == id
    }

    constructor (hub: SocketHub)
      ensures Valid() && bookings == map[] && this.hub == hub
    {
      bookings := map[];
      nextId := 0;
      this.hub := hub;
    }

    /** `createBooking`. */
    method CreateBooking(body: BookingBody) returns (r: Response<Booking>)
      requires Valid()
      modifies this, hub.ioInstance
      ensures Valid()
      ensures r.Ok? && r.code == 201 && r.value == NewBooking(old(nextId), body)
      ensures r.value.id !in old(bookings) && bookings == old(bookings)[r.value.id := r.value]
      ensures Published(hub, Announce("booking:new", r.value))
    {
      var b := NewBooking(nextId, body);
      bookings := bookings[nextId := b];
      nextId := nextId + 1;
      hub.EmitToVendor(VendorKey(b.vendor), "booking:new", BookingData(b));
      if b.status == OpenMarket {
        hub.EmitToAllVendors("booking:openMarket", BookingData(b));
        if hub.ioInstance != null {
          StampAppend(hub.ioInstance.rooms, [ToVendor(VendorKey(b.vendor), "booking:new", BookingData(b))],
                      [ToAllVendors("booking:openMarket", BookingData(b))]);
        }
      }
      r := Ok(201, b);
    }

    /** `updateBooking`. */
    method UpdateBooking(id: nat, patch: BookingPatch) returns (r: Response<Booking>)
      requires Valid()
      modifies this`bookings, hub.ioInstance
      ensures Valid()
      ensures id !in old(bookings) ==>
                r == Fail(404, "Booking not found") && bookings == old(bookings) && Published(hub, [])
      ensures id in old(bookings) ==>
                && r == Ok(200, Patched(old(bookings)[id], patch))
                && bookings == old(bookings)[id := r.value]
                && Published(hub, Announce("booking:update", r.value))
    {
      if id !in bookings {
        return Fail(404, "Booking not found");
      }
      var b := Patched(bookings[id], patch);
      bookings := bookings[id := b];
      hub.EmitToVendor(VendorKey(b.vendor), "booking:update", BookingData(b));
      if b.status == OpenMarket {
        hub.EmitToAllVendors("booking:openMarket", BookingData(b));
        if hub.ioInstance != null {
          StampAppend(hub.ioInstance.rooms, [ToVendor(VendorKey(b.vendor), "booking:update", BookingData(b))],
                      [ToAllVendors("booking:openMarket", BookingData(b))]);
        }
      }
      r := Ok(200, b);
    }

    /** `deleteBooking`. */
    method DeleteBooking(id: nat) returns (r: Response<string>)
      requires Valid()
      modifies this`bookings, hub.ioInstance
      ensures Valid()
      ensures id !in old(bookings) ==>
                r == Fail(404, "Booking not found") && bookings == old(bookings) && Published(hub, [])
      ensures id in old(bookings) ==>
                && r == Ok(200, "Booking deleted")
                && bookings == old(bookings) - {id}
                && Published(hub, Retraction(old(bookings)[id], id))
    {
      if id !in bookings {
        return Fail(404, "Booking not found");
      }
      var b := bookings[id];
      bookings := bookings - {id};
      hub.EmitToVendor(VendorKey(b.vendor), "booking:delete", DeletedId(id));
      r := Ok(200, "Booking deleted");
    }
  }
}
