/** The live booking list of the dashboard: the reducers its socket handlers apply to the
    current list, the status filter over the list, and the query parameters of its fetch.
    The reducers are written over any record type with a key, since the driver, vehicle,
    invoice and custom-view pages apply the same three to their own lists. */
module BookingsView {
  import opened Common
  import opened Records
  import opened SocketServer
  import opened BookingController

  /** `list.filter(x => x._id !== id)`. */
  function Without<T(!new)>(s: seq<T>, key: T -> nat, id: nat): (r: seq<T>)
    ensures |r| <= |s|
    ensures forall x :: x in r <==> x in s && key(x) != id
  {
    if s == [] then []
    else (if key(s[0]) == id then [] else [s[0]]) + Without(s[1..], key, id)
  }

  /** Filtering keeps the order: it filters each part of a list on its own. */
  lemma {:induction false} WithoutAppend<T(!new)>(a: seq<T>, b: seq<T>, key: T -> nat, id: nat)
    ensures Without(a + b, key, id) == Without(a, key, id) + Without(b, key, id)
  {
    if a == [] {
      assert a + b == b;
    } else {
      assert (a + b)[1..] == a[1..] + b;
      WithoutAppend(a[1..], b, key, id);
    }
  }

  /** A list with no entry under `id` is left as it is. */
  lemma {:induction false} WithoutAbsent<T(!new)>(s: seq<T>, key: T -> nat, id: nat)
    requires forall x :: x in s ==> key(x) != id
    ensures Without(s, key, id) == s
  {
    if s != [] {
      WithoutAbsent(s[1..], key, id);
    }
  }

  /** The number of entries under `id`. */
  function Count<T(!new)>(s: seq<T>, key: T -> nat, id: nat): nat
  {
    if s == [] then 0 else (if key(s[0]) == id then 1 else 0) + Count(s[1..], key, id)
  }

  lemma {:induction false} CountAbsent<T(!new)>(s: seq<T>, key: T -> nat, id: nat)
    requires forall x :: x in s ==> key(x) != id
    ensures Count(s, key, id) == 0
  {
    if s != [] {
      CountAbsent(s[1..], key, id);
    }
  }

  /** The `:new` handler: the incoming record first, then the previous list without any
      entry under the same key. */
  function HandleNew<T(!new)>(prev: seq<T>, key: T -> nat, item: T): (r: seq<T>)
    ensures |r| >= 1 && r[0] == item
    ensures forall x :: x in r[1..] <==> x in prev && key(x) != key(item)
  {
    [item] + Without(prev, key, key(item))
  }

  /** The `:update` handler: `list.map(x => x._id === item._id ? item : x)`. */
  function HandleUpdate<T(!new)>(prev: seq<T>, key: T -> nat, item: T): (r: seq<T>)
    ensures |r| == |prev|
    ensures forall i :: 0 <= i < |prev| ==> r[i] == if key(prev[i]) == key(item) then item else prev[i]
  {
    if prev == [] then []
    else [if key(prev[0]) == key(item) then item else prev[0]] + HandleUpdate(prev[1..], key, item)
  }

  /** The `:delete` handler. */
  function HandleDelete<T(!new)>(prev: seq<T>, key: T -> nat, id: nat): (r: seq<T>)
    ensures |r| <= |prev|
    ensures forall x :: x in r <==> x in prev && key(x) != id
  {
    Without(prev, key, id)
  }

  /** A `:new` puts the record in front, keeps every other entry in its order, and leaves
      exactly one entry under its key. */
  lemma NewShape<T(!new)>(prev: seq<T>, key: T -> nat, item: T)
    ensures HandleNew(prev, key, item)[0] == item
    ensures forall x :: x in HandleNew(prev, key, item) ==> x == item || (x in prev && key(x) != key(item))
    ensures forall x :: x in prev && key(x) != key(item) ==> x in HandleNew(prev, key, item)
    ensures Count(HandleNew(prev, key, item), key, key(item)) == 1
  {
    var r := HandleNew(prev, key, item);
    assert r[1..] == Without(prev, key, key(item));
    CountAbsent(r[1..], key, key(item));
  }

  /** Receiving the same `:new` twice gives the list that receiving it once gives. */
  lemma NewIdempotent<T(!new)>(prev: seq<T>, key: T -> nat, item: T)
    ensures HandleNew(HandleNew(prev, key, item), key, item) == HandleNew(prev, key, item)
  {
    var id := key(item);
    var rest := Without(prev, key, id);
    var once := [item] + rest;
    assert once == HandleNew(prev, key, item);
    WithoutAppend([item], rest, key, id);
    assert [item][1..] == [];
    assert Without([item], key, id) == [];
    WithoutAbsent(rest, key, id);
    assert Without(once, key, id) == rest;
  }

  /** An `:update` for a key the list does not hold leaves it unchanged. */
  lemma UpdateUnknown<T(!new)>(prev: seq<T>, key: T -> nat, item: T)
    requires forall x :: x in prev ==> key(x) != key(item)
    ensures HandleUpdate(prev, key, item) == prev
  {
  }

  /** Receiving the same `:update` twice gives the list that receiving it once gives. */
  lemma UpdateIdempotent<T(!new)>(prev: seq<T>, key: T -> nat, item: T)
    ensures HandleUpdate(HandleUpdate(prev, key, item), key, item) == HandleUpdate(prev, key, item)
  {
  }

  /** A `:delete` leaves no entry under the id, keeps the others, and repeating it
      changes nothing. */
  lemma DeleteShape<T(!new)>(prev: seq<T>, key: T -> nat, id: nat)
    ensures Count(HandleDelete(prev, key, id), key, id) == 0
    ensures forall x :: x in prev && key(x) != id ==> x in HandleDelete(prev, key, id)
    ensures HandleDelete(HandleDelete(prev, key, id), key, id) == HandleDelete(prev, key, id)
  {
    CountAbsent(HandleDelete(prev, key, id), key, id);
    WithoutAbsent(HandleDelete(prev, key, id), key, id);
  }

  function BookingKey(b: Booking): nat
  {
    b.id
  }

  /** The bookings of `s` whose status is named `status`, in order. */
  function WithStatus(s: seq<Booking>, status: string): (r: seq<Booking>)
    ensures |r| <= |s|
    ensures forall b :: b in r <==> b in s && StatusName(b.status) == status
  {
    if s == [] then []
    else (if StatusName(s[0].status) == status then [s[0]] else []) + WithStatus(s[1..], status)
  }

  /** The status filter keeps the order: it filters each part of a list on its own. */
  lemma {:induction false} WithStatusAppend(a: seq<Booking>, b: seq<Booking>, status: string)
    ensures WithStatus(a + b, status) == WithStatus(a, status) + WithStatus(b, status)
  {
    if a == [] {
      assert a + b == b;
    } else {
      assert (a + b)[1..] == a[1..] + b;
      WithStatusAppend(a[1..], b, status);
    }
  }

  /** A list with no booking of that status filters to nothing. */
  lemma {:induction false} WithStatusDropsAll(s: seq<Booking>, status: string)
    requires forall b :: b in s ==> StatusName(b.status) != status
    ensures WithStatus(s, status) == []
  {
    if s != [] {
      WithStatusDropsAll(s[1..], status);
    }
  }

  lemma {:induction false} WithStatusKeepsAll(s: seq<Booking>, status: string)
    requires forall b :: b in s ==> StatusName(b.status) == status
    ensures WithStatus(s, status) == s
  {
    if s != [] {
      WithStatusKeepsAll(s[1..], status);
    }
  }

  /** The choices of the page's status selector. */
  const StatusOptions: seq<string> := ["All", "Ongoing", "Completed", "Cancelled", "OpenMarket"]

  /** The `filtered` list the page shows. */
  function Filtered(bookings: seq<Booking>, status: string): (r: seq<Booking>)
    ensures status == "All" ==> r == bookings
    ensures status != "All" ==> forall b :: b in r <==> b in bookings && StatusName(b.status) == status
    ensures status != "All" ==> r == WithStatus(bookings, status)
  {
    if status == "All" then bookings else WithStatus(bookings, status)
  }

  /** Filtering what is already filtered changes nothing. */
  lemma FilteredIdempotent(bookings: seq<Booking>, status: string)
    ensures Filtered(Filtered(bookings, status), status) == Filtered(bookings, status)
  {
    if status != "All" {
      WithStatusKeepsAll(WithStatus(bookings, status), status);
    }
  }

  /** The query parameters of the fetch: a `status` only when a status is selected. */
  function FetchParams(status: string): (r: Option<string>)
    ensures r.Some? <==> status != "All"
    ensures r.Some? ==> r.value == status
  {
    if status != "All" then Some(status) else None
  }

  /** A freshly fetched list already meets the selected filter: the server selected by
      the same status. */
  lemma FetchedListIsFiltered(store: map<nat, Booking>, rows: seq<Booking>, status: string)
    requires status in StatusOptions
    requires forall b :: b in rows ==> exists id :: id in GetBookings(store, FetchParams(status), None) && store[id] == b
    ensures Filtered(rows, status) == rows
  {
    if status != "All" {
      forall b | b in rows ensures StatusName(b.status) == status {
        var id :| id in GetBookings(store, FetchParams(status), None) && store[id] == b;
        assert Selected(store[id], FetchParams(status), None);
      }
      WithStatusKeepsAll(rows, status);
    }
  }

  /** The page's socket subscriptions: `booking:new`, `booking:update` and
      `booking:delete`; any other event leaves the list alone. */
  function OnMessage(prev: seq<Booking>, m: Message): (r: seq<Booking>)
    ensures m.event !in {"booking:new", "booking:update", "booking:delete"} ==> r == prev
    ensures m.event == "booking:new" && m.payload.BookingData? ==> r == HandleNew(prev, BookingKey, m.payload.booking)
    ensures m.event == "booking:update" && m.payload.BookingData? ==> r == HandleUpdate(prev, BookingKey, m.payload.booking)
    ensures m.event == "booking:delete" && m.payload.DeletedId? ==> r == HandleDelete(prev, BookingKey, m.payload.deleted)
  {
    if m.event == "booking:new" && m.payload.BookingData? then HandleNew(prev, BookingKey, m.payload.booking)
    else if m.event == "booking:update" && m.payload.BookingData? then HandleUpdate(prev, BookingKey, m.payload.booking)
    else if m.event == "booking:delete" && m.payload.DeletedId? then HandleDelete(prev, BookingKey, m.payload.deleted)
    else prev
  }

  function OnMessages(prev: seq<Booking>, msgs: seq<Message>): seq<Booking>
    decreases |msgs|
  {
    if msgs == [] then prev else OnMessages(OnMessage(prev, msgs[0]), msgs[1..])
  }

  /** A page that receives what a create publishes ends with the new booking in front and
      no other entry under its id: the open-market broadcast is not one of its events. */
  lemma CreateSeenByPage(prev: seq<Booking>, b: Booking)
    ensures OnMessages(prev, Announce("booking:new", b)) == HandleNew(prev, BookingKey, b)
  {
    var msgs := Announce("booking:new", b);
    var first := OnMessage(prev, msgs[0]);
    assert first == HandleNew(prev, BookingKey, b);
    if |msgs| == 2 {
      assert OnMessage(first, msgs[1]) == first;
      assert msgs[1..][1..] == [];
      assert OnMessages(first, msgs[1..]) == OnMessages(first, msgs[1..][1..]);
    } else {
      assert msgs[1..] == [];
    }
  }

  /** A page that receives what a delete publishes holds no entry under the deleted id. */
  lemma DeleteSeenByPage(prev: seq<Booking>, b: Booking, id: nat)
    ensures Count(OnMessages(prev, Retraction(b, id)), BookingKey, id) == 0
  {
    var msgs := Retraction(b, id);
    assert msgs[1..] == [];
    DeleteShape(prev, BookingKey, id);
  }
}
