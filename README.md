# Open market, fan-out and vendor scoping of the cab-booking portal, in Dafny

This project models the request handlers of the booking portal's backend, and the list
reducers of its dashboard, where behaviour depends on time, identity and publication order:

- **Releasing a booking to the open market** (`pushToOpenMarket`). Only an `Ongoing` booking
  can be released. A release stamps `pushedAt = now` and `whitelistedOnlyUntil = now + 30 min`.
- **The open-market pool query** (`getOpenMarketBookings`). It builds a MongoDB filter from
  the caller's role, vendor id and whitelist flag. The filter is modelled as data
  (`Query.Filter`), built step by step as the handler builds it. It is proved equivalent to
  a visibility rule stated on the booking itself (`OpenMarketController.Visible`).
- **Booking create, update and delete.** Each one changes the store and then emits to
  the owner's room `vendor_<id>`. A create or update whose resulting booking is in the
  open market then also emits to the room `vendors`; a delete never does.
- **The socket layer.**
  - `SocketServer.Io` holds room membership and a log of deliveries.
  - `SocketUtil.SocketHub` holds the optional installed instance from `utils/socket.js`.
  - `Connection.OnConnection` is the handshake rule for joining rooms.
- **The four vendor-scoped controllers** (drivers, vehicles, invoices, custom views). They
  share one class, `ResourceController.ResourceStore`. Every get, update and delete is keyed
  by id and the caller's vendor, and create stamps the caller's vendor.
- **The dashboard's booking list** (`Bookings.jsx`): the prepend, replace and delete
  reducers, the status filter and the fetch parameters.

Time is an integer number of milliseconds, passed in as `now`. Record ids are natural
numbers, handed out by a counter in each store. Token verification is an input: the
decoded claims, or nothing when verification throws. The caller's role and vendor id are
inputs, since the authentication middleware is not part of this model.

Behaviour worth knowing:

- `pushToOpenMarket` emits no socket event.
- At `now == whitelistedOnlyUntil` the booking is still restricted, because the comparison
  is a strict `$lt`.
- During the window a released booking is listed early only to its owner, and only when
  that owner is whitelisted. An owner that is not whitelisted waits like everyone else.
- Creating a driver, vehicle or invoice emits nothing. Only their updates emit.
- A booking whose `whitelistedOnlyUntil` is missing is never listed to a vendor. MongoDB's
  `$lt` and `$gte` match no missing field.
- A create may itself name the open-market status and a pushed `openMarket` value. That
  booking enters the pool with the body's window, without a release.
- A create fills in these schema defaults for the fields its body omits: an invoice is
  `Pending`, a vehicle is `available`, a custom view gets `createdAt = now`.

## Model

| member | source | states |
|---|---|---|
| `Query.AddClause` | booking-backend/src/controllers/openMarketController.js:40-42 | assigning a key the filter object does not yet hold adds exactly one conjunct |
| `Query.Find` | booking-backend/src/controllers/bookingController.js:25 | `find(filter)` returns exactly the stored records the filter matches, unchanged |
| `SocketServer.Stamp` | booking-backend/src/utils/socket.js:11 | each emitted message reaches exactly the sockets that have joined its room |
| `SocketServer.StampAppend` | booking-backend/src/utils/socket.js:9-17 | emits made one after another deliver in call order |
| `SocketServer.NoRoomNoMessages` | booking-backend/src/index.js:61-63 | a socket that joined no room receives nothing, whatever is emitted |
| `SocketServer.ReceivedByRoom` | booking-backend/src/utils/socket.js:11-16 | a socket receives exactly the messages addressed to its rooms, in emit order |
| `SocketServer.Io.Accept` | booking-backend/src/index.js:49 | a new connection is registered with no room |
| `SocketServer.Io.Join` | booking-backend/src/index.js:58-59 | joining adds one room to that socket only and delivers nothing |
| `SocketServer.Io.Emit` | booking-backend/src/utils/socket.js:11 | an emit appends one delivery to the room's current members and leaves membership unchanged |
| `SocketUtil.VendorRoom` | booking-backend/src/utils/socket.js:11 | a vendor's private room is `vendor_` followed by its id |
| `SocketUtil.VendorRoomInjective` | booking-backend/src/utils/socket.js:11 | two vendors share a private room only if they are the same vendor |
| `SocketUtil.VendorRoomNotBroadcast` | booking-backend/src/utils/socket.js:11-16 | no private room `vendor_<id>` is the broadcast room `vendors` |
| `SocketUtil.SocketHub.constructor` | booking-backend/src/utils/socket.js:3 | no instance is installed at start |
| `SocketUtil.SocketHub.SetSocketIO` | booking-backend/src/utils/socket.js:5-7 | replaces the held instance, so later emits go through the new one |
| `SocketUtil.SocketHub.EmitToVendor` | booking-backend/src/utils/socket.js:9-12 | does nothing without an instance; otherwise delivers to members of `vendor_<id>` only, with membership unchanged |
| `SocketUtil.SocketHub.EmitToAllVendors` | booking-backend/src/utils/socket.js:14-17 | does nothing without an instance; otherwise delivers to members of `vendors` only, with membership unchanged |
| `Connection.Subscriptions` | booking-backend/src/index.js:51-64 | joins `vendors` iff the handshake has a truthy token, verifies, and carries a truthy vendorId; joins `vendor_<v>` iff, in addition, that vendorId is v; otherwise joins no room |
| `Connection.OnConnection` | booking-backend/src/index.js:49-70 | the connection is always kept and gets exactly those rooms; nothing is emitted |
| `Connection.ConnectedReceives` | booking-backend/src/index.js:53-60 | a connected socket receives a message iff its handshake was admitted and the message is a broadcast or to its own vendor's room |
| `Connection.PrivateIsolation` | booking-backend/src/index.js:58 | a socket admitted as vendor w is never in vendor v's room when v ≠ w |
| `BookingController.NewBooking` | booking-backend/src/controllers/bookingController.js:8 | a new booking keeps the body's `bookingId`, vendor and other fields; status defaults to Ongoing; a body's `openMarket` is stored as given, and without one the booking is unpushed with neither `pushedAt` nor a window |
| `BookingController.Patched` | booking-backend/src/controllers/bookingController.js:46 | an update overwrites exactly the fields the body names, `bookingId` and vendor included, with no transition check; without `openMarket` in the body the sub-document is untouched |
| `BookingController.Announce` | booking-backend/src/controllers/bookingController.js:11-12 | the private event goes first, to the owner's room; a broadcast follows iff the status is OpenMarket; every message carries the booking |
| `BookingController.Retraction` | booking-backend/src/controllers/bookingController.js:62 | a delete sends one `booking:delete` carrying `{id}`, to the owner's room, never to the broadcast room |
| `BookingController.QueryFilter` | booking-backend/src/controllers/bookingController.js:21-24 | the filter holds a `status` condition iff the query's status is truthy and a `vendor` condition iff its vendorId is, each equal to the query value, and nothing else |
| `BookingController.QueryFilterMeaning` | booking-backend/src/controllers/bookingController.js:21-24 | the filter built from the query matches a booking iff it has the truthy status and the truthy vendor |
| `BookingController.GetBookings` | booking-backend/src/controllers/bookingController.js:19-31 | returns exactly the stored bookings meeting the truthy query values; with neither value, the whole store, whoever asks |
| `BookingController.GetBooking` | booking-backend/src/controllers/bookingController.js:33-42 | 404 "Booking not found" iff the id is absent, otherwise 200 with the stored booking |
| `BookingController.BookingStore.CreateBooking` | booking-backend/src/controllers/bookingController.js:6-17 | stores the new booking under a fresh id, answers 201 and publishes `Announce("booking:new", b)` |
| `BookingController.BookingStore.UpdateBooking` | booking-backend/src/controllers/bookingController.js:44-55 | a missing id gives 404 with store and log unchanged; otherwise stores the patched booking and publishes `Announce("booking:update", b)` for the result |
| `BookingController.BookingStore.DeleteBooking` | booking-backend/src/controllers/bookingController.js:57-67 | a missing id gives 404 with nothing changed; otherwise removes only that booking and publishes only its retraction |
| `OpenMarketController.Release` | booking-backend/src/controllers/openMarketController.js:10-16 | status becomes OpenMarket; the whole `openMarket` record becomes (pushed, now, now + 1800000); no other field changes |
| `OpenMarketController.PushToOpenMarket` | booking-backend/src/controllers/openMarketController.js:5-22 | 404 with nothing changed for a missing id; 400 with nothing changed unless the status is Ongoing; otherwise stores and returns the released booking; the socket instance is outside its frame, so it emits nothing |
| `OpenMarketController.PushTwice` | booking-backend/src/controllers/openMarketController.js:9 | a second push of the same booking is refused with 400 and the first window stays |
| `OpenMarketController.IsWhitelisted` | booking-backend/src/controllers/openMarketController.js:39-40 | a vendor missing from the directory counts as not whitelisted |
| `OpenMarketController.PoolFilter` | booking-backend/src/controllers/openMarketController.js:28-42 | the pool conditions always; for a vendor the `$or` of "window over" and "window open and mine"; the window key set to `$lt now` exactly for a vendor that is not whitelisted |
| `OpenMarketController.PoolFilterMeaning` | booking-backend/src/controllers/openMarketController.js:28-42 | the filter as built, `$or` and key override included, matches a booking iff `Visible` holds |
| `OpenMarketController.GetOpenMarketBookings` | booking-backend/src/controllers/openMarketController.js:25-49 | lists exactly the stored bookings visible to the caller at `now` |
| `OpenMarketController.OnlyPushedOpenMarket` | booking-backend/src/controllers/openMarketController.js:28 | for every role, a booking not in OpenMarket status, or not pushed, is never listed |
| `OpenMarketController.AdminSeesWholePool` | booking-backend/src/controllers/openMarketController.js:28-29 | an admin is listed every pushed open-market booking, whatever the window |
| `OpenMarketController.NotPushedNeverListed` | booking-backend/src/controllers/openMarketController.js:28 | a never-pushed booking, created or updated into OpenMarket without an `openMarket` body, is never listed |
| `OpenMarketController.CreateSkipsRelease` | booking-backend/src/controllers/bookingController.js:8 | a create naming OpenMarket and a pushed `openMarket` value puts the booking in the pool with the body's window: admins see it at once, vendors once that window is over |
| `OpenMarketController.WindowEndIsStrict` | booking-backend/src/controllers/openMarketController.js:34-35 | at `now == whitelistedOnlyUntil` a non-owner does not see the booking; one millisecond later it does |
| `OpenMarketController.NotWhitelistedWaits` | booking-backend/src/controllers/openMarketController.js:39-42 | a vendor that is not whitelisted or is unknown sees a booking iff its window is strictly over, even its own |
| `OpenMarketController.WhitelistedNonOwnerWaits` | booking-backend/src/controllers/openMarketController.js:31-36 | a whitelisted non-owner also sees a booking only once the window is strictly over |
| `OpenMarketController.ReleaseTimeline` | booking-backend/src/controllers/openMarketController.js:31-42 | after a release at t, a vendor sees the booking at n iff n > t + 30 min, or it is whitelisted and owns it |
| `ResourceController.Created` | booking-backend/src/controllers/invoiceController.js:6 | the stored record is owned by the caller whatever the body says; it keeps the body's fields; a field the body omits takes its schema default; an invoice also gets `submittedAt = now` |
| `ResourceController.NewInvoiceIsPending` | booking-backend/src/models/Invoice.js:7 | an invoice created without a status is listed by the caller's `status=Pending` query |
| `ResourceController.Updated` | booking-backend/src/controllers/driverController.js:35 | the body overwrites the fields it names, `vendor` included; the id is kept |
| `ResourceController.ScopeFilter` | booking-backend/src/controllers/driverController.js:25 | every lookup carries exactly the condition `vendor == caller` |
| `ResourceController.ScopeFilterMeaning` | booking-backend/src/controllers/driverController.js:25 | the `{vendor: caller}` condition matches exactly the caller's records |
| `ResourceController.FindOwned` | booking-backend/src/controllers/vehicleController.js:25 | finds a record iff it exists and the caller owns it |
| `ResourceController.ListFilter` | booking-backend/src/controllers/invoiceController.js:17-19 | the caller's vendor always; for invoices also the truthy `status` and, under `reportMonth`, the truthy `month`; nothing else |
| `ResourceController.ListFilterMeaning` | booking-backend/src/controllers/invoiceController.js:17-19 | the list filter matches the caller's records with the truthy invoice `status` and `reportMonth == month` |
| `ResourceController.List` | booking-backend/src/controllers/invoiceController.js:14-25 | lists exactly the caller's records meeting the query, and never another vendor's |
| `ResourceController.Get` | booking-backend/src/controllers/vehicleController.js:23-31 | 200 with the record iff the caller owns it, otherwise 404 with the resource's message |
| `ResourceController.AfterUpdate` | booking-backend/src/controllers/customViewController.js:34-35 | only the caller's own record under the id can change; the key set is unchanged |
| `ResourceController.AfterDelete` | booking-backend/src/controllers/customViewController.js:44-45 | only the caller's own record under the id is removed; every other record is kept unchanged |
| `ResourceController.UpdateNotice` | booking-backend/src/controllers/driverController.js:37 | an update announces the record to its vendor's room only, as `driver:update`, `vehicle:update` or `invoice:update`; custom views announce nothing |
| `ResourceController.ResourceStore.Create` | booking-backend/src/controllers/vehicleController.js:4-12 | stores the created record under a fresh id and answers 201; the socket instance is outside its frame, so it emits nothing |
| `ResourceController.ResourceStore.Update` | booking-backend/src/controllers/invoiceController.js:37-46 | the store becomes `AfterUpdate`; a missing or foreign id gives 404 and publishes nothing; otherwise publishes `UpdateNotice` |
| `ResourceController.ResourceStore.Delete` | booking-backend/src/controllers/driverController.js:44-52 | the store becomes `AfterDelete`; answers 404 unless the caller owns the id; emits nothing |
| `ResourceController.Isolation` | booking-backend/src/controllers/customViewController.js:13-50 | another vendor's record is never returned, listed, altered or removed by the caller's requests |
| `BookingsView.Without` | booking/src/Bookings.jsx:42 | keeps exactly the entries whose key differs from the id |
| `BookingsView.WithoutAppend` | booking/src/Bookings.jsx:32 | filtering keeps order, because it filters each part of a concatenation on its own |
| `BookingsView.WithoutAbsent` | booking/src/Bookings.jsx:42 | a list without the id is returned as it is |
| `BookingsView.HandleNew` | booking/src/Bookings.jsx:31-32 | the incoming record comes first, followed by exactly the previous entries with another key (order and the single entry per key: `NewShape`, `NewIdempotent`) |
| `BookingsView.HandleDelete` | booking/src/Bookings.jsx:41-42 | keeps exactly the previous entries with another key (no entry left and idempotence: `DeleteShape`) |
| `BookingsView.HandleUpdate` | booking/src/Bookings.jsx:37 | same length; each entry with the incoming key is replaced, and every other entry stays in its place |
| `BookingsView.NewShape` | booking/src/Bookings.jsx:31-32 | the incoming record comes first, every other-key entry is kept, and exactly one entry has its key |
| `BookingsView.NewIdempotent` | booking/src/Bookings.jsx:32 | applying the same `:new` twice equals applying it once |
| `BookingsView.UpdateUnknown` | booking/src/Bookings.jsx:36-37 | an update for an unknown key leaves the list unchanged |
| `BookingsView.UpdateIdempotent` | booking/src/Bookings.jsx:37 | applying the same update twice equals applying it once |
| `BookingsView.DeleteShape` | booking/src/Bookings.jsx:41-42 | no entry with the id remains, the others are kept, and a repeat changes nothing |
| `BookingsView.WithStatus` | booking/src/Bookings.jsx:65 | keeps exactly the bookings with the selected status |
| `BookingsView.WithStatusAppend` | booking/src/Bookings.jsx:65 | the status filter keeps order and multiplicity, because it filters each part of a concatenation on its own |
| `BookingsView.WithStatusDropsAll` | booking/src/Bookings.jsx:65 | a list with no booking of the status filters to the empty list |
| `BookingsView.Filtered` | booking/src/Bookings.jsx:63-66 | `All` returns the list unchanged; otherwise `WithStatus`, so exactly the entries with that status, in order |
| `BookingsView.FilteredIdempotent` | booking/src/Bookings.jsx:63-66 | filtering a filtered list changes nothing |
| `BookingsView.FetchParams` | booking/src/Bookings.jsx:23 | a `status` parameter is sent iff the selection is not `All` |
| `BookingsView.FetchedListIsFiltered` | booking/src/Bookings.jsx:21-26 | a list fetched for a selected status already passes the page's filter for it |
| `BookingsView.OnMessage` | booking/src/Bookings.jsx:46-48 | only `booking:new`, `booking:update` and `booking:delete` change the list, each through its own reducer; any other event leaves it as it is |
| `BookingsView.CreateSeenByPage` | booking/src/Bookings.jsx:46-48 | a page that receives a create's messages ends with the prepend; the open-market broadcast is ignored |
| `BookingsView.DeleteSeenByPage` | booking/src/Bookings.jsx:41-48 | a page that receives a delete's message holds no entry with that id |
| `OpenMarketPage.AsWrittenMissesReleases` | booking/src/OpenMarket.jsx:33 | the handler as subscribed ignores everything a booking create or update publishes |
| `OpenMarketPage.PoolPageSeesRelease` | booking/src/OpenMarket.jsx:27-33 | subscribed to `booking:openMarket`, the page prepends a booking created or updated into OpenMarket |

## Findings

| source | as written | input that shows it | evidently intended | confidence | as-written member | corrected member |
|---|---|---|---|---|---|---|
| booking/src/OpenMarket.jsx:33 | the open-market page subscribes to `openMarket:new`, an event the server never emits; the server broadcasts `booking:openMarket` (booking-backend/src/controllers/bookingController.js:12,50) | create a booking with status OpenMarket: the page's list stays as it was | the page prepends each broadcast open-market booking. Two limits remain even then: the broadcast goes to every socket in `vendors` with no visibility rule, so the page would show in-window and unpushed bookings that `getOpenMarketBookings` does not list; and `pushToOpenMarket`, the release path, emits nothing, so releases would still be missed | high (not executed) | `OpenMarketPage.OnPoolMessageAsWritten`, shown by `OpenMarketPage.AsWrittenMissesReleases` | `OpenMarketPage.OnPoolMessage`, proved by `OpenMarketPage.PoolPageSeesRelease` |

## Left out

- Persistence failures and the 500 branches are not modelled: schema validation (`bookingId` required and unique, and the status enum on create), ObjectId cast errors, and thrown driver exceptions.
- `populate` is not modelled: results carry references, not the referenced documents.
- Result order is not modelled. Every `find` result is a map from id to record, because MongoDB's return order is not part of the handlers' logic.
- Concurrency is not modelled. `pushToOpenMarket` reads and then saves without a conditional update; the model runs requests one at a time and claims no freedom from races.
- Signed-token verification is an input, and so is password checking at login. The role-gating middleware is also left out: the caller's role and vendor id are inputs, and a caller always has a vendor id.
- Socket disconnects are not modelled. On disconnect, socket.io removes the socket from its rooms; the handler only logs, so the model never removes a session. socket.io's own per-socket room is not modelled either.
- Body handling is simplified. Mongoose strict mode, which drops fields outside the schema, is not modelled. Dotted-path updates such as `"openMarket.pushed"` are not modelled: a body's `openMarket` replaces the whole sub-document. `$unset` is not modelled.
- The server emits nothing that the driver, vehicle, invoice and custom-view pages' `:new` and `:delete` subscriptions listen for. Those pages use the same generic reducers, and the rest of each page is UI.
- The UI is not modelled: rendering, notifications and their 2500 ms timers, theme, login page, auth context and the API client.
- Wall-clock reads are replaced by the `now` parameter.
- `ResourceController.Created`: not every schema default is applied. Left out are the custom view's `filters: {}` and `columns: []` defaults, the `createdAt`/`updatedAt` timestamps of bookings, drivers, vehicles and invoices, and the `updatedAt` that every update sets on those schemas. The model's field values have no object or array kind, and no handler here reads those timestamps.
- `BookingController.Patched`: an update's status outside the schema enum is not modelled. `updateBooking` runs no validators, so such a status is stored as given. `Records.Status` cannot hold it; a booking with it would be neither Ongoing nor OpenMarket, so it could not be pushed and would never be listed in the pool.
- `OpenMarketController.IsWhitelisted`: its contract states only the missing-vendor default. The rest of its meaning is the directory flag itself.
