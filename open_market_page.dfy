/** The live list of the open-market page. Its only socket subscription is to an event
    name the server never emits; `OnPoolMessageAsWritten` keeps that name, and
    `OnPoolMessage` listens for the broadcast the server does send. */
module OpenMarketPage {
  import opened Records
  import opened SocketServer
  import opened BookingController
  import opened BookingsView

  /** The handler as subscribed: to `openMarket:new`. */
  function OnPoolMessageAsWritten(prev: seq<Booking>, m: Message): seq<Booking>
  {
    if m.event == "openMarket:new" && m.payload.BookingData? then HandleNew(prev, BookingKey, m.payload.booking)
    else prev
  }

  /** The handler subscribed to the event the server broadcasts, `booking:openMarket`. */
  function OnPoolMessage(prev: seq<Booking>, m: Message): seq<Booking>
  {
    if m.event == "booking:openMarket" && m.payload.BookingData? then HandleNew(prev, BookingKey, m.payload.booking)
    else prev
  }

  /** As written, nothing a booking create or update publishes changes the page. */
  lemma AsWrittenMissesReleases(prev: seq<Booking>, b: Booking, event: string)
    requires event == "booking:new" || event == "booking:update"
    ensures forall m :: m in Announce(event, b) ==> OnPoolMessageAsWritten(prev, m) == prev
  {
  }

  /** Listening for the broadcast, a create or update that leaves a booking in the open
      market puts it in front of the page's list, exactly once. */
  lemma PoolPageSeesRelease(prev: seq<Booking>, b: Booking, event: string)
    requires event == "booking:new" || event == "booking:update"
    requires b.status == OpenMarket
    ensures OnPoolMessage(OnPoolMessage(prev, Announce(event, b)[0]), Announce(event, b)[1]) == HandleNew(prev, BookingKey, b)
  {
  }
}
