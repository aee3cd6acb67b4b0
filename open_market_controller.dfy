/** Releasing a booking to the open market, and the query that lists the open-market
    pool to a caller. The pool query is a MongoDB filter built from the caller's role,
    vendor id and whitelist flag; `Visible` states the same rule on the booking itself. */
module OpenMarketController {
  import opened Common
  import opened Query
  import opened Records
  import opened BookingController

  /** The restricted window after a release: 30 minutes, in milliseconds. */
  const RestrictionWindowMs: int := 30 * 60 * 1000

  /** A released booking: open-market status and a fresh `openMarket` sub-document whose
      window ends `RestrictionWindowMs` after `now`; every other field is kept. */
  function Release(b: Booking, now: int): (r: Booking)
    ensures r.status == OpenMarket
    ensures r.openMarket == OpenMarketInfo(true, Some(now), Some(now + 1800000))
    ensures r.(status := b.status, openMarket := b.openMarket) == b
  {
    b.(status := OpenMarket,
       openMarket := OpenMarketInfo(true, Some(now), Some(now + RestrictionWindowMs)))
  }

  /** `pushToOpenMarket`: only an `Ongoing` booking may be released. It saves the booking
      and emits nothing: the socket instance is outside what it may change. */
  method PushToOpenMarket(store: BookingStore, id: nat, now: int) returns (r: Response<Booking>)
    requires store.Valid()
    modifies store`bookings
    ensures store.Valid()
    ensures id !in old(store.bookings) ==>
              r == Fail(404, "Booking not found") && store.bookings == old(store.bookings)
    ensures id in old(store.bookings) && old(store.bookings)[id].status != Ongoing ==>
              r == Fail(400, "Only ongoing bookings can be pushed") && store.bookings == old(store.bookings)
    ensures id in old(store.bookings) && old(store.bookings)[id].status == Ongoing ==>
              && r == Ok(200, Release(old(store.bookings)[id], now))
              && store.bookings == old(store.bookings)[id := r.value]
  {
    if id !in store.bookings {
      return Fail(404, "Booking not found");
    }
    var booking := store.bookings[id];
    if booking.status != Ongoing {
      return Fail(400, "Only ongoing bookings can be pushed");
    }
    booking := booking.(status := OpenMarket);
    booking := booking.(openMarket := OpenMarketInfo(true, Some(now), Some(now + RestrictionWindowMs)));
    store.bookings := store.bookings[id := booking];
    r := Ok(200, booking);
  }

  /** Two pushes of the same booking in sequence: the first releases it, the second is
      refused and leaves the first window in place. */
  method PushTwice(store: BookingStore, id: nat, first: int, second: int) returns (r1: Response<Booking>, r2: Response<Booking>)
    requires store.Valid() && id in store.bookings && store.bookings[id].status == Ongoing
    modifies store`bookings
    ensures r1.Ok? && r1.value.openMarket.whitelistedOnlyUntil == Some(first + RestrictionWindowMs)
    ensures r2 == Fail(400, "Only ongoing bookings can be pushed")
    ensures store.bookings == old(store.bookings)[id := r1.value]
  {
    r1 := PushToOpenMarket(store, id, first);
    r2 := PushToOpenMarket(store, id, second);
  }

  /** `vendor?.whitelisted`: a vendor missing from the directory counts as not
      whitelisted. */
  function IsWhitelisted(directory: map<string, VendorRecord>, vendorId: string): (w: bool)
    ensures vendorId !in directory ==> !w
  {
    vendorId in directory && directory[vendorId].whitelisted
  }

  const WindowPath := "openMarket.whitelistedOnlyUntil"

  /** The filter `getOpenMarketBookings` builds, in the order it builds it: the pool
      conditions; for a vendor caller an `$or` of "window over" and "window open and
      mine"; and, for a caller that is not whitelisted, the window key set to "over". */
  function PoolFilter(now: int, role: Role, caller: string, whitelisted: bool): (r: Filter)
    ensures forall p :: p in r.all <==> p == "status" || p == "openMarket.pushed" || (p == WindowPath && role == VendorRole && !whitelisted)
    ensures "status" in r.all && r.all["status"] == Eq(Str("OpenMarket"))
    ensures "openMarket.pushed" in r.all && r.all["openMarket.pushed"] == Eq(Flag(true))
    ensures WindowPath in r.all ==> r.all[WindowPath] == Lt(now)
    ensures r.anyOf.Some? <==> role == VendorRole
    ensures r.anyOf.Some? ==> r.anyOf.value == [map[WindowPath := Lt(now)], map[WindowPath := Gte(now), "vendor" := Eq(Str(caller))]]
  {
    var pool: Conj := map["status" := Eq(Str("OpenMarket")), "openMarket.pushed" := Eq(Flag(true))];
    if role != VendorRole then Filter(pool, None)
    else
      var alternatives := [map[WindowPath := Lt(now)], map[WindowPath := Gte(now), "vendor" := Eq(Str(caller))]];
      var all := if !whitelisted then pool[WindowPath := Lt(now)] else pool;
      Filter(all, Some(alternatives))
  }

  predicate InPool(b: Booking)
  {
    b.status == OpenMarket && b.openMarket.pushed
  }

  /** The restricted window of `b` has ended strictly before `now`. */
  predicate WindowOver(b: Booking, now: int)
  {
    b.openMarket.whitelistedOnlyUntil.Some? && b.openMarket.whitelistedOnlyUntil.value < now
  }

  /** The visibility rule: a booking in the pool is listed to an admin always; to a vendor
      once its window is over, or earlier when the vendor is whitelisted and owns it
      (and the window end is recorded at all). */
  predicate Visible(now: int, b: Booking, role: Role, caller: string, whitelisted: bool)
  {
    && InPool(b)
    && (|| role == AdminRole
        || WindowOver(b, now)
        || (whitelisted && b.vendor == Some(caller) && b.openMarket.whitelistedOnlyUntil.Some?))
  }

  /** The filter as built selects exactly the bookings the rule calls visible; the key
      assigned for a caller that is not whitelisted is a plain extra conjunct. */
  lemma PoolFilterMeaning(now: int, b: Booking, role: Role, caller: string, whitelisted: bool)
    ensures Matches(PoolFilter(now, role, caller, whitelisted), BookingView(b)) <==> Visible(now, b, role, caller, whitelisted)
  {
    var doc := BookingView(b);
    var pool: Conj := map["status" := Eq(Str("OpenMarket")), "openMarket.pushed" := Eq(Flag(true))];
    assert MatchesAll(pool, doc) <==> InPool(b) by {
      if InPool(b) {
        forall p | p in pool ensures Holds(pool[p], doc(p)) {}
      }
      if MatchesAll(pool, doc) {
        assert Holds(pool["status"], doc("status"));
        assert Holds(pool["openMarket.pushed"], doc("openMarket.pushed"));
      }
    }
    if role == VendorRole {
      var a0: Conj := map[WindowPath := Lt(now)];
      var a1: Conj := map[WindowPath := Gte(now), "vendor" := Eq(Str(caller))];
      var alternatives := [a0, a1];
      assert MatchesAll(a0, doc) <==> WindowOver(b, now) by {
        if WindowOver(b, now) { forall p | p in a0 ensures Holds(a0[p], doc(p)) {} }
        if MatchesAll(a0, doc) { assert Holds(a0[WindowPath], doc(WindowPath)); }
      }
      var owned := b.openMarket.whitelistedOnlyUntil.Some? && !WindowOver(b, now) && b.vendor == Some(caller);
      assert MatchesAll(a1, doc) <==> owned by {
        if owned { forall p | p in a1 ensures Holds(a1[p], doc(p)) {} }
        if MatchesAll(a1, doc) {
          assert Holds(a1[WindowPath], doc(WindowPath));
          assert Holds(a1["vendor"], doc("vendor"));
        }
      }
      var anyOf := exists i :: 0 <= i < |alternatives| && MatchesAll(alternatives[i], doc);
      assert anyOf <==> WindowOver(b, now) || owned by {
        if MatchesAll(a0, doc) { assert MatchesAll(alternatives[0], doc); }
        if MatchesAll(a1, doc) { assert MatchesAll(alternatives[1], doc); }
      }
      if !whitelisted {
        AddClause(pool, WindowPath, Lt(now), doc);
      }
    }
  }

  /** `getOpenMarketBookings`: the stored bookings visible to the caller now. */
  function GetOpenMarketBookings(store: map<nat, Booking>, now: int, role: Role, caller: string,
                                 directory: map<string, VendorRecord>): (r: map<nat, Booking>)
    ensures r.Keys <= store.Keys
    ensures forall id :: id in r ==> r[id] == store[id]
    ensures forall id :: id in store ==>
              (id in r <==> Visible(now, store[id], role, caller, IsWhitelisted(directory, caller)))
  {
    var whitelisted := IsWhitelisted(directory, caller);
    forall id | id in store
      ensures Matches(PoolFilter(now, role, caller, whitelisted), BookingView(store[id]))
              <==> Visible(now, store[id], role, caller, whitelisted)
    {
      PoolFilterMeaning(now, store[id], role, caller, whitelisted);
    }
    Find(store, PoolFilter(now, role, caller, whitelisted), BookingView)
  }

  /** Nothing outside the pushed open-market pool is listed, to any role. */
  lemma OnlyPushedOpenMarket(now: int, b: Booking, role: Role, caller: string, whitelisted: bool)
    requires b.status != OpenMarket || !b.openMarket.pushed
    ensures !Visible(now, b, role, caller, whitelisted)
  {
  }

  /** An admin is listed every booking of the pool, whatever the window. */
  lemma AdminSeesWholePool(now: int, b: Booking, caller: string, whitelisted: bool)
    ensures Visible(now, b, AdminRole, caller, whitelisted) <==> InPool(b)
  {
  }

  /** A booking that was never pushed, created or updated into the open-market status
      without an `openMarket` value in the body, is never listed. */
  lemma NotPushedNeverListed(id: nat, body: BookingBody, b: Booking, patch: BookingPatch,
                             now: int, role: Role, caller: string, whitelisted: bool)
    requires body.openMarket.None?
    requires !b.openMarket.pushed && patch.openMarket.None?
    ensures !Visible(now, NewBooking(id, body), role, caller, whitelisted)
    ensures !Visible(now, Patched(b, patch), role, caller, whitelisted)
  {
  }

  /** Nothing stops a create from naming the open-market status and a pushed `openMarket`
      value itself: that booking enters the pool with the body's window and no release. */
  lemma CreateSkipsRelease(id: nat, body: BookingBody, now: int, caller: string, whitelisted: bool)
    requires body.status == Some(OpenMarket) && body.openMarket.Some? && body.openMarket.value.pushed
    ensures InPool(NewBooking(id, body))
    ensures NewBooking(id, body).openMarket == body.openMarket.value
    ensures Visible(now, NewBooking(id, body), AdminRole, caller, whitelisted)
    ensures WindowOver(NewBooking(id, body), now) ==> Visible(now, NewBooking(id, body), VendorRole, caller, whitelisted)
  {
  }

  /** At the instant the window ends, a vendor that does not own the booking still does
      not see it; one millisecond later every vendor does. */
  lemma WindowEndIsStrict(b: Booking, now: int, caller: string, whitelisted: bool)
    requires InPool(b) && b.openMarket.whitelistedOnlyUntil == Some(now) && b.vendor != Some(caller)
    ensures !Visible(now, b, VendorRole, caller, whitelisted)
    ensures Visible(now + 1, b, VendorRole, caller, whitelisted)
  {
  }

  /** A vendor that is not whitelisted (or has no directory entry) waits for the end of the
      window, even for its own booking. */
  lemma NotWhitelistedWaits(b: Booking, now: int, caller: string, directory: map<string, VendorRecord>)
    requires !IsWhitelisted(directory, caller)
    ensures Visible(now, b, VendorRole, caller, IsWhitelisted(directory, caller)) <==> InPool(b) && WindowOver(b, now)
  {
  }

  /** A whitelisted vendor that does not own the booking waits for the end of the window
      too: the whitelist admits no second party early. */
  lemma WhitelistedNonOwnerWaits(b: Booking, now: int, caller: string)
    requires b.vendor != Some(caller)
    ensures Visible(now, b, VendorRole, caller, true) <==> InPool(b) && WindowOver(b, now)
  {
  }

  /** After a release at time t, a vendor caller is listed the booking at time n exactly
      when n is past t + 30 minutes, or it is whitelisted and owns the booking. */
  lemma ReleaseTimeline(b: Booking, t: int, n: int, caller: string, whitelisted: bool)
    ensures Visible(n, Release(b, t), VendorRole, caller, whitelisted)
            <==> n > t + RestrictionWindowMs || (whitelisted && b.vendor == Some(caller))
  {
  }
}
