/** The socket connection handler of the backend: a socket that presents a token which
    verifies to claims carrying a vendor id joins that vendor's private room and the
    broadcast room; every other connection is kept but joins nothing. Token
    verification (a signed-token check) is outside the model: its outcome is an input,
    `None` when verification throws. */
module Connection {
  import opened Common
  import opened SocketServer
  import opened SocketUtil

  /** The decoded token payload; `vendorId` is absent for users without a vendor. */
  datatype Claims = Claims(vendorId: Option<string>)

  /** The handshake yields a vendor id: a truthy token that verifies to claims with a
      truthy `vendorId`. */
  predicate Admitted(token: Option<string>, verdict: Option<Claims>)
  {
    Truthy(token) && verdict.Some? && Truthy(verdict.value.vendorId)
  }

  /** The rooms a new connection ends up in. */
  function Subscriptions(token: Option<string>, verdict: Option<Claims>): (r: set<string>)
    ensures AllVendorsRoom in r <==> Admitted(token, verdict)
    ensures forall v :: VendorRoom(v) in r <==> Admitted(token, verdict) && verdict.value.vendorId == Some(v)
    ensures !Admitted(token, verdict) ==> r == {}
    ensures |r| <= 2
  {
    if Admitted(token, verdict) then
      var v := verdict.value.vendorId.value;
      VendorRoomNotBroadcast(v);
      forall w ensures (VendorRoom(w) == VendorRoom(v) <==> w == v) && VendorRoom(w) != AllVendorsRoom {
        VendorRoomInjective(w, v);
        VendorRoomNotBroadcast(w);
      }
      {VendorRoom(v), AllVendorsRoom}
    else {}
  }

  /** `io.on('connection', ...)`: socket.io accepts the socket `s`, then the handler
      joins rooms according to the handshake. It emits nothing. */
  method OnConnection(io: Io, s: SessionId, token: Option<string>, verdict: Option<Claims>)
    requires s !in io.rooms
    modifies io
    ensures io.rooms == old(io.rooms)[s := Subscriptions(token, verdict)]
    ensures io.log == old(io.log)
  {
    io.Accept(s);
    var vendorId: Option<string> := None;
    if Truthy(token) {
      match verdict {
        case None =>
          // the token did not verify: the connection stays, without rooms
        case Some(decoded) =>
          vendorId := decoded.vendorId;
          if Truthy(vendorId) {
            io.Join(s, VendorRoom(vendorId.value));
            io.Join(s, AllVendorsRoom);
            assert io.rooms[s] == {VendorRoom(vendorId.value), AllVendorsRoom};
          }
      }
    }
  }

  /** A socket that connected with handshake (token, verdict) and has not joined rooms
      since receives exactly: the messages addressed to `vendor_<v>` for its own vendor
      id v, and the broadcasts; and nothing at all when the handshake was not admitted. */
  lemma {:induction false} ConnectedReceives(rooms: map<SessionId, set<string>>, msgs: seq<Message>, s: SessionId,
                                             token: Option<string>, verdict: Option<Claims>)
    requires s in rooms && rooms[s] == Subscriptions(token, verdict)
    ensures !Admitted(token, verdict) ==> Received(Stamp(rooms, msgs), s) == []
    ensures forall i :: 0 <= i < |msgs| ==>
              (s in Stamp(rooms, msgs)[i].recipients <==>
                 Admitted(token, verdict) &&
                 (msgs[i].room == AllVendorsRoom || msgs[i].room == VendorRoom(verdict.value.vendorId.value)))
  {
    if !Admitted(token, verdict) {
      NoRoomNoMessages(rooms, msgs, s);
    }
  }

  /** A private message for vendor v never reaches a socket admitted as another vendor. */
  lemma PrivateIsolation(rooms: map<SessionId, set<string>>, s: SessionId, token: Option<string>,
                         verdict: Option<Claims>, v: string)
    requires s in rooms && rooms[s] == Subscriptions(token, verdict)
    requires Admitted(token, verdict) && verdict.value.vendorId != Some(v)
    ensures s !in Members(rooms, VendorRoom(v))
  {
  }
}
