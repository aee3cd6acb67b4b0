/** The socket.io server as the backend uses it: which rooms each connected socket has
    joined, and every emit addressed to a room together with the sockets it reached.
    Delivery is to the room's members at the moment of the emit. */
module SocketServer {
  import opened Records

  type SessionId = nat

  datatype Message = Message(room: string, event: string, payload: Payload)

  datatype Delivery = Delivery(message: Message, recipients: set<SessionId>)

  /** The sockets that have joined `room`. */
  function Members(rooms: map<SessionId, set<string>>, room: string): set<SessionId>
  {
    set s | s in rooms && room in rooms[s]
  }

  /** The deliveries produced by emitting `msgs` one after another while membership
      stays `rooms`. */
  function Stamp(rooms: map<SessionId, set<string>>, msgs: seq<Message>): (r: seq<Delivery>)
    ensures |r| == |msgs|
    ensures forall i :: 0 <= i < |msgs| ==> r[i].message == msgs[i]
    ensures forall i :: 0 <= i < |msgs| ==>
              (forall s :: s in r[i].recipients <==> s in rooms && msgs[i].room in rooms[s])
  {
    if msgs == [] then [] else [Delivery(msgs[0], Members(rooms, msgs[0].room))] + Stamp(rooms, msgs[1..])
  }

  lemma {:induction false} StampAppend(rooms: map<SessionId, set<string>>, a: seq<Message>, b: seq<Message>)
    ensures Stamp(rooms, a + b) == Stamp(rooms, a) + Stamp(rooms, b)
  {
    if a != [] {
      assert (a + b)[1..] == a[1..] + b;
      StampAppend(rooms, a[1..], b);
    } else {
      assert a + b == b;
    }
  }

  /** The messages that reached socket `s`, in emit order. */
  function Received(log: seq<Delivery>, s: SessionId): (r: seq<Message>)
    ensures |r| <= |log|
  {
    if log == [] then []
    else (if s in log[0].recipients then [log[0].message] else []) + Received(log[1..], s)
  }

  /** A socket that has joined no room receives nothing, whatever is emitted. */
  lemma {:induction false} NoRoomNoMessages(rooms: map<SessionId, set<string>>, msgs: seq<Message>, s: SessionId)
    requires s in rooms && rooms[s] == {}
    ensures Received(Stamp(rooms, msgs), s) == []
  {
    if msgs != [] {
      NoRoomNoMessages(rooms, msgs[1..], s);
      assert Stamp(rooms, msgs)[1..] == Stamp(rooms, msgs[1..]);
    }
  }

  /** A socket receives exactly the messages addressed to the rooms it has joined. */
  lemma {:induction false} ReceivedByRoom(rooms: map<SessionId, set<string>>, msgs: seq<Message>, s: SessionId)
    requires s in rooms
    ensures Received(Stamp(rooms, msgs), s) == Addressed(msgs, rooms[s])
  {
    if msgs != [] {
      ReceivedByRoom(rooms, msgs[1..], s);
      assert Stamp(rooms, msgs)[1..] == Stamp(rooms, msgs[1..]);
    }
  }

  /** The messages of `msgs` whose room is one of `joined`, in order. */
  function Addressed(msgs: seq<Message>, joined: set<string>): seq<Message>
  {
    if msgs == [] then []
    else (if msgs[0].room in joined then [msgs[0]] else []) + Addressed(msgs[1..], joined)
  }

  class Io {
    var rooms: map<SessionId, set<string>>
    var log: seq<Delivery>

    constructor ()
      ensures rooms == map[] && log == []
    {
      rooms := map[];
      log := [];
    }

    /** socket.io registers a new connection before the connection handler runs; the
        socket has joined no room yet. */
    method Accept(s: SessionId)
      requires s !in rooms
      modifies this
      ensures rooms == old(rooms)[s := {}]
      ensures log == old(log)
    {
      rooms := rooms[s := {}];
    }

    /** `socket.join(room)`. */
    method Join(s: SessionId, room: string)
      requires s in rooms
      modifies this
      ensures rooms == old(rooms)[s := old(rooms)[s] + {room}]
      ensures log == old(log)
    {
      rooms := rooms[s := rooms[s] + {room}];
    }

    /** `io.to(room).emit(event, data)`: reaches the room's current members and never
        changes membership. */
    method Emit(m: Message)
      modifies this
      ensures rooms == old(rooms)
      ensures log == old(log) + Stamp(rooms, [m])
    {
      log := log + [Delivery(m, Members(rooms, m.room))];
    }
  }
}
