/** The process-wide emit helpers: a held socket.io instance (absent until installed)
    and the two room-addressed publishes, one to a vendor's private room and one to the
    room every authenticated vendor socket joins. */
module SocketUtil {
  import opened Records
  import opened SocketServer

  const AllVendorsRoom: string := "vendors"

  /** The private room of a vendor, `vendor_<vendorId>`. */
  function VendorRoom(vendorId: string): (r: string)
    ensures |r| == 7 + |vendorId| && r[..7] == "vendor_" && r[7..] == vendorId
  {
    "vendor_" + vendorId
  }

  /** Different vendors have different private rooms. */
  lemma VendorRoomInjective(a: string, b: string)
    ensures VendorRoom(a) == VendorRoom(b) <==> a == b
  {
    if VendorRoom(a) == VendorRoom(b) {
      assert a == VendorRoom(a)[7..];
      assert b == VendorRoom(b)[7..];
    }
  }

  /** No private room is the broadcast room. */
  lemma VendorRoomNotBroadcast(v: string)
    ensures VendorRoom(v) != AllVendorsRoom
  {
    assert VendorRoom(v)[6] == '_' != AllVendorsRoom[6];
  }

  function ToVendor(vendorId: string, event: string, data: Payload): Message
  {
    Message(VendorRoom(vendorId), event, data)
  }

  function ToAllVendors(event: string, data: Payload): Message
  {
    Message(AllVendorsRoom, event, data)
  }

  class SocketHub {
    var ioInstance: Io?

    /** The module starts with no instance installed. */
    constructor ()
      ensures ioInstance == null
    {
      ioInstance := null;
    }

    /** `setSocketIO(io)`: replaces the held instance; later emits go through `io`. */
    method SetSocketIO(io: Io)
      modifies this
      ensures ioInstance == io
    {
      ioInstance := io;
    }

    /** `emitToVendor(vendorId, event, data)`. Without an instance it returns at once; as
        it may change only the installed instance, nothing changes then. */
    method EmitToVendor(vendorId: string, event: string, data: Payload)
      modifies ioInstance
      ensures ioInstance != null ==> ioInstance.rooms == old(ioInstance.rooms)
      ensures ioInstance != null ==>
                ioInstance.log == old(ioInstance.log) + Stamp(ioInstance.rooms, [ToVendor(vendorId, event, data)])
    {
      if ioInstance == null { return; }
      ioInstance.Emit(ToVendor(vendorId, event, data));
    }

    /** `emitToAllVendors(event, data)`. */
    method EmitToAllVendors(event: string, data: Payload)
      modifies ioInstance
      ensures ioInstance != null ==> ioInstance.rooms == old(ioInstance.rooms)
      ensures ioInstance != null ==>
                ioInstance.log == old(ioInstance.log) + Stamp(ioInstance.rooms, [ToAllVendors(event, data)])
    {
      if ioInstance == null { return; }
      ioInstance.Emit(ToAllVendors(event, data));
    }
  }

  /** Between two states, the installed instance (if any) kept its memberships and
      delivered exactly `msgs`, in order. */
  twostate predicate Published(hub: SocketHub, msgs: seq<Message>)
    reads hub, hub.ioInstance
  {
    && hub.ioInstance == old(hub.ioInstance)
    && (hub.ioInstance != null ==>
          && hub.ioInstance.rooms == old(hub.ioInstance.rooms)
          && hub.ioInstance.log == old(hub.ioInstance.log) + Stamp(hub.ioInstance.rooms, msgs))
  }
}
