/** The four vendor-scoped REST controllers (drivers, vehicles, invoices, custom views).
    They share one shape: every read, update and delete is keyed by the record id AND the
    caller's vendor id, and create stamps the caller's vendor id over whatever the body
    says. They differ only in their messages, in the event an update emits (custom views
    emit none), in invoices stamping `submittedAt` and in the invoice list filters. */
module ResourceController {
  import opened Common
  import opened Query
  import opened Records
  import opened SocketServer
  import opened SocketUtil

  datatype Resource = Drivers | Vehicles | Invoices | CustomViews

  /** The event an update announces to the record's vendor, if any. */
  function UpdateEvent(k: Resource): Option<string>
  {
    match k
    case Drivers => Some("driver:update")
    case Vehicles => Some("vehicle:update")
    case Invoices => Some("invoice:update")
    case CustomViews => None
  }

  function NotFoundMessage(k: Resource): string
  {
    match k
    case Drivers => "Driver not found"
    case Vehicles => "Vehicle not found"
    case Invoices => "Invoice not found"
    case CustomViews => "Custom view not found"
  }

  function DeletedMessage(k: Resource): string
  {
    match k
    case Drivers => "Driver deleted"
    case Vehicles => "Vehicle deleted"
    case Invoices => "Invoice deleted"
    case CustomViews => "Custom view deleted"
  }

  /** A request body: possibly a `vendor`, and the other fields by name. */
  datatype Body = Body(vendor: Option<string>, fields: map<string, Value>)

  /** The schema defaults a create fills in for the fields the body leaves out: an
      invoice is `Pending`, a vehicle is `available`, a custom view is stamped
      `createdAt = now`. */
  function Defaults(k: Resource, now: int): map<string, Value>
  {
    match k
    case Drivers => map[]
    case Vehicles => map["available" := Flag(true)]
    case Invoices => map["status" := Str("Pending")]
    case CustomViews => map["createdAt" := Time(now)]
  }

  /** The record a create stores under key `id`: the body's fields over the schema
      defaults, owned by the caller; an invoice also gets `submittedAt = now`, overriding
      the body. */
  function Created(k: Resource, id: nat, caller: string, body: Body, now: int): (d: Doc)
    ensures d.id == id && d.vendor == caller
    ensures k == Invoices ==> "submittedAt" in d.fields && d.fields["submittedAt"] == Time(now)
    ensures forall f :: f in d.fields <==> f in body.fields || f in Defaults(k, now) || (k == Invoices && f == "submittedAt")
    ensures forall f :: f in body.fields && !(k == Invoices && f == "submittedAt") ==> d.fields[f] == body.fields[f]
    ensures forall f :: f in Defaults(k, now) && f !in body.fields ==> d.fields[f] == Defaults(k, now)[f]
  {
    var fields := Defaults(k, now) + body.fields;
    Doc(id, caller, if k == Invoices then fields["submittedAt" := Time(now)] else fields)
  }

  /** An invoice created without a status is stored as `Pending`, so the caller's list
      of pending invoices holds it. */
  lemma NewInvoiceIsPending(store: map<nat, Doc>, id: nat, caller: string, body: Body, now: int,
                            month: Option<string>)
    requires "status" !in body.fields
    requires Truthy(month) ==> "reportMonth" in body.fields && body.fields["reportMonth"] == Str(month.value)
    ensures id in List(store[id := Created(Invoices, id, caller, body, now)], Invoices, caller, Some("Pending"), month)
  {
  }

  /** `findOneAndUpdate(..., req.body, { new: true })`: the body overwrites the fields it
      names, `vendor` included. */
  function Updated(d: Doc, body: Body): (r: Doc)
    ensures r.id == d.id
    ensures r.vendor == if body.vendor.Some? then body.vendor.value else d.vendor
    ensures forall f :: f in r.fields <==> f in d.fields || f in body.fields
    ensures forall f :: f in r.fields ==> r.fields[f] == if f in body.fields then body.fields[f] else d.fields[f]
  {
    Doc(d.id, if body.vendor.Some? then body.vendor.value else d.vendor, d.fields + body.fields)
  }

  /** The `{ vendor: req.user.vendorId }` part of every lookup. */
  function ScopeFilter(caller: string): (r: Filter)
    ensures r.anyOf.None? && r.all.Keys == {"vendor"}
    ensures r.all["vendor"] == Eq(Str(caller))
  {
    Filter(map["vendor" := Eq(Str(caller))], None)
  }

  lemma ScopeFilterMeaning(d: Doc, caller: string)
    ensures Matches(ScopeFilter(caller), DocView(d)) <==> d.vendor == caller
  {
    if Matches(ScopeFilter(caller), DocView(d)) {
      assert Holds(ScopeFilter(caller).all["vendor"], DocView(d)("vendor"));
    }
  }

  /** `findOne({ _id: id, vendor: caller })`: the record under `id` when the caller owns it. */
  function FindOwned(store: map<nat, Doc>, caller: string, id: nat): (r: Option<Doc>)
    ensures r.Some? <==> id in store && store[id].vendor == caller
    ensures r.Some? ==> r.value == store[id]
  {
    if id !in store then None
    else
      ScopeFilterMeaning(store[id], caller);
      if Matches(ScopeFilter(caller), DocView(store[id])) then Some(store[id]) else None
  }

  /** The filter a list request builds: the caller's vendor, and for invoices the truthy
      `status` and `month` query values (the month compared with `reportMonth`). */
  function ListFilter(k: Resource, caller: string, status: Option<string>, month: Option<string>): (r: Filter)
    ensures r.anyOf.None?
    ensures forall p :: p in r.all <==> p == "vendor" || (k == Invoices && ((p == "status" && Truthy(status)) || (p == "reportMonth" && Truthy(month))))
    ensures "vendor" in r.all && r.all["vendor"] == Eq(Str(caller))
    ensures k == Invoices && Truthy(status) ==> "status" in r.all && r.all["status"] == Eq(Str(status.value))
    ensures k == Invoices && Truthy(month) ==> "reportMonth" in r.all && r.all["reportMonth"] == Eq(Str(month.value))
  {
    var f: Conj := map["vendor" := Eq(Str(caller))];
    var f := if k == Invoices && Truthy(status) then f["status" := Eq(Str(status.value))] else f;
    var f := if k == Invoices && Truthy(month) then f["reportMonth" := Eq(Str(month.value))] else f;
    Filter(f, None)
  }

  /** The conditions of a list request, stated on the record. */
  predicate Listed(d: Doc, k: Resource, caller: string, status: Option<string>, month: Option<string>)
  {
    && d.vendor == caller
    && (k == Invoices && Truthy(status) ==> DocField(d, "status") == Some(Str(status.value)))
    && (k == Invoices && Truthy(month) ==> DocField(d, "reportMonth") == Some(Str(month.value)))
  }

  lemma ListFilterMeaning(d: Doc, k: Resource, caller: string, status: Option<string>, month: Option<string>)
    ensures Matches(ListFilter(k, caller, status, month), DocView(d)) <==> Listed(d, k, caller, status, month)
  {
    var doc := DocView(d);
    var f0: Conj := map["vendor" := Eq(Str(caller))];
    assert MatchesAll(f0, doc) <==> d.vendor == caller by {
      if MatchesAll(f0, doc) { assert Holds(f0["vendor"], doc("vendor")); }
    }
    var f1 := if k == Invoices && Truthy(status) then f0["status" := Eq(Str(status.value))] else f0;
    if k == Invoices && Truthy(status) { AddClause(f0, "status", Eq(Str(status.value)), doc); }
    if k == Invoices && Truthy(month) { AddClause(f1, "reportMonth", Eq(Str(month.value)), doc); }
  }

  /** A list request: the caller's records that meet its query; the `status` and `month`
      values are read by the invoice list only. */
  function List(store: map<nat, Doc>, k: Resource, caller: string, status: Option<string>, month: Option<string>): (r: map<nat, Doc>)
    ensures r.Keys <= store.Keys
    ensures forall id :: id in r ==> r[id] == store[id] && r[id].vendor == caller
    ensures forall id :: id in store ==> (id in r <==> Listed(store[id], k, caller, status, month))
  {
    forall id | id in store
      ensures Matches(ListFilter(k, caller, status, month), DocView(store[id])) <==> Listed(store[id], k, caller, status, month)
    {
      ListFilterMeaning(store[id], k, caller, status, month);
    }
    Find(store, ListFilter(k, caller, status, month), DocView)
  }

  /** A get request. */
  function Get(store: map<nat, Doc>, k: Resource, caller: string, id: nat): (r: Response<Doc>)
    ensures r.Ok? <==> id in store && store[id].vendor == caller
    ensures r.Ok? ==> r == Ok(200, store[id])
    ensures r.Fail? ==> r == Fail(404, NotFoundMessage(k))
  {
    var found := FindOwned(store, caller, id);
    if found.Some? then Ok(200, found.value) else Fail(404, NotFoundMessage(k))
  }

  /** The store after an update request: only the caller's own record `id` can change. */
  function AfterUpdate(store: map<nat, Doc>, caller: string, id: nat, body: Body): (r: map<nat, Doc>)
    ensures r.Keys == store.Keys
    ensures forall j :: j in store && (j != id || store[j].vendor != caller) ==> r[j] == store[j]
    ensures id in store && store[id].vendor == caller ==> r[id] == Updated(store[id], body)
  {
    var found := FindOwned(store, caller, id);
    if found.Some? then store[id := Updated(found.value, body)] else store
  }

  /** The store after a delete request: only the caller's own record `id` can go. */
  function AfterDelete(store: map<nat, Doc>, caller: string, id: nat): (r: map<nat, Doc>)
    ensures r.Keys == if id in store && store[id].vendor == caller then store.Keys - {id} else store.Keys
    ensures forall j :: j in r ==> r[j] == store[j]
  {
    if FindOwned(store, caller, id).Some? then store - {id} else store
  }

  /** What an update publishes about the updated record `d`: its resource's update event,
      to `d`'s vendor only. */
  function UpdateNotice(k: Resource, d: Doc): (r: seq<Message>)
    ensures |r| <= 1
    ensures r == [] <==> k == CustomViews
    ensures forall i :: 0 <= i < |r| ==>
              r[i].event == (if k == Drivers then "driver:update" else if k == Vehicles then "vehicle:update" else "invoice:update")
    ensures forall i :: 0 <= i < |r| ==>
              r[i].room == VendorRoom(d.vendor) && r[i].room != AllVendorsRoom && r[i].payload == DocData(d)
  {
    VendorRoomNotBroadcast(d.vendor);
    if UpdateEvent(k).Some? then [ToVendor(d.vendor, UpdateEvent(k).value, DocData(d))] else []
  }

  /** One controller and its collection. Create and delete cannot emit: the socket
      instance is outside what they may change. */
  class ResourceStore {
    const resource: Resource
    const hub: SocketHub
    var records: map<nat, Doc>
    var nextId: nat

    ghost predicate Valid()
      reads this
    {
      forall id :: id in records ==> id < nextId && records[id].id == id
    }

    constructor (resource: Resource, hub: SocketHub)
      ensures Valid() && records == map[] && this.resource == resource && this.hub == hub
    {
      this.resource := resource;
      this.hub := hub;
      records := map[];
      nextId := 0;
    }

    /** `createDriver` / `createVehicle` / `createInvoice` / `createCustomView`. */
    method Create(caller: string, body: Body, now: int) returns (r: Response<Doc>)
      requires Valid()
      modifies this`records, this`nextId
      ensures Valid()
      ensures r == Ok(201, Created(resource, old(nextId), caller, body, now))
      ensures r.value.id !in old(records) && records == old(records)[r.value.id := r.value]
    {
      var d := Created(resource, nextId, caller, body, now);
      records := records[nextId := d];
      nextId := nextId + 1;
      r := Ok(201, d);
    }

    /** `updateDriver` / `updateVehicle` / `updateInvoice` / `updateCustomView`. */
    method Update(caller: string, id: nat, body: Body) returns (r: Response<Doc>)
      requires Valid()
      modifies this`records, hub.ioInstance
      ensures Valid()
      ensures records == AfterUpdate(old(records), caller, id, body)
      ensures FindOwned(old(records), caller, id).None? ==>
                r == Fail(404, NotFoundMessage(resource)) && Published(hub, [])
      ensures FindOwned(old(records), caller, id).Some? ==>
                r == Ok(200, Updated(old(records)[id], body)) && Published(hub, UpdateNotice(resource, r.value))
    {
      var found := FindOwned(records, caller, id);
      if found.None? {
        return Fail(404, NotFoundMessage(resource));
      }
      var d := Updated(found.value, body);
      records := records[id := d];
      if UpdateEvent(resource).Some? {
        hub.EmitToVendor(d.vendor, UpdateEvent(resource).value, DocData(d));
      }
      r := Ok(200, d);
    }

    /** `deleteDriver` / `deleteVehicle` / `deleteInvoice` / `deleteCustomView`. */
    method Delete(caller: string, id: nat) returns (r: Response<string>)
      requires Valid()
      modifies this`records
      ensures Valid()
      ensures records == AfterDelete(old(records), caller, id)
      ensures r == if id in old(records) && old(records)[id].vendor == caller
                   then Ok(200, DeletedMessage(resource)) else Fail(404, NotFoundMessage(resource))
    {
      var found := FindOwned(records, caller, id);
      if found.None? {
        return Fail(404, NotFoundMessage(resource));
      }
      records := records - {id};
      r := Ok(200, DeletedMessage(resource));
    }
  }

  /** No request by one vendor lets it observe, alter or remove a record that another
      vendor owns. */
  lemma Isolation(store: map<nat, Doc>, k: Resource, caller: string, id: nat, body: Body,
                  status: Option<string>, month: Option<string>, j: nat)
    requires j in store && store[j].vendor != caller
    ensures Get(store, k, caller, j).Fail?
    ensures j !in List(store, k, caller, status, month)
    ensures j in AfterUpdate(store, caller, id, body) && AfterUpdate(store, caller, id, body)[j] == store[j]
    ensures j in AfterDelete(store, caller, id) && AfterDelete(store, caller, id)[j] == store[j]
  {
  }
}
