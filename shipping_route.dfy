/** The `/api/shipping` route (`src/app/api/shipping/route.ts`): `POST` validates a shipment
    and creates it in the blob store, `GET` lists every shipment, `PUT` validates a status
    change and applies it. Each handler catches every exception it does not handle itself. */
module ShippingRoute {
  import opened Common
  import opened Validation
  import opened Api
  import BlobStore

  /** `createShipmentSchema`. */
  const CreateShipmentSchema: Schema := [
    Entry("senderName", MinLength(1)),
    Entry("senderEmail", Email),
    Entry("senderPhone", MinLength(1)),
    Entry("receiverName", MinLength(1)),
    Entry("receiverEmail", Email),
    Entry("receiverPhone", MinLength(1)),
    Entry("parcelType", MinLength(1)),
    Entry("weight", MinLength(1)),
    Entry("value", MinLength(1)),
    Entry("destination", MinLength(1)),
    Entry("origin", MinLength(1)),
    Entry("notes", OptionalString)
  ]

  /** The values `updateStatusSchema` accepts for `status`. */
  const StatusOptions: seq<string> := ["pending", "processing", "shipped", "delivered", "cancelled"]

  /** `updateStatusSchema`. */
  const UpdateStatusSchema: Schema := [
    Entry("trackingId", MinLength(1)),
    Entry("status", OneOf(StatusOptions))
  ]

  predicate NonEmptyString(f: Fields, key: string) {
    key in f && f[key].Str? && f[key].s != ""
  }

  predicate EmailString(f: Fields, key: string, isEmail: EmailCheck) {
    key in f && f[key].Str? && isEmail(f[key].s)
  }

  /** A creation body the route accepts, stated field by field. */
  predicate AcceptableShipment(f: Fields, isEmail: EmailCheck) {
    NonEmptyString(f, "senderName") && NonEmptyString(f, "senderPhone")
    && NonEmptyString(f, "receiverName") && NonEmptyString(f, "receiverPhone")
    && NonEmptyString(f, "parcelType") && NonEmptyString(f, "weight")
    && NonEmptyString(f, "value") && NonEmptyString(f, "destination")
    && NonEmptyString(f, "origin")
    && EmailString(f, "senderEmail", isEmail) && EmailString(f, "receiverEmail", isEmail)
    && ("notes" !in f || f["notes"].Str?)
  }

  /** `createShipmentSchema` accepts exactly the bodies whose required fields are non-empty
      strings, whose e-mail fields pass the e-mail check and whose `notes`, if present, is a
      string. */
  lemma CreateSchemaMeaning(f: Fields, isEmail: EmailCheck)
    ensures Parse(f, CreateShipmentSchema, isEmail).Success? <==> AcceptableShipment(f, isEmail)
  {
    CreateSchemaSatisfied(f, isEmail);
  }

  /** The entries of `createShipmentSchema`, read rule by rule. */
  lemma CreateSchemaSatisfied(f: Fields, isEmail: EmailCheck)
    ensures AllSatisfied(f, CreateShipmentSchema, isEmail) <==> AcceptableShipment(f, isEmail)
  {
    var s := CreateShipmentSchema;
    assert AllSatisfied(f, s, isEmail) <==>
      Satisfies(f, s[0], isEmail) && Satisfies(f, s[1], isEmail) && Satisfies(f, s[2], isEmail)
      && Satisfies(f, s[3], isEmail) && Satisfies(f, s[4], isEmail) && Satisfies(f, s[5], isEmail)
      && Satisfies(f, s[6], isEmail) && Satisfies(f, s[7], isEmail) && Satisfies(f, s[8], isEmail)
      && Satisfies(f, s[9], isEmail) && Satisfies(f, s[10], isEmail) && Satisfies(f, s[11], isEmail);
  }

  /** `updateStatusSchema` accepts exactly a non-empty tracking ID and one of the five
      statuses. */
  lemma UpdateSchemaMeaning(f: Fields, isEmail: EmailCheck)
    ensures Parse(f, UpdateStatusSchema, isEmail).Success? <==>
      NonEmptyString(f, "trackingId") && "status" in f && f["status"].Str? && f["status"].s in StatusOptions
  {
    var s := UpdateStatusSchema;
    assert AllSatisfied(f, s, isEmail) <==> Satisfies(f, s[0], isEmail) && Satisfies(f, s[1], isEmail);
  }

  /** Statuses the rest of the application uses that the route refuses. */
  lemma StatusesOutsideTheEnum()
    ensures "in_transit" !in StatusOptions && "out_for_delivery" !in StatusOptions
    ensures "on_hold" !in StatusOptions
  {
  }

  /** The record data `POST` passes to `createShipment` from a validated body. */
  function CreationData(v: Fields, trackingId: string): (d: BlobStore.ShipmentData)
    ensures d.trackingId == trackingId && d.status == "pending"
  {
    BlobStore.ShipmentData(trackingId, StringAt(v, "senderName"), StringAt(v, "senderEmail"),
                           StringAt(v, "senderPhone"), StringAt(v, "receiverName"),
                           StringAt(v, "receiverEmail"), StringAt(v, "receiverPhone"),
                           StringAt(v, "parcelType"), StringAt(v, "weight"), StringAt(v, "value"),
                           StringAt(v, "destination"), StringAt(v, "origin"),
                           OptionalAt(v, "notes"), "pending")
  }

  /** Reading the validated value gives what the body itself holds: the unknown members the
      schema strips are never read. */
  lemma CreationDataFromBody(f: Fields, isEmail: EmailCheck, trackingId: string)
    requires Parse(f, CreateShipmentSchema, isEmail).Success?
    ensures CreationData(Parse(f, CreateShipmentSchema, isEmail).value, trackingId) == CreationData(f, trackingId)
  {
    var s := CreateShipmentSchema;
    ParsedAgrees(f, s, isEmail, 0);
    ParsedAgrees(f, s, isEmail, 1);
    ParsedAgrees(f, s, isEmail, 2);
    ParsedAgrees(f, s, isEmail, 3);
    ParsedAgrees(f, s, isEmail, 4);
    ParsedAgrees(f, s, isEmail, 5);
    ParsedAgrees(f, s, isEmail, 6);
    ParsedAgrees(f, s, isEmail, 7);
    ParsedAgrees(f, s, isEmail, 8);
    ParsedAgrees(f, s, isEmail, 9);
    ParsedAgrees(f, s, isEmail, 10);
    ParsedAgrees(f, s, isEmail, 11);
  }

  /** Every required field of an accepted body reaches the record unchanged and non-empty. */
  lemma CreationDataCopiesFields(f: Fields, isEmail: EmailCheck, trackingId: string)
    requires AcceptableShipment(f, isEmail)
    ensures var d := CreationData(f, trackingId);
      Str(d.senderName) == f["senderName"] && Str(d.senderPhone) == f["senderPhone"]
      && Str(d.receiverName) == f["receiverName"] && Str(d.receiverPhone) == f["receiverPhone"]
      && Str(d.parcelType) == f["parcelType"] && Str(d.weight) == f["weight"]
      && Str(d.value) == f["value"] && Str(d.destination) == f["destination"]
      && Str(d.origin) == f["origin"]
      && Str(d.senderEmail) == f["senderEmail"] && Str(d.receiverEmail) == f["receiverEmail"]
      && d.notes == OptionalAt(f, "notes")
  {
  }

  /** The body of every response of this route. */
  datatype ShippingBody =
    | Created(message: string, shipment: BlobStore.Shipment)  // { success: true, message, shipment }
    | Listed(shipments: seq<BlobStore.Shipment>)              // { success: true, shipments }
    | Failed(error: ErrorValue)                               // { success: false, error }

  predicate Succeeded(b: ShippingBody) {
    !b.Failed?
  }

  /** The `message` member, when the body has one. */
  function MessageOf(b: ShippingBody): (m: Option<string>)
    ensures m.Some? <==> b.Created?
  {
    if b.Created? then Some(b.message) else None
  }

  /** `POST`. The notification e-mail goes out after the record is written; whether it is
      delivered (`mailDelivered`) does not affect the response. */
  method Post(store: BlobStore.Store, body: RequestBody, isEmail: EmailCheck,
              clock: nat, trackingRandom: string, idRandom: string, now: int,
              storeFault: Option<string>, mailDelivered: bool)
    returns (resp: Response<ShippingBody>, notified: bool)
    modifies store
    ensures body.Malformed? ==>
      resp == Response(400, Failed(Text(body.reason))) && !notified && store.blobs == old(store.blobs)
    ensures body.NotObject? ==>
      resp == Response(400, Failed(IssueList([NotObjectIssue]))) && !notified && store.blobs == old(store.blobs)
    ensures body.Parsed? && Parse(body.fields, CreateShipmentSchema, isEmail).Failure? ==>
      resp == Response(400, Failed(IssueList(Parse(body.fields, CreateShipmentSchema, isEmail).error)))
      && !notified && store.blobs == old(store.blobs)
    ensures body.Parsed? && Parse(body.fields, CreateShipmentSchema, isEmail).Success? ==>
      var trackingId := BlobStore.GenerateTrackingId(clock, trackingRandom);
      var data := CreationData(Parse(body.fields, CreateShipmentSchema, isEmail).value, trackingId);
      if storeFault.Some? then
        resp == Response(400, Failed(Text(storeFault.value))) && !notified
        && store.blobs == old(store.blobs)
      else
        resp.status == 200 && resp.body.Created? && resp.body.message == "Shipment created successfully"
        && BlobStore.DataOf(resp.body.shipment) == data
        && resp.body.shipment.id == BlobStore.RecordId(idRandom)
        && resp.body.shipment.createdAt == now && resp.body.shipment.updatedAt == now
        && store.blobs == old(store.blobs)[BlobStore.PathOf(trackingId) := BlobStore.Readable(resp.body.shipment)]
        && notified == mailDelivered
  {
    notified := false;
    if body.Malformed? {
      return Response(400, Failed(Text(body.reason))), false;
    }
    if body.NotObject? {
      return Response(400, Failed(IssueList([NotObjectIssue]))), false;
    }
    var parsed := Parse(body.fields, CreateShipmentSchema, isEmail);
    if parsed.Failure? {
      return Response(400, Failed(IssueList(parsed.error))), false;
    }
    var trackingId := BlobStore.GenerateTrackingId(clock, trackingRandom);
    var created := store.CreateShipment(CreationData(parsed.value, trackingId), idRandom, now, storeFault);
    if created.Failure? {
      return Response(400, Failed(Text(created.error))), false;
    }
    notified := mailDelivered;
    resp := Response(200, Created("Shipment created successfully", created.value));
  }

  /** `GET`: the store's listing. The store reports its own failures as an empty list, so the
      500 branch is never taken. */
  method Get(store: BlobStore.Store, listFault: Option<string>) returns (resp: Response<ShippingBody>)
    ensures resp.status == 200
    ensures resp.body == Listed(if listFault.Some? then [] else BlobStore.AllShipments(store.blobs))
  {
    var shipments := store.GetAllShipments(listFault);
    resp := Response(200, Listed(shipments));
  }

  /** `PUT`: only `{ status }` is passed to the store, so other members of the body (such as
      `notes`) never reach the record. The store reports a missing record and its own
      failures alike as `null`, which the route answers with 404. */
  method Put(store: BlobStore.Store, body: RequestBody, isEmail: EmailCheck, now: int,
             readFault: Option<string>, writeFault: Option<string>)
    returns (resp: Response<ShippingBody>)
    modifies store
    ensures body.Malformed? ==>
      resp == Response(400, Failed(Text(body.reason))) && store.blobs == old(store.blobs)
    ensures body.NotObject? ==>
      resp == Response(400, Failed(IssueList([NotObjectIssue]))) && store.blobs == old(store.blobs)
    ensures body.Parsed? && Parse(body.fields, UpdateStatusSchema, isEmail).Failure? ==>
      resp == Response(400, Failed(IssueList(Parse(body.fields, UpdateStatusSchema, isEmail).error)))
      && store.blobs == old(store.blobs)
    ensures body.Parsed? && Parse(body.fields, UpdateStatusSchema, isEmail).Success? ==>
      var trackingId := StringAt(body.fields, "trackingId");
      var status := StringAt(body.fields, "status");
      var found := if readFault.Some? then None else BlobStore.Lookup(old(store.blobs), trackingId);
      if found.None? || writeFault.Some? then
        resp == Response(404, Failed(Text("Shipment not found"))) && store.blobs == old(store.blobs)
      else
        var updated := found.value.(status := status, updatedAt := now);
        resp == Response(200, Created("Shipment status updated successfully", updated))
        && store.blobs == old(store.blobs)[BlobStore.PathOf(trackingId) := BlobStore.Readable(updated)]
  {
    if body.Malformed? {
      return Response(400, Failed(Text(body.reason)));
    }
    if body.NotObject? {
      return Response(400, Failed(IssueList([NotObjectIssue])));
    }
    var parsed := Parse(body.fields, UpdateStatusSchema, isEmail);
    if parsed.Failure? {
      return Response(400, Failed(IssueList(parsed.error)));
    }
    assert "trackingId" in KeysOf(UpdateStatusSchema) && "status" in KeysOf(UpdateStatusSchema) by {
      assert UpdateStatusSchema[0].key == "trackingId" && UpdateStatusSchema[1].key == "status";
    }
    var trackingId := StringAt(parsed.value, "trackingId");
    var status := StringAt(parsed.value, "status");
    assert trackingId == StringAt(body.fields, "trackingId") && status == StringAt(body.fields, "status");
    ghost var found := if readFault.Some? then None else BlobStore.Lookup(store.blobs, trackingId);
    if found.Some? {
      BlobStore.MergeStatusOnly(found.value, status, now);
    }
    var updated := store.UpdateShipment(trackingId, BlobStore.StatusPatch(status), now, readFault, writeFault);
    if updated.None? {
      return Response(404, Failed(Text("Shipment not found")));
    }
    resp := Response(200, Created("Shipment status updated successfully", updated.value));
  }
}
