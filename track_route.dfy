/** The `/api/track` route (`src/app/api/track/route.ts`): `GET ?trackingId=...` answers 400
    without a tracking ID, 404 when the store finds nothing, 200 with the record, and 500 when
    an exception escapes. */
module TrackRoute {
  import opened Common
  import opened Api
  import BlobStore

  datatype TrackBody =
    | Found(shipment: BlobStore.Shipment)  // { success: true, shipment }
    | Failed(error: string, message: Option<string>, details: Option<string>)

  const NotFoundMessage := "No shipment found with the provided tracking ID"

  /** `GET`, given the query parameter and what the lookup call did: returned a record or
      `null` (`Success`), or threw (`Failure`). */
  function Track(param: Option<string>, lookup: Result<Option<BlobStore.Shipment>, string>): (r: Response<TrackBody>)
    ensures r.status == 400 <==> param.None? || param.value == ""
    ensures r.status == 200 <==> param.Some? && param.value != "" && lookup.Success? && lookup.value.Some?
    ensures r.status == 200 ==> r.body == Found(lookup.value.value)
    ensures r.status == 404 <==> param.Some? && param.value != "" && lookup == Success(None)
    ensures r.status == 404 ==> r.body.Failed? && r.body.message == Some(NotFoundMessage)
    ensures r.status == 500 <==> param.Some? && param.value != "" && lookup.Failure?
    ensures r.status in {200, 400, 404, 500}
  {
    if param.None? || param.value == "" then
      Response(400, Failed("Tracking ID is required", None, None))
    else
      match lookup
      case Failure(e) => Response(500, Failed("Failed to track shipment", None, Some(e)))
      case Success(None) => Response(404, Failed("Shipment not found", Some(NotFoundMessage), None))
      case Success(Some(s)) => Response(200, Found(s))
  }

  /** The handler over the blob store. The store turns every failure into `null`, so a storage
      failure is answered with 404 and the 500 branch is never taken. */
  method Get(store: BlobStore.Store, param: Option<string>, fault: Option<string>) returns (r: Response<TrackBody>)
    ensures r.status != 500
    ensures param.Some? && param.value != "" ==>
      r == Track(param, Success(if fault.Some? then None else BlobStore.Lookup(store.blobs, param.value)))
    ensures param.Some? && param.value != "" && fault.Some? ==> r.status == 404
    ensures param.None? || param.value == "" ==> r.status == 400
  {
    if param.None? || param.value == "" {
      return Track(param, Success(None));
    }
    var found := store.GetShipmentByTrackingId(param.value, fault);
    r := Track(param, Success(found));
  }

  /** A record just written under its own tracking ID is tracked with 200 and returned
      unchanged. */
  lemma TrackStored(blobs: map<string, BlobStore.Blob>, s: BlobStore.Shipment)
    requires s.trackingId != ""
    ensures var stored := blobs[BlobStore.PathOf(s.trackingId) := BlobStore.Readable(s)];
      Track(Some(s.trackingId), Success(BlobStore.Lookup(stored, s.trackingId))) == Response(200, Found(s))
  {
    BlobStore.LookupAfterPut(blobs, s);
  }
}
