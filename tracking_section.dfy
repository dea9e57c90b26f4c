/** The tracking form of the home page (`src/components/sections/ShipmentTrackingSection.tsx`):
    it trims the entered ID, asks `/api/track` for it, and shows the shipment or an error. */
module TrackingSection {
  import opened Common
  import opened Strings
  import opened Api
  import BlobStore
  import TrackRoute

  const EmptyIdMessage := "Please enter a tracking ID"
  const TrackFailedMessage := "Failed to track shipment"
  const NotFoundText := "Shipment not found"

  /** `data.message`, when the reply body has one. */
  function MessageOf(b: TrackRoute.TrackBody): (m: Option<string>)
    ensures m.Some? ==> b.Failed? && b.message == m
  {
    if b.Failed? then b.message else None
  }

  /** What a reply comes to: the shipment shown, or the error text. `fetch` answering or
      throwing with a message is the parameter. */
  function TrackResult(reply: Result<Response<TrackRoute.TrackBody>, string>): (r: Result<BlobStore.Shipment, string>)
    ensures r.Success? <==> reply.Success? && IsOk(reply.value.status) && reply.value.body.Found?
    ensures r.Success? ==> r.value == reply.value.body.shipment
    ensures reply.Failure? ==> r == Failure(reply.error)
    ensures reply.Success? && !IsOk(reply.value.status) ==>
      r == Failure(OrElse(MessageOf(reply.value.body), TrackFailedMessage))
    ensures reply.Success? && IsOk(reply.value.status) && !reply.value.body.Found? ==>
      r == Failure(NotFoundText)
  {
    match reply
    case Failure(m) => Failure(m)
    case Success(resp) =>
      if !IsOk(resp.status) then Failure(OrElse(MessageOf(resp.body), TrackFailedMessage))
      else if !resp.body.Found? then Failure(NotFoundText)
      else Success(resp.body.shipment)
  }

  /** A 404 from the route is shown with the route's own message. */
  lemma NotFoundShowsRouteMessage(id: string)
    requires id != ""
    ensures TrackResult(Success(TrackRoute.Track(Some(id), Success(None)))) == Failure(TrackRoute.NotFoundMessage)
  {
  }

  /** A 500 carries no `message`, so it is shown with the fallback; a 200 shows the record. */
  lemma RouteOutcomesShown(id: string, e: string, s: BlobStore.Shipment)
    requires id != ""
    ensures TrackResult(Success(TrackRoute.Track(Some(id), Failure(e)))) == Failure(TrackFailedMessage)
    ensures TrackResult(Success(TrackRoute.Track(Some(id), Success(Some(s))))) == Success(s)
  {
  }

  /** The ID this form sends is never refused by the route as missing. */
  lemma TrimmedIdAccepted(input: string, lookup: Result<Option<BlobStore.Shipment>, string>)
    requires Trim(input) != ""
    ensures TrackRoute.Track(Some(Trim(input)), lookup).status != 400
  {
  }

  /** The section state: the entered ID, the loading flag, the shipment shown and the
      error. */
  class Section {
    var trackingId: string
    var isLoading: bool
    var shipment: Option<BlobStore.Shipment>
    var error: Option<string>

    constructor ()
      ensures trackingId == "" && !isLoading && shipment.None? && error.None?
    {
      trackingId := "";
      isLoading := false;
      shipment := None;
      error := None;
    }

    /** `handleTrackingSubmit` up to the request: an ID that is empty after trimming raises a
        notice and changes nothing; otherwise loading starts, error and shipment are cleared
        and the trimmed ID is requested. */
    method BeginTrack() returns (requested: Option<string>)
      modifies this
      ensures AllWhitespace(trackingId) <==> requested.None?
      ensures requested.None? ==>
        isLoading == old(isLoading) && shipment == old(shipment) && error == old(error)
      ensures requested.Some? ==>
        requested.value == Trim(trackingId) && isLoading && shipment.None? && error.None?
      ensures trackingId == old(trackingId)
    {
      TrimEmpty(trackingId);
      if Trim(trackingId) == "" {
        return None;
      }
      isLoading := true;
      error := None;
      shipment := None;
      requested := Some(Trim(trackingId));
    }

    /** The rest: the shipment or the error is set, and `finally` ends the loading. */
    method FinishTrack(reply: Result<Response<TrackRoute.TrackBody>, string>)
      modifies this
      ensures !isLoading && trackingId == old(trackingId)
      ensures TrackResult(reply).Success? ==>
        shipment == Some(TrackResult(reply).value) && error == old(error)
      ensures TrackResult(reply).Failure? ==>
        error == Some(TrackResult(reply).error) && shipment == old(shipment)
    {
      match TrackResult(reply) {
        case Success(s) =>
          shipment := Some(s);
        case Failure(m) =>
          error := Some(m);
      }
      isLoading := false;
    }

    /** A whole submission: after a request exactly one of shipment and error is set. */
    method HandleTrackingSubmit(reply: Result<Response<TrackRoute.TrackBody>, string>)
      returns (requested: Option<string>)
      modifies this
      ensures requested.None? <==> AllWhitespace(old(trackingId))
      ensures requested.None? ==>
        isLoading == old(isLoading) && shipment == old(shipment) && error == old(error)
      ensures requested.Some? ==> requested.value == Trim(old(trackingId)) && !isLoading
      ensures requested.Some? && TrackResult(reply).Success? ==>
        shipment == Some(TrackResult(reply).value) && error.None?
      ensures requested.Some? && TrackResult(reply).Failure? ==>
        error == Some(TrackResult(reply).error) && shipment.None?
    {
      requested := BeginTrack();
      if requested.Some? {
        FinishTrack(reply);
      }
    }
  }
}
