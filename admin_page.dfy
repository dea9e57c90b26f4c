/** The status-update page for staff (`src/app/admin/shipments/page.tsx`): it checks that a
    tracking ID and a status are given, sends them with the notes to `PUT /api/shipping`,
    and clears the form on success. */
module AdminPage {
  import opened Common
  import opened Validation
  import opened Api
  import ShippingRoute

  /** The statuses the page offers, in its order. */
  const OfferedStatuses: seq<string> :=
    ["pending", "processing", "in_transit", "out_for_delivery", "delivered", "on_hold"]

  const MissingFieldsMessage := "Tracking ID and status are required"
  const UpdateFailedMessage := "Failed to update shipment"
  const UpdatedMessage := "Shipment status updated successfully"

  /** The notice (toast) a submission ends in. */
  datatype Notice = ErrorNotice(text: string) | SuccessNotice(text: string)

  /** `JSON.stringify({ trackingId, status, notes })`, as the route parses it. */
  function UpdateRequest(trackingId: string, status: string, notes: string): (body: Fields)
    ensures body.Keys == {"trackingId", "status", "notes"}
    ensures StringAt(body, "trackingId") == trackingId && StringAt(body, "status") == status
    ensures StringAt(body, "notes") == notes
  {
    map["trackingId" := Str(trackingId), "status" := Str(status), "notes" := Str(notes)]
  }

  /** The route accepts a request from this page exactly when the tracking ID is not empty
      and the status is in its enum. */
  lemma RequestAccepted(trackingId: string, status: string, notes: string, isEmail: EmailCheck)
    ensures Parse(UpdateRequest(trackingId, status, notes), ShippingRoute.UpdateStatusSchema, isEmail).Success?
        <==> trackingId != "" && status in ShippingRoute.StatusOptions
  {
    ShippingRoute.UpdateSchemaMeaning(UpdateRequest(trackingId, status, notes), isEmail);
  }

  /** Of the six offered statuses, the route's enum admits exactly pending, processing and
      delivered. */
  lemma OfferedStatusesAccepted()
    ensures forall s :: s in OfferedStatuses ==>
      (s in ShippingRoute.StatusOptions <==> s == "pending" || s == "processing" || s == "delivered")
  {
  }

  /** The notice for what `fetch` did: answered, or threw with a message. A non-ok reply shows
      `result.message` or the fallback; an ok reply is a success whatever its body. */
  function ReplyNotice(reply: Result<Response<ShippingRoute.ShippingBody>, string>): (n: Notice)
    ensures n.SuccessNotice? <==> reply.Success? && IsOk(reply.value.status)
    ensures n.SuccessNotice? ==> n.text == UpdatedMessage
    ensures reply.Failure? ==> n == ErrorNotice(reply.error)
    ensures reply.Success? && !IsOk(reply.value.status) && reply.value.body.Created? ==>
      n == ErrorNotice(OrElse(Some(reply.value.body.message), UpdateFailedMessage))
  {
    match reply
    case Failure(m) => ErrorNotice(m)
    case Success(resp) =>
      if !IsOk(resp.status) then ErrorNotice(OrElse(ShippingRoute.MessageOf(resp.body), UpdateFailedMessage))
      else SuccessNotice(UpdatedMessage)
  }

  /** The route's failure bodies carry `error`, not `message`, so every refusal (400, 404,
      500) is shown as the fallback text. */
  lemma RefusalShowsFallback(resp: Response<ShippingRoute.ShippingBody>)
    requires !IsOk(resp.status) && resp.body.Failed?
    ensures ReplyNotice(Success(resp)) == ErrorNotice(UpdateFailedMessage)
  {
  }

  /** The page state. */
  class Page {
    var trackingId: string
    var status: string
    var notes: string
    var isLoading: bool

    constructor ()
      ensures trackingId == "" && status == "" && notes == "" && !isLoading
    {
      trackingId := "";
      status := "";
      notes := "";
      isLoading := false;
    }

    /** `handleUpdateStatus`, given what the request did. Without a tracking ID or a status
        no request is sent and nothing changes; otherwise the request carries the three
        fields, success clears them and failure keeps them. Loading ends either way. */
    method HandleUpdateStatus(reply: Result<Response<ShippingRoute.ShippingBody>, string>)
      returns (request: Option<Fields>, notice: Notice)
      modifies this
      ensures old(trackingId) == "" || old(status) == "" ==>
        request.None? && notice == ErrorNotice(MissingFieldsMessage)
        && trackingId == old(trackingId) && status == old(status) && notes == old(notes)
        && isLoading == old(isLoading)
      ensures old(trackingId) != "" && old(status) != "" ==>
        request == Some(UpdateRequest(old(trackingId), old(status), old(notes)))
        && notice == ReplyNotice(reply) && !isLoading
      ensures old(trackingId) != "" && old(status) != "" && notice.SuccessNotice? ==>
        trackingId == "" && status == "" && notes == ""
      ensures notice.ErrorNotice? ==>
        trackingId == old(trackingId) && status == old(status) && notes == old(notes)
    {
      if trackingId == "" || status == "" {
        return None, ErrorNotice(MissingFieldsMessage);
      }
      isLoading := true;
      request := Some(UpdateRequest(trackingId, status, notes));
      notice := ReplyNotice(reply);
      if notice.SuccessNotice? {
        trackingId := "";
        status := "";
        notes := "";
      }
      isLoading := false;
    }
  }
}
