/** The parcel form of the shipping page (`src/components/general/ParcelDetailsForm.tsx`): it
    validates the form, posts the values with a fixed origin to `/api/shipping`, and turns the
    reply into an error notice or a tracking dialog and a redirect. */
module ParcelDetailsForm {
  import opened Common
  import opened Validation
  import opened Api
  import opened Strings
  import BlobStore
  import ShippingRoute

  /** `parcelDetailsSchema`. */
  const ParcelDetailsSchema: Schema := [
    Entry("senderName", MinLength(2)),
    Entry("senderEmail", Email),
    Entry("senderPhone", MinLength(10)),
    Entry("receiverName", MinLength(2)),
    Entry("receiverEmail", Email),
    Entry("receiverPhone", MinLength(10)),
    Entry("parcelType", MinLength(1)),
    Entry("weight", MinLength(1)),
    Entry("value", MinLength(1)),
    Entry("destination", MinLength(2)),
    Entry("notes", OptionalString)
  ]

  const Origin := "Sierra Leone"

  /** A form the schema accepts, stated field by field. */
  predicate AcceptableParcel(f: Fields, isEmail: EmailCheck) {
    StringOfLength(f, "senderName", 2) && StringOfLength(f, "senderPhone", 10)
    && StringOfLength(f, "receiverName", 2) && StringOfLength(f, "receiverPhone", 10)
    && StringOfLength(f, "parcelType", 1) && StringOfLength(f, "weight", 1)
    && StringOfLength(f, "value", 1) && StringOfLength(f, "destination", 2)
    && ShippingRoute.EmailString(f, "senderEmail", isEmail)
    && ShippingRoute.EmailString(f, "receiverEmail", isEmail)
    && ("notes" !in f || f["notes"].Str?)
  }

  /** The schema accepts exactly the forms with names of two characters or more, phones of
      ten or more, non-empty parcel type, weight and value, a destination of two or more,
      valid e-mails, and `notes` absent or a string. */
  lemma ParcelSchemaMeaning(f: Fields, isEmail: EmailCheck)
    ensures Parse(f, ParcelDetailsSchema, isEmail).Success? <==> AcceptableParcel(f, isEmail)
  {
    ParcelSchemaSatisfied(f, isEmail);
  }

  /** The entries of `parcelDetailsSchema`, read rule by rule. */
  lemma ParcelSchemaSatisfied(f: Fields, isEmail: EmailCheck)
    ensures AllSatisfied(f, ParcelDetailsSchema, isEmail) <==> AcceptableParcel(f, isEmail)
  {
    var s := ParcelDetailsSchema;
    assert AllSatisfied(f, s, isEmail) <==>
      Satisfies(f, s[0], isEmail) && Satisfies(f, s[1], isEmail) && Satisfies(f, s[2], isEmail)
      && Satisfies(f, s[3], isEmail) && Satisfies(f, s[4], isEmail) && Satisfies(f, s[5], isEmail)
      && Satisfies(f, s[6], isEmail) && Satisfies(f, s[7], isEmail) && Satisfies(f, s[8], isEmail)
      && Satisfies(f, s[9], isEmail) && Satisfies(f, s[10], isEmail);
  }

  /** `ParcelDetailsValues`, the validated form. */
  datatype ParcelValues = ParcelValues(
    senderName: string, senderEmail: string, senderPhone: string,
    receiverName: string, receiverEmail: string, receiverPhone: string,
    parcelType: string, weight: string, value: string, destination: string,
    notes: Option<string>)

  /** The form's `defaultValues`: every field empty. */
  const DefaultValues := ParcelValues("", "", "", "", "", "", "", "", "", "", Some(""))

  /** The values read from a parsed form. */
  function ValuesOf(v: Fields): ParcelValues {
    ParcelValues(StringAt(v, "senderName"), StringAt(v, "senderEmail"), StringAt(v, "senderPhone"),
                 StringAt(v, "receiverName"), StringAt(v, "receiverEmail"), StringAt(v, "receiverPhone"),
                 StringAt(v, "parcelType"), StringAt(v, "weight"), StringAt(v, "value"),
                 StringAt(v, "destination"), OptionalAt(v, "notes"))
  }

  /** What the schema demands, on the typed values. */
  predicate ValidParcel(p: ParcelValues, isEmail: EmailCheck) {
    |p.senderName| >= 2 && isEmail(p.senderEmail) && |p.senderPhone| >= 10
    && |p.receiverName| >= 2 && isEmail(p.receiverEmail) && |p.receiverPhone| >= 10
    && |p.parcelType| >= 1 && |p.weight| >= 1 && |p.value| >= 1 && |p.destination| >= 2
  }

  /** The values handed to `onSubmit` are the form's own, and they meet the schema. */
  lemma ParsedValues(f: Fields, isEmail: EmailCheck)
    requires Parse(f, ParcelDetailsSchema, isEmail).Success?
    ensures ValuesOf(Parse(f, ParcelDetailsSchema, isEmail).value) == ValuesOf(f)
    ensures ValidParcel(ValuesOf(f), isEmail)
  {
    var s := ParcelDetailsSchema;
    ParcelSchemaMeaning(f, isEmail);
    ParsedAgrees(f, s, isEmail, 0);
    ParsedAgrees(f, s, isEmail, 1);
    ParsedAgrees(f, s, isEmail, 2);
    ParsedAgrees(f, s, isEmail, 3);
    ParsedAgrees(f, s, isEmail, 4);
    ParsedAgrees(f, s, isEmail, 5);
    ParsedAgrees(f, s, isEmail, 6);
    ParsedAgrees(f, s, isEmail, 7);
    ParsedAgrees(f, s, isEmail, 8);
    ParsedAgrees(f, s, isEmail, 9);
    ParsedAgrees(f, s, isEmail, 10);
  }

  /** `shipmentData` as the route receives it: every field copied, `origin` added, and
      `notes` left out of the JSON when it is undefined. */
  function Payload(p: ParcelValues): (body: Fields)
    ensures "origin" in body && body["origin"] == Str(Origin)
    ensures "notes" in body <==> p.notes.Some?
  {
    map["senderName" := Str(p.senderName), "senderEmail" := Str(p.senderEmail),
        "senderPhone" := Str(p.senderPhone), "receiverName" := Str(p.receiverName),
        "receiverEmail" := Str(p.receiverEmail), "receiverPhone" := Str(p.receiverPhone),
        "parcelType" := Str(p.parcelType), "weight" := Str(p.weight), "value" := Str(p.value),
        "destination" := Str(p.destination), "origin" := Str(Origin)]
      + (if p.notes.Some? then map["notes" := Str(p.notes.value)] else map[])
  }

  /** The sender's fields of the payload are the form's. */
  lemma PayloadSender(p: ParcelValues)
    ensures var body := Payload(p);
      "senderName" in body && body["senderName"] == Str(p.senderName)
      && "senderEmail" in body && body["senderEmail"] == Str(p.senderEmail)
      && "senderPhone" in body && body["senderPhone"] == Str(p.senderPhone)
  {
  }

  /** The receiver's fields of the payload are the form's. */
  lemma PayloadReceiver(p: ParcelValues)
    ensures var body := Payload(p);
      "receiverName" in body && body["receiverName"] == Str(p.receiverName)
      && "receiverEmail" in body && body["receiverEmail"] == Str(p.receiverEmail)
      && "receiverPhone" in body && body["receiverPhone"] == Str(p.receiverPhone)
  {
  }

  /** The parcel's fields of the payload are the form's, and so are the notes. */
  lemma PayloadParcel(p: ParcelValues)
    ensures var body := Payload(p);
      "parcelType" in body && body["parcelType"] == Str(p.parcelType)
      && "weight" in body && body["weight"] == Str(p.weight)
      && "value" in body && body["value"] == Str(p.value)
      && "destination" in body && body["destination"] == Str(p.destination)
      && (p.notes.Some? ==> body["notes"] == Str(p.notes.value))
  {
  }

  /** Every form this schema accepts is accepted by the route's `createShipmentSchema`: each
      client minimum is at least the route's, and the added origin is not empty. */
  lemma PayloadPassesServer(p: ParcelValues, isEmail: EmailCheck)
    requires ValidParcel(p, isEmail)
    ensures Parse(Payload(p), ShippingRoute.CreateShipmentSchema, isEmail).Success?
  {
    PayloadSender(p);
    PayloadReceiver(p);
    PayloadParcel(p);
    ShippingRoute.CreateSchemaMeaning(Payload(p), isEmail);
  }

  /** The record the route builds from the payload holds exactly the form's values and the
      fixed origin. */
  lemma PayloadReachesRecord(p: ParcelValues, trackingId: string)
    ensures ShippingRoute.CreationData(Payload(p), trackingId)
      == BlobStore.ShipmentData(trackingId, p.senderName, p.senderEmail, p.senderPhone,
                                p.receiverName, p.receiverEmail, p.receiverPhone, p.parcelType,
                                p.weight, p.value, p.destination, Origin, p.notes, "pending")
  {
    PayloadSender(p);
    PayloadReceiver(p);
    PayloadParcel(p);
  }

  /** A form that passes the schema becomes a record on the server with its own values. */
  lemma AcceptedFormIsStored(f: Fields, isEmail: EmailCheck, trackingId: string)
    requires Parse(f, ParcelDetailsSchema, isEmail).Success?
    ensures var p := ValuesOf(Parse(f, ParcelDetailsSchema, isEmail).value);
      Parse(Payload(p), ShippingRoute.CreateShipmentSchema, isEmail).Success?
      && ShippingRoute.CreationData(Payload(p), trackingId).senderName == StringAt(f, "senderName")
      && ShippingRoute.CreationData(Payload(p), trackingId).origin == Origin
  {
    ParsedValues(f, isEmail);
    PayloadPassesServer(ValuesOf(f), isEmail);
    PayloadReachesRecord(ValuesOf(f), trackingId);
  }

  /** A status code as a template literal shows it. */
  function IntText(n: int): (r: string)
    ensures n >= 0 ==> r == Decimal(n)
  {
    if n >= 0 then Decimal(n) else "-" + Decimal(-n)
  }

  /** `` `Error ${response.status}: ${response.statusText}` ``. */
  function StatusLine(status: int, statusText: string): string {
    "Error " + IntText(status) + ": " + statusText
  }

  const CreateFailedMessage := "Failed to create shipment"

  /** `/track?id=${result.trackingId}`: the success body has no `trackingId` member. */
  const RedirectUrl := "/track?id=undefined"

  /** What the submission ends in: an error notice with its text, or the redirect. */
  datatype SubmitOutcome = ErrorShown(text: string) | Redirected(url: string)

  /** `result.error || "Failed to create shipment"`. A list of issues is shown by the
      fallback text here. */
  function FailureText(e: ErrorValue): (t: string)
    ensures e.Text? && e.text != "" ==> t == e.text
    ensures t != ""
  {
    match e
    case Text(s) => OrElse(Some(s), CreateFailedMessage)
    case IssueList(_) => CreateFailedMessage
  }

  /** The outcome of `onSubmit`, given what `fetch` did (answered, or threw with a message)
      and the reply's status text. */
  function Outcome(reply: Result<Response<ShippingRoute.ShippingBody>, string>, statusText: string): (o: SubmitOutcome)
    ensures o.Redirected? <==>
      reply.Success? && IsOk(reply.value.status) && ShippingRoute.Succeeded(reply.value.body)
    ensures o.Redirected? ==> o.url == RedirectUrl
    ensures reply.Failure? ==> o == ErrorShown(reply.error)
    ensures reply.Success? && !IsOk(reply.value.status) && reply.value.body.Created? ==>
      o == ErrorShown(OrElse(Some(reply.value.body.message), StatusLine(reply.value.status, statusText)))
  {
    match reply
    case Failure(m) => ErrorShown(m)
    case Success(resp) =>
      if !IsOk(resp.status) then
        ErrorShown(OrElse(ShippingRoute.MessageOf(resp.body), StatusLine(resp.status, statusText)))
      else if !ShippingRoute.Succeeded(resp.body) then
        ErrorShown(FailureText(resp.body.error))
      else
        Redirected(RedirectUrl)
  }

  /** The route's failure bodies carry `error`, not `message`: every rejection of a
      submission is shown as the status line, never as the route's reason. */
  lemma RejectionShowsStatusLine(resp: Response<ShippingRoute.ShippingBody>, statusText: string)
    requires !IsOk(resp.status) && resp.body.Failed?
    ensures Outcome(Success(resp), statusText) == ErrorShown(StatusLine(resp.status, statusText))
  {
  }

  /** A validation failure of the route (400) reads `Error 400: <status text>`. */
  lemma BadRequestText(issues: seq<Issue>, statusText: string)
    ensures Outcome(Success(Response(400, ShippingRoute.Failed(IssueList(issues)))), statusText)
         == ErrorShown("Error 400: " + statusText)
  {
    assert Decimal(400) == "400";
  }

  /** `result.shipment?.trackingId`, when it is a non-empty string. */
  function DialogId(body: ShippingRoute.ShippingBody): (id: Option<string>)
    ensures id.Some? <==> body.Created? && body.shipment.trackingId != ""
  {
    if body.Created? && body.shipment.trackingId != "" then Some(body.shipment.trackingId) else None
  }

  /** A created shipment's tracking ID is shown in the dialog, but the redirect does not
      carry it. */
  lemma RedirectLosesTrackingId(s: BlobStore.Shipment, statusText: string)
    requires s.trackingId != "" && s.trackingId != "undefined"
    ensures var resp := Response(200, ShippingRoute.Created("Shipment created successfully", s));
      DialogId(resp.body) == Some(s.trackingId)
      && Outcome(Success(resp), statusText) == Redirected(RedirectUrl)
      && RedirectUrl != "/track?id=" + s.trackingId
  {
    assert ("/track?id=" + s.trackingId)[10..] == s.trackingId;
    assert RedirectUrl[10..] == "undefined";
  }

  /** The component state: the form values, the loading flag and the tracking dialog. */
  class Form {
    var values: ParcelValues
    var isLoading: bool
    var showTrackingDialog: bool
    var trackingId: string

    constructor ()
      ensures values == DefaultValues && !isLoading && !showTrackingDialog && trackingId == ""
    {
      values := DefaultValues;
      isLoading := false;
      showTrackingDialog := false;
      trackingId := "";
    }

    /** `onSubmit` with the validated values: the payload posted, and the outcome. An error
        keeps the form as it was; success opens the dialog when there is a tracking ID and
        resets the form. Loading ends either way. */
    method OnSubmit(data: ParcelValues, reply: Result<Response<ShippingRoute.ShippingBody>, string>,
                    statusText: string) returns (payload: Fields, outcome: SubmitOutcome)
      modifies this
      ensures payload == Payload(data) && outcome == Outcome(reply, statusText)
      ensures !isLoading
      ensures outcome.ErrorShown? ==>
        values == old(values) && showTrackingDialog == old(showTrackingDialog) && trackingId == old(trackingId)
      ensures outcome.Redirected? ==> values == DefaultValues
      ensures outcome.Redirected? && DialogId(reply.value.body).Some? ==>
        showTrackingDialog && trackingId == DialogId(reply.value.body).value
      ensures outcome.Redirected? && DialogId(reply.value.body).None? ==>
        showTrackingDialog == old(showTrackingDialog) && trackingId == old(trackingId)
    {
      isLoading := true;
      payload := Payload(data);
      outcome := Outcome(reply, statusText);
      if outcome.Redirected? {
        var shown := DialogId(reply.value.body);
        if shown.Some? {
          trackingId := shown.value;
          showTrackingDialog := true;
        }
        values := DefaultValues;
      }
      isLoading := false;
    }
  }
}
