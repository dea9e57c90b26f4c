/** The shipment form of the new-shipment section (`src/components/shipment/ShipmentForm.tsx`):
    its schema and the default values it fills from the initial data. */
module ShipmentForm {
  import opened Common
  import opened Validation
  import ShippingRoute

  /** `formSchema`. */
  const ShipmentFormSchema: Schema := [
    Entry("senderName", MinLength(2)),
    Entry("senderEmail", Email),
    Entry("receiverName", MinLength(2)),
    Entry("receiverEmail", Email),
    Entry("parcelType", MinLength(2)),
    Entry("weight", MinLength(1)),
    Entry("value", MinLength(1)),
    Entry("origin", MinLength(2)),
    Entry("destination", MinLength(2)),
    Entry("notes", OptionalString)
  ]

  /** A form the schema accepts, stated field by field. */
  predicate AcceptableForm(f: Fields, isEmail: EmailCheck) {
    StringOfLength(f, "senderName", 2) && StringOfLength(f, "receiverName", 2)
    && StringOfLength(f, "parcelType", 2) && StringOfLength(f, "weight", 1)
    && StringOfLength(f, "value", 1) && StringOfLength(f, "origin", 2)
    && StringOfLength(f, "destination", 2)
    && ShippingRoute.EmailString(f, "senderEmail", isEmail)
    && ShippingRoute.EmailString(f, "receiverEmail", isEmail)
    && ("notes" !in f || f["notes"].Str?)
  }

  lemma ShipmentFormSchemaMeaning(f: Fields, isEmail: EmailCheck)
    ensures Parse(f, ShipmentFormSchema, isEmail).Success? <==> AcceptableForm(f, isEmail)
  {
    ShipmentFormSchemaSatisfied(f, isEmail);
  }

  /** The entries of `formSchema`, read rule by rule. */
  lemma ShipmentFormSchemaSatisfied(f: Fields, isEmail: EmailCheck)
    ensures AllSatisfied(f, ShipmentFormSchema, isEmail) <==> AcceptableForm(f, isEmail)
  {
    var s := ShipmentFormSchema;
    assert AllSatisfied(f, s, isEmail) <==>
      Satisfies(f, s[0], isEmail) && Satisfies(f, s[1], isEmail) && Satisfies(f, s[2], isEmail)
      && Satisfies(f, s[3], isEmail) && Satisfies(f, s[4], isEmail) && Satisfies(f, s[5], isEmail)
      && Satisfies(f, s[6], isEmail) && Satisfies(f, s[7], isEmail) && Satisfies(f, s[8], isEmail)
      && Satisfies(f, s[9], isEmail);
  }

  /** The schema has no phone field. */
  lemma NoPhoneKey()
    ensures "senderPhone" !in KeysOf(ShipmentFormSchema)
  {
    var s := ShipmentFormSchema;
    forall i | 0 <= i < |s| ensures s[i].key != "senderPhone" {
    }
  }

  /** So what the form hands on never has the sender phone the route requires: passed to
      `createShipmentSchema` as it is, it is refused. */
  lemma FormOutputLacksPhones(f: Fields, isEmail: EmailCheck)
    requires Parse(f, ShipmentFormSchema, isEmail).Success?
    ensures Parse(Parse(f, ShipmentFormSchema, isEmail).value, ShippingRoute.CreateShipmentSchema, isEmail).Failure?
  {
    var v := Parse(f, ShipmentFormSchema, isEmail).value;
    NoPhoneKey();
    assert "senderPhone" !in v;
    ShippingRoute.CreateSchemaMeaning(v, isEmail);
  }

  /** The form's fields. */
  const FormKeys: set<string> := {
    "senderName", "senderEmail", "receiverName", "receiverEmail", "parcelType",
    "weight", "value", "origin", "destination", "notes"
  }

  const DefaultOrigin := "Sierra Leone"

  /** The fallback of each field: the origin has one, the rest are empty. */
  function Fallback(key: string): string {
    if key == "origin" then DefaultOrigin else ""
  }

  /** `initialData?.<key> || <fallback>` for every field; `initial` holds the fields of the
      initial data that are defined. */
  function DefaultValues(initial: map<string, string>): (d: map<string, string>)
    ensures d.Keys == FormKeys
    ensures forall k :: k in d && k in initial && initial[k] != "" ==> d[k] == initial[k]
    ensures forall k :: k in d && (k !in initial || initial[k] == "") ==> d[k] == Fallback(k)
  {
    map k | k in FormKeys :: OrElse(if k in initial then Some(initial[k]) else None, Fallback(k))
  }

  /** Filling the defaults a second time changes nothing. */
  lemma DefaultsIdempotent(initial: map<string, string>)
    ensures DefaultValues(DefaultValues(initial)) == DefaultValues(initial)
  {
    var d := DefaultValues(initial);
    var dd := DefaultValues(d);
    forall k | k in FormKeys ensures dd[k] == d[k] {
      if d[k] == "" {
        assert Fallback(k) == "";
      }
    }
  }

  /** Without an initial origin the form starts at `Sierra Leone`, which meets the origin
      rule. */
  lemma OriginDefaultPasses(initial: map<string, string>, isEmail: EmailCheck)
    requires "origin" !in initial || initial["origin"] == ""
    ensures DefaultValues(initial)["origin"] == DefaultOrigin
    ensures Satisfies(map k | k in DefaultValues(initial) :: Str(DefaultValues(initial)[k]),
                      ShipmentFormSchema[7], isEmail)
  {
  }
}
