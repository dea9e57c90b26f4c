/** The new-shipment section (`src/components/sections/NewShipmentSection.tsx`): it sends the
    submitted details to the compliance advisor, shows the advice or an error, and saves the
    details with the advice to `localStorage`. */
module NewShipmentSection {
  import opened Common
  import opened BrowserStorage
  import SavedShipmentsSection

  const StorageKey := "mgSecureShip_savedShipments"
  const Origin := "Sierra Leone"
  const AdvisorFailedMessage := "Failed to retrieve compliance information. Please try again."
  const SavedStatus := "Awaiting Info"

  /** `{ ...data, origin: "Sierra Leone" }`: the details with the origin forced. */
  function AdvisorInput(data: JsObject): (input: JsObject)
    ensures Prop(input, "origin") == JStr(Origin)
    ensures forall k :: k != "origin" ==> Prop(input, k) == Prop(data, k)
  {
    data + map["origin" := JStr(Origin)]
  }

  /** The keys `handleSaveShipment` writes after spreading the details. */
  predicate IsSaveKey(k: string) {
    k == "origin" || k == "complianceAdvice" || k == "savedAt" || k == "status"
  }

  /** `{ id, ...details, origin, complianceAdvice, savedAt, status }`. The details come after
      the fresh `id`, so an `id` among them wins. */
  function NewEntry(uuid: string, details: JsObject, advice: string, now: int): (e: JsObject)
    ensures Prop(e, "origin") == JStr(Origin) && Prop(e, "status") == JStr(SavedStatus)
    ensures Prop(e, "complianceAdvice") == JStr(advice) && Prop(e, "savedAt") == JNum(now)
    ensures Prop(e, "id") == if "id" in details then details["id"] else JStr(uuid)
    ensures forall k :: k != "id" && !IsSaveKey(k) ==> Prop(e, k) == Prop(details, k)
  {
    (map["id" := JStr(uuid)] + details)
      + map["origin" := JStr(Origin), "complianceAdvice" := JStr(advice),
            "savedAt" := JNum(now), "status" := JStr(SavedStatus)]
  }

  /** A saved entry, used again, gives the form the details it was saved from. */
  lemma UseAfterSave(uuid: string, details: JsObject, advice: string, now: int)
    ensures SavedShipmentsSection.UseShipment(NewEntry(uuid, details, advice, now))
         == SavedShipmentsSection.UseShipment(details)
  {
    var e := NewEntry(uuid, details, advice, now);
    assert Prop(e, "mineralType") == Prop(details, "mineralType");
    assert Prop(e, "quantity") == Prop(details, "quantity");
    assert Prop(e, "destination") == Prop(details, "destination");
  }

  /** The saved entries are written under a key the saved-shipments list never reads, so
      writing them leaves what that list loads unchanged. */
  lemma SavedEntriesNotListed(items: map<string, Stored>, value: Stored)
    ensures ReadList(items[StorageKey := value], SavedShipmentsSection.StorageKey)
         == ReadList(items, SavedShipmentsSection.StorageKey)
  {
    assert StorageKey[0] != SavedShipmentsSection.StorageKey[0];
    ReadOtherKey(items, StorageKey, value, SavedShipmentsSection.StorageKey);
  }

  /** `!currentShipmentDetails || !complianceAdvice`: no details yet, or no advice or empty
      advice. */
  predicate SaveRefused(details: Option<JsObject>, advice: Option<string>) {
    details.None? || advice.None? || advice.value == ""
  }

  /** The component state and the storage it writes. */
  class Section {
    var isLoading: bool
    var complianceAdvice: Option<string>
    var error: Option<string>
    var currentDetails: Option<JsObject>
    const storage: LocalStorage

    constructor (storage: LocalStorage)
      ensures this.storage == storage && !isLoading
      ensures complianceAdvice.None? && error.None? && currentDetails.None?
    {
      this.storage := storage;
      isLoading := false;
      complianceAdvice := None;
      error := None;
      currentDetails := None;
    }

    /** `handleShipmentSubmit` up to the advisor call: loading, advice and error cleared, the
        details recorded; the result is what the advisor is sent. */
    method BeginSubmit(data: JsObject) returns (input: JsObject)
      modifies this
      ensures isLoading && error.None? && complianceAdvice.None? && currentDetails == Some(data)
      ensures input == AdvisorInput(data)
    {
      isLoading := true;
      error := None;
      complianceAdvice := None;
      currentDetails := Some(data);
      input := AdvisorInput(data);
    }

    /** The rest of `handleShipmentSubmit`, given what the advisor did: answered with its
        advice, or threw. `finally` ends the loading either way. */
    method FinishSubmit(outcome: Result<string, string>)
      modifies this
      ensures !isLoading && currentDetails == old(currentDetails)
      ensures outcome.Success? ==> complianceAdvice == Some(outcome.value) && error == old(error)
      ensures outcome.Failure? ==> error == Some(AdvisorFailedMessage) && complianceAdvice == old(complianceAdvice)
    {
      match outcome {
        case Success(advice) =>
          complianceAdvice := Some(advice);
        case Failure(_) =>
          error := Some(AdvisorFailedMessage);
      }
      isLoading := false;
    }

    /** A whole submission: on success the advice without an error, on failure the fixed error
        without advice; the details are kept for saving. */
    method Submit(data: JsObject, outcome: Result<string, string>) returns (input: JsObject)
      modifies this
      ensures Prop(input, "origin") == JStr(Origin) && input == AdvisorInput(data)
      ensures !isLoading && currentDetails == Some(data)
      ensures outcome.Success? ==> complianceAdvice == Some(outcome.value) && error.None?
      ensures outcome.Failure? ==> error == Some(AdvisorFailedMessage) && complianceAdvice.None?
    {
      input := BeginSubmit(data);
      FinishSubmit(outcome);
    }

    /** `handleSaveShipment`, given the fresh UUID, the clock, and whether `setItem` throws.
        The result is the entry passed to `onShipmentSaved`, if one was. Refused saves,
        unparsable stored text and a failed write leave the storage as it was. */
    method Save(uuid: string, now: int, quotaExceeded: bool) returns (saved: Option<JsObject>)
      modifies storage
      ensures SaveRefused(currentDetails, complianceAdvice) ==> saved.None?
      ensures var read := ReadList(old(storage.items), StorageKey);
        saved.Some? <==> !SaveRefused(currentDetails, complianceAdvice) && read.Success? && !quotaExceeded
      ensures saved.None? ==> storage.items == old(storage.items)
      ensures saved.Some? ==>
        saved.value == NewEntry(uuid, currentDetails.value, complianceAdvice.value, now)
        && storage.items == old(storage.items)[StorageKey :=
             ShipmentList(ReadList(old(storage.items), StorageKey).value.GetOr([]) + [saved.value])]
    {
      if SaveRefused(currentDetails, complianceAdvice) {
        return None;
      }
      var entry := NewEntry(uuid, currentDetails.value, complianceAdvice.value, now);
      var read := ReadList(storage.items, StorageKey);
      if read.Failure? {
        return None;
      }
      var stored := read.value.GetOr([]);
      var ok := storage.SetItem(StorageKey, stored + [entry], quotaExceeded);
      if !ok {
        return None;
      }
      return Some(entry);
    }
  }

  /** Saving, then the refresh of the saved-shipments list that `onShipmentSaved` triggers:
      the list reloads what it held before, never the entry just written. */
  method SaveThenRefresh(section: Section, view: SavedShipmentsSection.View, uuid: string, now: int,
                         quotaExceeded: bool) returns (saved: Option<JsObject>)
    requires view.storage == section.storage
    modifies section.storage, view
    ensures saved.None? ==> view.saved == old(view.saved)
    ensures var before := ReadList(old(section.storage.items), SavedShipmentsSection.StorageKey);
      saved.Some? ==>
        view.saved == if before.Success? && before.value.Some? then before.value.value else old(view.saved)
  {
    saved := section.Save(uuid, now, quotaExceeded);
    ghost var written := section.storage.items;
    if saved.Some? {
      SavedEntriesNotListed(old(section.storage.items), written[StorageKey]);
      var _ := view.Load();
    }
  }
}
