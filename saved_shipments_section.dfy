/** The saved-shipments list (`src/components/shipment/SavedShipmentsSection.tsx`): it loads the
    list stored under its key, deletes entries by `id` and writes the rest back, hands an
    entry's details to the shipment form, and shows the list newest first. */
module SavedShipmentsSection {
  import opened Common
  import opened Sorting
  import opened BrowserStorage

  const StorageKey := "globalAtlanticExpress_savedShipments"

  /** `s.id !== shipmentId`: an entry without a string `id`, or with another one, is kept. */
  predicate Keeps(s: JsObject, id: string) {
    Prop(s, "id") != JStr(id)
  }

  /** `savedShipments.filter((s) => s.id !== shipmentId)`. */
  function Without(list: seq<JsObject>, id: string): (r: seq<JsObject>)
    ensures forall s :: s in r <==> s in list && Keeps(s, id)
    ensures |r| <= |list|
  {
    if list == [] then []
    else (if Keeps(list[0], id) then [list[0]] else []) + Without(list[1..], id)
  }

  /** The filter works piece by piece, so the entries it keeps stay in their order. */
  lemma {:induction false} WithoutConcat(a: seq<JsObject>, b: seq<JsObject>, id: string)
    ensures Without(a + b, id) == Without(a, id) + Without(b, id)
  {
    if a == [] {
      assert a + b == b;
    } else {
      var head := if Keeps(a[0], id) then [a[0]] else [];
      assert (a + b)[0] == a[0];
      assert (a + b)[1..] == a[1..] + b;
      WithoutConcat(a[1..], b, id);
      ConcatAssoc(head, Without(a[1..], id), Without(b, id));
    }
  }

  /** Deleting an `id` no entry carries leaves the list as it was. */
  lemma {:induction false} WithoutAbsent(list: seq<JsObject>, id: string)
    requires forall s :: s in list ==> Keeps(s, id)
    ensures Without(list, id) == list
  {
    if list != [] {
      assert list[0] in list;
      assert list == [list[0]] + list[1..];
      WithoutAbsent(list[1..], id);
    }
  }

  /** Every entry carrying the `id` goes: the list is what remains between them. */
  lemma WithoutEntry(a: seq<JsObject>, s: JsObject, b: seq<JsObject>, id: string)
    requires Prop(s, "id") == JStr(id)
    ensures Without(a + [s] + b, id) == Without(a, id) + Without(b, id)
  {
    WithoutConcat(a + [s], b, id);
    WithoutConcat(a, [s], id);
    assert Without([s], id) == [] by {
      assert [s][1..] == [];
    }
    assert Without(a, id) + [] == Without(a, id);
  }

  /** The details `handleUseShipment` hands to the form. */
  datatype ShipmentInput = ShipmentInput(mineralType: JsValue, quantity: JsValue, destination: JsValue)

  /** `{ mineralType, quantity, destination }` taken from the entry. */
  function UseShipment(s: JsObject): (r: ShipmentInput)
    ensures r.mineralType == Prop(s, "mineralType") && r.quantity == Prop(s, "quantity")
      && r.destination == Prop(s, "destination")
    ensures "mineralType" !in s ==> r.mineralType == Undefined
  {
    ShipmentInput(Prop(s, "mineralType"), Prop(s, "quantity"), Prop(s, "destination"))
  }

  /** `s.savedAt || 0`: a missing, zero or non-numeric `savedAt` counts as 0. */
  function SavedAtOrZero(s: JsObject): (t: int)
    ensures "savedAt" !in s ==> t == 0
  {
    match Prop(s, "savedAt")
    case JNum(n) => n
    case _ => 0
  }

  /** The component: the `savedShipments` state and the storage it reads and writes. */
  class View {
    var saved: seq<JsObject>
    const storage: LocalStorage

    /** `useState<Shipment[]>([])`. */
    constructor (storage: LocalStorage)
      ensures this.storage == storage && saved == []
    {
      this.storage := storage;
      saved := [];
    }

    /** The effect: an unparsable entry raises a notice and changes nothing; a stored list
        replaces the state; nothing stored leaves the state as it is. */
    method Load() returns (loaded: bool)
      modifies this
      ensures var read := ReadList(storage.items, StorageKey);
        (loaded <==> read.Success? && read.value.Some?)
        && saved == (if loaded then read.value.value else old(saved))
    {
      var read := ReadList(storage.items, StorageKey);
      if read.Success? && read.value.Some? {
        saved := read.value.value;
        return true;
      }
      return false;
    }

    /** `handleDeleteShipment`: on success the filtered list is both persisted and the new
        state; when `setItem` throws, neither changes. */
    method DeleteShipment(id: string, quotaExceeded: bool) returns (deleted: bool)
      modifies this, storage
      ensures deleted <==> !quotaExceeded
      ensures deleted ==> saved == Without(old(saved), id)
      ensures deleted ==> storage.items == old(storage.items)[StorageKey := ShipmentList(saved)]
      ensures !deleted ==> saved == old(saved) && storage.items == old(storage.items)
    {
      var updated := Without(saved, id);
      deleted := storage.SetItem(StorageKey, updated, quotaExceeded);
      if deleted {
        saved := updated;
      }
    }

    /** The render's `savedShipments.sort(...)` reorders the state array itself, newest
        first; entries saved at the same time keep their order (`Sorting.SortDescStable`). */
    method SortForDisplay()
      modifies this
      ensures saved == SortDesc(old(saved), SavedAtOrZero)
      ensures SortedDesc(saved, SavedAtOrZero) && multiset(saved) == multiset(old(saved))
      ensures forall t :: WithKey(saved, SavedAtOrZero, t) == WithKey(old(saved), SavedAtOrZero, t)
    {
      forall t ensures WithKey(SortDesc(saved, SavedAtOrZero), SavedAtOrZero, t) == WithKey(saved, SavedAtOrZero, t) {
        SortDescStable(saved, SavedAtOrZero, t);
      }
      saved := SortDesc(saved, SavedAtOrZero);
    }
  }

  /** After the display sort, deleting works on the sorted list and the survivors stay newest
      first. */
  lemma {:induction false} WithoutKeepsOrder(list: seq<JsObject>, id: string)
    requires SortedDesc(list, SavedAtOrZero)
    ensures SortedDesc(Without(list, id), SavedAtOrZero)
  {
    if list != [] {
      WithoutKeepsOrder(list[1..], id);
      var rest := Without(list[1..], id);
      forall j | 0 <= j < |rest| ensures SavedAtOrZero(list[0]) >= SavedAtOrZero(rest[j]) {
        assert rest[j] in rest;
        var k :| 0 <= k < |list[1..]| && list[1..][k] == rest[j];
        assert list[k + 1] == rest[j];
      }
    }
  }
}
