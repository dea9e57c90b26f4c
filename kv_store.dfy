/** The key-value variant of the shipment store (`src/lib/vercel-kv.ts`): each record lives at
    `shipment:<trackingId>`, and the list at `shipments:all` indexes the tracking IDs that have
    been created. The two kinds of key never collide, so the model keeps the records and the
    index as two fields. */
module KvStore {
  import opened Common
  import Sorting
  import BlobStore

  /** A stored record (interface `Shipment` of the key-value module). */
  datatype KvShipment = KvShipment(
    id: string,
    trackingId: string,
    senderName: string,
    senderEmail: string,
    senderPhone: string,
    senderAddress: string,
    receiverName: string,
    receiverEmail: string,
    receiverPhone: string,
    receiverAddress: string,
    parcelDescription: string,
    parcelWeight: real,
    parcelValue: real,
    status: string,
    createdAt: int,
    updatedAt: int)

  /** A record without `id`, `createdAt` and `updatedAt`. */
  datatype KvShipmentData = KvShipmentData(
    trackingId: string,
    senderName: string,
    senderEmail: string,
    senderPhone: string,
    senderAddress: string,
    receiverName: string,
    receiverEmail: string,
    receiverPhone: string,
    receiverAddress: string,
    parcelDescription: string,
    parcelWeight: real,
    parcelValue: real,
    status: string)

  function DataOf(s: KvShipment): KvShipmentData {
    KvShipmentData(s.trackingId, s.senderName, s.senderEmail, s.senderPhone, s.senderAddress,
                   s.receiverName, s.receiverEmail, s.receiverPhone, s.receiverAddress,
                   s.parcelDescription, s.parcelWeight, s.parcelValue, s.status)
  }

  const IndexKey := "shipments:all"

  function RecordKey(trackingId: string): string {
    "shipment:" + trackingId
  }

  /** No record key is the index key, and distinct IDs have distinct record keys. */
  lemma RecordKeySeparate(t: string, u: string)
    ensures RecordKey(t) != IndexKey
    ensures RecordKey(t) == RecordKey(u) ==> t == u
  {
    assert RecordKey(t)[8] == ':' && IndexKey[8] == 's';
    if RecordKey(t) == RecordKey(u) {
      assert t == RecordKey(t)[9..] && u == RecordKey(u)[9..];
    }
  }

  /** The index after `if (!all.includes(id)) all.push(id)`. */
  function AppendIfAbsent(index: seq<string>, id: string): (r: seq<string>)
    ensures NoDup(index) ==> NoDup(r)
    ensures id in r
    ensures forall t :: t in r <==> t in index || t == id
    ensures id in index ==> r == index
    ensures |index| <= |r| && r[..|index|] == index
  {
    if id in index then index else index + [id]
  }

  /** The records the fetch loop pushes for `ids`, in order; missing records are skipped. */
  function Present(records: map<string, KvShipment>, ids: seq<string>): (r: seq<KvShipment>)
    ensures |r| <= |ids|
  {
    if ids == [] then []
    else
      var last := ids[|ids| - 1];
      Present(records, ids[..|ids| - 1]) + (if last in records then [records[last]] else [])
  }

  lemma {:induction false} PresentMembers(records: map<string, KvShipment>, ids: seq<string>, s: KvShipment)
    ensures s in Present(records, ids) <==> exists t :: t in ids && t in records && records[t] == s
  {
    if ids != [] {
      var init := ids[..|ids| - 1];
      PresentMembers(records, init, s);
      assert ids == init + [ids[|ids| - 1]];
      assert forall t :: t in ids <==> t in init || t == ids[|ids| - 1];
    }
  }

  function CreatedAtOf(s: KvShipment): int {
    s.createdAt
  }

  /** What `getAllShipments` returns. */
  function AllShipments(records: map<string, KvShipment>, index: seq<string>): seq<KvShipment> {
    Sorting.SortDesc(Present(records, index), CreatedAtOf)
  }

  /** The listing is newest first and holds the records of exactly the indexed IDs; when every
      record is indexed, that is every record. */
  lemma AllShipmentsMeaning(records: map<string, KvShipment>, index: seq<string>, s: KvShipment)
    ensures Sorting.SortedDesc(AllShipments(records, index), CreatedAtOf)
    ensures s in AllShipments(records, index) <==>
      exists t :: t in index && t in records && records[t] == s
    ensures (forall t :: t in records ==> t in index) ==>
      (s in AllShipments(records, index) <==> s in records.Values)
  {
    PresentMembers(records, index, s);
    Sorting.SortDescMembers(Present(records, index), CreatedAtOf, s);
  }

  class Store {
    /** The value at `shipment:<id>`, by id. */
    var records: map<string, KvShipment>
    /** The value at `shipments:all`; an absent key reads as the empty list. */
    var index: seq<string>

    /** The index has no duplicate and lists every stored record. */
    ghost predicate Valid()
      reads this
    {
      NoDup(index) && forall t :: t in records ==> t in index
    }

    constructor ()
      ensures records == map[] && index == []
      ensures Valid()
    {
      records := map[];
      index := [];
    }

    /** `createShipment`: writes the record (replacing any earlier one) and appends the ID to
        the index when it is not there yet. */
    method CreateShipment(data: KvShipmentData, random36: string, now: int) returns (s: KvShipment)
      requires Valid()
      modifies this
      ensures Valid()
      ensures DataOf(s) == data && s.id == BlobStore.RecordId(random36)
      ensures s.createdAt == now && s.updatedAt == now
      ensures records == old(records)[data.trackingId := s]
      ensures index == AppendIfAbsent(old(index), data.trackingId)
    {
      s := KvShipment(BlobStore.RecordId(random36), data.trackingId, data.senderName,
                      data.senderEmail, data.senderPhone, data.senderAddress, data.receiverName,
                      data.receiverEmail, data.receiverPhone, data.receiverAddress,
                      data.parcelDescription, data.parcelWeight, data.parcelValue, data.status,
                      now, now);
      records := records[s.trackingId := s];
      var all := index;
      if s.trackingId !in all {
        all := all + [s.trackingId];
        index := all;
      }
    }

    /** `getShipmentByTrackingId`. */
    method GetShipmentByTrackingId(trackingId: string) returns (r: Option<KvShipment>)
      ensures r.Some? <==> trackingId in records
      ensures r.Some? ==> r.value == records[trackingId]
    {
      if trackingId in records {
        r := Some(records[trackingId]);
      } else {
        r := None;
      }
    }

    /** `getAllShipments`: the indexed records that exist, newest first. */
    method GetAllShipments() returns (r: seq<KvShipment>)
      ensures r == AllShipments(records, index)
    {
      var ids := index;
      var shipments: seq<KvShipment> := [];
      for i := 0 to |ids|
        invariant shipments == Present(records, ids[..i])
      {
        assert ids[..i + 1][..i] == ids[..i];
        var found := GetShipmentByTrackingId(ids[i]);
        if found.Some? {
          shipments := shipments + [found.value];
        }
      }
      assert ids[..|ids|] == ids;
      r := Sorting.SortDesc(shipments, CreatedAtOf);
    }

    /** `updateShipmentStatus`: a missing record gives `null` and no write; otherwise only the
        status and the update time change, and the index is not touched. */
    method UpdateShipmentStatus(trackingId: string, status: string, now: int) returns (r: Option<KvShipment>)
      requires Valid()
      modifies this
      ensures Valid()
      ensures index == old(index)
      ensures trackingId !in old(records) ==> r.None? && records == old(records)
      ensures trackingId in old(records) ==>
        r == Some(old(records)[trackingId].(status := status, updatedAt := now))
        && records == old(records)[trackingId := r.value]
    {
      var shipment := GetShipmentByTrackingId(trackingId);
      if shipment.None? {
        return None;
      }
      var updated := shipment.value.(status := status, updatedAt := now);
      records := records[trackingId := updated];
      r := Some(updated);
    }
  }

  /** Creating a record and then reading it back returns it, and its ID is indexed. */
  method CreateThenGet(store: Store, data: KvShipmentData, random36: string, now: int)
    returns (created: KvShipment, found: Option<KvShipment>)
    requires store.Valid()
    modifies store
    ensures store.Valid()
    ensures found == Some(created) && data.trackingId in store.index
  {
    created := store.CreateShipment(data, random36, now);
    found := store.GetShipmentByTrackingId(data.trackingId);
  }
}
