/** The `/api/debug/blobs` route (`src/app/api/debug/blobs/route.ts`): lists every blob, picks
    the shipment blobs by pathname and recovers their tracking IDs. */
module DebugBlobsRoute {
  import opened Common
  import opened Strings
  import opened Api
  import BlobStore

  /** The listed metadata of one blob. */
  datatype BlobMeta = BlobMeta(pathname: string, url: string, size: nat, uploadedAt: int)

  /** The route's filter: a pathname under `shipments/` ending in `.json`. */
  predicate IsShipmentBlob(p: string) {
    StartsWith(p, "shipments/") && EndsWith(p, ".json")
  }

  /** `pathname.replace('shipments/', '').replace('.json', '')`. */
  function ExtractId(p: string): string {
    ReplaceFirst(ReplaceFirst(p, "shipments/", ""), ".json", "")
  }

  lemma NoSuffixInside(id: string, j: nat)
    requires !Contains(id, ".json") && j + 5 <= |id|
    ensures !OccursAt(id + ".json", ".json", j)
  {
    var s := id + ".json";
    if OccursAt(s, ".json", j) {
      assert s[j..j + 5] == id[j..j + 5];
      assert OccursAt(id, ".json", j);
    }
  }

  /** `.json` cannot begin inside an ID and end inside the suffix `.json`: its first
      character '.' occurs in `.json` only at the start. */
  lemma NoSuffixStraddling(id: string, j: nat)
    requires j < |id| < j + 5
    ensures !OccursAt(id + ".json", ".json", j)
  {
    var s := id + ".json";
    var k := |id| - j;
    assert s[|id|] == '.';
    assert ".json"[k] != '.';
    assert s[j..j + 5][k] == s[|id|];
  }

  lemma NoEarlierSuffix(id: string)
    requires !Contains(id, ".json")
    ensures forall j: nat :: j < |id| ==> !OccursAt(id + ".json", ".json", j)
  {
    forall j: nat | j < |id| ensures !OccursAt(id + ".json", ".json", j) {
      if j + 5 <= |id| {
        NoSuffixInside(id, j);
      } else {
        NoSuffixStraddling(id, j);
      }
    }
  }

  /** In a pathname's tail `<id>.json`, the first `.json` is the suffix. */
  lemma SuffixOnlyAtEnd(id: string)
    requires !Contains(id, ".json")
    ensures IndexOf(id + ".json", ".json") == Some(|id|)
  {
    SuffixOccurs(id);
    NoEarlierSuffix(id);
    IndexOfFirst(id + ".json", ".json", |id|);
  }

  lemma SuffixOccurs(id: string)
    ensures OccursAt(id + ".json", ".json", |id|)
  {
    assert (id + ".json")[|id|..|id| + 5] == ".json";
  }

  /** The extraction recovers every ID that does not itself contain `.json` from the pathname
      the blob store writes, and that pathname passes the filter. */
  lemma ExtractIdRoundTrip(id: string)
    requires !Contains(id, ".json")
    ensures IsShipmentBlob(BlobStore.PathOf(id))
    ensures ExtractId(BlobStore.PathOf(id)) == id
  {
    var p := BlobStore.PathOf(id);
    assert p[..10] == "shipments/";
    assert p[|p| - 5..] == ".json";
    assert StartsWith(p, "shipments/");
    assert IndexOf(p, "shipments/") == Some(0);
    var q := ReplaceFirst(p, "shipments/", "");
    assert q == id + ".json" by {
      assert q == p[..0] + "" + p[10..];
      assert p[10..] == id + ".json";
    }
    SuffixOnlyAtEnd(id);
    assert ExtractId(p) == q[..|id|] + "" + q[|id| + 5..];
    assert q[..|id|] == id;
  }

  lemma IndexHasNoSuffix()
    ensures !Contains("index", ".json")
  {
    forall j: nat ensures !OccursAt("index", ".json", j) {
      if j == 0 {
        assert "index"[0] != ".json"[0];
      }
    }
  }

  /** The index blob passes this filter, and its ID comes out as `index`. */
  lemma IndexBlobIsListed()
    ensures IsShipmentBlob(BlobStore.PathOf("index"))
    ensures ExtractId(BlobStore.PathOf("index")) == "index"
  {
    IndexHasNoSuffix();
    ExtractIdRoundTrip("index");
  }

  /** `getAllShipments` hides the same blob. */
  lemma IndexBlobIsNoRecord()
    ensures !BlobStore.IsRecordPath(BlobStore.PathOf("index"))
  {
    assert OccursAt(BlobStore.PathOf("index"), "index.json", 10);
  }

  /** `blobs.filter(...)`, order preserved. */
  function ShipmentBlobs(blobs: seq<BlobMeta>): (r: seq<BlobMeta>)
    ensures |r| <= |blobs|
    ensures forall b :: b in r <==> b in blobs && IsShipmentBlob(b.pathname)
  {
    if blobs == [] then []
    else (if IsShipmentBlob(blobs[0].pathname) then [blobs[0]] else []) + ShipmentBlobs(blobs[1..])
  }

  /** Filtering a list is filtering its parts, so the relative order of the kept blobs is
      their order in the listing. */
  lemma {:induction false} ShipmentBlobsConcat(a: seq<BlobMeta>, b: seq<BlobMeta>)
    ensures ShipmentBlobs(a + b) == ShipmentBlobs(a) + ShipmentBlobs(b)
  {
    if a == [] {
      assert a + b == b;
    } else {
      var head := if IsShipmentBlob(a[0].pathname) then [a[0]] else [];
      assert (a + b)[0] == a[0];
      assert (a + b)[1..] == a[1..] + b;
      ShipmentBlobsConcat(a[1..], b);
      ConcatAssoc(head, ShipmentBlobs(a[1..]), ShipmentBlobs(b));
    }
  }

  datatype DebugBody =
    | Report(totalBlobs: nat, shipmentBlobs: nat, trackingIds: seq<string>, allBlobs: seq<BlobMeta>)
    | Failed(error: string)

  /** `GET`, given what `list()` did: returned the blobs, or threw. */
  function Get(listed: Result<seq<BlobMeta>, string>): (r: Response<DebugBody>)
    ensures listed.Failure? ==> r == Response(500, Failed(listed.error))
    ensures listed.Success? ==> r.status == 200 && r.body.Report?
    ensures listed.Success? ==>
      var kept := ShipmentBlobs(listed.value);
      r.body.totalBlobs == |listed.value| && r.body.shipmentBlobs == |kept|
      && r.body.shipmentBlobs <= r.body.totalBlobs
      && |r.body.trackingIds| == r.body.shipmentBlobs
      && (forall i :: 0 <= i < |kept| ==> r.body.trackingIds[i] == ExtractId(kept[i].pathname))
      && r.body.allBlobs == listed.value
  {
    match listed
    case Failure(e) => Response(500, Failed(e))
    case Success(blobs) =>
      var kept := ShipmentBlobs(blobs);
      Response(200, Report(|blobs|, |kept|, seq(|kept|, i requires 0 <= i < |kept| => ExtractId(kept[i].pathname)), blobs))
  }
}
