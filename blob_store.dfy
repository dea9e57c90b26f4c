/** The shipment record store over object-blob storage (`src/lib/vercel-blob.ts`).
    Storage is a map from pathname to blob; a shipment lives at `shipments/<trackingId>.json`.
    The service lists pathnames in code-point order, so the first blob of a prefix listing is
    the least matching pathname. Clocks, random numbers and the failures of storage calls are
    parameters of the operations. */
module BlobStore {
  import opened Common
  import opened Strings
  import Sorting

  /** A stored shipment (interface `Shipment`). Timestamps are milliseconds since the epoch;
      the ISO strings the source stores order exactly as these numbers do. */
  datatype Shipment = Shipment(
    id: string,
    trackingId: string,
    senderName: string,
    senderEmail: string,
    senderPhone: string,
    receiverName: string,
    receiverEmail: string,
    receiverPhone: string,
    parcelType: string,
    weight: string,
    value: string,
    destination: string,
    origin: string,
    notes: Option<string>,
    status: string,
    createdAt: int,
    updatedAt: int)

  /** What a caller supplies to `createShipment`: a shipment without `id`, `createdAt` and
      `updatedAt`. */
  datatype ShipmentData = ShipmentData(
    trackingId: string,
    senderName: string,
    senderEmail: string,
    senderPhone: string,
    receiverName: string,
    receiverEmail: string,
    receiverPhone: string,
    parcelType: string,
    weight: string,
    value: string,
    destination: string,
    origin: string,
    notes: Option<string>,
    status: string)

  function DataOf(s: Shipment): ShipmentData {
    ShipmentData(s.trackingId, s.senderName, s.senderEmail, s.senderPhone, s.receiverName,
                 s.receiverEmail, s.receiverPhone, s.parcelType, s.weight, s.value,
                 s.destination, s.origin, s.notes, s.status)
  }

  /** A `Partial<Shipment>`: the fields an update overrides. */
  datatype ShipmentPatch = ShipmentPatch(
    id: Option<string>,
    trackingId: Option<string>,
    senderName: Option<string>,
    senderEmail: Option<string>,
    senderPhone: Option<string>,
    receiverName: Option<string>,
    receiverEmail: Option<string>,
    receiverPhone: Option<string>,
    parcelType: Option<string>,
    weight: Option<string>,
    value: Option<string>,
    destination: Option<string>,
    origin: Option<string>,
    notes: Option<string>,
    status: Option<string>,
    createdAt: Option<int>,
    updatedAt: Option<int>)

  /** The patch `{ status }`. */
  function StatusPatch(status: string): ShipmentPatch {
    ShipmentPatch(None, None, None, None, None, None, None, None, None, None, None, None, None,
                  None, Some(status), None, None)
  }

  /** `{ ...existing, ...updates, updatedAt: now }`. */
  function Merge(e: Shipment, p: ShipmentPatch, now: int): (r: Shipment)
    ensures r.updatedAt == now
    ensures p.trackingId.None? ==> r.trackingId == e.trackingId
    ensures p.createdAt.None? ==> r.createdAt == e.createdAt
    ensures p.status.Some? ==> r.status == p.status.value
  {
    Shipment(
      p.id.GetOr(e.id),
      p.trackingId.GetOr(e.trackingId),
      p.senderName.GetOr(e.senderName),
      p.senderEmail.GetOr(e.senderEmail),
      p.senderPhone.GetOr(e.senderPhone),
      p.receiverName.GetOr(e.receiverName),
      p.receiverEmail.GetOr(e.receiverEmail),
      p.receiverPhone.GetOr(e.receiverPhone),
      p.parcelType.GetOr(e.parcelType),
      p.weight.GetOr(e.weight),
      p.value.GetOr(e.value),
      p.destination.GetOr(e.destination),
      p.origin.GetOr(e.origin),
      if p.notes.Some? then p.notes else e.notes,
      p.status.GetOr(e.status),
      p.createdAt.GetOr(e.createdAt),
      now)
  }

  /** A status-only update changes the status and the update time and nothing else. */
  lemma MergeStatusOnly(e: Shipment, status: string, now: int)
    ensures Merge(e, StatusPatch(status), now) == e.(status := status, updatedAt := now)
  {
  }

  /** A member value of a record as a JSON object: a string or a number. */
  datatype Value = Text(s: string) | Number(n: int)

  /** The members a record or a patch can have. */
  const MemberKeys: set<string> := {
    "id", "trackingId", "senderName", "senderEmail", "senderPhone", "receiverName", "receiverEmail", "receiverPhone", "parcelType", "weight", "value", "destination", "origin", "notes", "status", "createdAt", "updatedAt"
  }

  /** Member `k` of a record, when it has one; `notes` only when it is set. */
  function Get(s: Shipment, k: string): (v: Option<Value>)
    ensures v.Some? ==> k in MemberKeys
  {
    match k
    case "id" => Some(Text(s.id))
    case "trackingId" => Some(Text(s.trackingId))
    case "senderName" => Some(Text(s.senderName))
    case "senderEmail" => Some(Text(s.senderEmail))
    case "senderPhone" => Some(Text(s.senderPhone))
    case "receiverName" => Some(Text(s.receiverName))
    case "receiverEmail" => Some(Text(s.receiverEmail))
    case "receiverPhone" => Some(Text(s.receiverPhone))
    case "parcelType" => Some(Text(s.parcelType))
    case "weight" => Some(Text(s.weight))
    case "value" => Some(Text(s.value))
    case "destination" => Some(Text(s.destination))
    case "origin" => Some(Text(s.origin))
    case "status" => Some(Text(s.status))
    case "notes" => if s.notes.Some? then Some(Text(s.notes.value)) else None
    case "createdAt" => Some(Number(s.createdAt))
    case "updatedAt" => Some(Number(s.updatedAt))
    case _ => None
  }

  /** Member `k` of a patch, when the patch sets it. */
  function PatchGet(p: ShipmentPatch, k: string): (v: Option<Value>)
    ensures v.Some? ==> k in MemberKeys
  {
    match k
    case "id" => if p.id.Some? then Some(Text(p.id.value)) else None
    case "trackingId" => if p.trackingId.Some? then Some(Text(p.trackingId.value)) else None
    case "senderName" => if p.senderName.Some? then Some(Text(p.senderName.value)) else None
    case "senderEmail" => if p.senderEmail.Some? then Some(Text(p.senderEmail.value)) else None
    case "senderPhone" => if p.senderPhone.Some? then Some(Text(p.senderPhone.value)) else None
    case "receiverName" => if p.receiverName.Some? then Some(Text(p.receiverName.value)) else None
    case "receiverEmail" => if p.receiverEmail.Some? then Some(Text(p.receiverEmail.value)) else None
    case "receiverPhone" => if p.receiverPhone.Some? then Some(Text(p.receiverPhone.value)) else None
    case "parcelType" => if p.parcelType.Some? then Some(Text(p.parcelType.value)) else None
    case "weight" => if p.weight.Some? then Some(Text(p.weight.value)) else None
    case "value" => if p.value.Some? then Some(Text(p.value.value)) else None
    case "destination" => if p.destination.Some? then Some(Text(p.destination.value)) else None
    case "origin" => if p.origin.Some? then Some(Text(p.origin.value)) else None
    case "notes" => if p.notes.Some? then Some(Text(p.notes.value)) else None
    case "status" => if p.status.Some? then Some(Text(p.status.value)) else None
    case "createdAt" => if p.createdAt.Some? then Some(Number(p.createdAt.value)) else None
    case "updatedAt" => if p.updatedAt.Some? then Some(Number(p.updatedAt.value)) else None
    case _ => None
  }

  /** A record read as the JSON object it is stored as. */
  function Members(s: Shipment): (m: map<string, Value>)
    ensures forall k :: k in m <==> Get(s, k).Some?
    ensures forall k :: k in m ==> m[k] == Get(s, k).value
  {
    map k | k in MemberKeys && Get(s, k).Some? :: Get(s, k).value
  }

  /** A patch read as a JSON object: exactly the members it sets. */
  function PatchMembers(p: ShipmentPatch): (m: map<string, Value>)
    ensures forall k :: k in m <==> PatchGet(p, k).Some?
    ensures forall k :: k in m ==> m[k] == PatchGet(p, k).value
  {
    map k | k in MemberKeys && PatchGet(p, k).Some? :: PatchGet(p, k).value
  }

  /** Two records with the same members are the same record. */
  lemma MembersDetermine(a: Shipment, b: Shipment)
    requires Members(a) == Members(b)
    ensures a == b
  {
    forall k ensures Get(a, k) == Get(b, k) {
      assert k in Members(a) <==> k in Members(b);
    }
    SameMembersFirst(a, b);
    SameMembersSecond(a, b);
    SameMembersThird(a, b);
    SameMembersLast(a, b);
  }

  /** Equal members give equal fields, four or five fields at a time. */
  lemma SameMembersFirst(a: Shipment, b: Shipment)
    requires forall k :: Get(a, k) == Get(b, k)
    ensures a.id == b.id && a.trackingId == b.trackingId && a.senderName == b.senderName && a.senderEmail == b.senderEmail
  {
    assert Get(a, "id") == Get(b, "id");
    assert Get(a, "trackingId") == Get(b, "trackingId");
    assert Get(a, "senderName") == Get(b, "senderName");
    assert Get(a, "senderEmail") == Get(b, "senderEmail");
  }

  lemma SameMembersSecond(a: Shipment, b: Shipment)
    requires forall k :: Get(a, k) == Get(b, k)
    ensures a.senderPhone == b.senderPhone && a.receiverName == b.receiverName && a.receiverEmail == b.receiverEmail && a.receiverPhone == b.receiverPhone
  {
    assert Get(a, "senderPhone") == Get(b, "senderPhone");
    assert Get(a, "receiverName") == Get(b, "receiverName");
    assert Get(a, "receiverEmail") == Get(b, "receiverEmail");
    assert Get(a, "receiverPhone") == Get(b, "receiverPhone");
  }

  lemma SameMembersThird(a: Shipment, b: Shipment)
    requires forall k :: Get(a, k) == Get(b, k)
    ensures a.parcelType == b.parcelType && a.weight == b.weight && a.value == b.value && a.destination == b.destination
  {
    assert Get(a, "parcelType") == Get(b, "parcelType");
    assert Get(a, "weight") == Get(b, "weight");
    assert Get(a, "value") == Get(b, "value");
    assert Get(a, "destination") == Get(b, "destination");
  }

  lemma SameMembersLast(a: Shipment, b: Shipment)
    requires forall k :: Get(a, k) == Get(b, k)
    ensures a.origin == b.origin && a.notes == b.notes && a.status == b.status && a.createdAt == b.createdAt && a.updatedAt == b.updatedAt
  {
    assert Get(a, "origin") == Get(b, "origin");
    assert Get(a, "notes") == Get(b, "notes");
    assert Get(a, "status") == Get(b, "status");
    assert Get(a, "createdAt") == Get(b, "createdAt");
    assert Get(a, "updatedAt") == Get(b, "updatedAt");
  }

  /** Member by member, the merge takes the update time, then what the patch sets, then
      what the stored record has. */
  lemma MergeGet(e: Shipment, p: ShipmentPatch, now: int, k: string)
    ensures Get(Merge(e, p, now), k) ==
      if k == "updatedAt" then Some(Number(now))
      else if PatchGet(p, k).Some? then PatchGet(p, k)
      else Get(e, k)
  {
    // One case per member, so that each is settled on its own.
    if k == "id" {
    } else if k == "trackingId" {
    } else if k == "senderName" {
    } else if k == "senderEmail" {
    } else if k == "senderPhone" {
    } else if k == "receiverName" {
    } else if k == "receiverEmail" {
    } else if k == "receiverPhone" {
    } else if k == "parcelType" {
    } else if k == "weight" {
    } else if k == "value" {
    } else if k == "destination" {
    } else if k == "origin" {
    } else if k == "notes" {
    } else if k == "status" {
    } else if k == "createdAt" {
    } else if k == "updatedAt" {
    }
  }

  /** The merge is the object spread `{ ...existing, ...updates, updatedAt: now }`: a member
      the patch sets comes from the patch, every other member from the stored record, and
      `updatedAt` is the update time. */
  lemma MergeIsSpread(e: Shipment, p: ShipmentPatch, now: int)
    ensures Members(Merge(e, p, now)) == Members(e) + PatchMembers(p) + map["updatedAt" := Number(now)]
  {
    var l := Members(Merge(e, p, now));
    var r := Members(e) + PatchMembers(p) + map["updatedAt" := Number(now)];
    forall k ensures (k in l <==> k in r) && (k in l ==> l[k] == r[k]) {
      MergeGet(e, p, now, k);
    }
  }

  /** The pathname of a shipment's blob. */
  function PathOf(trackingId: string): string {
    "shipments/" + trackingId + ".json"
  }

  lemma PathOfInjective(a: string, b: string)
    requires PathOf(a) == PathOf(b)
    ensures a == b
  {
    assert a == PathOf(a)[10..|PathOf(a)| - 5];
    assert b == PathOf(b)[10..|PathOf(b)| - 5];
  }

  /** A blob's content as `fetch(blob.url)` delivers it: a shipment, or a response that is not
      ok or not JSON. */
  datatype Blob = Readable(shipment: Shipment) | Unreadable

  function ContentOf(b: Blob): Option<Shipment> {
    if b.Readable? then Some(b.shipment) else None
  }

  // ---------------------------------------------------------------------------------------
  // Prefix listings

  ghost function Matching(keys: set<string>, prefix: string): (m: set<string>)
    ensures forall k :: k in m <==> k in keys && StartsWith(k, prefix)
  {
    set k | k in keys && StartsWith(k, prefix)
  }

  predicate IsLeast(m: string, s: set<string>) {
    m in s && forall x :: x in s ==> LexLe(m, x)
  }

  lemma {:induction false} LeastExists(s: set<string>)
    requires s != {}
    ensures exists m :: IsLeast(m, s)
    decreases |s|
  {
    var x :| x in s;
    if s == {x} {
      LexLeRefl(x);
      assert IsLeast(x, s);
    } else {
      var rest := s - {x};
      LeastExists(rest);
      var m :| IsLeast(m, rest);
      LexLeTotal(m, x);
      if LexLe(m, x) {
        assert IsLeast(m, s);
      } else {
        forall y | y in s ensures LexLe(x, y) {
          if y == x { LexLeRefl(x); } else { LexLeTransitive(x, m, y); }
        }
        assert IsLeast(x, s);
      }
    }
  }

  lemma LeastUnique(a: string, b: string, s: set<string>)
    requires IsLeast(a, s) && IsLeast(b, s)
    ensures a == b
  {
    LexLeAntisymmetric(a, b);
  }

  ghost function Least(s: set<string>): (m: string)
    requires s != {}
    ensures IsLeast(m, s)
  {
    LeastExists(s);
    var m :| IsLeast(m, s);
    m
  }

  predicate LexSorted(s: seq<string>) {
    forall i, j :: 0 <= i < j < |s| ==> LexLe(s[i], s[j])
  }

  /** The elements of `s`, each once, in code-point order. */
  ghost function SortedList(s: set<string>): (r: seq<string>)
    ensures |r| == |s|
    ensures forall x :: x in r <==> x in s
    ensures NoDup(r)
    ensures LexSorted(r)
    decreases |s|
  {
    if s == {} then
      []
    else
      var m := Least(s);
      var rest := SortedList(s - {m});
      forall i | 0 <= i < |rest| ensures LexLe(m, rest[i]) && rest[i] != m {
        assert rest[i] in rest;
      }
      ConsSorted(m, rest);
      [m] + rest
  }

  /** Putting a least element that is not already there in front of a sorted duplicate-free
      list keeps it sorted and duplicate-free. */
  lemma ConsSorted(m: string, rest: seq<string>)
    requires LexSorted(rest) && NoDup(rest)
    requires forall i :: 0 <= i < |rest| ==> LexLe(m, rest[i]) && rest[i] != m
    ensures LexSorted([m] + rest) && NoDup([m] + rest)
  {
    var r := [m] + rest;
    forall i, j | 0 <= i < j < |r| ensures LexLe(r[i], r[j]) && r[i] != r[j] {
      if i > 0 {
        assert r[i] == rest[i - 1] && r[j] == rest[j - 1];
      } else {
        assert r[j] == rest[j - 1];
      }
    }
  }

  lemma SortedListUnfold(s: set<string>, m: string)
    requires IsLeast(m, s)
    ensures SortedList(s) == [m] + SortedList(s - {m})
  {
    LeastUnique(m, Least(s), s);
  }

  /** What `list({ prefix })` returns: the matching pathnames in listing order. */
  ghost function Listing(keys: set<string>, prefix: string): seq<string> {
    SortedList(Matching(keys, prefix))
  }

  /** A pathname that is itself the prefix is the first blob of the listing. */
  lemma ExactKeyListedFirst(keys: set<string>, prefix: string)
    requires prefix in keys
    ensures |Listing(keys, prefix)| > 0 && Listing(keys, prefix)[0] == prefix
  {
    var m := Matching(keys, prefix);
    assert StartsWith(prefix, prefix);
    forall x | x in m ensures LexLe(prefix, x) {
      PrefixLexLe(prefix, x);
    }
    var l := Listing(keys, prefix);
    assert l[0] in m;
    assert IsLeast(l[0], m) by {
      forall x | x in m ensures LexLe(l[0], x) {
        var j :| 0 <= j < |l| && l[j] == x;
        if j == 0 { LexLeRefl(x); }
      }
    }
    LeastUnique(l[0], prefix, m);
  }

  // ---------------------------------------------------------------------------------------
  // Specification of the read operations

  /** What `getShipmentByTrackingId` returns when no call throws: the content of the first
      blob listed under the shipment's pathname, or nothing. */
  ghost function Lookup(blobs: map<string, Blob>, trackingId: string): (r: Option<Shipment>)
    ensures (forall k :: k in blobs ==> !StartsWith(k, PathOf(trackingId))) ==> r.None?
  {
    var l := Listing(blobs.Keys, PathOf(trackingId));
    if l == [] then None else ContentOf(blobs[l[0]])
  }

  /** A shipment stored under its own pathname is what the lookup finds. */
  lemma LookupExact(blobs: map<string, Blob>, trackingId: string)
    requires PathOf(trackingId) in blobs
    ensures Lookup(blobs, trackingId) == ContentOf(blobs[PathOf(trackingId)])
  {
    ExactKeyListedFirst(blobs.Keys, PathOf(trackingId));
  }

  /** Writing a shipment and then looking up its tracking ID finds it, whatever was stored
      before (a second write with the same ID replaces the first). */
  lemma LookupAfterPut(blobs: map<string, Blob>, s: Shipment)
    ensures Lookup(blobs[PathOf(s.trackingId) := Readable(s)], s.trackingId) == Some(s)
  {
    LookupExact(blobs[PathOf(s.trackingId) := Readable(s)], s.trackingId);
  }

  predicate DotFree(t: string) {
    '.' !in t
  }

  /** Every blob is a shipment blob whose tracking ID has no dot, as generated IDs are. */
  ghost predicate WellFormed(blobs: map<string, Blob>) {
    forall k :: k in blobs ==> exists t :: DotFree(t) && k == PathOf(t)
  }

  /** Among dot-free tracking IDs, one pathname begins another only when they are equal. */
  lemma PathPrefixOnlyItself(t: string, u: string)
    requires DotFree(t) && DotFree(u)
    requires StartsWith(PathOf(t), PathOf(u))
    ensures t == u
  {
    var pt, pu := PathOf(t), PathOf(u);
    assert pu[10..10 + |u|] == u;
    assert pu[10 + |u|] == '.';
    assert pt[..|pu|] == pu;
    assert |t| == |u|;
    assert t == pt[10..10 + |t|];
  }

  /** In a well-formed store, looking up a dot-free ID that has no blob finds nothing. */
  lemma LookupUnknown(blobs: map<string, Blob>, trackingId: string)
    requires WellFormed(blobs) && DotFree(trackingId)
    requires PathOf(trackingId) !in blobs
    ensures Lookup(blobs, trackingId).None?
  {
    ListingUnknown(blobs, trackingId);
  }

  /** In a well-formed store, the listing under an ID with no record of its own is empty:
      no other record's pathname begins with it. */
  lemma ListingUnknown(blobs: map<string, Blob>, trackingId: string)
    requires WellFormed(blobs) && DotFree(trackingId)
    requires PathOf(trackingId) !in blobs
    ensures Listing(blobs.Keys, PathOf(trackingId)) == []
  {
    forall k | k in blobs ensures !StartsWith(k, PathOf(trackingId)) {
      var t :| DotFree(t) && k == PathOf(t);
      if StartsWith(k, PathOf(trackingId)) {
        PathPrefixOnlyItself(t, trackingId);
      }
    }
    assert Matching(blobs.Keys, PathOf(trackingId)) == {};
  }

  /** `getAllShipments` keeps pathnames that end in `.json` and do not contain `index.json`. */
  predicate IsRecordPath(p: string) {
    EndsWith(p, ".json") && !Contains(p, "index.json")
  }

  /** `blobs.filter(...)` with that test, order preserved. */
  function RecordPaths(ps: seq<string>): (r: seq<string>)
    ensures forall p :: p in r <==> p in ps && IsRecordPath(p)
    ensures |r| <= |ps|
  {
    if ps == [] then []
    else (if IsRecordPath(ps[0]) then [ps[0]] else []) + RecordPaths(ps[1..])
  }

  /** The shipments the fetch loop pushes, in order: readable blobs only. */
  function ReadableShipments(blobs: map<string, Blob>, ps: seq<string>): (r: seq<Shipment>)
    requires forall p :: p in ps ==> p in blobs
    ensures |r| <= |ps|
  {
    if ps == [] then []
    else
      var last := ps[|ps| - 1];
      ReadableShipments(blobs, ps[..|ps| - 1])
        + (if blobs[last].Readable? then [blobs[last].shipment] else [])
  }

  lemma {:induction false} ReadableShipmentsMembers(blobs: map<string, Blob>, ps: seq<string>, s: Shipment)
    requires forall p :: p in ps ==> p in blobs
    ensures s in ReadableShipments(blobs, ps) <==> exists p :: p in ps && blobs[p] == Readable(s)
  {
    if ps != [] {
      var init := ps[..|ps| - 1];
      ReadableShipmentsMembers(blobs, init, s);
      assert ps == init + [ps[|ps| - 1]];
      assert forall p :: p in ps <==> p in init || p == ps[|ps| - 1];
    }
  }

  function CreatedAtOf(s: Shipment): int {
    s.createdAt
  }

  /** What `getAllShipments` returns when listing does not throw. */
  ghost function AllShipments(blobs: map<string, Blob>): seq<Shipment> {
    Sorting.SortDesc(ReadableShipments(blobs, RecordPaths(Listing(blobs.Keys, "shipments/"))), CreatedAtOf)
  }

  /** The listing holds exactly the readable record blobs, newest first. */
  lemma AllShipmentsMeaning(blobs: map<string, Blob>, s: Shipment)
    ensures Sorting.SortedDesc(AllShipments(blobs), CreatedAtOf)
    ensures s in AllShipments(blobs) <==>
      exists p :: p in blobs && StartsWith(p, "shipments/") && IsRecordPath(p) && blobs[p] == Readable(s)
  {
    var paths := RecordPaths(Listing(blobs.Keys, "shipments/"));
    ReadableShipmentsMembers(blobs, paths, s);
    Sorting.SortDescMembers(ReadableShipments(blobs, paths), CreatedAtOf, s);
  }

  /** The `index.json` exclusion also hides a record whose tracking ID ends in `index`. */
  lemma IndexSuffixIdIsHidden()
    ensures !IsRecordPath(PathOf("myindex"))
  {
    assert OccursAt(PathOf("myindex"), "index.json", 12);
  }

  // ---------------------------------------------------------------------------------------
  // Identifiers

  /** `Math.random().toString(36).substr(2, 9)`, given the base-36 string. */
  function RecordId(random36: string): string {
    Substr(random36, 2, 9)
  }

  /** `generateTrackingId`: "GAE", the last 8 digits of the millisecond clock, and up to 4
      upper-cased characters of `Math.random().toString(36)` after its leading "0.". */
  function GenerateTrackingId(clock: nat, random36: string): (id: string)
    ensures StartsWith(id, "GAE")
    ensures 4 <= |id| <= 15
  {
    var d := LastChars(Decimal(clock), 8);
    var u := ToUpper(Substr(random36, 2, 4));
    IdShape(d, u);
    "GAE" + d + u
  }

  lemma IdShape(d: string, u: string)
    requires 1 <= |d| <= 8 && |u| <= 4
    ensures StartsWith("GAE" + d + u, "GAE") && 4 <= |"GAE" + d + u| <= 15
  {
    assert ("GAE" + d + u)[..3] == "GAE";
  }

  /** From a clock of at least 10^7 ms, the ID carries exactly the last 8 digits of the clock,
      and they denote the clock modulo 10^8. */
  lemma GeneratedIdCarriesClock(clock: nat, random36: string)
    requires clock >= 10_000_000
    ensures var id := GenerateTrackingId(clock, random36);
      |Decimal(clock)| >= 8 && |id| >= 11 && id[3..11] == Decimal(clock)[|Decimal(clock)| - 8..]
      && AllDigits(id[3..11]) && NumeralValue(id[3..11]) == clock % 100_000_000
  {
    var dec := Decimal(clock);
    DecimalLength(clock, 7);
    assert Pow10(7) == 10_000_000;
    LastEightDigits(clock);
    var id := GenerateTrackingId(clock, random36);
    assert id[3..11] == dec[|dec| - 8..];
  }

  /** The last eight digits of a numeral of at least eight digits denote the number modulo
      10^8. */
  lemma LastEightDigits(n: nat)
    requires |Decimal(n)| >= 8
    ensures AllDigits(Decimal(n)[|Decimal(n)| - 8..])
    ensures NumeralValue(Decimal(n)[|Decimal(n)| - 8..]) == n % 100_000_000
  {
    DecimalDenotes(n);
    LastEightOf(Decimal(n), n);
  }

  lemma LastEightOf(r: string, n: nat)
    requires AllDigits(r) && |r| >= 8 && NumeralValue(r) == n
    ensures AllDigits(r[|r| - 8..])
    ensures NumeralValue(r[|r| - 8..]) == n % 100_000_000
  {
    NumeralSplit(r, 8);
    assert Pow10(8) == 100_000_000;
    var w, v := NumeralValue(r[..|r| - 8]), NumeralValue(r[|r| - 8..]);
    assert n == w * 100_000_000 + v && v < 100_000_000;
  }

  /** Digits and upper-case letters only. */
  predicate UpperAlphanumeric(s: string) {
    forall i :: 0 <= i < |s| ==> IsDigit(s[i]) || IsUpper(s[i])
  }

  lemma UpperAlphanumericConcat(a: string, b: string)
    requires UpperAlphanumeric(a) && UpperAlphanumeric(b)
    ensures UpperAlphanumeric(a + b)
  {
    forall i | 0 <= i < |a + b| ensures IsDigit((a + b)[i]) || IsUpper((a + b)[i]) {
      if i < |a| { assert (a + b)[i] == a[i]; } else { assert (a + b)[i] == b[i - |a|]; }
    }
  }

  lemma UpperAlphanumericDotFree(s: string)
    requires UpperAlphanumeric(s)
    ensures DotFree(s)
  {
  }

  lemma PrefixUpperAlphanumeric()
    ensures UpperAlphanumeric("GAE")
  {
    assert "GAE"[0] == 'G' && "GAE"[1] == 'A' && "GAE"[2] == 'E';
  }

  /** When the random string is "0." followed by base-36 digits, the ID consists of digits
      and upper-case letters only, so it is dot-free and has no lower-case letter. */
  lemma GeneratedIdAlphabet(clock: nat, random36: string)
    requires forall i :: 2 <= i < |random36| ==> IsBase36Digit(random36[i])
    ensures UpperAlphanumeric(GenerateTrackingId(clock, random36))
    ensures DotFree(GenerateTrackingId(clock, random36))
  {
    var d := LastChars(Decimal(clock), 8);
    var u := ToUpper(Substr(random36, 2, 4));
    ClockDigitsAlphanumeric(Decimal(clock));
    RandomPartAlphanumeric(random36);
    PrefixUpperAlphanumeric();
    UpperAlphanumericConcat("GAE", d);
    UpperAlphanumericConcat("GAE" + d, u);
    UpperAlphanumericDotFree(GenerateTrackingId(clock, random36));
  }

  lemma ClockDigitsAlphanumeric(dec: string)
    requires AllDigits(dec)
    ensures UpperAlphanumeric(LastChars(dec, 8))
  {
    var d := LastChars(dec, 8);
    forall i | 0 <= i < |d| ensures IsDigit(d[i]) {
      assert d[i] == dec[|dec| - |d| + i];
    }
  }

  lemma RandomPartAlphanumeric(random36: string)
    requires forall i :: 2 <= i < |random36| ==> IsBase36Digit(random36[i])
    ensures UpperAlphanumeric(ToUpper(Substr(random36, 2, 4)))
  {
    var r := Substr(random36, 2, 4);
    var u := ToUpper(r);
    forall i | 0 <= i < |u| ensures IsDigit(u[i]) || IsUpper(u[i]) {
      assert r[i] == random36[2 + i];
      assert u[i] == UpperChar(r[i]);
    }
  }

  // ---------------------------------------------------------------------------------------
  // The store

  class Store {
    /** Every blob, by pathname. */
    var blobs: map<string, Blob>

    constructor ()
      ensures blobs == map[]
    {
      blobs := map[];
    }

    /** `list({ prefix })`. */
    method List(prefix: string) returns (paths: seq<string>)
      ensures paths == Listing(blobs.Keys, prefix)
    {
      var rest := set k | k in blobs && StartsWith(k, prefix);
      assert rest == Matching(blobs.Keys, prefix);
      paths := [];
      while rest != {}
        invariant paths + SortedList(rest) == Listing(blobs.Keys, prefix)
        decreases |rest|
      {
        LeastExists(rest);
        var m :| m in rest && IsLeast(m, rest);
        SortedListUnfold(rest, m);
        ConcatAssoc(paths, [m], SortedList(rest - {m}));
        paths := paths + [m];
        rest := rest - {m};
      }
    }

    /** `createShipment`: writes the record at its pathname, replacing any blob there. A
        failing `put` throws to the caller. */
    method CreateShipment(data: ShipmentData, random36: string, now: int, fault: Option<string>)
      returns (r: Result<Shipment, string>)
      modifies this
      ensures fault.Some? ==> r == Failure(fault.value) && blobs == old(blobs)
      ensures fault.None? ==> r.Success? && DataOf(r.value) == data && r.value.id == RecordId(random36)
                              && r.value.createdAt == now && r.value.updatedAt == now
      ensures fault.None? ==> blobs == old(blobs)[PathOf(data.trackingId) := Readable(r.value)]
    {
      var s := Shipment(RecordId(random36), data.trackingId, data.senderName, data.senderEmail,
                        data.senderPhone, data.receiverName, data.receiverEmail, data.receiverPhone,
                        data.parcelType, data.weight, data.value, data.destination, data.origin,
                        data.notes, data.status, now, now);
      if fault.Some? {
        return Failure(fault.value);
      }
      blobs := blobs[PathOf(s.trackingId) := Readable(s)];
      r := Success(s);
    }

    /** `getShipmentByTrackingId`: every failure is reported as `null`. */
    method GetShipmentByTrackingId(trackingId: string, fault: Option<string>) returns (r: Option<Shipment>)
      ensures r == if fault.Some? then None else Lookup(blobs, trackingId)
    {
      if fault.Some? {
        return None;
      }
      var listed := List(PathOf(trackingId));
      if |listed| == 0 {
        return None;
      }
      r := ContentOf(blobs[listed[0]]);
    }

    /** `getAllShipments`: a listing failure gives `[]`; unreadable blobs are skipped. */
    method GetAllShipments(fault: Option<string>) returns (r: seq<Shipment>)
      ensures r == if fault.Some? then [] else AllShipments(blobs)
    {
      if fault.Some? {
        return [];
      }
      var listed := List("shipments/");
      var paths := RecordPaths(listed);
      var shipments: seq<Shipment> := [];
      for i := 0 to |paths|
        invariant shipments == ReadableShipments(blobs, paths[..i])
      {
        assert paths[..i + 1][..i] == paths[..i];
        match blobs[paths[i]]
        case Readable(s) =>
          shipments := shipments + [s];
        case Unreadable =>
      }
      assert paths[..|paths|] == paths;
      r := Sorting.SortDesc(shipments, CreatedAtOf);
    }

    /** `updateShipment`: fetch, merge, and write back under the pathname of the given ID. A
        missing record or any failure gives `null` and writes nothing. */
    method UpdateShipment(trackingId: string, updates: ShipmentPatch, now: int,
                          readFault: Option<string>, writeFault: Option<string>)
      returns (r: Option<Shipment>)
      modifies this
      ensures var found := if readFault.Some? then None else Lookup(old(blobs), trackingId);
        if found.None? || writeFault.Some? then
          r.None? && blobs == old(blobs)
        else
          r == Some(Merge(found.value, updates, now))
          && blobs == old(blobs)[PathOf(trackingId) := Readable(r.value)]
    {
      var existing := GetShipmentByTrackingId(trackingId, readFault);
      if existing.None? {
        return None;
      }
      var updated := Merge(existing.value, updates, now);
      if writeFault.Some? {
        return None;
      }
      blobs := blobs[PathOf(trackingId) := Readable(updated)];
      r := Some(updated);
    }

    /** `deleteShipment`: removes the first blob listed under the shipment's pathname. */
    method DeleteShipment(trackingId: string, fault: Option<string>) returns (deleted: bool)
      modifies this
      ensures var l := Listing(old(blobs).Keys, PathOf(trackingId));
        deleted <==> fault.None? && l != []
      ensures var l := Listing(old(blobs).Keys, PathOf(trackingId));
        blobs == if deleted then old(blobs) - {l[0]} else old(blobs)
      ensures fault.None? && PathOf(trackingId) in old(blobs) ==>
        deleted && blobs == old(blobs) - {PathOf(trackingId)}
      ensures WellFormed(old(blobs)) && DotFree(trackingId) && PathOf(trackingId) !in old(blobs) ==>
        !deleted && blobs == old(blobs)
    {
      if PathOf(trackingId) in blobs {
        ExactKeyListedFirst(blobs.Keys, PathOf(trackingId));
      } else if WellFormed(blobs) && DotFree(trackingId) {
        ListingUnknown(blobs, trackingId);
      }
      if fault.Some? {
        return false;
      }
      var listed := List(PathOf(trackingId));
      if |listed| == 0 {
        return false;
      }
      blobs := blobs - {listed[0]};
      deleted := true;
    }
  }

  /** Creating a shipment and then tracking it returns the created record. */
  method CreateThenLookup(store: Store, data: ShipmentData, random36: string, now: int)
    returns (created: Result<Shipment, string>, found: Option<Shipment>)
    modifies store
    ensures created.Success? && found == Some(created.value)
  {
    created := store.CreateShipment(data, random36, now, None);
    LookupAfterPut(old(store.blobs), created.value);
    found := store.GetShipmentByTrackingId(data.trackingId, None);
  }
}
