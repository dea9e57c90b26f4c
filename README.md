# Global Atlantic Express shipment tracking — a Dafny model

This project models the core of a Next.js web application that lets customers book parcel shipments and follow them by tracking ID. The application's main parts are:

* a record store of shipments on blob storage. Each record is a JSON file `shipments/<trackingId>.json`. The store has create, look-up by prefix listing, list-all sorted newest first, update, delete and tracking-ID generation.
* an older key-value store, `shipment:<id>` plus the index `shipments:all`. It is kept in the repository but no longer used.
* the API routes:
  * `/api/shipping`: POST creates a shipment, GET lists them, PUT updates a status.
  * `/api/track`: returns one shipment.
  * `/api/contact`: checks the mail settings and validates the contact form.
  * `/api/debug/blobs`: lists the record blobs.
* the client rules:
  * the parcel booking form, its payload and its reactions to replies;
  * the tracking section and the tracking card;
  * the admin status page;
  * the saved-shipments list kept in `localStorage`, and the new-shipment section that writes it;
  * the shipment form's schema and defaults;
  * the image carousel;
  * the WhatsApp button link.

How the code's parts are modelled:

* Pure logic becomes functions and lemmas:
  * zod schemas: `Validation` and the schema constants;
  * route decisions: `TrackRoute.Track`, `ContactRoute.Post`;
  * string building: tracking IDs, WhatsApp URLs and status lines.
* Things that change state become classes with `modifies` clauses:
  * the blob map;
  * the KV records and index;
  * `localStorage`;
  * each React component's state.
* Each method is tied to a specification function defined beside it.

Everything outside the program is passed in as a parameter. That covers the clock, `Math.random`, `crypto.randomUUID`, blob read and write failures, `fetch` replies, the e-mail and compliance-advisor calls, `validator.isEmail`, and quota errors.

Modules follow the source files:

| module | source file |
|---|---|
| `BlobStore` | `src/lib/vercel-blob.ts` |
| `KvStore` | `src/lib/vercel-kv.ts` |
| `ShippingRoute` | `src/app/api/shipping/route.ts` |
| `TrackRoute` | `src/app/api/track/route.ts` |
| `ContactRoute` | `src/app/api/contact/route.ts` |
| `DebugBlobsRoute` | `src/app/api/debug/blobs/route.ts` |
| `ParcelDetailsForm` | `src/components/general/ParcelDetailsForm.tsx` |
| `ShipmentForm` | `src/components/shipment/ShipmentForm.tsx` |
| `TrackingCard` | `src/components/shipment/ShipmentTrackingCard.tsx` |
| `TrackingSection` | `src/components/sections/ShipmentTrackingSection.tsx` |
| `AdminPage` | `src/app/admin/shipments/page.tsx` |
| `SavedShipmentsSection` | `src/components/shipment/SavedShipmentsSection.tsx` |
| `NewShipmentSection` | `src/components/sections/NewShipmentSection.tsx` |
| `Carousel` | `src/components/ui/carousel.tsx` |
| `WhatsApp` | `src/components/ui/whatsapp-button.tsx` |

Shared helpers live in their own modules:

* `Common`: `Option`/`Result` and JavaScript's `||` on strings;
* `Strings`: prefix and suffix tests, `indexOf`, `trim`, `toUpperCase` and decimal rendering;
* `Sorting`: a descending insertion sort, the model of `Array.prototype.sort` with a numeric comparator;
* `Validation`: zod's string, email, optional and enum rules, with the issues they report;
* `Api`: HTTP responses;
* `BrowserStorage`: `localStorage` holding parsed JSON objects.

## Where the code and its description differ

The model follows the code in both places.

* Store failures are never reported as server errors. `getAllShipments` and `getShipmentByTrackingId` catch every error (`vercel-blob.ts:113-116`, `73-76`), so the 500 branches of GET `/api/shipping` and `/api/track` are never taken:
  * a failed blob write during POST `/api/shipping` answers 400 with the error message (`route.ts:79-85`);
  * a failed look-up or update in the blob store becomes `null` (`vercel-blob.ts:73-76`, `151-154`), so PUT answers 404;
  * a failed listing becomes an empty list (`vercel-blob.ts:113-116`), so GET answers 200 with no shipments.
* `createShipment` overwrites the record of an existing tracking ID without checking for it (`vercel-blob.ts:36-40`). `BlobStore.Store.CreateShipment` does the same: it states the blob map update at `PathOf(trackingId)`.

Several client rules do not agree with the routes they call, or would not if their values reached those routes. Each is stated as a lemma:

* `ParcelDetailsForm.RejectionShowsStatusLine`: every route failure body carries `error`, not `message`, so the booking form shows `Error <status>: <statusText>`.
* `ParcelDetailsForm.RedirectLosesTrackingId`: the form redirects to `/track?id=undefined`.
* `AdminPage.RefusalShowsFallback`: the admin page always shows its fallback text.
* `AdminPage.OfferedStatusesAccepted`: the admin page offers `in_transit`, `out_for_delivery` and `on_hold`, which the PUT schema refuses.
* `TrackingCard.StoreStatusesShowUnknown`: the card has no entry for `cancelled` or `shipped`, statuses the PUT schema accepts.
* `ShipmentForm.FormOutputLacksPhones`: the shipment form's values go to the compliance advisor (`NewShipmentSection.tsx:27-39`, `98`); were they posted to `/api/shipping`, the create schema would refuse them for lack of phones.
* `NewShipmentSection.SavedEntriesNotListed`: the new-shipment section writes a `localStorage` key that the saved-shipments list never reads.
* `DebugBlobsRoute.IndexBlobIsListed`: the debug route counts `shipments/index.json` as a shipment.

## Model

| member | source | states |
|---|---|---|
| Validation.CheckRuleMeaning | src/app/api/shipping/route.ts:7-20 | one zod rule reports no issue exactly when the field satisfies it: a string of the minimum length, a valid e-mail string, an absent or string optional field, a member of the enum |
| Validation.IssuesOf | src/app/api/shipping/route.ts:7-20 | a parse reports at most one issue per schema entry |
| Validation.NoIssuesIffSatisfied | src/app/api/shipping/route.ts:35 | `parse` finds no issue exactly when every entry of the schema is satisfied |
| Validation.IssuesAreGenuine | src/app/api/shipping/route.ts:35 | every reported issue is about a key the schema names |
| Validation.Parse | src/app/api/shipping/route.ts:35 | parsing succeeds iff every rule holds; the result keeps exactly the schema's keys present in the input with their values (unknown keys are stripped); a failure carries a non-empty issue list |
| Validation.ParsedAgrees | src/app/api/shipping/route.ts:35 | after a successful parse, each schema key holds the input's value |
| Sorting.Insert | src/lib/vercel-blob.ts:112 | inserting into a list sorted by descending key keeps it sorted and adds exactly that one element |
| Sorting.SortDesc | src/lib/vercel-blob.ts:112 | the sort result is ordered by descending key and is a permutation of its input |
| Sorting.SortDescMembers | src/lib/vercel-blob.ts:112 | an element is in the sorted list iff it is in the input |
| Sorting.InsertWithKey | src/lib/vercel-blob.ts:112 | inserting puts the element before all elements with the same key and keeps every key's elements in order |
| Sorting.SortDescStable | src/lib/vercel-blob.ts:112 | the sort is stable: for every key, the elements with that key come out in their input order |
| Strings.IndexOf | src/app/api/debug/blobs/route.ts:28-30 | `indexOf` returns the first position where the pattern occurs, or -1 when it occurs nowhere |
| Strings.IndexOfFirst | src/app/api/debug/blobs/route.ts:28-30 | an occurrence with no earlier one is exactly what `indexOf` returns |
| Strings.Substr | src/lib/vercel-blob.ts:25 | `substr(start, n)` has `n` characters when `start + n` fits, the `|s| - start` remaining ones when only `start` fits, none otherwise, and its character `i` is character `start + i` of the input |
| Strings.LastChars | src/lib/vercel-blob.ts:186 | for a positive `n`, `slice(-n)` is a suffix of the string, of `n` characters or the whole string when it is shorter |
| Strings.ToUpper | src/lib/vercel-blob.ts:187 | upper-casing keeps the length and maps each character on its own, lower-case letters to upper-case and everything else to itself |
| Strings.Decimal | src/lib/vercel-blob.ts:186 | `toString()` of a natural number is a non-empty string of digits (its value is `Strings.DecimalDenotes`) |
| Strings.DecimalDenotes | src/lib/vercel-blob.ts:186 | the numeral `toString()` writes denotes the number, and starts with `0` only for 0 |
| Strings.DecimalLength | src/lib/vercel-blob.ts:186 | a number of at least 10^k renders in at least k + 1 digits |
| Strings.NumeralSplit | src/lib/vercel-blob.ts:186 | the last `k` digits of a numeral denote a number below `10^k`, and the whole is the front's value times `10^k` plus theirs |
| Strings.TrimEmpty | src/components/sections/ShipmentTrackingSection.tsx:20-27 | `trim()` yields the empty string exactly when the input is all whitespace |
| Strings.TrimStartHead | src/components/sections/ShipmentTrackingSection.tsx:20-27 | after `trimStart` the string is empty or starts with a non-whitespace character |
| Strings.LexLeRefl | src/lib/vercel-blob.ts:53-55 | the listing order is reflexive |
| Strings.LexLeTotal | src/lib/vercel-blob.ts:53-55 | the listing order is total |
| Strings.LexLeTransitive | src/lib/vercel-blob.ts:53-55 | the listing order is transitive |
| Strings.LexLeAntisymmetric | src/lib/vercel-blob.ts:53-55 | the listing order is antisymmetric |
| Strings.PrefixLexLe | src/lib/vercel-blob.ts:53-55 | a prefix sorts no later than any string that extends it |
| BlobStore.Merge | src/lib/vercel-blob.ts:133-137 | `updatedAt` is the new time; `trackingId` and `createdAt` are kept when the patch leaves them out; a patched status is taken (the whole merge is `BlobStore.MergeIsSpread`) |
| BlobStore.MergeStatusOnly | src/lib/vercel-blob.ts:133-137 | a status-only patch changes exactly the status and `updatedAt` |
| BlobStore.MergeGet | src/lib/vercel-blob.ts:133-137 | member by member, the merged record has the new `updatedAt`, then what the patch sets, then what the stored record has |
| BlobStore.MergeIsSpread | src/lib/vercel-blob.ts:133-137 | read as JSON objects, the merged record is `{ ...existing, ...updates, updatedAt }`: every member the patch sets comes from the patch and every other one from the stored record |
| BlobStore.MembersDetermine | src/lib/vercel-blob.ts:133-137 | a record is determined by its members, so the spread identity fixes every field of the merge |
| BlobStore.PathOfInjective | src/lib/vercel-blob.ts:36 | distinct tracking IDs get distinct blob paths |
| BlobStore.Matching | src/lib/vercel-blob.ts:53-55 | the listed paths are exactly the stored paths that start with the prefix |
| BlobStore.LeastExists | src/lib/vercel-blob.ts:53-55 | every non-empty set of paths has a least path in listing order |
| BlobStore.LeastUnique | src/lib/vercel-blob.ts:53-55 | that least path is unique |
| BlobStore.SortedList | src/lib/vercel-blob.ts:53-55 | the listing holds every matching path exactly once, in listing order |
| BlobStore.SortedListUnfold | src/lib/vercel-blob.ts:53-55 | the listing starts with the least path, followed by the listing of the rest |
| BlobStore.ExactKeyListedFirst | src/lib/vercel-blob.ts:53-60 | when the exact path `shipments/<id>.json` exists it is the first blob listed |
| BlobStore.Lookup | src/lib/vercel-blob.ts:48-77 | with no stored path under the prefix, the look-up returns null |
| BlobStore.LookupExact | src/lib/vercel-blob.ts:57-72 | when the exact path exists, the look-up returns that blob's content, or null when it cannot be read |
| BlobStore.LookupAfterPut | src/lib/vercel-blob.ts:36-40 | after a record is written, looking up its tracking ID returns it |
| BlobStore.PathPrefixOnlyItself | src/lib/vercel-blob.ts:54 | for dot-free IDs, the only record path under the prefix `shipments/<id>.json` is its own |
| BlobStore.LookupUnknown | src/lib/vercel-blob.ts:57-60 | in a store of dot-free record paths, an unknown dot-free ID is not found |
| BlobStore.ListingUnknown | src/lib/vercel-blob.ts:163-170 | in a store of dot-free record paths, the listing under an unknown dot-free ID is empty |
| BlobStore.RecordPaths | src/lib/vercel-blob.ts:90-93 | the kept paths are exactly those ending in `.json` that do not contain `index.json` |
| BlobStore.ReadableShipments | src/lib/vercel-blob.ts:98-110 | the fetch loop collects no more records than there are listed blobs |
| BlobStore.ReadableShipmentsMembers | src/lib/vercel-blob.ts:98-110 | a record is collected iff some listed blob holds it readably; unreadable blobs are skipped |
| BlobStore.AllShipmentsMeaning | src/lib/vercel-blob.ts:80-117 | `getAllShipments` is sorted newest first and holds exactly the readable records under a record path |
| BlobStore.IndexSuffixIdIsHidden | src/lib/vercel-blob.ts:92 | the record of the tracking ID `myindex` is never listed, because its path contains `index.json` |
| BlobStore.GenerateTrackingId | src/lib/vercel-blob.ts:184-189 | a tracking ID starts with `GAE` and has between 4 and 15 characters |
| BlobStore.GeneratedIdCarriesClock | src/lib/vercel-blob.ts:186 | from a clock of at least 10^7 ms, characters 3 to 10 of the ID are the last eight digits of the clock, and they denote the clock modulo 10^8 |
| BlobStore.UpperAlphanumericConcat | src/lib/vercel-blob.ts:188 | joining two upper-case alphanumeric strings keeps the alphabet |
| BlobStore.UpperAlphanumericDotFree | src/lib/vercel-blob.ts:188 | an upper-case alphanumeric ID contains no dot |
| BlobStore.PrefixUpperAlphanumeric | src/lib/vercel-blob.ts:185 | the prefix `GAE` is upper-case alphanumeric |
| BlobStore.GeneratedIdAlphabet | src/lib/vercel-blob.ts:184-189 | when the random text is base-36 after its `0.` head, the ID is upper-case alphanumeric and contains no dot |
| BlobStore.Store.constructor | src/lib/vercel-blob.ts:1 | an empty store |
| BlobStore.Store.List | src/lib/vercel-blob.ts:53-55 | `list({prefix})` returns the matching paths in listing order |
| BlobStore.Store.CreateShipment | src/lib/vercel-blob.ts:24-45 | a write failure raises the error and leaves the store unchanged; otherwise the record holds the input fields, the new id and `createdAt == updatedAt == now`, and the blob map changes only at `shipments/<trackingId>.json`, overwriting an existing record |
| BlobStore.Store.GetShipmentByTrackingId | src/lib/vercel-blob.ts:48-77 | null after a failure; otherwise the content of the first blob listed under the record's path |
| BlobStore.Store.GetAllShipments | src/lib/vercel-blob.ts:80-117 | the specified newest-first list, or the empty list after a failure |
| BlobStore.Store.UpdateShipment | src/lib/vercel-blob.ts:120-155 | not found, or a failed write, gives null and leaves the store unchanged; otherwise the result is the merge written back at the record's path |
| BlobStore.Store.DeleteShipment | src/lib/vercel-blob.ts:158-181 | a blob is deleted iff there is no failure and the prefix listing is non-empty; exactly the first listed path is removed, which is the record's own path when it exists; in a store of dot-free record paths an unknown dot-free ID returns false and changes nothing |
| BlobStore.CreateThenLookup | src/lib/vercel-blob.ts:24-77 | a record created without failure is found again by its tracking ID |
| KvStore.RecordKeySeparate | src/lib/vercel-kv.ts:35-38 | record keys never collide with the index key or with each other |
| KvStore.AppendIfAbsent | src/lib/vercel-kv.ts:38-42 | the index gains the ID only when it is absent, keeps its old entries in order, and stays duplicate-free |
| KvStore.Present | src/lib/vercel-kv.ts:58-63 | no more records are collected than there are indexed IDs |
| KvStore.PresentMembers | src/lib/vercel-kv.ts:58-63 | a record is collected iff some indexed ID has it stored |
| KvStore.AllShipmentsMeaning | src/lib/vercel-kv.ts:54-67 | the list is newest first and holds exactly the indexed stored records; when every record is indexed, that is every record |
| KvStore.Store.constructor | src/lib/vercel-kv.ts:1 | an empty store and index |
| KvStore.Store.CreateShipment | src/lib/vercel-kv.ts:23-45 | the record is written under its key with `createdAt == updatedAt == now`; the index gains its ID if absent; every record stays indexed |
| KvStore.Store.GetShipmentByTrackingId | src/lib/vercel-kv.ts:48-51 | the stored record, or null when the key holds none |
| KvStore.Store.GetAllShipments | src/lib/vercel-kv.ts:54-67 | the specified newest-first list of indexed records |
| KvStore.Store.UpdateShipmentStatus | src/lib/vercel-kv.ts:70-85 | an unknown ID gives null with no change; otherwise exactly the status and `updatedAt` change; the index is untouched |
| KvStore.CreateThenGet | src/lib/vercel-kv.ts:23-51 | a created record is found again and is indexed |
| ShippingRoute.CreateSchemaMeaning | src/app/api/shipping/route.ts:7-20 | `createShipmentSchema` accepts a body iff the twelve strings are non-empty, both e-mails are valid and `notes` is absent or a string |
| ShippingRoute.CreateSchemaSatisfied | src/app/api/shipping/route.ts:7-20 | every rule of `createShipmentSchema` holds iff the field-by-field reading of the schema holds |
| ShippingRoute.UpdateSchemaMeaning | src/app/api/shipping/route.ts:22-25 | `updateStatusSchema` accepts iff the tracking ID is a non-empty string and the status is one of its five values |
| ShippingRoute.StatusesOutsideTheEnum | src/app/api/shipping/route.ts:22-25 | `in_transit`, `out_for_delivery` and `on_hold`, statuses of the record type, are refused |
| ShippingRoute.CreationData | src/app/api/shipping/route.ts:41-45 | the record data carries the new tracking ID and the status `pending` (the copy of the validated fields is `ShippingRoute.CreationDataCopiesFields` and `ShippingRoute.CreationDataFromBody`) |
| ShippingRoute.CreationDataFromBody | src/app/api/shipping/route.ts:35-45 | the data of an accepted body holds the body's own strings |
| ShippingRoute.CreationDataCopiesFields | src/app/api/shipping/route.ts:41-45 | the sender, receiver and parcel fields are those of the validated body |
| ShippingRoute.MessageOf | src/app/api/shipping/route.ts:73-77 | a response body has a `message` exactly when it is a `Created` body, the success body of POST and PUT; the GET listing body has none |
| ShippingRoute.Post | src/app/api/shipping/route.ts:27-86 | a malformed body gives 400 with the parse message, a body that is not an object gives 400 with the one root issue, a refused body gives 400 with the issues, and none of them writes anything; a store failure gives 400 with its message; otherwise the response is 200 with the stored record, whose tracking ID is new and whose status is `pending`; the e-mail outcome does not change the response |
| ShippingRoute.Get | src/app/api/shipping/route.ts:88-106 | always 200 with the store's newest-first list, empty after a store failure |
| ShippingRoute.Put | src/app/api/shipping/route.ts:108-148 | a malformed body, a body that is not an object and a refused body give 400 and write nothing; an unknown ID or a failed read or write gives 404 `Shipment not found`; otherwise 200 with the record, whose status and `updatedAt` are the only fields changed, written back |
| TrackRoute.Track | src/app/api/track/route.ts:11-55 | 400 iff the `trackingId` parameter is missing or empty; 500 iff the look-up throws; 404 with the fixed message iff there is no record; 200 with the record iff there is one |
| TrackRoute.Get | src/app/api/track/route.ts:8-55 | the route answers the look-up of the blob store; since the store turns its failures into null, a failure gives 404 and the route never answers 500 |
| TrackRoute.TrackStored | src/app/api/track/route.ts:24-43 | looking up a tracking ID just created answers 200 with that record |
| ContactRoute.Missing | src/app/api/contact/route.ts:19-33 | a setting is reported missing iff it is in the list and unset or empty; no more names are reported than checked |
| ContactRoute.MissingConcat | src/app/api/contact/route.ts:31-33 | the missing names of two joined lists are those of the first followed by those of the second, so the report keeps the order of the settings |
| ContactRoute.NothingSetReportsAll | src/app/api/contact/route.ts:31-33 | with no setting set, every checked name is reported, in order |
| ContactRoute.AllSetReportsNone | src/app/api/contact/route.ts:31-33 | with every setting set, none is reported |
| ContactRoute.ContactSchemaMeaning | src/app/api/contact/route.ts:5-11 | the contact schema accepts iff the name has at least 2 characters, the e-mail is valid, the phone has at least 7, the subject at least 5 and the message at least 10 |
| ContactRoute.Post | src/app/api/contact/route.ts:13-101 | missing settings give 500 with the configuration message and the list of missing names, before the body is read; malformed JSON, a `null` body and a `message` that is neither a string nor `null` give 400 `Invalid request format` without issues, because the log statement throws inside the parsing `try`; another body that is not an object gives `Invalid form data` with the one root issue; a refused form gives 400 with the issues; a form is handed to the mailer iff the settings are complete and the form is accepted; a mailer failure then gives 500 with its message, and success gives 200; `success` is true iff the status is 200 |
| ContactRoute.SecureFlagIsRequired | src/app/api/contact/route.ts:19-42 | with only `SMTP_SECURE` unset, every request is refused with 500 and `Missing env vars: SMTP_SECURE`, and nothing is sent |
| ContactRoute.ThrowingBodyNotAccepted | src/app/api/contact/route.ts:44-61 | a body on which the log statement throws is never one the schema accepts |
| ContactRoute.NonStringMessageRefusedAsFormat | src/app/api/contact/route.ts:44-57 | a number, boolean, object or array as `message` gives `Invalid request format` with no issues; a `null` message reaches the schema and gives `Invalid form data` |
| ContactRoute.OnlySecureMissing | src/app/api/contact/route.ts:19-33 | with only `SMTP_SECURE` unset, exactly that setting is reported missing |
| ContactRoute.OnlyOneMissing | src/app/api/contact/route.ts:19-33 | in a key list where only one key lacks a value, the report is exactly that key |
| ContactRoute.SentFormIsSubmitted | src/app/api/contact/route.ts:60-72 | the form handed to the mailer is the submitted form, field for field |
| DebugBlobsRoute.ExtractIdRoundTrip | src/app/api/debug/blobs/route.ts:21-30 | for an ID that does not contain `.json`, its record path passes the filter, and removing the prefix and the first `.json` gives the ID back |
| DebugBlobsRoute.NoSuffixInside | src/app/api/debug/blobs/route.ts:28-30 | in `<id>.json`, no `.json` starts inside an ID that does not contain one |
| DebugBlobsRoute.NoSuffixStraddling | src/app/api/debug/blobs/route.ts:28-30 | in `<id>.json`, no `.json` straddles the end of the ID and the suffix |
| DebugBlobsRoute.NoEarlierSuffix | src/app/api/debug/blobs/route.ts:28-30 | in `<id>.json`, no `.json` starts before the suffix when the ID contains none |
| DebugBlobsRoute.SuffixOnlyAtEnd | src/app/api/debug/blobs/route.ts:28-30 | `indexOf('.json')` of `<id>.json` is the length of the ID |
| DebugBlobsRoute.SuffixOccurs | src/app/api/debug/blobs/route.ts:28-30 | `.json` occurs right after the ID |
| DebugBlobsRoute.IndexHasNoSuffix | src/app/api/debug/blobs/route.ts:28-30 | the name `index` contains no `.json` |
| DebugBlobsRoute.IndexBlobIsListed | src/app/api/debug/blobs/route.ts:21-30 | the debug filter keeps `shipments/index.json` and reports `index` as a tracking ID |
| DebugBlobsRoute.IndexBlobIsNoRecord | src/lib/vercel-blob.ts:90-93 | `getAllShipments` filters out `shipments/index.json` |
| DebugBlobsRoute.ShipmentBlobs | src/app/api/debug/blobs/route.ts:21-23 | a blob is kept iff it is listed, its path starts with `shipments/` and ends in `.json`; no more blobs are kept than listed |
| DebugBlobsRoute.ShipmentBlobsConcat | src/app/api/debug/blobs/route.ts:21-23 | filtering distributes over joined listings |
| DebugBlobsRoute.Get | src/app/api/debug/blobs/route.ts:8-51 | a listing failure gives 500 with its message; otherwise 200 with the count of all blobs, the count of kept ones (no larger), one extracted ID per kept blob in order, and the full listing |
| BrowserStorage.Prop | src/components/shipment/SavedShipmentsSection.tsx:41-45 | a missing property reads as `undefined`, a present one as its value |
| BrowserStorage.LocalStorage.constructor | src/components/shipment/SavedShipmentsSection.tsx:26 | storage holds the given items |
| BrowserStorage.LocalStorage.SetItem | src/components/shipment/SavedShipmentsSection.tsx:57 | `setItem` succeeds iff the quota allows it; success stores the list under the key and nothing else changes; failure changes nothing |
| BrowserStorage.ReadList | src/components/shipment/SavedShipmentsSection.tsx:24-38 | a missing key or the empty text gives no list (the truthiness guard skips the parse), and only those do; unparsable JSON gives an error; otherwise the stored list |
| BrowserStorage.ReadOtherKey | src/components/sections/NewShipmentSection.tsx:73-77 | writing one key leaves the read of every other key unchanged |
| SavedShipmentsSection.Without | src/components/shipment/SavedShipmentsSection.tsx:54-56 | the filtered list holds exactly the entries of the old one whose `id` differs, and is no longer |
| SavedShipmentsSection.WithoutConcat | src/components/shipment/SavedShipmentsSection.tsx:54-56 | filtering distributes over joined lists |
| SavedShipmentsSection.WithoutAbsent | src/components/shipment/SavedShipmentsSection.tsx:54-56 | deleting an ID no entry has leaves the list unchanged |
| SavedShipmentsSection.WithoutEntry | src/components/shipment/SavedShipmentsSection.tsx:54-56 | deleting an entry's ID removes that entry and keeps the others around it in order |
| SavedShipmentsSection.UseShipment | src/components/shipment/SavedShipmentsSection.tsx:40-50 | the object handed on holds the entry's mineral type, quantity and destination, `undefined` when absent |
| SavedShipmentsSection.SavedAtOrZero | src/components/shipment/SavedShipmentsSection.tsx:98-99 | an entry without `savedAt` sorts as 0 |
| SavedShipmentsSection.View.constructor | src/components/shipment/SavedShipmentsSection.tsx:21 | the list starts empty |
| SavedShipmentsSection.View.Load | src/components/shipment/SavedShipmentsSection.tsx:24-38 | the list is replaced iff storage holds a readable list under the key; otherwise it stays as it was |
| SavedShipmentsSection.View.DeleteShipment | src/components/shipment/SavedShipmentsSection.tsx:52-71 | when the write succeeds, the list is the old one without the ID and storage holds that list; when it fails nothing changes |
| SavedShipmentsSection.View.SortForDisplay | src/components/shipment/SavedShipmentsSection.tsx:98-99 | the list becomes sorted newest first by `savedAt`, is a permutation of the old one, and entries with equal `savedAt` keep their order |
| SavedShipmentsSection.WithoutKeepsOrder | src/components/shipment/SavedShipmentsSection.tsx:54-56 | deleting keeps a sorted list sorted |
| NewShipmentSection.AdvisorInput | src/components/sections/NewShipmentSection.tsx:33-36 | the advisor input sets the origin to `Sierra Leone` and keeps every other field |
| NewShipmentSection.NewEntry | src/components/sections/NewShipmentSection.tsx:64-71 | the saved entry has origin, advice, `savedAt` and status set; its `id` is the details' own id if they have one, the new UUID otherwise; other keys come from the details |
| NewShipmentSection.UseAfterSave | src/components/sections/NewShipmentSection.tsx:64-71 | an entry saved from some details is used exactly as those details would be |
| NewShipmentSection.SavedEntriesNotListed | src/components/sections/NewShipmentSection.tsx:13 | saving under this section's key never changes what the saved-shipments list reads |
| NewShipmentSection.Section.constructor | src/components/sections/NewShipmentSection.tsx:21-24 | not loading, with no advice, error or details |
| NewShipmentSection.Section.BeginSubmit | src/components/sections/NewShipmentSection.tsx:27-36 | loading starts, error and advice are cleared, the details are remembered and the advisor gets them with the origin set |
| NewShipmentSection.Section.FinishSubmit | src/components/sections/NewShipmentSection.tsx:38-51 | advice on success, the fixed error on failure; loading ends |
| NewShipmentSection.Section.Submit | src/components/sections/NewShipmentSection.tsx:27-52 | after submission one of advice and error is set and the other is cleared |
| NewShipmentSection.Section.Save | src/components/sections/NewShipmentSection.tsx:54-92 | nothing is saved without details or with empty advice; otherwise the entry is saved iff the stored text can be read and the quota allows it, and is then appended to the stored list under the key, or stored as a one-entry list when nothing or the empty text was stored |
| NewShipmentSection.SaveThenRefresh | src/components/sections/NewShipmentSection.tsx:73-83 | refreshing the saved list after a save shows what the list's own key held before, never the new entry |
| ParcelDetailsForm.ParcelSchemaMeaning | src/components/general/ParcelDetailsForm.tsx:37-53 | the form schema accepts iff the names have at least 2 characters, the phones at least 10, parcel type, weight and value at least 1, the destination at least 2, the e-mails are valid and `notes` is absent or a string |
| ParcelDetailsForm.ParcelSchemaSatisfied | src/components/general/ParcelDetailsForm.tsx:37-53 | every rule of the form schema holds iff the field-by-field reading holds |
| ParcelDetailsForm.ParsedValues | src/components/general/ParcelDetailsForm.tsx:37-53 | the values of an accepted form are its own strings, and they are valid parcel values |
| ParcelDetailsForm.Payload | src/components/general/ParcelDetailsForm.tsx:85-98 | the payload carries the fixed origin, and carries `notes` exactly when the form has them |
| ParcelDetailsForm.PayloadSender | src/components/general/ParcelDetailsForm.tsx:85-98 | the payload carries the sender name, e-mail and phone as entered |
| ParcelDetailsForm.PayloadReceiver | src/components/general/ParcelDetailsForm.tsx:85-98 | the payload carries the receiver name, e-mail and phone as entered |
| ParcelDetailsForm.PayloadParcel | src/components/general/ParcelDetailsForm.tsx:85-98 | the payload carries parcel type, weight, value and destination as entered, and the notes when given |
| ParcelDetailsForm.PayloadPassesServer | src/components/general/ParcelDetailsForm.tsx:85-98 | every payload of a valid form passes the server's create schema |
| ParcelDetailsForm.PayloadReachesRecord | src/app/api/shipping/route.ts:41-45 | the record the server creates from the payload holds the form's values, the fixed origin and status `pending` |
| ParcelDetailsForm.AcceptedFormIsStored | src/components/general/ParcelDetailsForm.tsx:81-98 | a form the client accepts yields a payload the server accepts, and the record built from it has the submitted sender name and the fixed origin |
| ParcelDetailsForm.IntText | src/components/general/ParcelDetailsForm.tsx:113 | a non-negative status code renders as its decimal digits |
| ParcelDetailsForm.FailureText | src/components/general/ParcelDetailsForm.tsx:111-124 | a non-empty error text is shown as it is, and the text shown is never empty |
| ParcelDetailsForm.Outcome | src/components/general/ParcelDetailsForm.tsx:81-155 | the form redirects, to the fixed URL, iff the reply is ok and reports success; a thrown error shows its message; a non-ok reply with a success body shows its `message` or the status line |
| ParcelDetailsForm.RejectionShowsStatusLine | src/components/general/ParcelDetailsForm.tsx:111-118 | every route failure body shows the status line, since it has no `message` |
| ParcelDetailsForm.BadRequestText | src/components/general/ParcelDetailsForm.tsx:111-118 | a 400 shows `Error 400: ` followed by the status text |
| ParcelDetailsForm.DialogId | src/components/general/ParcelDetailsForm.tsx:126-131 | the dialog shows the returned tracking ID exactly when there is one |
| ParcelDetailsForm.RedirectLosesTrackingId | src/components/general/ParcelDetailsForm.tsx:143 | the redirect URL never carries a real tracking ID |
| ParcelDetailsForm.Form.constructor | src/components/general/ParcelDetailsForm.tsx:60-78 | the form starts with the default values, not loading, no dialog |
| ParcelDetailsForm.Form.OnSubmit | src/components/general/ParcelDetailsForm.tsx:81-155 | the payload and outcome are the specified ones and loading ends; an error keeps the values and the dialog; a redirect resets the values to the defaults and opens the dialog iff the reply carries a tracking ID |
| ShipmentForm.ShipmentFormSchemaMeaning | src/components/shipment/ShipmentForm.tsx:28-41 | the form schema accepts iff its field rules all hold, stated field by field |
| ShipmentForm.ShipmentFormSchemaSatisfied | src/components/shipment/ShipmentForm.tsx:28-41 | every rule of `formSchema` holds iff the field-by-field reading holds |
| ShipmentForm.NoPhoneKey | src/components/shipment/ShipmentForm.tsx:28-41 | the schema has no phone field |
| ShipmentForm.FormOutputLacksPhones | src/components/shipment/ShipmentForm.tsx:28-41 | the form has no phone fields, so its values, were they posted to `/api/shipping`, would be refused by the create schema (the form itself hands them to the compliance advisor) |
| ShipmentForm.DefaultValues | src/components/shipment/ShipmentForm.tsx:56-67 | each field takes the initial value when it is non-empty, and its fallback otherwise |
| ShipmentForm.DefaultsIdempotent | src/components/shipment/ShipmentForm.tsx:56-67 | filling the defaults twice equals filling them once |
| ShipmentForm.OriginDefaultPasses | src/components/shipment/ShipmentForm.tsx:64 | without an initial origin the default `Sierra Leone` satisfies the origin rule |
| TrackingCard.StatusTable | src/components/shipment/ShipmentTrackingCard.tsx:31-56 | the tables have an entry iff the status is one of the six they list |
| TrackingCard.Badge | src/components/shipment/ShipmentTrackingCard.tsx:62-73 | a known status shows its entry, any other the `Unknown` fallbacks, and `Unknown` exactly for unknown statuses |
| TrackingCard.StoreStatusesShowUnknown | src/components/shipment/ShipmentTrackingCard.tsx:62-73 | `cancelled` and `shipped` show as `Unknown` |
| TrackingCard.Place | src/components/shipment/ShipmentTrackingCard.tsx:116-120 | an empty place shows as `N/A`, any other as itself |
| TrackingCard.History | src/components/shipment/ShipmentTrackingCard.tsx:148-173 | no history gives no rows; otherwise one row per entry, in order |
| TrackingCard.HistoryRows | src/components/shipment/ShipmentTrackingCard.tsx:148-173 | a row has the status colour iff it is the first or the colour is `bg-muted`; it has a label iff its status is known; notes are shown only when non-empty |
| TrackingCard.OnlyFirstDotColoured | src/components/shipment/ShipmentTrackingCard.tsx:151-156 | only the first row's dot has the status colour |
| TrackingSection.MessageOf | src/components/sections/ShipmentTrackingSection.tsx:39-41 | only failure bodies carry a `message` |
| TrackingSection.TrackResult | src/components/sections/ShipmentTrackingSection.tsx:34-56 | the shipment is shown iff the reply is ok and contains one; a thrown error shows its message; a non-ok reply shows its message or the fallback; an ok reply without a shipment shows `Shipment not found` |
| TrackingSection.NotFoundShowsRouteMessage | src/app/api/track/route.ts:26-36 | an unknown ID shows the route's not-found message |
| TrackingSection.RouteOutcomesShown | src/app/api/track/route.ts:40-55 | a route 500 shows the fallback; a 200 shows the record |
| TrackingSection.TrimmedIdAccepted | src/components/sections/ShipmentTrackingSection.tsx:20-36 | an ID that is non-empty after trimming is never refused as missing |
| TrackingSection.Section.constructor | src/components/sections/ShipmentTrackingSection.tsx:12-15 | empty ID, not loading, nothing shown |
| TrackingSection.Section.BeginTrack | src/components/sections/ShipmentTrackingSection.tsx:20-36 | a request is made iff the ID is not all whitespace; it then asks for the trimmed ID, starts loading and clears the shipment and the error |
| TrackingSection.Section.FinishTrack | src/components/sections/ShipmentTrackingSection.tsx:37-59 | sets the shipment or the error from the reply; loading ends |
| TrackingSection.Section.HandleTrackingSubmit | src/components/sections/ShipmentTrackingSection.tsx:19-60 | after a request exactly one of the shipment and the error is set |
| AdminPage.UpdateRequest | src/app/admin/shipments/page.tsx:36-46 | the request body holds the tracking ID, the status and the notes |
| AdminPage.RequestAccepted | src/app/admin/shipments/page.tsx:36-46 | the route accepts the request iff the ID is non-empty and the status is in its enum |
| AdminPage.OfferedStatusesAccepted | src/app/admin/shipments/page.tsx:99-106 | of the six offered statuses the route accepts exactly `pending`, `processing` and `delivered` |
| AdminPage.ReplyNotice | src/app/admin/shipments/page.tsx:48-70 | a success notice iff the reply is ok; a thrown error shows its message; a non-ok reply with a success body shows its `message` or the fallback |
| AdminPage.RefusalShowsFallback | src/app/admin/shipments/page.tsx:50-52 | every route refusal shows the fallback text |
| AdminPage.Page.constructor | src/app/admin/shipments/page.tsx:18-21 | empty fields, not loading |
| AdminPage.Page.HandleUpdateStatus | src/app/admin/shipments/page.tsx:23-74 | without an ID or a status no request is sent and nothing changes; otherwise the three fields are sent, success clears them, an error keeps them; loading ends |
| Carousel.JsRem | src/components/ui/carousel.tsx:32 | `a % n` is `NaN` iff `n` is 0, and the ordinary remainder for a non-negative `a` and positive `n` |
| Carousel.StepsStayInRange | src/components/ui/carousel.tsx:38-46 | next and previous keep an index in range; next wraps from the last slide to 0, previous from 0 to the last |
| Carousel.NextPrevInverse | src/components/ui/carousel.tsx:38-46 | previous undoes next, and next undoes previous |
| Carousel.AdvanceWraps | src/components/ui/carousel.tsx:28-36 | up to `n` autoplay ticks from `i` land on `i + k`, wrapped once past the end |
| Carousel.FullCycle | src/components/ui/carousel.tsx:28-36 | `n` ticks return to the start |
| Carousel.EmptyCarousel | src/components/ui/carousel.tsx:32-42 | with no images, next gives `NaN` and stays there; previous from 0 gives -1 |
| Carousel.Slides.constructor | src/components/ui/carousel.tsx:26 | the index starts at 0 |
| Carousel.Slides.GoToNext | src/components/ui/carousel.tsx:44-46 | the index takes one step forward |
| Carousel.Slides.GoToPrevious | src/components/ui/carousel.tsx:38-42 | the index takes one step back |
| Carousel.Slides.GoToSlide | src/components/ui/carousel.tsx:48-50 | the index becomes the chosen one |
| Carousel.Slides.Tick | src/components/ui/carousel.tsx:28-36 | with autoplay on, one step forward; with it off, no change |
| Carousel.TickAround | src/components/ui/carousel.tsx:28-36 | with autoplay on, `n` ticks over `n` images bring the index back to where it was |
| WhatsApp.CleanPhoneNumber | src/components/ui/whatsapp-button.tsx:26-28 | a number starting with `+` loses exactly that `+`; any other number is kept as it is |
| WhatsApp.CleanUndoesOnePlus | src/components/ui/whatsapp-button.tsx:26-28 | cleaning `+n` gives `n`, so a doubled `++` keeps one `+` |
| WhatsApp.DefaultNumberCleans | src/components/ui/whatsapp-button.tsx:20-28 | the default number cleans to `447903440895` |
| WhatsApp.WhatsAppUrl | src/components/ui/whatsapp-button.tsx:32-34 | the link starts with `https://wa.me/` (number and message are read back by `WhatsApp.NumberRoundTrip` and `WhatsApp.MessageRoundTrip`) |
| WhatsApp.NumberRoundTrip | src/components/ui/whatsapp-button.tsx:32-34 | when the cleaned number contains no `?`, reading the number back from the link gives the cleaned number |
| WhatsApp.MessageRoundTrip | src/components/ui/whatsapp-button.tsx:32-34 | with such a number, what follows `?text=` in the link is exactly the encoded message |

## Left out

- Rendering, JSX markup, CSS classes other than the status colours, toasts as UI, icons as images, navigation and the Next.js router have no model. Only the state and the texts they depend on are kept.
- Time: JSON and the ISO timestamp strings are not modelled. Records and `localStorage` entries are parsed values, and times are integers in milliseconds, compared as `new Date(...).getTime()` compares them.
- BrowserStorage.Stored: stored text that parses to something other than a list (`null`, a number, an object) is not modelled. The new-shipment section would then throw at `push` and report a failed save; the saved-shipments list would take that value as its state.
- Strings are sequences of characters. Listing order is code-point order. UTF-16 surrogate pairs and locale rules are not modelled. `toUpperCase` is modelled for ASCII letters only, which covers the base-36 alphabet it is applied to.
- `validator.isEmail`, `encodeURIComponent`, `Math.random`, `Date.now`, `new Date()`, `crypto.randomUUID`, `fetch`, `sendShipmentNotification`, `sendContactEmail` and the compliance advisor are parameters of the members that call them. Their internals are not modelled.
- `src/lib/email.ts`, `src/lib/db.ts` and `src/lib/vercel-db.ts` are not part of this model.
- KvStore.Store.CreateShipment: does not model a KV failure between the record write and the index write, so the model never has a record without its index entry. Failures of the KV client are not modelled.
- BlobStore.Store.GetShipmentByTrackingId: the three failure points (listing, fetch, JSON parse) are folded into one failure parameter. All three lead to null.
- The blob store's network object (URLs, `access: 'public'`, the `addRandomSuffix` option) is reduced to the blob map by path.
- Concurrency is not modelled: interleaved requests, React's asynchronous state updates and renders between `setIsLoading(true)` and `finally` are not modelled. Each handler is one atomic step with the reply as a parameter.
- SavedShipmentsSection.SavedAtOrZero: treats any non-numeric `savedAt` as 0. JavaScript would coerce a numeric string; the section itself only writes numbers.
- ParcelDetailsForm.FailureText: an `error` that is a zod issue list (a 400 from the create schema) is shown as the fallback text. The browser would show the list's string form.
- TrackingCard.StatusTable: JavaScript object look-ups of inherited keys such as `constructor` are not modelled. Every status other than the six listed falls back.
- TrackRoute.Track: the `trackingId` query parameter is taken already decoded. Percent-decoding is not modelled.
- SavedShipmentsSection.View.SortForDisplay: the in-place `sort` is modelled as reassigning the list state to its sorted copy.
- ContactRoute.Post: on a mailer failure the source's `debug` member is the object `{ name, message, stack }` of the thrown error. The model keeps only its message.
- BlobStore.Listing: `list()` returns one page of blobs per call, and neither `vercel-blob.ts` nor the debug route follows its cursor. The model lists every stored pathname under the prefix, as a single page would for a store within the page limit.
- A JSON value that is not an object is one case. Arrays, numbers, strings and booleans are not told apart, because every route answers them alike.
- The mock-data variant of the tracking section and the purely presentational components (header, footer, hero, about and service sections) have no behaviour to model.
