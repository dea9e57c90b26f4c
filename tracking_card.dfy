/** The tracking card (`src/components/shipment/ShipmentTrackingCard.tsx`): the status badge
    looked up in three tables with fallbacks, the route with `N/A` for empty places, and the
    status history. */
module TrackingCard {
  import opened Common

  /** The icons the card uses. */
  datatype Icon = Clock | Truck | Package | CheckCircle | AlertTriangle

  /** One row of the three status tables. */
  datatype StatusStyle = StatusStyle(icon: Icon, color: string, caption: string)

  /** `statusIcons`, `statusColors` and `statusDisplay`: the six statuses they know. */
  function StatusTable(status: string): (r: Option<StatusStyle>)
    ensures r.Some? <==> status in KnownStatuses
  {
    match status
    case "pending" => Some(StatusStyle(Clock, "bg-yellow-500", "Pending"))
    case "processing" => Some(StatusStyle(Clock, "bg-blue-500", "Processing"))
    case "in_transit" => Some(StatusStyle(Truck, "bg-primary", "In Transit"))
    case "out_for_delivery" => Some(StatusStyle(Package, "bg-yellow-500", "Out for Delivery"))
    case "delivered" => Some(StatusStyle(CheckCircle, "bg-green-600", "Delivered"))
    case "on_hold" => Some(StatusStyle(AlertTriangle, "bg-red-500", "On Hold"))
    case _ => None
  }

  const KnownStatuses: set<string> :=
    {"pending", "processing", "in_transit", "out_for_delivery", "delivered", "on_hold"}

  const UnknownStyle := StatusStyle(Package, "bg-gray-500", "Unknown")

  /** The badge: each table's entry, or `Package`, `bg-gray-500` and `Unknown`. */
  function Badge(status: string): (b: StatusStyle)
    ensures status in KnownStatuses ==> b == StatusTable(status).value
    ensures status !in KnownStatuses ==> b == UnknownStyle
    ensures b.caption == "Unknown" <==> status !in KnownStatuses
  {
    StatusTable(status).GetOr(UnknownStyle)
  }

  /** The statuses the stores and the routes write but the card does not know. */
  lemma StoreStatusesShowUnknown()
    ensures Badge("cancelled") == UnknownStyle && Badge("shipped") == UnknownStyle
  {
  }

  /** `shipment.origin || "N/A"`, and the same for the destination. */
  function Place(s: string): (shown: string)
    ensures shown == "N/A" <==> s == "" || s == "N/A"
    ensures s != "" ==> shown == s
  {
    OrElse(Some(s), "N/A")
  }

  /** One entry of `statusHistory`. */
  datatype HistoryEntry = HistoryEntry(status: string, timestamp: int, notes: Option<string>)

  /** One rendered history row: the dot's colour, the label (none for an unknown status,
      since this lookup has no fallback) and the notes shown, if any. */
  datatype HistoryRow = HistoryRow(dot: string, caption: Option<string>, notes: Option<string>)

  function HistoryRowOf(e: HistoryEntry, index: nat, statusColor: string): HistoryRow {
    HistoryRow(if index == 0 then statusColor else "bg-muted",
               if e.status in KnownStatuses then Some(StatusTable(e.status).value.caption) else None,
               if e.notes.Some? && e.notes.value != "" then e.notes else None)
  }

  /** `statusHistory?.map(...)`: nothing when there is no history. */
  function History(history: Option<seq<HistoryEntry>>, status: string): (rows: seq<HistoryRow>)
    ensures history.None? ==> rows == []
    ensures history.Some? ==> |rows| == |history.value|
    ensures forall i :: 0 <= i < |rows| ==> rows[i] == HistoryRowOf(history.value[i], i, Badge(status).color)
  {
    match history
    case None => []
    case Some(h) => seq(|h|, i requires 0 <= i < |h| => HistoryRowOf(h[i], i, Badge(status).color))
  }

  /** Only the first history row carries the status colour; an entry with an unknown status
      gets no label; empty notes are not shown. */
  lemma HistoryRows(history: seq<HistoryEntry>, status: string, i: nat)
    requires i < |history|
    ensures var row := History(Some(history), status)[i];
      (row.dot == Badge(status).color <==> i == 0 || Badge(status).color == "bg-muted")
      && (row.caption.None? <==> history[i].status !in KnownStatuses)
      && (row.caption.Some? ==> row.caption == Some(Badge(history[i].status).caption))
      && (row.notes.Some? ==> row.notes == history[i].notes && history[i].notes.value != "")
  {
  }

  /** No table colour is `bg-muted`, so with a known or unknown status alike only the first
      row's dot is coloured. */
  lemma OnlyFirstDotColoured(history: seq<HistoryEntry>, status: string, i: nat)
    requires i < |history|
    ensures History(Some(history), status)[i].dot == Badge(status).color <==> i == 0
  {
    HistoryRows(history, status, i);
  }
}
