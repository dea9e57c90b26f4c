/** The browser side of the saved-shipment feature: JavaScript objects as they are spread,
    read and written to `localStorage` by the shipment sections. */
module BrowserStorage {
  import opened Common

  /** A property value of a saved shipment: a string or a number. A key that is not present
      reads as `undefined`. */
  datatype JsValue = JStr(s: string) | JNum(n: int) | Undefined

  /** A plain object: its own enumerable properties. `a + b` on two such maps is the spread
      `{ ...a, ...b }`: a key of `b` overrides the same key of `a`. */
  type JsObject = map<string, JsValue>

  /** `o[key]`, `undefined` when the key is not present. */
  function Prop(o: JsObject, key: string): (v: JsValue)
    ensures key !in o ==> v == Undefined
    ensures key in o ==> v == o[key]
  {
    if key in o then o[key] else Undefined
  }

  /** What `localStorage` holds under one key: the JSON text of a list of objects, the empty
      text (falsy, so both sections treat it as nothing stored), or text that `JSON.parse`
      rejects. */
  datatype Stored = ShipmentList(list: seq<JsObject>) | EmptyText | Unparsable

  /** `window.localStorage`: keys to stored text. */
  class LocalStorage {
    var items: map<string, Stored>

    constructor (items: map<string, Stored>)
      ensures this.items == items
    {
      this.items := items;
    }

    /** `localStorage.setItem(key, JSON.stringify(list))`; a full storage quota makes it throw
        and store nothing. */
    method SetItem(key: string, list: seq<JsObject>, quotaExceeded: bool) returns (ok: bool)
      modifies this
      ensures ok <==> !quotaExceeded
      ensures ok ==> items == old(items)[key := ShipmentList(list)]
      ensures !ok ==> items == old(items)
    {
      if quotaExceeded {
        return false;
      }
      items := items[key := ShipmentList(list)];
      return true;
    }
  }

  /** The list a section reads back with `raw ? JSON.parse(raw) : ...` over
      `raw = localStorage.getItem(key)`: `None` when nothing or the empty text is stored
      (the guard skips the parse), `Failure` when the text does not parse. */
  function ReadList(items: map<string, Stored>, key: string): (r: Result<Option<seq<JsObject>>, string>)
    ensures key !in items ==> r == Success(None)
    ensures key in items && items[key].EmptyText? ==> r == Success(None)
    ensures r.Success? && r.value.None? ==> key !in items || items[key].EmptyText?
    ensures r.Failure? <==> key in items && items[key].Unparsable?
    ensures r.Success? && r.value.Some? ==> key in items && items[key] == ShipmentList(r.value.value)
  {
    if key !in items then Success(None)
    else match items[key]
      case ShipmentList(list) => Success(Some(list))
      case EmptyText => Success(None)
      case Unparsable => Failure("Unexpected token in JSON")
  }

  /** Writing one key does not change what any other key reads back. */
  lemma ReadOtherKey(items: map<string, Stored>, written: string, value: Stored, key: string)
    requires written != key
    ensures ReadList(items[written := value], key) == ReadList(items, key)
  {
  }
}
