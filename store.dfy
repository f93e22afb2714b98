/**
 * Reading the item list out of the key-value store: a missing value and
 * unparsable content both degrade to the empty list.
 */
module Store {
  import opened Wrappers
  import opened JsValues

  /** A stored item, by the five properties the handler reads (`Undefined` where the object lacks one). */
  datatype Item = Item(sku: Value, stockRange: Value, leadTime: Value, minLot: Value, updatedAt: Value)

  /**
   * `JSON.parse`, on the documents this handler can consume: `Some` of the
   * items for an array of items, `None` where parsing throws.
   */
  type Parser = string -> Option<seq<Item>>

  /** The text read when the store has nothing under "items". */
  const EmptyArray := "[]"

  /** What any parser of JSON does with the text "[]". */
  predicate ParsesEmptyArray(parse: Parser) {
    parse(EmptyArray) == Some([])
  }

  /**
   * The items stored under "items": `stored` is what the store's `get`
   * returned (`None` for a missing key or a missing store binding).
   */
  function ReadItems(stored: Option<string>, parse: Parser): (items: seq<Item>)
    requires ParsesEmptyArray(parse)
    // a missing value or content that does not parse reads as the empty list
    ensures stored.None? ==> items == []
    ensures stored == Some("") ==> items == []
    ensures stored.Some? && parse(stored.value).None? ==> items == []
    // items are only ever what the stored text parses to
    ensures items != [] ==> stored.Some? && parse(stored.value) == Some(items)
    // and a non-empty stored text that parses is read as such
    ensures stored.Some? && stored.value != "" && parse(stored.value).Some? ==> items == parse(stored.value).value
  {
    var raw := if stored.Some? && stored.value != "" then stored.value else EmptyArray;
    match parse(raw)
    case Some(xs) => xs
    case None => []
  }
}
