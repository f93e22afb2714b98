/**
 * The two projections of the stored item list: the public list of SKUs and
 * the level-gated records of the inventory view.
 */
module Views {
  import opened Wrappers
  import opened JsValues
  import opened Access
  import opened Store

  /**
   * A projected record. `minLot` and `updatedAt` are `None` when the record
   * does not have the property at all.
   */
  datatype Record = Record(sku: Value, stockRange: Value, leadTime: Value, minLot: Option<Value>, updatedAt: Option<Value>)

  // ---- public view ----

  /** `items.map(x => x.sku).filter(Boolean)`: the truthy SKUs, in item order. */
  function PublicSkus(items: seq<Item>): (skus: seq<Value>)
    ensures |skus| <= |items|
    ensures forall v :: v in skus ==> Truthy(v) && exists i :: 0 <= i < |items| && items[i].sku == v
    ensures forall i :: 0 <= i < |items| && Truthy(items[i].sku) ==> items[i].sku in skus
  {
    if items == [] then []
    else (if Truthy(items[0].sku) then [items[0].sku] else []) + PublicSkus(items[1..])
  }

  /** The public view keeps the order of the list: it distributes over concatenation. */
  lemma {:induction false} PublicSkusAppend(a: seq<Item>, b: seq<Item>)
    ensures PublicSkus(a + b) == PublicSkus(a) + PublicSkus(b)
  {
    if a == [] {
      assert a + b == b;
    } else {
      assert (a + b)[1..] == a[1..] + b;
      PublicSkusAppend(a[1..], b);
    }
  }

  /** A list of one item contributes its SKU exactly when that SKU is truthy. */
  lemma PublicSkusSingle(x: Item)
    ensures PublicSkus([x]) == if Truthy(x.sku) then [x.sku] else []
  {
  }

  // ---- inventory view ----

  /** The property names each level shows: level 2 adds `minLot`, level 3 adds `updatedAt`. */
  function FieldsAt(level: Level): set<string> {
    {"sku", "stockRange", "leadTime"}
    + (if level >= 2 then {"minLot"} else {})
    + (if level >= 3 then {"updatedAt"} else {})
  }

  /** The property names `JSON.stringify` writes for a record: it drops properties whose value is `undefined`. */
  function SerializedKeys(r: Record): set<string> {
    (if r.sku != Undefined then {"sku"} else {})
    + (if r.stockRange != Undefined then {"stockRange"} else {})
    + (if r.leadTime != Undefined then {"leadTime"} else {})
    + (if r.minLot.Some? && r.minLot.value != Undefined then {"minLot"} else {})
    + (if r.updatedAt.Some? && r.updatedAt.value != Undefined then {"updatedAt"} else {})
  }

  /** The record one item becomes at `level`, with its defaults filled in. */
  function View(x: Item, level: Level): (r: Record)
    // sku: falsy reads as ""
    ensures Truthy(x.sku) ==> r.sku == x.sku
    ensures r.sku == Str("") <==> !Truthy(x.sku)
    // stockRange: falsy reads as "0", so the result is always truthy
    ensures Truthy(x.stockRange) ==> r.stockRange == x.stockRange
    ensures !Truthy(x.stockRange) ==> r.stockRange == Str("0")
    ensures Truthy(r.stockRange)
    // leadTime: falsy reads as ""
    ensures Truthy(x.leadTime) ==> r.leadTime == x.leadTime
    ensures r.leadTime == Str("") <==> !Truthy(x.leadTime)
    // minLot: present from level 2; only null or absent read as null, so a stored 0 stays 0
    ensures r.minLot.Some? <==> level >= 2
    ensures r.minLot.Some? ==> (r.minLot.value == Null <==> Nullish(x.minLot))
    ensures r.minLot.Some? && !Nullish(x.minLot) ==> r.minLot.value == x.minLot
    // updatedAt: present at level 3; every falsy value, "" included, reads as null
    ensures r.updatedAt.Some? <==> level == 3
    ensures r.updatedAt.Some? ==> (r.updatedAt.value == Null <==> !Truthy(x.updatedAt))
    ensures r.updatedAt.Some? && Truthy(x.updatedAt) ==> r.updatedAt.value == x.updatedAt
    // whatever the stored item holds, the written record has exactly the fields of its level
    ensures SerializedKeys(r) == FieldsAt(level)
  {
    Record(
      Or(x.sku, Str("")),
      Or(x.stockRange, Str("0")),
      Or(x.leadTime, Str("")),
      if level >= 2 then Some(Coalesce(x.minLot, Null)) else None,
      if level >= 3 then Some(Or(x.updatedAt, Null)) else None)
  }

  /** Field visibility grows with the level, one field per step. */
  lemma FieldsMonotone(x: Item, l: Level, m: Level)
    requires l <= m
    ensures SerializedKeys(View(x, l)) <= SerializedKeys(View(x, m))
    ensures FieldsAt(1) == {"sku", "stockRange", "leadTime"}
    ensures FieldsAt(2) - FieldsAt(1) == {"minLot"}
    ensures FieldsAt(3) - FieldsAt(2) == {"updatedAt"}
  {
  }

  /** `items.map(x => View(x, level))`: one record per item, in item order. */
  function ProjectAll(items: seq<Item>, level: Level): (records: seq<Record>)
    ensures |records| == |items|
    ensures forall i :: 0 <= i < |items| ==> records[i] == View(items[i], level)
    ensures forall i :: 0 <= i < |records| ==> SerializedKeys(records[i]) == FieldsAt(level)
  {
    if items == [] then []
    else [View(items[0], level)] + ProjectAll(items[1..], level)
  }
}
