/**
 * The JavaScript values that the handler finds in the properties of a stored
 * inventory item, with the two defaulting operators it applies to them.
 */
module JsValues {

  /**
   * A JSON-compatible value as read from an item property. `Undefined` is
   * what reading a property the object does not have yields.
   */
  datatype Value = Undefined | Null | Bool(b: bool) | Num(n: real) | Str(s: string)

  /** JavaScript truthiness: `undefined`, `null`, `false`, `0` and `""` are falsy. */
  predicate Truthy(v: Value) {
    match v
    case Undefined => false
    case Null => false
    case Bool(b) => b
    case Num(n) => n != 0.0
    case Str(s) => s != ""
  }

  /** The values that `??` replaces: `null` and `undefined`. */
  predicate Nullish(v: Value) {
    v.Undefined? || v.Null?
  }

  /** `a || b`: every falsy left operand counts as missing. */
  function Or(a: Value, b: Value): (r: Value)
    ensures r == a || r == b
    ensures Truthy(a) ==> r == a
    ensures Truthy(r) <==> Truthy(a) || Truthy(b)
  {
    if Truthy(a) then a else b
  }

  /** `a ?? b`: only a nullish left operand counts as missing. */
  function Coalesce(a: Value, b: Value): (r: Value)
    ensures r == a || r == b
    ensures !Nullish(a) ==> r == a
    ensures Nullish(r) <==> Nullish(a) && Nullish(b)
  {
    if Nullish(a) then b else a
  }

  /**
   * The two operators agree on truthy and on nullish left operands; they
   * differ exactly on `false`, `0` and `""`, which `??` keeps and `||` replaces.
   */
  lemma OrVersusCoalesce(a: Value, b: Value)
    ensures Truthy(a) ==> Or(a, b) == a && Coalesce(a, b) == a
    ensures Nullish(a) ==> Or(a, b) == b && Coalesce(a, b) == b
    ensures !Truthy(a) && !Nullish(a) ==> Or(a, b) == b && Coalesce(a, b) == a
  {
  }
}
