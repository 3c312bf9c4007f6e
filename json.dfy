/**
 * JSON values as the verifier sees them after decoding: the JWT header and
 * payload, DID documents and their entries, and JSON Web Keys. Numbers are
 * integers. Two JavaScript behaviours the verifier depends on are modelled:
 * truthiness (`!x`, `x || ''`) and the text a template literal `${x}` makes.
 */
module Json {
  import opened Wrappers

  datatype Json =
    | JNull
    | JBool(b: bool)
    | JNum(n: int)
    | JStr(s: string)
    | JArr(items: seq<Json>)
    | JObj(fields: map<string, Json>)

  /** A JSON object: its members by name. */
  type Object = map<string, Json>

  /** The member `key` of an object, or None when it is absent (`undefined`). */
  function Member(o: Object, key: string): (r: Option<Json>)
    ensures r.Some? <==> key in o
    ensures r.Some? ==> r.value == o[key]
  {
    if key in o then Some(o[key]) else None
  }

  /** JavaScript truthiness of a JSON value. */
  predicate Truthy(v: Json) {
    match v
    case JNull => false
    case JBool(b) => b
    case JNum(n) => n != 0
    case JStr(s) => s != ""
    case JArr(_) => true
    case JObj(_) => true
  }

  /** Truthiness of a possibly absent member: `undefined` is falsy. */
  predicate Present(m: Option<Json>) {
    m.Some? && Truthy(m.value)
  }

  function DigitChar(d: nat): char
    requires d < 10
  {
    "0123456789"[d]
  }

  /** Decimal digits of a natural number, most significant first. */
  function NatText(n: nat): string {
    if n < 10 then [DigitChar(n)] else NatText(n / 10) + [DigitChar(n % 10)]
  }

  function IntText(n: int): string {
    if n < 0 then "-" + NatText(-n) else NatText(n)
  }

  /**
   * `String(v)` completes: it throws a TypeError for an object with its own
   * `toString` member. That member is not callable, so conversion falls back
   * to `valueOf`, which returns the object itself and not a primitive.
   * An array converts through `join`, which converts every element that is not `null`.
   */
  predicate Renderable(v: Json)
    decreases v
  {
    match v
    case JObj(fields) => "toString" !in fields
    case JArr(items) => forall i :: 0 <= i < |items| ==> Renderable(items[i])
    case _ => true
  }

  /**
   * `String(v)`, the text a template literal `${v}` puts in place of v when
   * `Renderable(v)`. Where JavaScript throws, this is the text `Object.prototype.toString` would give.
   */
  function Render(v: Json): string
    decreases v, 1
  {
    match v
    case JNull => "null"
    case JBool(b) => if b then "true" else "false"
    case JNum(n) => IntText(n)
    case JStr(s) => s
    case JArr(items) => RenderItems(v, items)
    case JObj(_) => "[object Object]"
  }

  /** `Array.prototype.join` with ",": a `null` element becomes the empty text. */
  function RenderItems(ghost whole: Json, items: seq<Json>): string
    requires forall x :: x in items ==> x < whole
    decreases whole, 0, |items|
  {
    if items == [] then ""
    else
      assert items[0] in items;
      assert forall x :: x in items[1..] ==> x in items;
      var first := if items[0] == JNull then "" else Render(items[0]);
      if |items| == 1 then first else first + "," + RenderItems(whole, items[1..])
  }

  /**
   * A value `String` throws on has an object at its root or among its array
   * elements. Whatever the model renders for it contains "[object Object]",
   * so it is at least 15 characters long.
   */
  lemma {:induction false} UnrenderableIsLong(v: Json)
    requires !Renderable(v)
    ensures |Render(v)| >= |"[object Object]"|
    decreases v, 1
  {
    match v
    case JObj(_) =>
    case JArr(items) =>
      assert forall x :: x in items ==> x < v;
      UnrenderableItemsAreLong(v, items);
  }

  lemma {:induction false} UnrenderableItemsAreLong(whole: Json, items: seq<Json>)
    requires forall x :: x in items ==> x < whole
    requires exists i :: 0 <= i < |items| && !Renderable(items[i])
    ensures |RenderItems(whole, items)| >= |"[object Object]"|
    decreases whole, 0, |items|
  {
    assert items[0] in items;
    assert forall x :: x in items[1..] ==> x in items;
    if !Renderable(items[0]) {
      UnrenderableIsLong(items[0]);
    } else {
      var i :| 0 <= i < |items| && !Renderable(items[i]);
      assert items[1..][i - 1] == items[i];
      UnrenderableItemsAreLong(whole, items[1..]);
    }
  }
}
