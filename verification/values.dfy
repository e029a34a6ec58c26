/** JavaScript values as the Redux pipeline sees them: action payloads, API
    responses, errors and store fields. Only the parts of JavaScript's value
    semantics that the modelled code relies on are spelled out: truthiness,
    property access on records, and the `length` property. */
module Values {

  datatype Option<+T> = None | Some(value: T)

  /** A JavaScript value. Numbers are integers only (no floating point), a
      `Record` is a plain object with its own keys, and `Thrown` is an
      `Error` instance: one the engine raises (the `TypeError` of reading a
      property of `null`) or one a library rejects with. Every property read
      on a `Thrown` gives undefined, where JavaScript would find the `name`
      and `message` an `Error` inherits. The only such read in the modelled
      code is a category's `name` in the Restaurants categories column, and
      categories come from parsed JSON, which never holds an `Error`. */
  datatype Value =
    | Undefined
    | Null
    | Bool(b: bool)
    | Number(n: int)
    | Text(s: string)
    | List(elems: seq<Value>)
    | Record(fields: map<string, Value>)
    | Thrown(name: string)

  /** `v == null` in JavaScript: loose equality with null holds exactly for
      null and undefined. */
  predicate IsNullish(v: Value) {
    v.Undefined? || v.Null?
  }

  /** JavaScript truthiness: the falsy values are undefined, null, false, 0
      and the empty string; every array and object is truthy. */
  predicate Truthy(v: Value) {
    match v
    case Undefined => false
    case Null => false
    case Bool(b) => b
    case Number(n) => n != 0
    case Text(s) => s != ""
    case List(_) => true
    case Record(_) => true
    case Thrown(_) => true
  }

  /** Property read `v.key` on a value that is not null or undefined: a
      missing property reads as undefined. */
  function Field(v: Value, key: string): (r: Value)
    ensures v.Record? && key in v.fields ==> r == v.fields[key]
    ensures !(v.Record? && key in v.fields) ==> r == Undefined
  {
    match v
    case Record(fields) => if key in fields then fields[key] else Undefined
    case _ => Undefined
  }

  /** The `length` property of arrays and strings; None for every other
      value. An object with its own `length` key is deliberately None too.
      The list screens' guards read `data.length` right before `data.map`,
      which throws on such an object, so the model's guard rejects it
      instead. The `addItems` loop would index such an object from 0; the
      model makes no call for it. */
  function Length(v: Value): (r: Option<nat>)
    ensures r.Some? <==> v.List? || v.Text?
    ensures v.List? ==> r == Some(|v.elems|)
    ensures v.Text? ==> r == Some(|v.s|)
  {
    match v
    case List(xs) => Some(|xs|)
    case Text(s) => Some(|s|)
    case _ => None
  }

  /** An object literal with a single key, `{ key: v }`. */
  function Single(key: string, v: Value): (r: Value)
    ensures r.Record? && r.fields.Keys == {key}
    ensures Field(r, key) == v
  {
    Record(map[key := v])
  }

  // ---------------------------------------------------------------------
  // redux-actions payloads

  /** The payload `createActions` builds with a one-argument payload creator
      `x => ({ key: x })`. The library checks the first argument first: an
      `Error` instance bypasses the payload creator and becomes the payload
      itself (and the action is flagged `error: true`). */
  function PayloadOf(arg: Value, key: string): (p: Value)
    ensures arg.Thrown? ==> p == arg
    ensures !arg.Thrown? ==> p == Single(key, arg)
  {
    if arg.Thrown? then arg else Single(key, arg)
  }

  /** What a reducer's destructuring `{ payload: { key } }` finds in such an
      action: the argument itself, except that an `Error` argument, being the
      payload, has no `key` property and yields undefined. */
  function Carried(arg: Value, key: string): (r: Value)
    ensures !arg.Thrown? ==> r == arg
    ensures arg.Thrown? ==> r == Undefined
  {
    Field(PayloadOf(arg, key), key)
  }
}
