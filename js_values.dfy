/**
 * The JavaScript values the client hands to JSON.stringify and gets back
 * from JSON.parse, the errors the core throws, and the two foreign
 * serialisation calls it depends on.
 */
module JsValues {

  datatype Option<+T> = None | Some(value: T)

  /** One element of a Uint8Array. */
  newtype byte = x: int | 0 <= x < 256

  /** A JavaScript value as far as the wire protocol can see it. */
  datatype JsVal =
    | Undefined
    | Null
    | Bool(b: bool)
    | Num(n: int)
    | Str(s: string)
    | Arr(items: seq<JsVal>)
    | Obj(fields: map<string, JsVal>)

  /**
   * What the core throws: the two classes of errors.ts, plus the two
   * built-in JavaScript errors its code paths can raise.
   */
  datatype Error =
    | IPCSocketError(message: JsVal)
    | UnimplementedError(message: JsVal)
    | TypeError    // a property read on `undefined` or `null`
    | SyntaxError  // JSON.parse refused the frame body

  datatype Result<+T> = Ok(value: T) | Err(error: Error)

  /** The settled state of a `Promise<void>`. */
  datatype Outcome = Pass | Fail(error: Error)

  /**
   * The serialisation calls the core makes and cannot see into:
   * `new TextEncoder().encode(JSON.stringify(v))` and
   * `JSON.parse(new TextDecoder().decode(b))` (None when it throws).
   */
  datatype Json = Json(stringify: JsVal -> seq<byte>, parse: seq<byte> -> Option<JsVal>)

  function OptStr(o: Option<string>): JsVal
  {
    match o
    case None => Undefined
    case Some(s) => Str(s)
  }

  function OptNum(o: Option<int>): JsVal
  {
    match o
    case None => Undefined
    case Some(n) => Num(n)
  }

  function OptBool(o: Option<bool>): JsVal
  {
    match o
    case None => Undefined
    case Some(b) => Bool(b)
  }

  /**
   * One property of an object as JSON.stringify writes it: a property
   * whose value is `undefined` is left out.
   */
  function Prop(key: string, v: JsVal): map<string, JsVal>
  {
    if v.Undefined? then map[] else map[key := v]
  }

  /**
   * The property read `v.key`. Reading a property of `undefined` or `null`
   * throws a TypeError; an object yields its own property or `undefined`;
   * the keys the core reads (`message`, `evt`, `data`) are `undefined` on
   * every other value.
   */
  function Get(v: JsVal, key: string): (r: Result<JsVal>)
    ensures r.Err? <==> v.Undefined? || v.Null?
  {
    match v
    case Undefined => Err(TypeError)
    case Null => Err(TypeError)
    case Obj(m) => Ok(if key in m then m[key] else Undefined)
    case _ => Ok(Undefined)
  }

  /** `v == s` for a string literal `s`, under JavaScript's loose equality. */
  predicate LooseEqualsString(v: JsVal, s: string)
  {
    v.Str? && v.s == s
  }
}
