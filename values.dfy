/**
 * The JavaScript values the engine moves around, as a closed datatype.
 *
 * The source tells argument kinds apart by duck typing (`instanceof Error`, `typeof ... ===
 * 'function'`, `instanceof stream.Stream`, `Buffer.isBuffer`); here each kind is one
 * constructor, so every value has exactly one kind.
 */
module Values {

  newtype Byte = b: int | 0 <= b < 256

  /** What survives `JSON.stringify` / `JSON.parse` (numbers are integers here). */
  datatype Json =
    | JNull
    | JBool(b: bool)
    | JNum(n: int)
    | JStr(s: string)
    | JArr(items: seq<Json>)
    | JObj(fields: map<string, Json>)

  /** JavaScript truthiness of a JSON value. */
  predicate Truthy(j: Json) {
    match j
    case JNull => false
    case JBool(b) => b
    case JNum(n) => n != 0
    case JStr(s) => s != ""
    case JArr(_) => true
    case JObj(_) => true
  }

  /**
   * A function value: a local function (user code, known only by a handle) or a stub made
   * by `resolveCallback` that forwards its calls to the peer's callback `id`.
   */
  datatype FnRef = Local(handle: nat) | Stub(id: string)

  /**
   * What the engine inspects of a stream object: whether it counts as readable
   * (`_read` and `_readableState`), writable (`_write` and `_writableState`), a transform
   * (`_transform` and `_transformState`), whether `_readableState` is an object, whether its
   * `pipes` is truthy, and the object-mode flag of each side.
   */
  datatype StreamDesc = StreamDesc(
    readable: bool,
    writable: bool,
    transform: bool,
    readableState: bool,
    pipes: bool,
    readableObjectMode: bool,
    writableObjectMode: bool)

  /** One argument of a call or a callback, on the local side. */
  datatype Value =
    | ErrorValue(message: string)
    | Function(fn: FnRef)
    | Stream(desc: StreamDesc)
    | Buffer(bytes: seq<Byte>)
    | Plain(json: Json)
}
