/** The JavaScript values a log record is made of, and the few language rules
    the logger depends on: truthiness, property lookup, and how `+` and
    `Array.prototype.join` turn a value into text. */
module JsValues {
  import opened Text

  datatype Option<T> = None | Some(value: T)

  /** The result of code that may throw a `TypeError`. */
  datatype Outcome<T> = Ok(value: T) | Throws(reason: string)

  /** The three versions of the logger kept in the repository:
      `lib/index.js` (current), `dist/index.cjs` (a build of an earlier
      `lib`, without the IPv4 step) and the older CommonJS `index.js`. */
  datatype Edition = Lib | Dist | Legacy

  /** The parts of an Express request the logger reads. Header names are
      lower case, as Node stores them; `corkTraceId` is the correlation id the
      middleware stores on the request. */
  datatype Request = Request(
    httpMethod: string,
    protocol: string,
    headers: map<string, string>,
    originalUrl: string,
    ip: Option<string>,
    httpVersion: string,
    corkTraceId: Option<string>)

  datatype Value =
    | Undefined
    | Null
    | Bool(b: bool)
    | Num(n: int)
    | Str(s: string)
    | Arr(items: seq<Value>)
    | Obj(fields: map<string, Value>)
      /** An `Error` instance that has not been serialised. */
    | ErrorObj(message: string, detail: Value, stack: string)
    | ReqObj(req: Request)
    | ResObj(statusCode: int)

  /** A log record under construction (the source's `params`). A key mapped
      to `Undefined` is left out by `JSON.stringify`. */
  type Record = map<string, Value>

  /** `r[k]`, which is `undefined` for a missing key. */
  function Get(r: Record, k: string): Value {
    if k in r then r[k] else Undefined
  }

  predicate Truthy(v: Value) {
    match v
    case Undefined => false
    case Null => false
    case Bool(b) => b
    case Num(n) => n != 0
    case Str(s) => s != ""
    case _ => true
  }

  /** `s || undefined` for an optional string option. */
  predicate TruthyText(o: Option<string>) {
    o.Some? && o.value != ""
  }

  function OptText(o: Option<string>): (v: Value)
    ensures o.None? <==> v == Undefined
  {
    match o
    case Some(s) => Str(s)
    case None => Undefined
  }

  /** `v[key]` for the properties the logger reads. */
  function Prop(v: Value, key: string): Value {
    match v
    case Obj(f) => Get(f, key)
    case ErrorObj(m, d, st) =>
      if key == "message" then Str(m)
      else if key == "detail" then d
      else if key == "stack" then Str(st)
      else Undefined
    case ReqObj(r) =>
      if key == "method" then Str(r.httpMethod)
      else if key == "protocol" then Str(r.protocol)
      else if key == "originalUrl" then Str(r.originalUrl)
      else if key == "ip" then OptText(r.ip)
      else if key == "httpVersion" then Str(r.httpVersion)
      else if key == "corkTraceId" then OptText(r.corkTraceId)
      else Undefined
    case ResObj(c) => if key == "statusCode" then Num(c) else Undefined
    case _ => Undefined
  }

  /** `String(n)` for an integer. */
  function IntText(n: int): string {
    if n < 0 then "-" + NatText(-n) else NatText(n)
  }

  /** How `Array.prototype.join` renders one element: `null` and `undefined`
      become the empty string, arrays are joined with commas, plain objects
      print as `[object Object]` and errors as `Error: message`. */
  function JoinText(v: Value): string
    decreases v, 1
  {
    match v
    case Undefined => ""
    case Null => ""
    case Bool(b) => if b then "true" else "false"
    case Num(n) => IntText(n)
    case Str(s) => s
    case Arr(items) => JoinTexts(v, items)
    case ErrorObj(m, _, _) => if m == "" then "Error" else "Error: " + m
    case _ => "[object Object]"
  }

  function JoinTexts(ghost parent: Value, items: seq<Value>): string
    requires parent.Arr? && forall i :: 0 <= i < |items| ==> items[i] < parent
    decreases parent, 0, |items|
  {
    if |items| == 0 then ""
    else if |items| == 1 then JoinText(items[0])
    else JoinText(items[0]) + "," + JoinTexts(parent, items[1..])
  }

  /** How the `+` operator renders a value inside a string concatenation. */
  function ConcatText(v: Value): string {
    match v
    case Undefined => "undefined"
    case Null => "null"
    case _ => JoinText(v)
  }

  /** The object `errorSerializer` makes of an `Error`. */
  function SerializedError(message: string, detail: Value, stack: string): Value {
    Obj(map["message" := Str(message), "detail" := detail, "stack" := Str(stack)])
  }

  /** `errorSerializer`: an `Error` becomes `{message, detail, stack}`;
      anything else is returned unchanged. */
  function ErrorSerializer(v: Value): (r: Value)
    ensures !r.ErrorObj?
    ensures !v.ErrorObj? ==> r == v
    ensures v.ErrorObj? ==> r.Obj? && forall k :: k in {"message", "detail", "stack"} ==> Prop(r, k) == Prop(v, k)
  {
    match v
    case ErrorObj(m, d, st) => SerializedError(m, d, st)
    case _ => v
  }
}
