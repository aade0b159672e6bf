/** `getHttpRequestObject`: the `httpRequest` object of a log record, built
    from an Express request, a response and the elapsed milliseconds. */
module HttpInfo {
  import opened Text
  import opened JsValues
  import Ipv4

  /** The keys of the object literal, in source order. */
  const HttpKeys: seq<string> :=
    ["requestMethod", "requestUrl", "requestSize", "status", "userAgent",
     "remoteIp", "referer", "latency", "protocol"]

  /** `req.get(name)` for a lower-case header name. */
  function Header(r: Request, name: string): Value {
    if name in r.headers then Str(r.headers[name]) else Undefined
  }

  /** `(ms / 1000).toFixed(3) + 's'` for a whole number of milliseconds. */
  function LatencyText(ms: int): string {
    var m: nat := if ms < 0 then -ms else ms;
    (if ms < 0 then "-" else "") + NatText(m / 1000) + "." + Pad3(m % 1000) + "s"
  }

  /** The `latency` field: absent when `reqTimeInMs` is undefined. */
  function Latency(ms: Value): (v: Value)
    ensures v == Undefined <==> ms == Undefined
  {
    match ms
    case Undefined => Undefined
    case Num(n) => Str(LatencyText(n))
    case Null => Str(LatencyText(0))
    case Bool(b) => Str(LatencyText(if b then 1 else 0))
    case _ => Str("NaNs")
  }

  /** `req.get('x-forwarded-for') || req.ip`. */
  function RawRemoteIp(r: Request): Value {
    var forwarded := Header(r, "x-forwarded-for");
    if Truthy(forwarded) then forwarded else OptText(r.ip)
  }

  /** The `remoteIp` field after the IPv4 step, which only lib/index.js has. */
  function RemoteIp(e: Edition, r: Request): Value {
    if e.Lib? then Ipv4.ReduceRemoteIp(RawRemoteIp(r)) else RawRemoteIp(r)
  }

  /** The value the literal gives the field `key`. */
  function Field(key: string, r: Request, res: Value, ms: Value): Value {
    if key == "requestMethod" then Str(r.httpMethod)
    else if key == "requestUrl" then Str(r.protocol + "://" + ConcatText(Header(r, "host")) + r.originalUrl)
    else if key == "requestSize" then Header(r, "content-length")
    else if key == "status" then Prop(res, "statusCode")
    else if key == "userAgent" then Header(r, "user-agent")
    else if key == "remoteIp" then RawRemoteIp(r)
    else if key == "referer" then Header(r, "referer")
    else if key == "latency" then Latency(ms)
    else Str(ToUpper(r.protocol) + "/" + r.httpVersion)
  }

  /** The object literal `o` as written, `remoteIp` not yet reduced. */
  function Literal(r: Request, res: Value, ms: Value): Record {
    map k | k in HttpKeys :: Field(k, r, res, ms)
  }

  /** The value of field `key` after the IPv4 step, which lib/index.js
      applies to `remoteIp`. */
  function FieldOf(e: Edition, key: string, r: Request, res: Value, ms: Value): Value {
    if key == "remoteIp" then RemoteIp(e, r) else Field(key, r, res, ms)
  }

  /** The object before the keys holding `undefined` are deleted. */
  function HttpFields(e: Edition, r: Request, res: Value, ms: Value): Record {
    map k | k in HttpKeys :: FieldOf(e, k, r, res, ms)
  }

  /** `o` with every key listed in `keys` that holds `undefined` removed. */
  function DropUndefined(o: Record, keys: seq<string>): Record {
    map k | k in o && (k !in keys || o[k] != Undefined) :: o[k]
  }

  /** The object `getHttpRequestObject` returns. */
  function HttpRequestInfo(e: Edition, r: Request, res: Value, ms: Value): Record {
    DropUndefined(HttpFields(e, r, res, ms), HttpKeys)
  }

  /** `getHttpRequestObject(req, res, reqTimeInMs)`: build the literal, apply
      the IPv4 step (lib/index.js only), then delete every key whose value is
      `undefined`. */
  method GetHttpRequestObject(e: Edition, r: Request, res: Value, ms: Value) returns (o: Record)
    ensures o == HttpRequestInfo(e, r, res, ms)
  {
    o := Literal(r, res, ms);
    if e.Lib? {
      o := o["remoteIp" := Ipv4.ReduceRemoteIp(o["remoteIp"])];
    }
    LiteralThenIpv4(e, r, res, ms);
    o := DeleteUndefined(o, HttpKeys);
  }

  /** The fields are the literal's, with `remoteIp` reduced in lib/index.js. */
  lemma LiteralThenIpv4(e: Edition, r: Request, res: Value, ms: Value)
    ensures var lit := Literal(r, res, ms);
      HttpFields(e, r, res, ms) == if e.Lib? then lit["remoteIp" := Ipv4.ReduceRemoteIp(lit["remoteIp"])] else lit
  {
  }

  /** The deletion loop of `getHttpRequestObject`: each listed key whose
      value is `undefined` is deleted. */
  method DeleteUndefined(o0: Record, keys: seq<string>) returns (o: Record)
    ensures o == DropUndefined(o0, keys)
  {
    o := o0;
    var i := 0;
    while i < |keys|
      invariant 0 <= i <= |keys|
      invariant o == DropUndefined(o0, keys[..i])
    {
      var key := keys[i];
      assert keys[..i + 1] == keys[..i] + [key];
      if key in o && o[key] == Undefined {
        o := o - {key};
      }
      i := i + 1;
    }
    assert keys[..i] == keys;
  }

  // ---- properties ----

  /** A field is reported exactly when it is one of the literal's keys and
      its value is not `undefined`, and then it holds that value. */
  lemma InfoLookup(e: Edition, r: Request, res: Value, ms: Value, k: string)
    ensures k in HttpRequestInfo(e, r, res, ms) <==> k in HttpKeys && FieldOf(e, k, r, res, ms) != Undefined
    ensures k in HttpRequestInfo(e, r, res, ms) ==> HttpRequestInfo(e, r, res, ms)[k] == FieldOf(e, k, r, res, ms)
  {
  }

  /** No field of the object holds `undefined`, and every field comes from
      the literal. */
  lemma NoUndefinedField(e: Edition, r: Request, res: Value, ms: Value)
    ensures HttpRequestInfo(e, r, res, ms).Keys <= set k | k in HttpKeys
    ensures forall k :: k in HttpRequestInfo(e, r, res, ms) ==> HttpRequestInfo(e, r, res, ms)[k] != Undefined
  {
  }

  /** The method, URL and protocol are always reported. */
  lemma AlwaysReported(e: Edition, r: Request, res: Value, ms: Value)
    ensures "requestMethod" in HttpRequestInfo(e, r, res, ms)
    ensures "requestUrl" in HttpRequestInfo(e, r, res, ms)
    ensures "protocol" in HttpRequestInfo(e, r, res, ms)
  {
    assert HttpKeys[0] == "requestMethod" && HttpKeys[1] == "requestUrl" && HttpKeys[8] == "protocol";
    InfoLookup(e, r, res, ms, "requestMethod");
    InfoLookup(e, r, res, ms, "requestUrl");
    InfoLookup(e, r, res, ms, "protocol");
  }

  /** `latency` is present exactly when `reqTimeInMs` is defined; for a whole
      number of milliseconds it is that number rendered in seconds. */
  lemma LatencyField(e: Edition, r: Request, res: Value, ms: Value)
    ensures "latency" in HttpRequestInfo(e, r, res, ms) <==> ms != Undefined
    ensures ms.Num? && ms.n >= 0 ==>
      HttpRequestInfo(e, r, res, ms)["latency"] == Str(LatencyText(ms.n))
  {
    assert HttpKeys[7] == "latency";
    InfoLookup(e, r, res, ms, "latency");
  }

  /** The latency text of `n` milliseconds is whole seconds, a dot, three
      digits of milliseconds and `s`, and those digits denote `n` again. */
  lemma LatencyReadsBack(n: nat)
    ensures var t := LatencyText(n);
      && |t| >= 6 && t[|t| - 1] == 's' && t[|t| - 5] == '.'
      && AllDigits(t[..|t| - 5]) && AllDigits(t[|t| - 4..|t| - 1])
      && DigitsValue(t[..|t| - 5]) * 1000 + DigitsValue(t[|t| - 4..|t| - 1]) == n
  {
    var t := LatencyText(n);
    var w := NatText(n / 1000);
    var f := Pad3(n % 1000);
    assert t == w + "." + f + "s";
    assert t[..|t| - 5] == w;
    assert t[|t| - 4..|t| - 1] == f;
    NatTextRoundTrip(n / 1000);
  }

  /** `remoteIp` prefers a non-empty `x-forwarded-for` header to `req.ip`. */
  lemma RemoteIpSource(r: Request)
    ensures "x-forwarded-for" in r.headers && r.headers["x-forwarded-for"] != "" ==>
      RawRemoteIp(r) == Str(r.headers["x-forwarded-for"])
    ensures ("x-forwarded-for" !in r.headers || r.headers["x-forwarded-for"] == "") ==>
      RawRemoteIp(r) == OptText(r.ip)
  {
  }

  /** lib/index.js reduces the address to its leftmost dotted quad;
      dist/index.cjs and index.js report it as received. */
  lemma RemoteIpByEdition(e: Edition, r: Request, res: Value, ms: Value)
    ensures RawRemoteIp(r).Str? ==> "remoteIp" in HttpRequestInfo(e, r, res, ms)
    ensures RawRemoteIp(r).Str? && e.Lib? ==>
      HttpRequestInfo(e, r, res, ms)["remoteIp"] == Str(Ipv4.ReduceToIpv4(RawRemoteIp(r).s))
    ensures RawRemoteIp(r).Str? && !e.Lib? ==>
      HttpRequestInfo(e, r, res, ms)["remoteIp"] == RawRemoteIp(r)
    ensures RawRemoteIp(r) == Undefined ==> "remoteIp" !in HttpRequestInfo(e, r, res, ms)
  {
    assert HttpKeys[5] == "remoteIp";
    InfoLookup(e, r, res, ms, "remoteIp");
  }
}
