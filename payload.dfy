/** `buildPayload` and `makeLabel`: how the arguments of a level method and
    the resolved options become one log record, step by step:
    read the arguments, replace `req`/`res` by `httpRequest`, serialise the
    error keys, assemble the message, set the hostname, promote labels, set
    severity and time. Each step is a function of the record before it; the
    method `BuildPayload` performs the steps in place and is proved to agree
    with `Payload`. */
module PayloadBuilder {
  import opened Text
  import opened JsValues
  import opened Levels
  import HttpInfo

  const DefaultLabelsKey := "logging.googleapis.com/labels"

  /** A value `opts.labelsKey` can hold: `false`, or a key name. */
  datatype LabelsSetting = Off | Named(key: string)

  /** The options object after `createLogger` has filled it in; a field the
      object does not have is `None`. `labels` lists the entries of the object
      `opts.labels` as they were written; `LabelsObject` and `LabelKeys` turn
      them into the object and the keys `for...in` visits. */
  datatype Config = Config(
    name: string,
    hostname: string,
    level: string,
    labelsKey: Option<LabelsSetting>,
    labelsProperties: Option<seq<string>>,
    errorKeys: seq<string>,
    timeProperty: Option<string>,
    labels: Option<seq<(string, Value)>>)

  /** One argument of a level method. A scalar (string, number, boolean,
      `undefined`) is kept as the text `Array.prototype.join` gives it. */
  datatype Arg =
    | Scalar(text: string)
    | ErrArg(message: string, detail: Value, stack: string)
    | ArrArg(items: seq<Value>)
    | ObjArg(fields: map<string, Value>)
    | NullArg

  /** `params` and the `message` array while the arguments are read. */
  datatype Acc = Acc(params: Record, fragments: seq<string>)

  /** The record after the `req`/`res` step, and the `originalUrl` it read. */
  datatype Staged = Staged(params: Record, originalUrl: Value)

  // ---- reading the arguments ----

  /** What `Object.assign(params, array)` copies: each element under its
      index, written in decimal. */
  function IndexFields(items: seq<Value>): Record
  {
    if |items| == 0 then map[]
    else IndexFields(items[..|items| - 1])[NatText(|items| - 1) := items[|items| - 1]]
  }

  /** One pass of the `args.forEach` body. index.js has no array branch, so
      there an array is merged like any other object. */
  function ApplyArg(e: Edition, acc: Acc, arg: Arg): Acc {
    match arg
    case Scalar(t) => acc.(fragments := acc.fragments + [t])
    case ErrArg(m, d, st) => acc.(params := acc.params["error" := SerializedError(m, d, st)])
    case ArrArg(items) =>
      if e.Legacy? then acc.(params := acc.params + IndexFields(items))
      else
        var prev := Get(acc.params, "values");
        acc.(params := acc.params["values" := if prev.Arr? then Arr(prev.items + items) else Arr(items)])
    case ObjArg(f) => acc.(params := acc.params + f)
    case NullArg => acc
  }

  /** The arguments read in call order. */
  function MergeArgs(e: Edition, acc: Acc, args: seq<Arg>): Acc
    decreases |args|
  {
    if |args| == 0 then acc else MergeArgs(e, ApplyArg(e, acc, args[0]), args[1..])
  }

  // ---- the `req`/`res` step ----

  /** `status > 500` for a whole-number status. */
  predicate AboveServerError(status: Value) {
    status.Num? && status.n > 500
  }

  /** Once `httpRequest` is built: it is set, a truthy `req.corkTraceId` is
      copied, severity is set to `ERROR` when `upgrade` holds, and `req`,
      `res` and `reqTimeInMs` are deleted. */
  function Attach(params: Record, r: Request, info: Record, upgrade: bool): Record {
    var p1 := params["httpRequest" := Obj(info)];
    var p2 := if TruthyText(r.corkTraceId) then p1["corkTraceId" := Str(r.corkTraceId.value)] else p1;
    var p3 := if upgrade then p2["severity" := Str("ERROR")] else p2;
    p3 - {"req", "res", "reqTimeInMs"}
  }

  /** A status above 500 upgrades a severity that ranks below `error`. */
  predicate Upgrades(info: Record, severity: string) {
    AboveServerError(Get(info, "status")) && CompareLevels(severity, "error") < 0
  }

  /** The step runs when `params.req` and `params.res` are both truthy. A
      `req` that is not an Express request has no `get` method, so
      `getHttpRequestObject` throws. */
  function HttpStage(e: Edition, params: Record, severity: string): Outcome<Staged> {
    var req := Get(params, "req");
    var res := Get(params, "res");
    if !Truthy(req) || !Truthy(res) then Ok(Staged(params, Undefined))
    else if !req.ReqObj? then Throws("req.get is not a function")
    else
      var info := HttpInfo.HttpRequestInfo(e, req.req, res, Get(params, "reqTimeInMs"));
      Ok(Staged(Attach(params, req.req, info, Upgrades(info, severity)), if e.Legacy? then Undefined else Str(req.req.originalUrl)))
  }

  // ---- error keys ----

  /** One pass of the `opts.errorKeys.forEach` body. */
  function SerializeKey(params: Record, key: string): Record {
    if Get(params, key).ErrorObj? then params[key := ErrorSerializer(params[key])] else params
  }

  function SerializeErrorKeys(params: Record, keys: seq<string>): Record
    decreases |keys|
  {
    if |keys| == 0 then params else SerializeErrorKeys(SerializeKey(params, keys[0]), keys[1..])
  }

  // ---- the message ----

  /** The fragments, then a truthy `params.message`. */
  function MessageParts(fragments: seq<string>, params: Record): seq<string> {
    var m := Get(params, "message");
    if Truthy(m) then fragments + [JoinText(m)] else fragments
  }

  /** `METHOD STATUS LATENCY URL`, the URL being `originalUrl || requestUrl`
      (always `requestUrl` in index.js). */
  function HttpSummary(e: Edition, http: Value, originalUrl: Value): string {
    var url := if !e.Legacy? && Truthy(originalUrl) then originalUrl else Prop(http, "requestUrl");
    ConcatText(Prop(http, "requestMethod")) + " " + ConcatText(Prop(http, "status")) + " "
      + ConcatText(Prop(http, "latency")) + " " + ConcatText(url)
  }

  /** The parts joined with `"; "`; an empty result falls back to the HTTP
      summary, then to the error's message, and otherwise the key is
      deleted. */
  function AssembleMessage(e: Edition, params: Record, fragments: seq<string>, originalUrl: Value): Record {
    PlaceMessage(e, params, Join(MessageParts(fragments, params), "; "), originalUrl)
  }

  /** The joined `text` as the message, or the fallbacks when it is empty. */
  function PlaceMessage(e: Edition, params: Record, text: string, originalUrl: Value): Record {
    var http := Get(params, "httpRequest");
    var err := Get(params, "error");
    if text != "" then params["message" := Str(text)]
    else if Truthy(http) then params["message" := Str(HttpSummary(e, http, originalUrl))]
    else if Truthy(err) then params["message" := Prop(err, "message")]
    else params - {"message"}
  }

  // ---- labels ----

  /** `opts.labelsKey || LABELS_KEY`. */
  function LabelsKeyName(setting: Option<LabelsSetting>): string {
    if setting.Some? && setting.value.Named? && setting.value.key != "" then setting.value.key
    else DefaultLabelsKey
  }

  /** `makeLabel(params, key, opts)`: a truthy field moves into the labels
      object, which is created when it is `undefined`. Assigning a property
      to `null` throws; to a string, number or boolean it throws in strict
      code (lib/index.js is a module, dist/index.cjs says "use strict") and is
      silently ignored in index.js, whose field is deleted all the same. A
      property set on an array, an `Error` or an Express object is not part
      of the record. */
  function MakeLabel(e: Edition, params: Record, key: string, setting: Option<LabelsSetting>): Outcome<Record> {
    var v := Get(params, key);
    if !Truthy(v) || setting == Some(Off) then Ok(params)
    else
      var lk := LabelsKeyName(setting);
      match Get(params, lk)
      case Undefined => Ok(params[lk := Obj(map[key := v])] - {key})
      case Obj(f) => Ok(params[lk := Obj(f[key := v])] - {key})
      case Null => Throws("Cannot set properties of null")
      case Bool(_) => if e.Legacy? then Ok(params - {key}) else Throws("Cannot create property on a boolean")
      case Num(_) => if e.Legacy? then Ok(params - {key}) else Throws("Cannot create property on a number")
      case Str(_) => if e.Legacy? then Ok(params - {key}) else Throws("Cannot create property on a string")
      case _ => Ok(params - {key})
  }

  /** `opts.labelsProperties.forEach(key => makeLabel(params, key, opts))`. */
  function PromoteLabels(e: Edition, params: Record, keys: seq<string>, setting: Option<LabelsSetting>): Outcome<Record>
    decreases |keys|
  {
    if |keys| == 0 then Ok(params)
    else match MakeLabel(e, params, keys[0], setting)
      case Throws(why) => Throws(why)
      case Ok(p) => PromoteLabels(e, p, keys[1..], setting)
  }

  /** The object literal `opts.labels`, its entries written in order: a key
      written twice holds its last value. */
  function LabelsObject(labels: seq<(string, Value)>): Record
  {
    if |labels| == 0 then map[]
    else LabelsObject(labels[..|labels| - 1])[labels[|labels| - 1].0 := labels[|labels| - 1].1]
  }

  /** The keys `for (key in opts.labels)` visits: each key once, at the place
      it was first written, and exactly the keys of the object. */
  function LabelKeys(labels: seq<(string, Value)>): (ks: seq<string>)
    ensures forall i, j :: 0 <= i < j < |ks| ==> ks[i] != ks[j]
    ensures forall k :: k in ks <==> k in LabelsObject(labels)
  {
    if |labels| == 0 then []
    else
      var ks := LabelKeys(labels[..|labels| - 1]);
      var k := labels[|labels| - 1].0;
      if k in ks then ks else ks + [k]
  }

  /** The static labels: for each key, the value `labels[key]` is copied onto
      the record, then `makeLabel` runs for that key. */
  function StaticLabels(e: Edition, params: Record, keys: seq<string>, labels: Record, setting: Option<LabelsSetting>): Outcome<Record>
    decreases |keys|
  {
    if |keys| == 0 then Ok(params)
    else match MakeLabel(e, params[keys[0] := Get(labels, keys[0])], keys[0], setting)
      case Throws(why) => Throws(why)
      case Ok(p) => StaticLabels(e, p, keys[1..], labels, setting)
  }

  /** Both label steps; index.js has no static labels, and without
      `labelsProperties` its `forEach` throws. */
  function Labelled(e: Edition, params: Record, c: Config): Outcome<Record> {
    if c.labelsProperties.None? then Throws("Cannot read properties of undefined (reading 'forEach')")
    else match PromoteLabels(e, params, c.labelsProperties.value, c.labelsKey)
      case Throws(why) => Throws(why)
      case Ok(p) =>
        if e.Legacy? || c.labels.None? then Ok(p)
        else StaticLabels(e, p, LabelKeys(c.labels.value), LabelsObject(c.labels.value), c.labelsKey)
  }

  // ---- the whole builder ----

  /** The key the timestamp is written under. */
  function TimeKey(e: Edition, c: Config): string {
    if e.Legacy? then "time" else if c.timeProperty.Some? then c.timeProperty.value else "undefined"
  }

  /** The steps after the message: labels, then severity and time. */
  function Finished(e: Edition, params: Record, l: Level, c: Config, now: string): Outcome<Record> {
    match Labelled(e, params, c)
    case Throws(why) => Throws(why)
    case Ok(q) => Ok(q["severity" := Str(Severity(l))][TimeKey(e, c) := Str(now)])
  }

  /** The record before the label steps: the arguments read, the `req`/`res`
      step, the error keys, the message and the hostname. */
  function Unlabelled(e: Edition, args: seq<Arg>, l: Level, c: Config): Outcome<Record> {
    var acc := MergeArgs(e, Acc(map["name" := Str(c.name)], []), args);
    match HttpStage(e, acc.params, Severity(l))
    case Throws(why) => Throws(why)
    case Ok(st) =>
      var p := AssembleMessage(e, SerializeErrorKeys(st.params, c.errorKeys), acc.fragments, st.originalUrl);
      Ok(p["hostname" := Str(c.hostname)])
  }

  /** The record `buildPayload(args, severity, opts)` returns, `now` being
      the `toISOString()` of the current time. */
  function Payload(e: Edition, args: seq<Arg>, l: Level, c: Config, now: string): Outcome<Record> {
    match Unlabelled(e, args, l, c)
    case Throws(why) => Throws(why)
    case Ok(p) => Finished(e, p, l, c, now)
  }

  // ---- the builder, in place ----

  /** The `args.forEach` loop. */
  method ReadArgs(e: Edition, params0: Record, args: seq<Arg>) returns (params: Record, message: seq<string>)
    ensures Acc(params, message) == MergeArgs(e, Acc(params0, []), args)
  {
    params, message := params0, [];
    var i := 0;
    while i < |args|
      invariant 0 <= i <= |args|
      invariant MergeArgs(e, Acc(params0, []), args) == MergeArgs(e, Acc(params, message), args[i..])
    {
      assert args[i..][1..] == args[i + 1..];
      match args[i] {
        case Scalar(t) =>
          message := message + [t];
        case ErrArg(m, d, st) =>
          params := params["error" := SerializedError(m, d, st)];
        case ArrArg(items) =>
          if e.Legacy? {
            params := params + IndexFields(items);
          } else {
            var prev := Get(params, "values");
            if prev.Arr? {
              params := params["values" := Arr(prev.items + items)];
            } else {
              params := params["values" := Arr(items)];
            }
          }
        case ObjArg(f) =>
          params := params + f;
        case NullArg =>
      }
      i := i + 1;
    }
  }

  /** The `req`/`res` step in place. */
  method ReplaceRequest(e: Edition, params0: Record, severity: string) returns (out: Outcome<Staged>)
    ensures out == HttpStage(e, params0, severity)
  {
    var params := params0;
    var originalUrl := Undefined;
    var req := Get(params, "req");
    var res := Get(params, "res");
    if Truthy(req) && Truthy(res) {
      if !req.ReqObj? {
        return Throws("req.get is not a function");
      }
      if !e.Legacy? {
        originalUrl := Str(req.req.originalUrl);
      }
      var info := HttpInfo.GetHttpRequestObject(e, req.req, res, Get(params, "reqTimeInMs"));
      params := params["httpRequest" := Obj(info)];
      if TruthyText(req.req.corkTraceId) {
        params := params["corkTraceId" := Str(req.req.corkTraceId.value)];
      }
      if AboveServerError(Get(info, "status")) && CompareLevels(severity, "error") < 0 {
        params := params["severity" := Str("ERROR")];
      }
      params := params - {"req", "res", "reqTimeInMs"};
    }
    out := Ok(Staged(params, originalUrl));
  }

  /** The `opts.errorKeys.forEach` loop. */
  method SerializeErrors(params0: Record, keys: seq<string>) returns (params: Record)
    ensures params == SerializeErrorKeys(params0, keys)
  {
    params := params0;
    var i := 0;
    while i < |keys|
      invariant 0 <= i <= |keys|
      invariant SerializeErrorKeys(params0, keys) == SerializeErrorKeys(params, keys[i..])
    {
      assert keys[i..][1..] == keys[i + 1..];
      var key := keys[i];
      if Get(params, key).ErrorObj? {
        params := params[key := ErrorSerializer(params[key])];
      }
      i := i + 1;
    }
  }

  /** The `labelsProperties.forEach` loop; it stops at the first throw. */
  method PromoteAll(e: Edition, params0: Record, keys: seq<string>, setting: Option<LabelsSetting>) returns (out: Outcome<Record>)
    ensures out == PromoteLabels(e, params0, keys, setting)
  {
    var params := params0;
    var i := 0;
    while i < |keys|
      invariant 0 <= i <= |keys|
      invariant PromoteLabels(e, params0, keys, setting) == PromoteLabels(e, params, keys[i..], setting)
    {
      assert keys[i..][1..] == keys[i + 1..];
      var step := MakeLabel(e, params, keys[i], setting);
      if step.Throws? {
        return Throws(step.reason);
      }
      params := step.value;
      i := i + 1;
    }
    out := Ok(params);
  }

  /** The `for (key in opts.labels)` loop; it stops at the first throw. */
  method ApplyStaticLabels(e: Edition, params0: Record, keys: seq<string>, labels: Record, setting: Option<LabelsSetting>)
    returns (out: Outcome<Record>)
    ensures out == StaticLabels(e, params0, keys, labels, setting)
  {
    var params := params0;
    var i := 0;
    while i < |keys|
      invariant 0 <= i <= |keys|
      invariant StaticLabels(e, params0, keys, labels, setting) == StaticLabels(e, params, keys[i..], labels, setting)
    {
      assert keys[i..][1..] == keys[i + 1..];
      var key := keys[i];
      params := params[key := Get(labels, key)];
      var step := MakeLabel(e, params, key, setting);
      if step.Throws? {
        return Throws(step.reason);
      }
      params := step.value;
      i := i + 1;
    }
    out := Ok(params);
  }

  /** The message step in place. */
  method WriteMessage(e: Edition, params0: Record, fragments: seq<string>, originalUrl: Value) returns (params: Record)
    ensures params == AssembleMessage(e, params0, fragments, originalUrl)
  {
    var message := fragments;
    var m := Get(params0, "message");
    if Truthy(m) {
      message := message + [JoinText(m)];
    }
    params := SetMessage(e, params0, Join(message, "; "), originalUrl);
  }

  /** `params.message = text` and the fallbacks for an empty text. */
  method SetMessage(e: Edition, params0: Record, text: string, originalUrl: Value) returns (params: Record)
    ensures params == PlaceMessage(e, params0, text, originalUrl)
  {
    params := params0;
    var http := Get(params, "httpRequest");
    var err := Get(params, "error");
    if text != "" {
      params := params["message" := Str(text)];
    } else if Truthy(http) {
      params := params["message" := Str(HttpSummary(e, http, originalUrl))];
    } else if Truthy(err) {
      params := params["message" := Prop(err, "message")];
    } else {
      params := params - {"message"};
    }
  }

  /** Labels, severity and time in place. */
  method Finish(e: Edition, params0: Record, l: Level, c: Config, now: string) returns (out: Outcome<Record>)
    ensures out == Finished(e, params0, l, c, now)
  {
    var params := params0;
    if c.labelsProperties.None? {
      return Throws("Cannot read properties of undefined (reading 'forEach')");
    }
    var promoted := PromoteAll(e, params, c.labelsProperties.value, c.labelsKey);
    if promoted.Throws? {
      return Throws(promoted.reason);
    }
    params := promoted.value;
    if !e.Legacy? && c.labels.Some? {
      var labelled := ApplyStaticLabels(e, params, LabelKeys(c.labels.value), LabelsObject(c.labels.value), c.labelsKey);
      if labelled.Throws? {
        return Throws(labelled.reason);
      }
      params := labelled.value;
    }
    params := params["severity" := Str(Severity(l))];
    params := params[TimeKey(e, c) := Str(now)];
    out := Ok(params);
  }

  /** `buildPayload(args, severity, opts)`. */
  method BuildPayload(e: Edition, args: seq<Arg>, l: Level, c: Config, now: string) returns (out: Outcome<Record>)
    ensures out == Payload(e, args, l, c, now)
  {
    var params, message := ReadArgs(e, map["name" := Str(c.name)], args);
    var staged := ReplaceRequest(e, params, Severity(l));
    if staged.Throws? {
      return Throws(staged.reason);
    }
    params := SerializeErrors(staged.value.params, c.errorKeys);
    params := WriteMessage(e, params, message, staged.value.originalUrl);
    params := params["hostname" := Str(c.hostname)];
    out := Finish(e, params, l, c, now);
  }
}
