/** Properties of the payload builder, step by step and for the whole record. */
module PayloadFacts {
  import opened Text
  import opened JsValues
  import opened Levels
  import HttpInfo
  import opened PayloadBuilder

  // ---- reading the arguments ----

  /** Element `j` of an array argument lands under the key `String(j)`, and
      those are the only keys. */
  lemma {:induction false} IndexFieldsLookup(items: seq<Value>, j: nat)
    requires j < |items|
    ensures NatText(j) in IndexFields(items) && IndexFields(items)[NatText(j)] == items[j]
    decreases |items|
  {
    var n := |items| - 1;
    if j < n {
      IndexFieldsLookup(items[..n], j);
      assert items[..n][j] == items[j];
      NatTextInjective(j, n);
    }
  }

  lemma {:induction false} IndexFieldsKeys(items: seq<Value>, k: string)
    ensures k in IndexFields(items) <==> exists j :: 0 <= j < |items| && k == NatText(j)
    decreases |items|
  {
    if |items| > 0 {
      var n := |items| - 1;
      IndexFieldsKeys(items[..n], k);
      assert IndexFields(items) == IndexFields(items[..n])[NatText(n) := items[n]];
      if k in IndexFields(items) {
        if k != NatText(n) {
          var j :| 0 <= j < n && k == NatText(j);
          assert 0 <= j < |items| && k == NatText(j);
        } else {
          assert 0 <= n < |items| && k == NatText(n);
        }
      } else {
        forall j | 0 <= j < |items|
          ensures k != NatText(j)
        {
          if j == n {
            assert k != NatText(n);
          }
        }
      }
    }
  }

  /** Whether reading `arg` may write the key `k`. */
  predicate Touches(e: Edition, arg: Arg, k: string) {
    match arg
    case Scalar(_) => false
    case NullArg => false
    case ErrArg(_, _, _) => k == "error"
    case ArrArg(items) => if e.Legacy? then k in IndexFields(items) else k == "values"
    case ObjArg(f) => k in f
  }

  /** The scalar arguments' texts, in call order. */
  function ScalarTexts(args: seq<Arg>): seq<string> {
    if |args| == 0 then []
    else (if args[0].Scalar? then [args[0].text] else []) + ScalarTexts(args[1..])
  }

  predicate HasArray(args: seq<Arg>) {
    exists i :: 0 <= i < |args| && args[i].ArrArg?
  }

  /** The elements of the array arguments, in call order. */
  function ArrayItems(args: seq<Arg>): seq<Value> {
    if |args| == 0 then []
    else (if args[0].ArrArg? then args[0].items else []) + ArrayItems(args[1..])
  }

  /** Reading `a + b` is reading `a`, then `b`. */
  lemma {:induction false} MergeAppend(e: Edition, acc: Acc, a: seq<Arg>, b: seq<Arg>)
    ensures MergeArgs(e, acc, a + b) == MergeArgs(e, MergeArgs(e, acc, a), b)
    decreases |a|
  {
    if |a| > 0 {
      assert (a + b)[1..] == a[1..] + b;
      MergeAppend(e, ApplyArg(e, acc, a[0]), a[1..], b);
    } else {
      assert a + b == b;
    }
  }

  /** The scalar arguments become the message fragments, in call order. */
  lemma {:induction false} MergeFragments(e: Edition, acc: Acc, args: seq<Arg>)
    ensures MergeArgs(e, acc, args).fragments == acc.fragments + ScalarTexts(args)
    decreases |args|
  {
    if |args| > 0 {
      MergeFragments(e, ApplyArg(e, acc, args[0]), args[1..]);
    }
  }

  /** A key no argument writes keeps its value. */
  lemma {:induction false} MergeUntouched(e: Edition, acc: Acc, args: seq<Arg>, k: string)
    requires forall i :: 0 <= i < |args| ==> !Touches(e, args[i], k)
    ensures Get(MergeArgs(e, acc, args).params, k) == Get(acc.params, k)
    ensures k in MergeArgs(e, acc, args).params <==> k in acc.params
    decreases |args|
  {
    if |args| > 0 {
      MergeUntouched(e, ApplyArg(e, acc, args[0]), args[1..], k);
    }
  }

  /** Objects are merged shallowly, the last one holding a key winning; this
      includes overriding the initial `name`. */
  lemma MergeLastObjectWins(e: Edition, acc: Acc, pre: seq<Arg>, f: map<string, Value>, post: seq<Arg>, k: string)
    requires k in f
    requires forall i :: 0 <= i < |post| ==> !Touches(e, post[i], k)
    ensures Get(MergeArgs(e, acc, pre + [ObjArg(f)] + post).params, k) == f[k]
  {
    MergeAppend(e, acc, pre + [ObjArg(f)], post);
    MergeAppend(e, acc, pre, [ObjArg(f)]);
    MergeUntouched(e, MergeArgs(e, acc, pre + [ObjArg(f)]), post, k);
  }

  /** `params.error` is the last `Error` argument, serialised. */
  lemma MergeLastErrorWins(e: Edition, acc: Acc, pre: seq<Arg>, m: string, d: Value, st: string, post: seq<Arg>)
    requires forall i :: 0 <= i < |post| ==> !Touches(e, post[i], "error")
    ensures Get(MergeArgs(e, acc, pre + [ErrArg(m, d, st)] + post).params, "error") == SerializedError(m, d, st)
  {
    MergeAppend(e, acc, pre + [ErrArg(m, d, st)], post);
    MergeAppend(e, acc, pre, [ErrArg(m, d, st)]);
    MergeUntouched(e, MergeArgs(e, acc, pre + [ErrArg(m, d, st)]), post, "error");
  }

  /** The items already under `values`, if it holds an array. */
  function PrevItems(v: Value): seq<Value> {
    if v.Arr? then v.items else []
  }

  /** One argument's effect on `values` in lib/index.js and dist/index.cjs. */
  lemma ValuesStep(e: Edition, acc: Acc, a: Arg)
    requires !e.Legacy? && !(a.ObjArg? && "values" in a.fields)
    ensures var prev := Get(acc.params, "values");
      Get(ApplyArg(e, acc, a).params, "values") == if a.ArrArg? then Arr(PrevItems(prev) + a.items) else prev
  {
  }

  /** A list whose head is not an array has an array exactly when its tail does. */
  lemma HasArrayTail(args: seq<Arg>)
    requires |args| > 0 && !args[0].ArrArg?
    ensures HasArray(args[1..]) <==> HasArray(args)
  {
    if HasArray(args[1..]) {
      var i :| 0 <= i < |args[1..]| && args[1..][i].ArrArg?;
      assert args[i + 1].ArrArg?;
    }
    if HasArray(args) {
      var i :| 0 <= i < |args| && args[i].ArrArg?;
      assert args[1..][i - 1].ArrArg?;
    }
  }

  /** In lib/index.js and dist/index.cjs the array arguments are concatenated
      into `values` in call order, after any array already there. */
  lemma {:induction false} MergeValues(e: Edition, acc: Acc, args: seq<Arg>)
    requires !e.Legacy?
    requires forall i :: 0 <= i < |args| ==> !(args[i].ObjArg? && "values" in args[i].fields)
    ensures var prev := Get(acc.params, "values");
      Get(MergeArgs(e, acc, args).params, "values")
        == if prev.Arr? || HasArray(args) then Arr(PrevItems(prev) + ArrayItems(args)) else prev
    decreases |args|
  {
    if |args| > 0 {
      var next := ApplyArg(e, acc, args[0]);
      ValuesStep(e, acc, args[0]);
      MergeValues(e, next, args[1..]);
      var prev := Get(acc.params, "values");
      if args[0].ArrArg? {
        assert PrevItems(prev) + args[0].items + ArrayItems(args[1..]) == PrevItems(prev) + ArrayItems(args);
      } else {
        HasArrayTail(args);
      }
    } else {
      assert !HasArray(args);
    }
  }

  /** In index.js an array argument is spread under its indices, so a later
      array overwrites the same indices. */
  lemma LegacyArraySpread(acc: Acc, pre: seq<Arg>, items: seq<Value>, post: seq<Arg>, j: nat)
    requires j < |items|
    requires forall i :: 0 <= i < |post| ==> !Touches(Legacy, post[i], NatText(j))
    ensures Get(MergeArgs(Legacy, acc, pre + [ArrArg(items)] + post).params, NatText(j)) == items[j]
  {
    MergeAppend(Legacy, acc, pre + [ArrArg(items)], post);
    MergeAppend(Legacy, acc, pre, [ArrArg(items)]);
    IndexFieldsLookup(items, j);
    MergeUntouched(Legacy, MergeArgs(Legacy, acc, pre + [ArrArg(items)]), post, NatText(j));
  }

  // ---- the `req`/`res` step ----

  /** Without a truthy `req` and `res` the step changes nothing. */
  lemma HttpStageSkipped(e: Edition, params: Record, severity: string)
    requires !Truthy(Get(params, "req")) || !Truthy(Get(params, "res"))
    ensures HttpStage(e, params, severity) == Ok(Staged(params, Undefined))
  {
  }

  /** A truthy `req` that is not an Express request makes the call throw. */
  lemma HttpStageThrows(e: Edition, params: Record, severity: string)
    requires Truthy(Get(params, "req")) && Truthy(Get(params, "res")) && !Get(params, "req").ReqObj?
    ensures HttpStage(e, params, severity).Throws?
  {
  }

  /** The value of the step on a truthy Express request and response. */
  lemma HttpStageValue(e: Edition, params: Record, severity: string)
    requires Get(params, "req").ReqObj? && Truthy(Get(params, "res"))
    ensures var r := Get(params, "req").req;
      var info := HttpInfo.HttpRequestInfo(e, r, Get(params, "res"), Get(params, "reqTimeInMs"));
      HttpStage(e, params, severity)
        == Ok(Staged(Attach(params, r, info, Upgrades(info, severity)),
                     if e.Legacy? then Undefined else Str(r.originalUrl)))
  {
  }

  /** With a truthy Express request and response, as the level methods call
      it: the step succeeds; `httpRequest` holds the object
      `getHttpRequestObject` builds; `req`, `res` and `reqTimeInMs` are gone;
      a truthy trace id is copied; severity is `ERROR` exactly when the status
      is above 500; no other key changes; and the `originalUrl` the message
      fallback reads is the request's (never, in index.js). */
  lemma HttpStageAttaches(e: Edition, params: Record, l: Level, k: string)
    requires Get(params, "req").ReqObj? && Truthy(Get(params, "res"))
    ensures HttpStage(e, params, Severity(l)).Ok?
    ensures var st := HttpStage(e, params, Severity(l)).value;
      var r := Get(params, "req").req;
      var info := HttpInfo.HttpRequestInfo(e, r, Get(params, "res"), Get(params, "reqTimeInMs"));
      && Get(st.params, "httpRequest") == Obj(info)
      && "req" !in st.params && "res" !in st.params && "reqTimeInMs" !in st.params
      && Get(st.params, "corkTraceId") == (if TruthyText(r.corkTraceId) then Str(r.corkTraceId.value) else Get(params, "corkTraceId"))
      && Get(st.params, "severity") == (if AboveServerError(Get(info, "status")) then Str("ERROR") else Get(params, "severity"))
      && (k !in {"httpRequest", "corkTraceId", "severity", "req", "res", "reqTimeInMs"} ==> Get(st.params, k) == Get(params, k))
      && st.originalUrl == if e.Legacy? then Undefined else Str(r.originalUrl)
  {
    var r := Get(params, "req").req;
    var info := HttpInfo.HttpRequestInfo(e, r, Get(params, "res"), Get(params, "reqTimeInMs"));
    var up := Upgrades(info, Severity(l));
    HttpStageValue(e, params, Severity(l));
    UpgradeAlwaysFires(info, l);
    AttachSetsHttpRequest(params, r, info, up);
    AttachRemovesInputs(params, r, info, up);
    AttachCopiesTraceId(params, r, info, up);
    AttachSeverity(params, r, info, up);
    if k !in {"httpRequest", "corkTraceId", "severity", "req", "res", "reqTimeInMs"} {
      AttachFrame(params, r, info, up, k);
    }
  }

  /** `httpRequest` is set to the object built. */
  lemma AttachSetsHttpRequest(params: Record, r: Request, info: Record, upgrade: bool)
    ensures Get(Attach(params, r, info, upgrade), "httpRequest") == Obj(info)
  {
  }

  /** `req`, `res` and `reqTimeInMs` are removed. */
  lemma AttachRemovesInputs(params: Record, r: Request, info: Record, upgrade: bool)
    ensures var p := Attach(params, r, info, upgrade);
      "req" !in p && "res" !in p && "reqTimeInMs" !in p
  {
  }

  /** The request's trace id is copied when it is truthy. */
  lemma AttachCopiesTraceId(params: Record, r: Request, info: Record, upgrade: bool)
    ensures Get(Attach(params, r, info, upgrade), "corkTraceId")
      == if TruthyText(r.corkTraceId) then Str(r.corkTraceId.value) else Get(params, "corkTraceId")
  {
  }

  /** `severity` becomes `ERROR` on an upgrade and is kept otherwise. */
  lemma AttachSeverity(params: Record, r: Request, info: Record, upgrade: bool)
    ensures Get(Attach(params, r, info, upgrade), "severity")
      == if upgrade then Str("ERROR") else Get(params, "severity")
  {
  }

  /** No other key but `severity` changes. */
  lemma AttachFrame(params: Record, r: Request, info: Record, upgrade: bool, k: string)
    requires k != "httpRequest" && k != "corkTraceId" && k != "severity"
    requires k != "req" && k != "res" && k != "reqTimeInMs"
    ensures Get(Attach(params, r, info, upgrade), k) == Get(params, k)
  {
  }

  /** The upgrade fires for every status above 500 and every level, because
      an upper-case severity always compares below `error`. */
  lemma UpgradeAlwaysFires(info: Record, l: Level)
    ensures Upgrades(info, Severity(l)) <==> AboveServerError(Get(info, "status"))
  {
    SeverityRanksBelowEverything(l);
  }

  // ---- error keys ----

  /** Each listed key holding an `Error` is serialised; every other value,
      including an already serialised error, is left as it is. */
  lemma {:induction false} SerializeErrorKeysLookup(params: Record, keys: seq<string>, k: string)
    ensures SerializeErrorKeys(params, keys).Keys == params.Keys
    ensures Get(SerializeErrorKeys(params, keys), k)
      == if k in keys then ErrorSerializer(Get(params, k)) else Get(params, k)
    decreases |keys|
  {
    if |keys| > 0 {
      var next := SerializeKey(params, keys[0]);
      SerializeErrorKeysLookup(next, keys[1..], k);
      assert Get(next, k) == if k == keys[0] then ErrorSerializer(Get(params, k)) else Get(params, k);
    }
  }

  /** No listed key holds an `Error` afterwards. */
  lemma NoErrorUnderErrorKeys(params: Record, keys: seq<string>, k: string)
    requires k in keys
    ensures !Get(SerializeErrorKeys(params, keys), k).ErrorObj?
    ensures Get(params, k).ErrorObj? ==>
      Get(SerializeErrorKeys(params, keys), k)
        == SerializedError(Get(params, k).message, Get(params, k).detail, Get(params, k).stack)
  {
    SerializeErrorKeysLookup(params, keys, k);
  }

  // ---- the message ----

  /** The message is the non-empty join of the fragments and a truthy merged
      `message`; failing that, the HTTP summary; failing that, the error's
      message; failing that, there is no `message` key. Nothing else
      changes. */
  lemma MessageFallbacks(e: Edition, params: Record, fragments: seq<string>, originalUrl: Value, k: string)
    ensures var text := Join(MessageParts(fragments, params), "; ");
      var r := AssembleMessage(e, params, fragments, originalUrl);
      var http := Get(params, "httpRequest");
      var err := Get(params, "error");
      && (text != "" ==> r["message"] == Str(text))
      && (text == "" && Truthy(http) ==> r["message"] == Str(HttpSummary(e, http, originalUrl)))
      && (text == "" && !Truthy(http) && Truthy(err) ==> Get(r, "message") == Prop(err, "message"))
      && (text == "" && !Truthy(http) && !Truthy(err) ==> "message" !in r)
      && (k != "message" ==> Get(r, k) == Get(params, k))
  {
  }

  /** The parts are the fragments in order, then the merged `message` when it
      is truthy. */
  lemma MessagePartsOrder(fragments: seq<string>, params: Record)
    ensures MessageParts(fragments, params)[..|fragments|] == fragments
    ensures |MessageParts(fragments, params)| == |fragments| + (if Truthy(Get(params, "message")) then 1 else 0)
    ensures Truthy(Get(params, "message")) ==> MessageParts(fragments, params)[|fragments|] == JoinText(Get(params, "message"))
  {
  }

  /** The summary's URL is the request's `originalUrl` when it is truthy, in
      lib/index.js and dist/index.cjs; index.js always uses the full
      `requestUrl`. */
  lemma SummaryUrl(e: Edition, http: Value, originalUrl: Value)
    ensures e.Legacy? || !Truthy(originalUrl) ==> HttpSummary(e, http, originalUrl) == HttpSummary(Lib, http, Undefined)
    ensures !e.Legacy? && Truthy(originalUrl) ==>
      HttpSummary(e, http, originalUrl) == HttpSummary(Lib, Obj(map["requestMethod" := Prop(http, "requestMethod"),
        "status" := Prop(http, "status"), "latency" := Prop(http, "latency"), "requestUrl" := originalUrl]), Undefined)
  {
  }

  // ---- labels ----

  /** A truthy field moves into an absent or object-valued labels entry and
      leaves the top level; no other key changes. */
  lemma MakeLabelMoves(e: Edition, params: Record, key: string, setting: Option<LabelsSetting>, k: string)
    requires Truthy(Get(params, key)) && setting != Some(Off)
    requires key != LabelsKeyName(setting)
    requires Get(params, LabelsKeyName(setting)) == Undefined || Get(params, LabelsKeyName(setting)).Obj?
    ensures MakeLabel(e, params, key, setting).Ok?
    ensures var p := MakeLabel(e, params, key, setting).value;
      var lk := LabelsKeyName(setting);
      var before := Get(params, lk);
      && key !in p
      && p[lk] == Obj((if before.Obj? then before.fields else map[])[key := params[key]])
      && (k != key && k != lk ==> Get(p, k) == Get(params, k))
  {
  }

  /** A falsy field, or any field when `labelsKey` is `false`, stays where it is. */
  lemma MakeLabelStays(e: Edition, params: Record, key: string, setting: Option<LabelsSetting>)
    requires !Truthy(Get(params, key)) || setting == Some(Off)
    ensures MakeLabel(e, params, key, setting) == Ok(params)
  {
  }

  /** `makeLabel` throws exactly when the labels entry is `null`, or holds a
      string, number or boolean in strict code. */
  lemma MakeLabelThrows(e: Edition, params: Record, key: string, setting: Option<LabelsSetting>)
    ensures MakeLabel(e, params, key, setting).Throws? <==>
      Truthy(Get(params, key)) && setting != Some(Off)
      && var c := Get(params, LabelsKeyName(setting));
         (c.Null? || (!e.Legacy? && (c.Str? || c.Num? || c.Bool?)))
  {
  }

  /** When `labelsKey` is `false`, promotion changes nothing. */
  lemma {:induction false} PromoteOff(e: Edition, params: Record, keys: seq<string>)
    ensures PromoteLabels(e, params, keys, Some(Off)) == Ok(params)
    decreases |keys|
  {
    if |keys| > 0 {
      PromoteOff(e, params, keys[1..]);
    }
  }

  /** Promotion touches only the listed keys and the labels entry. */
  lemma {:induction false} PromoteFrame(e: Edition, params: Record, keys: seq<string>, setting: Option<LabelsSetting>, k: string)
    requires PromoteLabels(e, params, keys, setting).Ok?
    requires k !in keys && k != LabelsKeyName(setting)
    ensures Get(PromoteLabels(e, params, keys, setting).value, k) == Get(params, k)
    ensures k in PromoteLabels(e, params, keys, setting).value <==> k in params
    decreases |keys|
  {
    if |keys| > 0 {
      var p := MakeLabel(e, params, keys[0], setting).value;
      PromoteFrame(e, p, keys[1..], setting, k);
    }
  }

  /** A key written in `opts.labels` is one property holding the value
      written last, and `for...in` visits it. */
  lemma {:induction false} LabelsObjectLookup(labels: seq<(string, Value)>, i: nat)
    requires i < |labels|
    requires forall j :: i < j < |labels| ==> labels[j].0 != labels[i].0
    ensures labels[i].0 in LabelsObject(labels) && LabelsObject(labels)[labels[i].0] == labels[i].1
    ensures labels[i].0 in LabelKeys(labels)
  {
    if i < |labels| - 1 {
      var init := labels[..|labels| - 1];
      assert forall j :: i < j < |init| ==> init[j] == labels[j];
      LabelsObjectLookup(init, i);
    }
  }

  /** A key written twice in `opts.labels` is visited once, holding the value
      written last; a falsy one stays at the top level. */
  lemma RepeatedLabelKey()
    ensures LabelKeys([("a", Str("x")), ("a", Str(""))]) == ["a"]
    ensures LabelsObject([("a", Str("x")), ("a", Str(""))]) == map["a" := Str("")]
    ensures StaticLabels(Lib, map[], ["a"], map["a" := Str("")], Some(Named("L"))) == Ok(map["a" := Str("")])
  {
  }

  /** With labels on, an absent or object-valued labels entry and no listed
      key naming it, promotion succeeds and the entry stays absent or an
      object. */
  lemma {:induction false} PromoteOk(e: Edition, params: Record, keys: seq<string>, setting: Option<LabelsSetting>)
    requires setting != Some(Off) && LabelsKeyName(setting) !in keys
    requires Get(params, LabelsKeyName(setting)) == Undefined || Get(params, LabelsKeyName(setting)).Obj?
    ensures PromoteLabels(e, params, keys, setting).Ok?
    ensures var c := Get(PromoteLabels(e, params, keys, setting).value, LabelsKeyName(setting));
      c == Undefined || c.Obj?
    decreases |keys|
  {
    if |keys| > 0 {
      LabelStep(e, params, keys[0], setting, keys[0]);
      PromoteOk(e, MakeLabel(e, params, keys[0], setting).value, keys[1..], setting);
    }
  }

  /** One `makeLabel` under the conditions of `PromoteOk`: it succeeds, the
      entry stays absent or an object with the fields it had, and a key other
      than `key` and the entry keeps its value and its presence. */
  lemma LabelStep(e: Edition, params: Record, key: string, setting: Option<LabelsSetting>, k: string)
    requires setting != Some(Off) && key != LabelsKeyName(setting)
    requires Get(params, LabelsKeyName(setting)) == Undefined || Get(params, LabelsKeyName(setting)).Obj?
    ensures MakeLabel(e, params, key, setting).Ok?
    ensures var p := MakeLabel(e, params, key, setting).value;
      var before := Get(params, LabelsKeyName(setting));
      var after := Get(p, LabelsKeyName(setting));
      && (after == Undefined || after.Obj?)
      && (before.Obj? ==> after.Obj? && forall f :: f in before.fields && f != key ==> f in after.fields && after.fields[f] == before.fields[f])
      && (k != key && k != LabelsKeyName(setting) ==> Get(p, k) == Get(params, k) && (k in p <==> k in params))
  {
  }

  /** A key already moved into the labels entry stays there, and off the top
      level, through any later promotion. */
  lemma {:induction false} PromoteKeepsLabel(e: Edition, params: Record, keys: seq<string>, setting: Option<LabelsSetting>, k: string, v: Value)
    requires setting != Some(Off) && LabelsKeyName(setting) !in keys && k != LabelsKeyName(setting)
    requires k !in params
    requires var c := Get(params, LabelsKeyName(setting)); c.Obj? && k in c.fields && c.fields[k] == v
    ensures PromoteLabels(e, params, keys, setting).Ok?
    ensures var r := PromoteLabels(e, params, keys, setting).value;
      var c := Get(r, LabelsKeyName(setting));
      k !in r && c.Obj? && k in c.fields && c.fields[k] == v
    decreases |keys|
  {
    PromoteOk(e, params, keys, setting);
    if |keys| > 0 {
      LabelStep(e, params, keys[0], setting, k);
      if keys[0] == k {
        MakeLabelStays(e, params, k, setting);
      }
      PromoteKeepsLabel(e, MakeLabel(e, params, keys[0], setting).value, keys[1..], setting, k, v);
    }
  }

  /** The whole `labelsProperties.forEach`: with labels on, an absent or
      object-valued labels entry and no listed key naming it, it succeeds;
      each listed key whose value is truthy ends up under the labels entry
      and leaves the top level, and each other listed key keeps its value. */
  lemma {:induction false} PromoteMoves(e: Edition, params: Record, keys: seq<string>, setting: Option<LabelsSetting>, k: string)
    requires setting != Some(Off) && LabelsKeyName(setting) !in keys
    requires Get(params, LabelsKeyName(setting)) == Undefined || Get(params, LabelsKeyName(setting)).Obj?
    requires k in keys
    ensures PromoteLabels(e, params, keys, setting).Ok?
    ensures var r := PromoteLabels(e, params, keys, setting).value;
      var c := Get(r, LabelsKeyName(setting));
      if Truthy(Get(params, k)) then k !in r && c.Obj? && k in c.fields && c.fields[k] == params[k]
      else Get(r, k) == Get(params, k)
    decreases |keys|
  {
    PromoteOk(e, params, keys, setting);
    LabelStep(e, params, keys[0], setting, k);
    var p := MakeLabel(e, params, keys[0], setting).value;
    if keys[0] == k && Truthy(Get(params, k)) {
      MakeLabelMoves(e, params, k, setting, k);
      PromoteKeepsLabel(e, p, keys[1..], setting, k, params[k]);
    } else if keys[0] == k && k !in keys[1..] {
      MakeLabelStays(e, params, k, setting);
      PromoteFrame(e, p, keys[1..], setting, k);
    } else {
      if keys[0] == k {
        MakeLabelStays(e, params, k, setting);
      }
      PromoteMoves(e, p, keys[1..], setting, k);
    }
  }

  /** Static labels touch only their own keys and the labels entry. */
  lemma {:induction false} StaticFrame(e: Edition, params: Record, keys: seq<string>, labels: Record, setting: Option<LabelsSetting>, k: string)
    requires StaticLabels(e, params, keys, labels, setting).Ok?
    requires k !in keys && k != LabelsKeyName(setting)
    ensures Get(StaticLabels(e, params, keys, labels, setting).value, k) == Get(params, k)
    ensures k in StaticLabels(e, params, keys, labels, setting).value <==> k in params
    decreases |keys|
  {
    if |keys| > 0 {
      var p := MakeLabel(e, params[keys[0] := Get(labels, keys[0])], keys[0], setting).value;
      StaticFrame(e, p, keys[1..], labels, setting, k);
    }
  }

  /** With labels on, an absent or object-valued labels entry and no static
      label naming it, the static labels succeed and the entry stays absent
      or an object. */
  lemma {:induction false} StaticOk(e: Edition, params: Record, keys: seq<string>, labels: Record, setting: Option<LabelsSetting>)
    requires setting != Some(Off) && LabelsKeyName(setting) !in keys
    requires Get(params, LabelsKeyName(setting)) == Undefined || Get(params, LabelsKeyName(setting)).Obj?
    ensures StaticLabels(e, params, keys, labels, setting).Ok?
    ensures var c := Get(StaticLabels(e, params, keys, labels, setting).value, LabelsKeyName(setting));
      c == Undefined || c.Obj?
    decreases |keys|
  {
    if |keys| > 0 {
      var q := params[keys[0] := Get(labels, keys[0])];
      LabelStep(e, q, keys[0], setting, keys[0]);
      StaticOk(e, MakeLabel(e, q, keys[0], setting).value, keys[1..], labels, setting);
    }
  }

  /** A key already under the labels entry, and not a static label, stays
      there and off the top level through the static labels. */
  lemma {:induction false} StaticKeepsLabel(e: Edition, params: Record, keys: seq<string>, labels: Record, setting: Option<LabelsSetting>, k: string, v: Value)
    requires setting != Some(Off) && LabelsKeyName(setting) !in keys && k != LabelsKeyName(setting) && k !in keys
    requires k !in params
    requires var c := Get(params, LabelsKeyName(setting)); c.Obj? && k in c.fields && c.fields[k] == v
    ensures StaticLabels(e, params, keys, labels, setting).Ok?
    ensures var r := StaticLabels(e, params, keys, labels, setting).value;
      var c := Get(r, LabelsKeyName(setting));
      k !in r && c.Obj? && k in c.fields && c.fields[k] == v
    decreases |keys|
  {
    StaticOk(e, params, keys, labels, setting);
    if |keys| > 0 {
      var q := params[keys[0] := Get(labels, keys[0])];
      LabelStep(e, q, keys[0], setting, k);
      StaticKeepsLabel(e, MakeLabel(e, q, keys[0], setting).value, keys[1..], labels, setting, k, v);
    }
  }

  /** The whole `for (key in opts.labels)` loop over distinct keys: with labels
      on, an absent or object-valued labels entry and no static label naming
      it, it succeeds; a static label with a truthy value ends up under the
      labels entry and not at the top level, one with a falsy value stays at
      the top level. */
  lemma {:induction false} StaticMoves(e: Edition, params: Record, keys: seq<string>, labels: Record, setting: Option<LabelsSetting>, k: string)
    requires setting != Some(Off) && LabelsKeyName(setting) !in keys
    requires Get(params, LabelsKeyName(setting)) == Undefined || Get(params, LabelsKeyName(setting)).Obj?
    requires forall i, j :: 0 <= i < j < |keys| ==> keys[i] != keys[j]
    requires k in keys
    ensures StaticLabels(e, params, keys, labels, setting).Ok?
    ensures var r := StaticLabels(e, params, keys, labels, setting).value;
      var c := Get(r, LabelsKeyName(setting));
      if Truthy(Get(labels, k)) then k !in r && c.Obj? && k in c.fields && c.fields[k] == labels[k]
      else Get(r, k) == Get(labels, k)
    decreases |keys|
  {
    StaticOk(e, params, keys, labels, setting);
    var q := params[keys[0] := Get(labels, keys[0])];
    LabelStep(e, q, keys[0], setting, k);
    var p := MakeLabel(e, q, keys[0], setting).value;
    if keys[0] == k {
      assert k !in keys[1..] by {
        forall j | 0 <= j < |keys[1..]| ensures keys[1..][j] != k {
          assert keys[1..][j] == keys[j + 1];
        }
      }
      if Truthy(Get(labels, k)) {
        MakeLabelMoves(e, q, k, setting, k);
        StaticKeepsLabel(e, p, keys[1..], labels, setting, k, labels[k]);
      } else {
        MakeLabelStays(e, q, k, setting);
        StaticFrame(e, p, keys[1..], labels, setting, k);
      }
    } else {
      StaticMoves(e, p, keys[1..], labels, setting, k);
    }
  }

  // ---- the whole record ----

  /** Whatever the arguments, the HTTP status or a caller-supplied
      `severity`, the record's severity is the calling level's upper-case
      name (unless the time key is `severity`), and the time key holds `now`.
      So the upgrade to `ERROR` never reaches the record. */
  lemma SeverityAndTime(e: Edition, args: seq<Arg>, l: Level, c: Config, now: string)
    requires Payload(e, args, l, c, now).Ok?
    ensures var r := Payload(e, args, l, c, now).value;
      && r[TimeKey(e, c)] == Str(now)
      && (TimeKey(e, c) != "severity" ==> r["severity"] == Str(Severity(l)))
  {
  }

  /** The steps after the message touch no key but the labels entry, the
      keys promoted into it, the static labels, `severity` and the time key. */
  lemma FinishedFrame(e: Edition, params: Record, l: Level, c: Config, now: string, k: string)
    requires Finished(e, params, l, c, now).Ok?
    requires c.labelsProperties.Some? && k !in c.labelsProperties.value
    requires e.Legacy? || c.labels.None? || k !in LabelsObject(c.labels.value)
    requires k != LabelsKeyName(c.labelsKey) && k != "severity" && k != TimeKey(e, c)
    ensures Get(Finished(e, params, l, c, now).value, k) == Get(params, k)
    ensures k in Finished(e, params, l, c, now).value <==> k in params
  {
    var p := PromoteLabels(e, params, c.labelsProperties.value, c.labelsKey).value;
    PromoteFrame(e, params, c.labelsProperties.value, c.labelsKey, k);
    if !e.Legacy? && c.labels.Some? {
      StaticFrame(e, p, LabelKeys(c.labels.value), LabelsObject(c.labels.value), c.labelsKey, k);
    }
  }

  /** The label steps succeed when labels are on, the labels entry is absent
      or an object, and neither a listed key nor a static label names it. */
  predicate LabelsWritable(e: Edition, params: Record, c: Config) {
    var lk := LabelsKeyName(c.labelsKey);
    && c.labelsKey != Some(Off) && c.labelsProperties.Some? && lk !in c.labelsProperties.value
    && (Get(params, lk) == Undefined || Get(params, lk).Obj?)
    && (!e.Legacy? && c.labels.Some? ==> lk !in LabelsObject(c.labels.value))
  }

  /** Under `LabelsWritable`, the label steps succeed. */
  lemma LabelledOk(e: Edition, params: Record, c: Config)
    requires LabelsWritable(e, params, c)
    ensures Labelled(e, params, c).Ok?
  {
    PromoteOk(e, params, c.labelsProperties.value, c.labelsKey);
    if !e.Legacy? && c.labels.Some? {
      var p := PromoteLabels(e, params, c.labelsProperties.value, c.labelsKey).value;
      StaticOk(e, p, LabelKeys(c.labels.value), LabelsObject(c.labels.value), c.labelsKey);
    }
  }

  /** After the label steps, a listed key that is not a static label is under
      the labels entry and off the top level when its value was truthy, and
      keeps its value otherwise. */
  lemma LabelledPromoted(e: Edition, params: Record, c: Config, k: string)
    requires LabelsWritable(e, params, c)
    requires k in c.labelsProperties.value && (e.Legacy? || c.labels.None? || k !in LabelsObject(c.labels.value))
    ensures Labelled(e, params, c).Ok?
    ensures var r := Labelled(e, params, c).value;
      var lab := Get(r, LabelsKeyName(c.labelsKey));
      if Truthy(Get(params, k)) then k !in r && lab.Obj? && k in lab.fields && lab.fields[k] == params[k]
      else Get(r, k) == Get(params, k)
  {
    var keys := c.labelsProperties.value;
    PromoteMoves(e, params, keys, c.labelsKey, k);
    var p := PromoteLabels(e, params, keys, c.labelsKey).value;
    if !e.Legacy? && c.labels.Some? {
      var ks, obj := LabelKeys(c.labels.value), LabelsObject(c.labels.value);
      if Truthy(Get(params, k)) {
        StaticKeepsLabel(e, p, ks, obj, c.labelsKey, k, params[k]);
      } else {
        PromoteOk(e, params, keys, c.labelsKey);
        StaticOk(e, p, ks, obj, c.labelsKey);
        StaticFrame(e, p, ks, obj, c.labelsKey, k);
      }
    }
  }

  /** After the label steps, a static label (lib/index.js and
      dist/index.cjs) is under the labels entry and off the top level when its
      value is truthy, and at the top level with its value otherwise. */
  lemma LabelledStatic(e: Edition, params: Record, c: Config, k: string)
    requires LabelsWritable(e, params, c)
    requires !e.Legacy? && c.labels.Some? && k in LabelsObject(c.labels.value)
    ensures Labelled(e, params, c).Ok?
    ensures var r := Labelled(e, params, c).value;
      var lab := Get(r, LabelsKeyName(c.labelsKey));
      var v := LabelsObject(c.labels.value)[k];
      if Truthy(v) then k !in r && lab.Obj? && k in lab.fields && lab.fields[k] == v
      else Get(r, k) == v
  {
    var keys := c.labelsProperties.value;
    PromoteOk(e, params, keys, c.labelsKey);
    var p := PromoteLabels(e, params, keys, c.labelsKey).value;
    StaticMoves(e, p, LabelKeys(c.labels.value), LabelsObject(c.labels.value), c.labelsKey, k);
  }

  /** Setting severity and time fails exactly when the label steps do, and
      keeps every other key's value and presence. */
  lemma FinishedKeeps(e: Edition, params: Record, l: Level, c: Config, now: string, k: string)
    requires k != "severity" && k != TimeKey(e, c)
    ensures Finished(e, params, l, c, now).Ok? == Labelled(e, params, c).Ok?
    ensures Finished(e, params, l, c, now).Ok? ==>
      var q := Labelled(e, params, c).value;
      var r := Finished(e, params, l, c, now).value;
      Get(r, k) == Get(q, k) && (k in r <==> k in q)
  {
  }

  /** `buildPayload` runs the label steps on the record `Unlabelled` builds,
      so both laws above hold of the record it returns. */
  lemma PayloadLabels(e: Edition, args: seq<Arg>, l: Level, c: Config, now: string, k: string)
    requires Unlabelled(e, args, l, c).Ok? && LabelsWritable(e, Unlabelled(e, args, l, c).value, c)
    requires LabelsKeyName(c.labelsKey) != "severity" && LabelsKeyName(c.labelsKey) != TimeKey(e, c)
    requires k != "severity" && k != TimeKey(e, c)
    ensures Payload(e, args, l, c, now).Ok?
    ensures var p := Unlabelled(e, args, l, c).value;
      var r := Payload(e, args, l, c, now).value;
      var lab := Get(r, LabelsKeyName(c.labelsKey));
      && (k in c.labelsProperties.value && (e.Legacy? || c.labels.None? || k !in LabelsObject(c.labels.value)) ==>
            if Truthy(Get(p, k)) then k !in r && lab.Obj? && k in lab.fields && lab.fields[k] == p[k]
            else Get(r, k) == Get(p, k))
      && (!e.Legacy? && c.labels.Some? && k in LabelsObject(c.labels.value) ==>
            var v := LabelsObject(c.labels.value)[k];
            if Truthy(v) then k !in r && lab.Obj? && k in lab.fields && lab.fields[k] == v
            else Get(r, k) == v)
  {
    var p := Unlabelled(e, args, l, c).value;
    FinishedKeeps(e, p, l, c, now, k);
    FinishedKeeps(e, p, l, c, now, LabelsKeyName(c.labelsKey));
    if k in c.labelsProperties.value && (e.Legacy? || c.labels.None? || k !in LabelsObject(c.labels.value)) {
      LabelledPromoted(e, p, c, k);
    } else if !e.Legacy? && c.labels.Some? && k in LabelsObject(c.labels.value) {
      LabelledStatic(e, p, c, k);
    } else {
      LabelledOk(e, p, c);
    }
  }

  /** The record's `hostname` is `opts.hostname`, whatever the arguments
      say, unless it is a label or the time key. */
  lemma HostnameOverwritten(e: Edition, args: seq<Arg>, l: Level, c: Config, now: string)
    requires Payload(e, args, l, c, now).Ok?
    requires c.labelsProperties.Some? && "hostname" !in c.labelsProperties.value
    requires e.Legacy? || c.labels.None? || "hostname" !in LabelsObject(c.labels.value)
    requires "hostname" != LabelsKeyName(c.labelsKey) && "hostname" != TimeKey(e, c)
    ensures Get(Payload(e, args, l, c, now).value, "hostname") == Str(c.hostname)
  {
    FinishedFrame(e, Unlabelled(e, args, l, c).value, l, c, now, "hostname");
  }

  /** The message survives the label steps unless it is a label key, the
      labels key itself or the time key. */
  predicate MessageKept(e: Edition, c: Config) {
    && c.labelsProperties.Some? && "message" !in c.labelsProperties.value
    && (e.Legacy? || c.labels.None? || "message" !in LabelsObject(c.labels.value))
    && "message" != LabelsKeyName(c.labelsKey) && "message" != TimeKey(e, c)
  }

  /** Reading one argument is one pass of the loop. */
  lemma MergeOne(e: Edition, acc: Acc, a: Arg)
    ensures MergeArgs(e, acc, [a]) == ApplyArg(e, acc, a)
  {
    assert [a][1..] == [];
  }

  /** Without a truthy `req`, the record before the label steps is the
      message step on the arguments read, with the error keys serialised. */
  lemma UnlabelledWithoutRequest(e: Edition, args: seq<Arg>, l: Level, c: Config)
    requires !Truthy(Get(MergeArgs(e, Acc(map["name" := Str(c.name)], []), args).params, "req"))
    ensures var acc := MergeArgs(e, Acc(map["name" := Str(c.name)], []), args);
      Unlabelled(e, args, l, c)
        == Ok(AssembleMessage(e, SerializeErrorKeys(acc.params, c.errorKeys), acc.fragments, Undefined)["hostname" := Str(c.hostname)])
  {
    var acc := MergeArgs(e, Acc(map["name" := Str(c.name)], []), args);
    HttpStageSkipped(e, acc.params, Severity(l));
  }

  /** With no fragments, no `message`, no `httpRequest` and an error object
      under `error`, the message step writes that error's message. */
  lemma ErrorMessageStep(e: Edition, params: Record, keys: seq<string>, m: string, d: Value, st: string)
    requires Get(params, "error") == SerializedError(m, d, st)
    requires Get(params, "message") == Undefined && Get(params, "httpRequest") == Undefined
    ensures Get(AssembleMessage(e, SerializeErrorKeys(params, keys), [], Undefined), "message") == Str(m)
  {
    SerializeErrorKeysLookup(params, keys, "error");
    SerializeErrorKeysLookup(params, keys, "message");
    SerializeErrorKeysLookup(params, keys, "httpRequest");
    MessageFallbacks(e, SerializeErrorKeys(params, keys), [], Undefined, "message");
  }

  /** Before the label steps, a call whose only argument is an `Error` has
      that error's message as its message. */
  lemma ErrorOnlyUnlabelled(e: Edition, m: string, d: Value, st: string, l: Level, c: Config)
    ensures Unlabelled(e, [ErrArg(m, d, st)], l, c).Ok?
    ensures Get(Unlabelled(e, [ErrArg(m, d, st)], l, c).value, "message") == Str(m)
  {
    var acc0 := Acc(map["name" := Str(c.name)], []);
    MergeOne(e, acc0, ErrArg(m, d, st));
    var acc := MergeArgs(e, acc0, [ErrArg(m, d, st)]);
    UnlabelledWithoutRequest(e, [ErrArg(m, d, st)], l, c);
    ErrorMessageStep(e, acc.params, c.errorKeys, m, d, st);
  }

  /** A call whose only argument is an `Error` logs that error's message as
      the record's message. */
  lemma ErrorOnlyMessage(e: Edition, m: string, d: Value, st: string, l: Level, c: Config, now: string)
    requires Payload(e, [ErrArg(m, d, st)], l, c, now).Ok? && MessageKept(e, c)
    ensures Get(Payload(e, [ErrArg(m, d, st)], l, c, now).value, "message") == Str(m)
  {
    ErrorOnlyUnlabelled(e, m, d, st, l, c);
    FinishedFrame(e, Unlabelled(e, [ErrArg(m, d, st)], l, c).value, l, c, now, "message");
  }

  /** An index key is made of digits, so no key starting with a letter is one. */
  lemma NotAnIndexKey(items: seq<Value>, k: string)
    requires |k| > 0 && !IsDigit(k[0])
    ensures k !in IndexFields(items)
  {
    IndexFieldsKeys(items, k);
    forall j: nat | j < |items|
      ensures NatText(j) != k
    {
      assert IsDigit(NatText(j)[0]);
    }
  }

  /** Arguments other than scalars give no fragments. */
  lemma {:induction false} NoScalarTexts(args: seq<Arg>)
    requires forall i :: 0 <= i < |args| ==> !args[i].Scalar?
    ensures ScalarTexts(args) == []
    decreases |args|
  {
    if |args| > 0 {
      NoScalarTexts(args[1..]);
    }
  }

  /** Arrays and `null`s alone write none of these keys. */
  lemma ArraysTouchNothing(e: Edition, args: seq<Arg>, k: string)
    requires forall i :: 0 <= i < |args| ==> args[i].ArrArg? || args[i].NullArg?
    requires k in {"message", "error", "req", "httpRequest"}
    ensures forall i :: 0 <= i < |args| ==> !Touches(e, args[i], k)
  {
    forall i | 0 <= i < |args|
      ensures !Touches(e, args[i], k)
    {
      if args[i].ArrArg? {
        NotAnIndexKey(args[i].items, k);
      }
    }
  }

  /** A call with no text, object or `Error` argument writes a record with
      no `message` at all. */
  lemma NoTextNoMessage(e: Edition, args: seq<Arg>, l: Level, c: Config, now: string)
    requires Payload(e, args, l, c, now).Ok? && MessageKept(e, c)
    requires forall i :: 0 <= i < |args| ==> args[i].ArrArg? || args[i].NullArg?
    ensures "message" !in Payload(e, args, l, c, now).value
  {
    var acc0 := Acc(map["name" := Str(c.name)], []);
    var acc := MergeArgs(e, acc0, args);
    ArraysTouchNothing(e, args, "message");
    ArraysTouchNothing(e, args, "error");
    ArraysTouchNothing(e, args, "req");
    ArraysTouchNothing(e, args, "httpRequest");
    MergeUntouched(e, acc0, args, "message");
    MergeUntouched(e, acc0, args, "error");
    MergeUntouched(e, acc0, args, "req");
    MergeUntouched(e, acc0, args, "httpRequest");
    MergeFragments(e, acc0, args);
    NoScalarTexts(args);
    UnlabelledWithoutRequest(e, args, l, c);
    var p := SerializeErrorKeys(acc.params, c.errorKeys);
    SerializeErrorKeysLookup(acc.params, c.errorKeys, "error");
    SerializeErrorKeysLookup(acc.params, c.errorKeys, "message");
    SerializeErrorKeysLookup(acc.params, c.errorKeys, "httpRequest");
    MessageFallbacks(e, p, acc.fragments, Undefined, "message");
    FinishedFrame(e, Unlabelled(e, args, l, c).value, l, c, now, "message");
  }

  /** index.js has no static labels and always writes the time under `time`. */
  lemma LegacyFixedSteps(params: Record, c: Config)
    ensures Labelled(Legacy, params, c) == Labelled(Legacy, params, c.(labels := None))
    ensures TimeKey(Legacy, c) == "time"
  {
  }

  /** Without `labelsProperties`, index.js throws. */
  lemma LegacyNeedsLabelsProperties(args: seq<Arg>, l: Level, c: Config, now: string)
    requires c.labelsProperties.None?
    ensures Payload(Legacy, args, l, c, now).Throws?
  {
  }
}
