/** The option resolution at the top of `createLogger`: each option that the
    caller left falsy is taken from the environment, and failing that from a
    default. index.js takes `labelsKey` and `labelsProperties` from the
    environment only, and leaves `timeProperty` alone. */
module LoggerConfig {
  import opened Text
  import opened JsValues
  import opened PayloadBuilder

  /** `process.env`. */
  type Env = map<string, string>

  /** The options object passed to `createLogger`; `None` for a property it
      does not have. An array option is truthy even when empty. */
  datatype Options = Options(
    name: Option<string>,
    hostname: Option<string>,
    level: Option<string>,
    labelsKey: Option<LabelsSetting>,
    labelsProperties: Option<seq<string>>,
    errorKeys: Option<seq<string>>,
    timeProperty: Option<string>,
    labels: Option<seq<(string, Value)>>)

  const DefaultName := "ucdlib-logger"
  const DefaultLabelsProperties: seq<string> := ["name", "hostname", "corkTraceId"]
  const DefaultErrorKeys: seq<string> := ["err", "error", "e"]
  const DefaultLevel := "info"
  const DefaultTimeProperty := "time"

  /** The options object with no property set. */
  const NoOptions := Options(None, None, None, None, None, None, None, None)

  /** `process.env[k]` when it is truthy (set and not empty). */
  function EnvText(env: Env, k: string): Option<string> {
    if k in env && env[k] != "" then Some(env[k]) else None
  }

  /** `opt || process.env[k] || fallback`. */
  function Resolve(opt: Option<string>, env: Env, k: string, fallback: string): string {
    if TruthyText(opt) then opt.value
    else if EnvText(env, k).Some? then env[k]
    else fallback
  }

  /** `p => p.trim()` over a list. */
  function TrimAll(xs: seq<string>): (r: seq<string>)
    ensures |r| == |xs|
    ensures forall i :: 0 <= i < |xs| ==> r[i] == Trim(xs[i])
  {
    if |xs| == 0 then [] else [Trim(xs[0])] + TrimAll(xs[1..])
  }

  /** `s.split(',').map(p => p.trim())`. */
  function SplitList(s: string): seq<string> {
    TrimAll(Split(s, ','))
  }

  /** A given `labelsKey` option is truthy when it is a non-empty key. */
  predicate KeyGiven(opt: Option<LabelsSetting>) {
    opt.Some? && opt.value.Named? && opt.value.key != ""
  }

  /** The string `'false'` stands for the disabled value `false`. */
  function KeySetting(k: string): LabelsSetting {
    if k == "false" then Off else Named(k)
  }

  /** lib/index.js and dist/index.cjs replace every falsy option, `false`
      included, by `LOG_LABELS_KEY` or the default; index.js consults only a
      truthy `LOG_LABELS_KEY`. */
  function ResolveLabelsKey(e: Edition, opt: Option<LabelsSetting>, env: Env): Option<LabelsSetting> {
    if KeyGiven(opt) then opt
    else if e.Legacy? then
      if EnvText(env, "LOG_LABELS_KEY").Some? then Some(KeySetting(env["LOG_LABELS_KEY"])) else opt
    else Some(KeySetting(Resolve(None, env, "LOG_LABELS_KEY", DefaultLabelsKey)))
  }

  /** A list option, else the split environment value, else the default; in
      index.js `labelsProperties` has no default. */
  function ResolveList(opt: Option<seq<string>>, env: Env, k: string, fallback: Option<seq<string>>): Option<seq<string>> {
    if opt.Some? then opt
    else if EnvText(env, k).Some? then Some(SplitList(env[k]))
    else fallback
  }

  /** The options object once `createLogger` has filled it in. */
  function ResolveConfig(e: Edition, opts: Options, env: Env, machine: string): Config {
    Config(
      Resolve(opts.name, env, "LOG_NAME", DefaultName),
      Resolve(opts.hostname, env, "LOG_HOSTNAME", machine),
      ToLower(Resolve(opts.level, env, "LOG_LEVEL", DefaultLevel)),
      ResolveLabelsKey(e, opts.labelsKey, env),
      ResolveList(opts.labelsProperties, env, "LOG_LABELS_PROPERTIES",
                  if e.Legacy? then None else Some(DefaultLabelsProperties)),
      ResolveList(opts.errorKeys, env, "LOG_ERROR_KEYS", Some(DefaultErrorKeys)).value,
      if e.Legacy? then opts.timeProperty else Some(Resolve(opts.timeProperty, env, "LOG_TIME_PROPERTY", DefaultTimeProperty)),
      opts.labels)
  }

  /** `if( !opts.x ) { opts.x = process.env.k || fallback; }`. */
  method FillText(opt: Option<string>, env: Env, k: string, fallback: string) returns (v: string)
    ensures v == Resolve(opt, env, k, fallback)
  {
    if TruthyText(opt) {
      return opt.value;
    }
    v := fallback;
    if k in env && env[k] != "" {
      v := env[k];
    }
  }

  /** The same for a list option, split and trimmed from the environment. */
  method FillList(opt: Option<seq<string>>, env: Env, k: string, fallback: Option<seq<string>>) returns (v: Option<seq<string>>)
    ensures v == ResolveList(opt, env, k, fallback)
  {
    v := opt;
    if v.None? {
      if k in env && env[k] != "" {
        v := Some(SplitList(env[k]));
      } else {
        v := fallback;
      }
    }
  }

  /** The `labelsKey` step, with the `'false'` conversion. */
  method FillLabelsKey(e: Edition, opt: Option<LabelsSetting>, env: Env) returns (v: Option<LabelsSetting>)
    ensures v == ResolveLabelsKey(e, opt, env)
  {
    v := opt;
    var fromEnv := EnvText(env, "LOG_LABELS_KEY");
    if !KeyGiven(v) && (!e.Legacy? || fromEnv.Some?) {
      var k := if fromEnv.Some? then fromEnv.value else DefaultLabelsKey;
      v := Some(Named(k));
      if k == "false" {
        v := Some(Off);
      }
    }
  }

  /** The filling-in, one `if( !opts.x )` after another. */
  method FillOptions(e: Edition, opts: Options, env: Env, machine: string) returns (c: Config)
    ensures c == ResolveConfig(e, opts, env, machine)
  {
    var name := FillText(opts.name, env, "LOG_NAME", DefaultName);
    var labelsKey := FillLabelsKey(e, opts.labelsKey, env);
    var labelsProperties := FillList(opts.labelsProperties, env, "LOG_LABELS_PROPERTIES",
                                     if e.Legacy? then None else Some(DefaultLabelsProperties));
    var hostname := FillText(opts.hostname, env, "LOG_HOSTNAME", machine);
    var level := FillText(opts.level, env, "LOG_LEVEL", DefaultLevel);
    level := ToLower(level);
    var errorKeys := FillList(opts.errorKeys, env, "LOG_ERROR_KEYS", Some(DefaultErrorKeys));
    var timeProperty := opts.timeProperty;
    if !e.Legacy? {
      var t := FillText(opts.timeProperty, env, "LOG_TIME_PROPERTY", DefaultTimeProperty);
      timeProperty := Some(t);
    }
    c := Config(name, hostname, level, labelsKey, labelsProperties, errorKeys.value, timeProperty, opts.labels);
  }

  /** The filled-in options as the object merged into the first log record. */
  function ConfigFields(c: Config): Record {
    var base := map["name" := Str(c.name), "hostname" := Str(c.hostname), "level" := Str(c.level),
                    "errorKeys" := Arr(Strs(c.errorKeys))];
    var withKey := match c.labelsKey
      case None => base
      case Some(Off) => base["labelsKey" := Bool(false)]
      case Some(Named(k)) => base["labelsKey" := Str(k)];
    var withProps := if c.labelsProperties.Some? then withKey["labelsProperties" := Arr(Strs(c.labelsProperties.value))] else withKey;
    var withTime := if c.timeProperty.Some? then withProps["timeProperty" := Str(c.timeProperty.value)] else withProps;
    if c.labels.Some? then withTime["labels" := Obj(LabelsObject(c.labels.value))] else withTime
  }

  function Strs(xs: seq<string>): (r: seq<Value>)
    ensures |r| == |xs| && forall i :: 0 <= i < |xs| ==> r[i] == Str(xs[i])
  {
    if |xs| == 0 then [] else [Str(xs[0])] + Strs(xs[1..])
  }

  // ---- properties ----

  /** Option first, then the environment, then the default; an empty string
      counts as absent at both levels. */
  lemma ResolvePrecedence(opt: Option<string>, env: Env, k: string, fallback: string)
    ensures TruthyText(opt) ==> Resolve(opt, env, k, fallback) == opt.value
    ensures !TruthyText(opt) && k in env && env[k] != "" ==> Resolve(opt, env, k, fallback) == env[k]
    ensures !TruthyText(opt) && (k !in env || env[k] == "") ==> Resolve(opt, env, k, fallback) == fallback
  {
  }

  /** The resolved level is in lower case, whatever its source. */
  lemma LevelLowerCase(e: Edition, opts: Options, env: Env, machine: string)
    ensures var l := ResolveConfig(e, opts, env, machine).level;
      ToLower(l) == l && forall i :: 0 <= i < |l| ==> !('A' <= l[i] <= 'Z')
  {
    ToLowerIsLower(Resolve(opts.level, env, "LOG_LEVEL", DefaultLevel));
  }

  /** When every option is given, the environment plays no part. */
  lemma OptionsWin(e: Edition, opts: Options, env: Env, machine: string)
    requires TruthyText(opts.name) && TruthyText(opts.hostname) && TruthyText(opts.level)
    requires KeyGiven(opts.labelsKey) && opts.labelsProperties.Some? && opts.errorKeys.Some?
    requires TruthyText(opts.timeProperty)
    ensures ResolveConfig(e, opts, env, machine) == ResolveConfig(e, opts, map[], machine)
  {
  }

  /** With no options and no environment the defaults apply; index.js then
      has no `labelsKey`, no `labelsProperties` and no `timeProperty`. */
  lemma Defaults(e: Edition, machine: string)
    ensures var c := ResolveConfig(e, NoOptions, map[], machine);
      && c.name == DefaultName && c.hostname == machine && c.level == DefaultLevel
      && c.errorKeys == DefaultErrorKeys && c.labels.None?
      && (e.Legacy? ==> c.labelsKey.None? && c.labelsProperties.None? && c.timeProperty.None?)
      && (!e.Legacy? ==> c.labelsKey == Some(Named(DefaultLabelsKey))
                         && c.labelsProperties == Some(DefaultLabelsProperties)
                         && c.timeProperty == Some(DefaultTimeProperty))
  {
    assert ToLower(DefaultLevel) == DefaultLevel;
  }

  /** In lib/index.js and dist/index.cjs labels are disabled exactly when no
      key option is given and `LOG_LABELS_KEY` is `'false'`; an explicit
      `labelsKey: false` is replaced like any other falsy option. */
  lemma LabelsKeyOffIff(e: Edition, opts: Options, env: Env, machine: string)
    requires !e.Legacy?
    ensures var k := ResolveConfig(e, opts, env, machine).labelsKey;
      && k.Some?
      && (k == Some(Off) <==> !KeyGiven(opts.labelsKey) && "LOG_LABELS_KEY" in env && env["LOG_LABELS_KEY"] == "false")
  {
  }

  /** In index.js an explicit `labelsKey: false` survives unless a truthy
      `LOG_LABELS_KEY` is set, and without that variable the option is kept
      as it is. */
  lemma LegacyLabelsKey(opts: Options, env: Env, machine: string)
    ensures EnvText(env, "LOG_LABELS_KEY").None? ==>
      ResolveConfig(Legacy, opts, env, machine).labelsKey == opts.labelsKey
    ensures opts.labelsKey == Some(Off) && EnvText(env, "LOG_LABELS_KEY").None? ==>
      ResolveConfig(Legacy, opts, env, machine).labelsKey == Some(Off)
  {
  }

  /** `labelsProperties` stays undefined exactly in index.js with neither the
      option nor a truthy `LOG_LABELS_PROPERTIES`. */
  lemma MissingLabelsProperties(e: Edition, opts: Options, env: Env, machine: string)
    ensures ResolveConfig(e, opts, env, machine).labelsProperties.None? <==>
      e.Legacy? && opts.labelsProperties.None? && EnvText(env, "LOG_LABELS_PROPERTIES").None?
  {
  }

  /** A list read from the environment has one trimmed entry per
      comma-separated piece, empty pieces kept, and no entry holds a comma. */
  lemma {:induction false} SplitListEntries(s: string)
    ensures |SplitList(s)| == |Split(s, ',')|
    ensures forall i :: 0 <= i < |SplitList(s)| ==> SplitList(s)[i] == Trim(Split(s, ',')[i])
    ensures forall i :: 0 <= i < |SplitList(s)| ==> ',' !in SplitList(s)[i]
    ensures forall i :: 0 <= i < |SplitList(s)| ==> Trim(SplitList(s)[i]) == SplitList(s)[i]
  {
    var pieces := Split(s, ',');
    SplitPiecesHaveNoSeparator(s, ',');
    forall i | 0 <= i < |pieces|
      ensures ',' !in SplitList(s)[i] && Trim(SplitList(s)[i]) == SplitList(s)[i]
    {
      TrimKeepsOut(pieces[i], ',');
      TrimIdempotent(pieces[i]);
    }
  }

  /** A list read from the environment has one entry more than the value
      has commas, so empty entries are kept: `','` gives two empty ones. */
  lemma EmptyEntriesKept(s: string)
    ensures |SplitList(s)| == Occurrences(s, ',') + 1
    ensures SplitList(",") == ["", ""]
  {
    SplitCount(s, ',');
    assert ","[1..] == "";
  }

  /** A list option, even an empty one, is used as given. */
  lemma ListOptionWins(e: Edition, opts: Options, env: Env, machine: string)
    requires opts.errorKeys.Some? && opts.labelsProperties.Some?
    ensures ResolveConfig(e, opts, env, machine).errorKeys == opts.errorKeys.value
    ensures ResolveConfig(e, opts, env, machine).labelsProperties == opts.labelsProperties
  {
  }

  /** An environment list is used when the option is absent. */
  lemma EnvListUsed(e: Edition, opts: Options, env: Env, machine: string)
    requires opts.errorKeys.None? && "LOG_ERROR_KEYS" in env && env["LOG_ERROR_KEYS"] != ""
    ensures ResolveConfig(e, opts, env, machine).errorKeys == SplitList(env["LOG_ERROR_KEYS"])
  {
  }

  /** Likewise a non-empty `LOG_LABELS_PROPERTIES` is split, in every
      edition. */
  lemma EnvLabelsPropertiesUsed(e: Edition, opts: Options, env: Env, machine: string)
    requires opts.labelsProperties.None? && "LOG_LABELS_PROPERTIES" in env && env["LOG_LABELS_PROPERTIES"] != ""
    ensures ResolveConfig(e, opts, env, machine).labelsProperties == Some(SplitList(env["LOG_LABELS_PROPERTIES"]))
  {
  }
}
