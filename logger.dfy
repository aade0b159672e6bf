/** The object `createLogger` returns: a `level` field that the caller may
    reassign, and one method per level that compares the calling level with
    the current `level`, builds the record and writes it out. Writing out is
    modelled as appending the record to `sink`. */
module LoggerFacade {
  import opened JsValues
  import opened Levels
  import opened PayloadBuilder
  import opened LoggerConfig
  import PayloadFacts

  /** What one call of a level method does: `Ok(None)` when the level is
      filtered out, the record it writes, or the exception `buildPayload`
      throws. */
  function Call(e: Edition, c: Config, threshold: string, l: Level, args: seq<Arg>, now: string): Outcome<Option<Record>> {
    if !Passes(l, threshold) then Ok(None) else Built(Payload(e, args, l, c, now))
  }

  /** A call that passes: the record built, or the exception. */
  function Built(o: Outcome<Record>): Outcome<Option<Record>> {
    match o
    case Ok(rec) => Ok(Some(rec))
    case Throws(why) => Throws(why)
  }

  /** The records a call adds to the sink. */
  function Written(o: Outcome<Option<Record>>): (w: seq<Record>)
    ensures |w| <= 1
  {
    if o.Ok? && o.value.Some? then [o.value.value] else []
  }

  /** The exception a call lets escape, if any. */
  function Escaped(o: Outcome<Option<Record>>): Option<string> {
    if o.Throws? then Some(o.reason) else None
  }

  class Logger {
    const edition: Edition
    /** The filled-in options object that every call reads. */
    const config: Config
    var level: string
    /** The records written so far, oldest first. */
    var sink: seq<Record>

    constructor (e: Edition, c: Config)
      ensures edition == e && config == c && level == c.level && sink == []
    {
      edition := e;
      config := c;
      level := c.level;
      sink := [];
    }

    /** `logger[l](...args)`: `level` is read at the time of the call. */
    method Log(l: Level, args: seq<Arg>, now: string) returns (thrown: Option<string>)
      modifies this
      ensures level == old(level)
      ensures sink == old(sink) + Written(Call(edition, config, old(level), l, args, now))
      ensures thrown == Escaped(Call(edition, config, old(level), l, args, now))
    {
      if !Passes(l, level) {
        return None;
      }
      var out := BuildPayload(edition, args, l, config, now);
      thrown := Write(out);
    }

    /** `console.log` of a built record; an exception passes through. */
    method Write(out: Outcome<Record>) returns (thrown: Option<string>)
      modifies this
      ensures level == old(level)
      ensures sink == old(sink) + Written(Built(out))
      ensures thrown == Escaped(Built(out))
    {
      if out.Throws? {
        return Some(out.reason);
      }
      sink := sink + [out.value];
      thrown := None;
    }

    /** `logger.level = x`. */
    method SetLevel(x: string)
      modifies this
      ensures level == x && sink == old(sink)
    {
      level := x;
    }
  }

  /** `logger.info('Logger initialized', opts)`. */
  function InitArgs(c: Config): seq<Arg> {
    [Scalar("Logger initialized"), ObjArg(ConfigFields(c))]
  }

  /** `createLogger(opts)`: fill in the options, build the logger and make
      the one `info` call; an exception from that call escapes. */
  method CreateLogger(e: Edition, opts: Options, env: Env, machine: string, now: string) returns (r: Outcome<Logger>)
    ensures var c := ResolveConfig(e, opts, env, machine);
      var init := Call(e, c, c.level, Info, InitArgs(c), now);
      && (r.Throws? <==> init.Throws?)
      && (r.Ok? ==> fresh(r.value) && r.value.edition == e && r.value.config == c
                    && r.value.level == c.level && r.value.sink == Written(init))
  {
    var c := FillOptions(e, opts, env, machine);
    var logger := new Logger(e, c);
    var thrown := logger.Log(Info, InitArgs(c), now);
    if thrown.Some? {
      return Throws(thrown.value);
    }
    r := Ok(logger);
  }

  // ---- properties ----

  /** A call is filtered out exactly when its level does not pass. */
  lemma FilteredIff(e: Edition, c: Config, t: string, l: Level, args: seq<Arg>, now: string)
    ensures Call(e, c, t, l, args, now) == Ok(None) <==> !Passes(l, t)
  {
  }

  /** Threshold law for a call whose record can be built: it writes one
      record when the threshold is not a level name, and otherwise exactly
      when its level ranks at least as high as the threshold. */
  lemma WritesIff(e: Edition, c: Config, t: string, l: Level, args: seq<Arg>, now: string)
    requires Payload(e, args, l, c, now).Ok?
    ensures t !in AllLevels ==> |Written(Call(e, c, t, l, args, now))| == 1
    ensures forall m: Level :: t == Name(m) ==>
      (|Written(Call(e, c, t, l, args, now))| == 1 <==> Rank(l) >= Rank(m))
  {
    PassesIff(l, t);
  }

  /** A written record is the one `buildPayload` builds. */
  lemma WrittenIsPayload(e: Edition, c: Config, t: string, l: Level, args: seq<Arg>, now: string)
    requires |Written(Call(e, c, t, l, args, now))| == 1
    ensures Payload(e, args, l, c, now) == Ok(Written(Call(e, c, t, l, args, now))[0])
  {
  }

  /** In index.js, without `labelsProperties` from either source, the first
      `info` call throws if `info` passes the level, and so does every call
      that passes; when `info` does not pass, `createLogger` returns. */
  lemma LegacyInitThrows(opts: Options, env: Env, machine: string, l: Level, args: seq<Arg>, now: string)
    requires opts.labelsProperties.None? && EnvText(env, "LOG_LABELS_PROPERTIES").None?
    ensures var c := ResolveConfig(Legacy, opts, env, machine);
      && (Call(Legacy, c, c.level, l, args, now).Throws? <==> Passes(l, c.level))
      && (Call(Legacy, c, c.level, Info, InitArgs(c), now).Throws? <==> Passes(Info, c.level))
  {
    var c := ResolveConfig(Legacy, opts, env, machine);
    MissingLabelsProperties(Legacy, opts, env, machine);
    PayloadFacts.LegacyNeedsLabelsProperties(args, l, c, now);
    PayloadFacts.LegacyNeedsLabelsProperties(InitArgs(c), Info, c, now);
  }

  /** With the default level `info`, `trace` and `debug` calls are dropped
      and the other four are written. */
  lemma DefaultLevelFilters(l: Level)
    ensures Passes(l, DefaultLevel) <==> Rank(l) >= Rank(Info)
  {
    PassesIff(l, DefaultLevel);
  }
}
