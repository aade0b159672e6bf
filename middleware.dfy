/** `logReqMiddleware(logger, opts)`: an Express middleware that skips the
    requests it is told to ignore, gives every other request a correlation
    id (`corkTraceId`, mirrored in the `cork-trace-id` header) and, when the
    response finishes, logs `{req, res, reqTimeInMs}` at `info` or `debug`.
    Regular expressions are abstracted as `matches(pattern, url)`. The
    index.js version has no options: it always logs at `info`. */
module RequestMiddleware {
  import opened Text
  import opened JsValues
  import opened Levels
  import opened PayloadBuilder
  import opened LoggerConfig
  import opened LoggerFacade

  const TraceHeaderName := "cork-trace-id"

  /** `opts.ignore` or `opts.debug`: absent, a comma-separated string, or a
      list of regular expressions, each given by its source. */
  datatype PatternOption = Unset | Text(s: string) | Patterns(list: seq<string>)

  datatype MiddlewareOptions = MiddlewareOptions(ignore: PatternOption, debug: PatternOption)

  /** What the middleware computes once, when it is created; `None` is
      `null`. */
  datatype Middleware = Middleware(edition: Edition, ignore: Option<seq<string>>, debug: Option<seq<string>>)

  /** What the handler does with a request. */
  datatype Decision = PassThrough | LogAt(level: Level)

  /** `process.env[k] || opt || null`. */
  function PatternSource(env: Env, k: string, opt: PatternOption): PatternOption {
    if EnvText(env, k).Some? then Text(env[k])
    else if opt.Text? && opt.s == "" then Unset
    else opt
  }

  /** `.filter(i => i.length > 0)`. */
  function NonEmpty(xs: seq<string>): seq<string> {
    if |xs| == 0 then []
    else if xs[0] == "" then NonEmpty(xs[1..])
    else [xs[0]] + NonEmpty(xs[1..])
  }

  /** `s.split(',').map(i => i.trim()).filter(i => i.length > 0)`. */
  function ParsePatterns(s: string): seq<string> {
    NonEmpty(SplitList(s))
  }

  /** A string source is parsed; a list is used as it is. */
  function PatternList(src: PatternOption): Option<seq<string>> {
    match src
    case Unset => None
    case Text(s) => Some(ParsePatterns(s))
    case Patterns(l) => Some(l)
  }

  /** `LOG_REQ_IGNORE` and `LOG_REQ_DEBUG` win over the options. */
  function MakeMiddleware(e: Edition, env: Env, opts: MiddlewareOptions): Middleware {
    if e.Legacy? then Middleware(e, None, None)
    else Middleware(e, PatternList(PatternSource(env, "LOG_REQ_IGNORE", opts.ignore)),
                       PatternList(PatternSource(env, "LOG_REQ_DEBUG", opts.debug)))
  }

  /** Some pattern of the list matches the URL. */
  predicate AnyMatch(pats: Option<seq<string>>, url: string, matches: (string, string) -> bool) {
    pats.Some? && exists i :: 0 <= i < |pats.value| && matches(pats.value[i], url)
  }

  /** `process.env.LOG_REQ === 'false'`, read for every request. */
  predicate Disabled(env: Env) {
    "LOG_REQ" in env && env["LOG_REQ"] == "false"
  }

  /** The decision of the handler for a request to `url`. */
  function Decided(m: Middleware, env: Env, url: string, matches: (string, string) -> bool): Decision {
    if m.edition.Legacy? then LogAt(Info)
    else if Disabled(env) || AnyMatch(m.ignore, url, matches) then PassThrough
    else if AnyMatch(m.debug, url, matches) then LogAt(Debug)
    else LogAt(Info)
  }

  /** The first part of the handler: the disable flag, then the ignore loop,
      then the debug loop that stops at the first match. */
  method Decide(m: Middleware, env: Env, url: string, matches: (string, string) -> bool) returns (d: Decision)
    ensures d == Decided(m, env, url, matches)
  {
    if m.edition.Legacy? {
      return LogAt(Info);
    }
    if "LOG_REQ" in env && env["LOG_REQ"] == "false" {
      return PassThrough;
    }
    if m.ignore.Some? {
      var pats := m.ignore.value;
      var i := 0;
      while i < |pats|
        invariant 0 <= i <= |pats|
        invariant forall j :: 0 <= j < i ==> !matches(pats[j], url)
      {
        if matches(pats[i], url) {
          return PassThrough;
        }
        i := i + 1;
      }
    }
    d := LogAt(Info);
    if m.debug.Some? {
      var pats := m.debug.value;
      var i := 0;
      while i < |pats|
        invariant 0 <= i <= |pats|
        invariant forall j :: 0 <= j < i ==> !matches(pats[j], url)
      {
        if matches(pats[i], url) {
          d := LogAt(Debug);
          break;
        }
        i := i + 1;
      }
    }
  }

  /** `req.get('cork-trace-id')` when it is truthy. */
  function TraceHeader(headers: map<string, string>): Option<string> {
    if TraceHeaderName in headers && headers[TraceHeaderName] != "" then Some(headers[TraceHeaderName]) else None
  }

  /** `req.corkTraceId` after `if( !req.corkTraceId ) req.corkTraceId =
      req.get('cork-trace-id') || uuid()`, the uuid drawn being `uuid`. */
  function AssignedId(id: Option<string>, headers: map<string, string>, uuid: string): string {
    if TruthyText(id) then id.value
    else if TraceHeader(headers).Some? then headers[TraceHeaderName]
    else uuid
  }

  /** The headers after `if( !req.get('cork-trace-id') )
      req.headers['cork-trace-id'] = req.corkTraceId`. */
  function AssignedHeaders(id: string, headers: map<string, string>): map<string, string> {
    if TraceHeader(headers).Some? then headers else headers[TraceHeaderName := id]
  }

  /** The parts of an Express request the handler reads and writes. */
  class Req {
    const httpMethod: string
    const protocol: string
    const originalUrl: string
    const ip: Option<string>
    const httpVersion: string
    var headers: map<string, string>
    var corkTraceId: Option<string>

    constructor (httpMethod: string, protocol: string, originalUrl: string, ip: Option<string>,
                 httpVersion: string, headers: map<string, string>, corkTraceId: Option<string>)
      ensures this.httpMethod == httpMethod && this.protocol == protocol && this.originalUrl == originalUrl
      ensures this.ip == ip && this.httpVersion == httpVersion
      ensures this.headers == headers && this.corkTraceId == corkTraceId
    {
      this.httpMethod := httpMethod;
      this.protocol := protocol;
      this.originalUrl := originalUrl;
      this.ip := ip;
      this.httpVersion := httpVersion;
      this.headers := headers;
      this.corkTraceId := corkTraceId;
    }

    /** The request as the payload builder sees it. */
    function Snapshot(): Request
      reads this
    {
      Request(httpMethod, protocol, headers, originalUrl, ip, httpVersion, corkTraceId)
    }

    /** The correlation-id step of the handler. */
    method AssignTraceId(uuid: string)
      modifies this
      ensures corkTraceId == Some(AssignedId(old(corkTraceId), old(headers), uuid))
      ensures headers == AssignedHeaders(corkTraceId.value, old(headers))
    {
      if !TruthyText(corkTraceId) {
        var h := TraceHeader(headers);
        corkTraceId := Some(if h.Some? then h.value else uuid);
      }
      if TraceHeader(headers).None? {
        headers := headers[TraceHeaderName := corkTraceId.value];
      }
    }
  }

  /** The argument of the call made when the response finishes. */
  function FinishArgs(r: Request, status: int, ms: int): seq<Arg> {
    [ObjArg(map["req" := ReqObj(r), "res" := ResObj(status), "reqTimeInMs" := Num(ms)])]
  }

  /** The handler for one request, followed by the `finish` event of its
      response with status `status` after `ms` milliseconds; `uuid` is the
      uuid the handler would draw. */
  method Handle(m: Middleware, env: Env, req: Req, status: int, ms: int, logger: Logger,
                matches: (string, string) -> bool, uuid: string, now: string)
    returns (d: Decision, thrown: Option<string>)
    modifies req, logger
    ensures d == Decided(m, env, req.originalUrl, matches)
    ensures logger.level == old(logger.level)
    ensures d.PassThrough? ==>
      req.headers == old(req.headers) && req.corkTraceId == old(req.corkTraceId)
      && logger.sink == old(logger.sink) && thrown.None?
    ensures d.LogAt? ==>
      var id := AssignedId(old(req.corkTraceId), old(req.headers), uuid);
      var o := Call(logger.edition, logger.config, old(logger.level), d.level, FinishArgs(req.Snapshot(), status, ms), now);
      && req.corkTraceId == Some(id) && req.headers == AssignedHeaders(id, old(req.headers))
      && logger.sink == old(logger.sink) + Written(o) && thrown == Escaped(o)
  {
    d := Decide(m, env, req.originalUrl, matches);
    if d.PassThrough? {
      return d, None;
    }
    req.AssignTraceId(uuid);
    thrown := logger.Log(d.level, FinishArgs(req.Snapshot(), status, ms), now);
  }

  // ---- properties ----

  /** A request is passed on untouched exactly when logging is disabled or
      an ignore pattern matches, and never in index.js. */
  lemma PassThroughIff(m: Middleware, env: Env, url: string, matches: (string, string) -> bool)
    ensures Decided(m, env, url, matches) == PassThrough <==>
      !m.edition.Legacy? && (Disabled(env) || AnyMatch(m.ignore, url, matches))
  {
  }

  /** A logged request is logged at `debug` exactly when a debug pattern
      matches, otherwise at `info`; index.js always uses `info`. */
  lemma LevelChoice(m: Middleware, env: Env, url: string, matches: (string, string) -> bool)
    requires Decided(m, env, url, matches).LogAt?
    ensures Decided(m, env, url, matches).level == Debug <==>
      !m.edition.Legacy? && AnyMatch(m.debug, url, matches)
    ensures Decided(m, env, url, matches).level == Info <==>
      m.edition.Legacy? || !AnyMatch(m.debug, url, matches)
  {
  }

  /** An ignore pattern wins over a debug pattern for the same URL. */
  lemma IgnoreBeatsDebug(m: Middleware, env: Env, url: string, matches: (string, string) -> bool)
    requires !m.edition.Legacy? && AnyMatch(m.ignore, url, matches) && AnyMatch(m.debug, url, matches)
    ensures Decided(m, env, url, matches) == PassThrough
  {
  }

  /** The environment's pattern string wins over the option. */
  lemma EnvPatternsWin(e: Edition, env: Env, opts: MiddlewareOptions)
    requires !e.Legacy?
    ensures "LOG_REQ_IGNORE" in env && env["LOG_REQ_IGNORE"] != "" ==>
      MakeMiddleware(e, env, opts).ignore == Some(ParsePatterns(env["LOG_REQ_IGNORE"]))
    ensures "LOG_REQ_DEBUG" in env && env["LOG_REQ_DEBUG"] != "" ==>
      MakeMiddleware(e, env, opts).debug == Some(ParsePatterns(env["LOG_REQ_DEBUG"]))
    ensures EnvText(env, "LOG_REQ_IGNORE").None? && opts.ignore.Patterns? ==>
      MakeMiddleware(e, env, opts).ignore == Some(opts.ignore.list)
  {
  }

  /** Filtering keeps exactly the non-empty entries. */
  lemma {:induction false} NonEmptyKeeps(xs: seq<string>)
    ensures forall i :: 0 <= i < |NonEmpty(xs)| ==> NonEmpty(xs)[i] != "" && NonEmpty(xs)[i] in xs
    ensures forall x :: x in xs && x != "" ==> x in NonEmpty(xs)
    ensures |NonEmpty(xs)| <= |xs|
  {
    if |xs| > 0 {
      NonEmptyKeeps(xs[1..]);
      assert forall x :: x in xs[1..] ==> x in xs;
      assert forall x :: x in xs ==> x == xs[0] || x in xs[1..];
    }
  }

  /** Dropping the empty strings keeps the others in their order: it
      distributes over concatenation, and on one string keeps it exactly
      when it is not empty. */
  lemma {:induction false} NonEmptyAppend(a: seq<string>, b: seq<string>)
    ensures NonEmpty(a + b) == NonEmpty(a) + NonEmpty(b)
    decreases |a|
  {
    if |a| == 0 {
      assert a + b == b;
    } else {
      assert (a + b)[1..] == a[1..] + b;
      NonEmptyAppend(a[1..], b);
    }
  }

  lemma NonEmptyOne(x: string)
    ensures NonEmpty([x]) == if x == "" then [] else [x]
  {
  }

  /** A parsed pattern is a trimmed, non-empty piece of the string between
      commas, and every such piece is a pattern. */
  lemma ParsedPatterns(s: string)
    ensures forall p :: p in ParsePatterns(s) ==> p != "" && ',' !in p && Trim(p) == p
    ensures forall p :: p in SplitList(s) && p != "" ==> p in ParsePatterns(s)
  {
    NonEmptyKeeps(SplitList(s));
    SplitListEntries(s);
  }

  /** A piece of a string of commas and blanks trims to nothing. */
  lemma BlankPieceIsEmpty(s: string, p: string)
    requires forall c :: c in s ==> c == ',' || c == ' '
    requires p in SplitList(s)
    ensures p == ""
  {
    var pieces := Split(s, ',');
    var i :| 0 <= i < |SplitList(s)| && SplitList(s)[i] == p;
    assert p == Trim(pieces[i]);
    SplitPieceChars(s, ',');
    SplitPiecesHaveNoSeparator(s, ',');
    forall j | 0 <= j < |pieces[i]|
      ensures IsSpace(pieces[i][j])
    {
      var x := pieces[i][j];
      assert x in pieces[i];
      assert x in s && x != ',';
      assert x == ' ';
    }
    TrimBlank(pieces[i]);
  }

  /** A blank but non-empty `LOG_REQ_IGNORE` such as `' , '` is truthy, so
      it shadows `opts.ignore`, and it parses to no pattern at all. */
  lemma BlankEnvIgnoresNothing(e: Edition, env: Env, opts: MiddlewareOptions, url: string, matches: (string, string) -> bool)
    requires !e.Legacy? && "LOG_REQ_IGNORE" in env && env["LOG_REQ_IGNORE"] != ""
    requires forall c :: c in env["LOG_REQ_IGNORE"] ==> c == ',' || c == ' '
    ensures MakeMiddleware(e, env, opts).ignore == Some([])
    ensures !AnyMatch(MakeMiddleware(e, env, opts).ignore, url, matches)
  {
    var s := env["LOG_REQ_IGNORE"];
    ParsedPatterns(s);
    if ParsePatterns(s) != [] {
      var p := ParsePatterns(s)[0];
      assert p in ParsePatterns(s);
      NonEmptyKeeps(SplitList(s));
      BlankPieceIsEmpty(s, p);
    }
  }

  /** An existing truthy id is kept. */
  lemma ExistingIdKept(id: Option<string>, headers: map<string, string>, uuid: string)
    requires TruthyText(id)
    ensures AssignedId(id, headers, uuid) == id.value
  {
  }

  /** Without an id the header supplies it, and without either the uuid does. */
  lemma IdSource(id: Option<string>, headers: map<string, string>, uuid: string)
    requires !TruthyText(id)
    ensures TraceHeader(headers).Some? ==> AssignedId(id, headers, uuid) == headers[TraceHeaderName]
    ensures TraceHeader(headers).None? ==> AssignedId(id, headers, uuid) == uuid
  {
  }

  /** The header is written only when it was absent or empty, only that
      header changes, and afterwards it is set; it differs from the id only
      when the request arrived with both. */
  lemma HeaderRule(id: Option<string>, headers: map<string, string>, uuid: string)
    requires uuid != ""
    ensures var h := AssignedHeaders(AssignedId(id, headers, uuid), headers);
      && (TraceHeader(headers).Some? ==> h == headers)
      && (forall k :: k != TraceHeaderName ==> (k in h <==> k in headers) && (k in h ==> h[k] == headers[k]))
      && TraceHeader(h).Some?
      && (h[TraceHeaderName] != AssignedId(id, headers, uuid) ==> TruthyText(id) && TraceHeader(headers).Some?)
  {
  }
}
