# ucd-library/logger in Dafny

A model of `@ucd-lib/logger`, a structured-logging helper for Node services.
It writes one JSON record per call, shaped for Google Cloud Logging's LogEntry.
The package has three members:

- `createLogger(opts)` fills in the options from `opts`, the process
  environment and built-in defaults. It returns an object with a mutable
  `level` and one method per level (`trace` … `fatal`).
- `buildPayload` turns a call's arguments into the record. It merges
  objects, collects text fragments, serializes `Error`s, replaces an Express
  `req`/`res` pair by the `httpRequest` object, assembles `message`, moves
  fields into the labels object, and sets `severity` and the time field.
- `logReqMiddleware(logger, opts)` is Express middleware. It skips requests
  matched by ignore patterns, logs the rest at `info`, or `debug` when a
  debug pattern matches, and attaches a `cork-trace-id` correlation id.

The repository ships three editions of the same code:

- `lib/index.js`: the ES-module source;
- `dist/index.cjs`: its Babel build, which lacks the IPv4 reduction of `remoteIp`;
- `index.js`: an older CommonJS edition without static labels, a time-property option or request patterns.

The model is one program parameterised by `Edition = Lib | Dist | Legacy`.
Each difference between the editions is a branch on the edition. Each
property cites the file it comes from.

Modules:

- `Text`: number rendering, `split`, `join`, `trim`, ASCII case mapping.
- `JsValues`: JavaScript values, truthiness, `Array.prototype.join` rendering, `errorSerializer`.
- `Levels`: the level list and `compareLevels`.
- `Ipv4`: the IPv4 regular expression, written as a scanner.
- `HttpInfo`: `getHttpRequestObject`.
- `PayloadBuilder`: `buildPayload` and `makeLabel`. It has two layers:
  - a staged specification function `Payload`;
  - the imperative `BuildPayload`, whose loops are proved equal to it.
- `PayloadFacts`: properties of the payload.
- `LoggerConfig`: option resolution in `createLogger`.
- `LoggerFacade`: the logger object, as a class with a mutable `level` and a `sink` of written records.
- `RequestMiddleware`: the middleware's decision, the trace id on a mutable request object, and the finish log.

Exceptions the JavaScript throws are values `Throws(reason)` of the
`Outcome` type. Examples: a truthy `req` that is not an Express request; a
missing `labelsProperties` in `index.js`; a labels entry that cannot take
properties.

Where the code and its description differ, the model follows the code:

- The comment at lib/index.js:138 reads "if status is 500 or greater, at least set severity to ERROR".
  - The code tests `status > 500`, so a status of exactly 500 is not raised.
  - The raised value is overwritten at the end with the calling level's name (lib/index.js:139-142, 192).
  - `compareLevels` gets the upper-case severity, which is not in the level list, so its test always succeeds.
  - `PayloadFacts.SeverityAndTime` and `Levels.SeverityRanksBelowEverything` state the result: the record's severity is always the calling level.
- No `try` surrounds the call to `buildPayload` in the level methods (lib/index.js:271-281). An exception it throws escapes the level method, including the one the middleware's `finish` handler calls (`LoggerFacade.Logger.Log`).
- A threshold that is not a level name lets every call through (`LoggerFacade.WritesIff`).
- In lib/index.js and dist/index.cjs, `opts.labelsKey = false` cannot turn the labels off. `!opts.labelsKey` replaces it from the environment, so only `LOG_LABELS_KEY=false` does. index.js differs: it keeps `false` when the environment gives nothing.

## Model

| member | source | states |
|---|---|---|
| Text.NatTextRoundTrip | lib/index.js:42 | the decimal text of a whole number reads back as that number (the seconds part of `toFixed(3)`) |
| Text.Pad3 | lib/index.js:42 | the fractional part of the latency has exactly three digits |
| Text.Split | lib/index.js:241 | `split` of any text yields at least one piece |
| Text.SplitPiecesHaveNoSeparator | lib/index.js:241 | no piece of `split(',')` contains a comma |
| Text.SplitPieceChars | lib/index.js:241 | every character of a piece comes from the split text |
| Text.SplitCount | lib/index.js:241 | `split(',')` yields one more piece than there are commas |
| Text.SplitJoin | lib/index.js:241 | joining the pieces of `split(c)` with `c` gives the text back |
| Text.Trim | lib/index.js:241 | `trim` removes leading and trailing white space and keeps the middle |
| Text.TrimKeepsOut | lib/index.js:241 | trimming adds no character |
| Text.TrimBlank | dist/index.cjs:278-281 | an all-blank piece trims to the empty text |
| Text.TrimIdempotent | lib/index.js:241 | trimming twice is trimming once |
| Text.ToLowerIsLower | lib/index.js:252 | `toLowerCase` leaves no upper-case letter |
| Text.ToUpper | lib/index.js:269 | `toUpperCase` keeps the length and maps each character |
| Text.Join | lib/index.js:160 | `parts.join(sep)`; `SplitJoin` states that it undoes `split` |
| Text.ToLower | lib/index.js:252 | `toLowerCase` keeps the length and maps each character; `ToLowerIsLower` states its result |
| JsValues.SerializedError | lib/index.js:73-82 | the object `errorSerializer` makes of an `Error`; `ErrorSerializer` and `PayloadFacts.MergeLastErrorWins` state what it holds |
| JsValues.ErrorSerializer | lib/index.js:73-82 | an `Error` becomes such an object with the same three properties; anything else is returned unchanged |
| JsValues.Truthy | lib/index.js:206 | JavaScript truthiness; `PayloadFacts.MakeLabelMoves`, `MakeLabelStays` and `HttpStageSkipped` state the steps that test it |
| JsValues.JoinText | lib/index.js:160 | how `join` renders an element; `PayloadFacts.MessagePartsOrder` states where it is used |
| JsValues.ConcatText | lib/index.js:165-168 | how `+` renders a value in the HTTP summary; `PayloadFacts.SummaryUrl` states the summary's end |
| Levels.Name | lib/index.js:8 | a level's name sits in the level list at its rank |
| Levels.IndexIn | lib/index.js:34-36 | `indexOf` gives the first position of the text, or -1 exactly when it is absent |
| Levels.IndexOfName | lib/index.js:34-36 | the position of a level's name is its rank |
| Levels.PassesIff | lib/index.js:272-274 | a call passes a level-name threshold exactly when its rank is at least the threshold's, and passes any other threshold |
| Levels.SeverityRanksBelowEverything | lib/index.js:139-140 | an upper-case severity is not in the list, so it compares below `error` |
| Levels.SeverityNotALevel | lib/index.js:269 | no upper-case severity is a level name |
| Levels.CompareLevels | lib/index.js:34-36 | `compareLevels`: the difference of the two positions in the level list; `CompareByRank` states its meaning |
| Levels.CompareByRank | lib/index.js:25-36 | on two level names, `compareLevels` is negative, zero or positive exactly when the first level ranks below, equal to or above the second |
| Levels.Passes | lib/index.js:272-274 | the level methods' filter; `PassesIff` states it by rank |
| Levels.Severity | lib/index.js:269 | the level name upper-cased; `SeverityNotALevel`, `SeverityRanksBelowEverything` and `PayloadFacts.SeverityAndTime` state it |
| Ipv4.DigitRun | lib/index.js:58 | the digit run stays inside the text |
| Ipv4.RunIsDigits | lib/index.js:58 | every character of the run is a digit |
| Ipv4.RunStops | lib/index.js:58 | the character after the run is not a digit |
| Ipv4.GroupDot | lib/index.js:58 | a dotted group ends after its start and within the text |
| Ipv4.QuadAt | lib/index.js:58 | a quad match starting at a position ends within the text |
| Ipv4.FirstQuad | lib/index.js:57-61 | the search finds the first position where the pattern matches, or reports that it matches nowhere |
| Ipv4.RunCoversDigits | lib/index.js:58 | a stretch of digits lies inside the run |
| Ipv4.RunEndsAtDot | lib/index.js:58 | a group followed by a dot is the whole run |
| Ipv4.RunIsGroup | lib/index.js:58 | one to three digits of a run form a group |
| Ipv4.MatchFound | lib/index.js:58 | wherever the regular expression matches, the scanner finds a quad |
| Ipv4.QuadIsMatch | lib/index.js:58 | a scanner quad is a regular-expression match whose last group is greedy |
| Ipv4.FirstQuadAt | lib/index.js:57-61 | the search returns the first position with a quad |
| Ipv4.LeftmostMatch | lib/index.js:58 | a scanner quad is the greedy match at that position |
| Ipv4.ReduceAt | lib/index.js:57-61 | when the pattern first matches at `i`, the step keeps exactly that match |
| Ipv4.NoEarlierMatch | lib/index.js:58 | no match starts before the reported one, and there is none when nothing is reported |
| Ipv4.ReportedMatch | lib/index.js:57-61 | the reported match is a greedy match and is what the step keeps |
| Ipv4.ReduceToIpv4Correct | lib/index.js:57-61 | `remoteIp` becomes the leftmost greedy match, and stays unchanged when nothing matches |
| Ipv4.MappedExampleGroups | lib/index.js:57-61 | example: the groups of `::ffff:192.168.1.5` are found where expected |
| Ipv4.MappedExamplePrefix | lib/index.js:57-61 | example: no match starts in the `::ffff:` prefix |
| Ipv4.MappedAddressReduced | lib/index.js:57-61 | example: `::ffff:192.168.1.5` reduces to `192.168.1.5` |
| Ipv4.ReduceToIpv4 | lib/index.js:57-61 | the IPv4 step on a text `remoteIp`; `ReduceToIpv4Correct` states it against the regular expression |
| Ipv4.ReduceRemoteIp | lib/index.js:58-61 | the IPv4 step on the `remoteIp` value; `HttpInfo.RemoteIpByEdition` states it per edition |
| Ipv4.PlainAddressKept | lib/index.js:57-61 | example: a plain IPv4 address is kept as is |
| HttpInfo.LatencyText | lib/index.js:42 | `(ms / 1000).toFixed(3) + 's'` for whole milliseconds; `LatencyReadsBack` states that it reads back |
| HttpInfo.HttpRequestInfo | lib/index.js:39-70 | the object `getHttpRequestObject` returns; `InfoLookup`, `NoUndefinedField` and `AlwaysReported` state its fields |
| HttpInfo.Latency | lib/index.js:40-43 | the latency is `undefined` exactly when no elapsed time is given |
| HttpInfo.Literal | lib/index.js:45-55 | the object literal before the IPv4 step and the delete loop; `InfoLookup`, `NoUndefinedField` and `AlwaysReported` state the fields that survive |
| HttpInfo.HttpFields | lib/index.js:45-61 | the literal after the IPv4 step; `LiteralThenIpv4`, `InfoLookup` and `RemoteIpByEdition` state it |
| HttpInfo.GetHttpRequestObject | lib/index.js:39-70 | the imperative build, IPv4 step and delete loop give the specified object (the IPv4 step only in lib/index.js) |
| HttpInfo.DeleteUndefined | lib/index.js:63-67 | the delete loop removes exactly the listed keys holding `undefined` |
| HttpInfo.InfoLookup | lib/index.js:39-70 | a key is present exactly when it is an HttpRequest key whose value is not `undefined`, and then holds that value |
| HttpInfo.NoUndefinedField | lib/index.js:63-67 | the object holds no `undefined` and no other keys |
| HttpInfo.AlwaysReported | lib/index.js:45-55 | `requestMethod`, `requestUrl` and `protocol` are always present |
| HttpInfo.LatencyField | lib/index.js:40-43 | `latency` is present exactly when an elapsed time is given, and renders it as whole seconds, three decimals and `s` |
| HttpInfo.LatencyReadsBack | lib/index.js:42 | the latency text reads back as the milliseconds it came from |
| HttpInfo.RemoteIpSource | lib/index.js:51 | a non-empty `x-forwarded-for` header wins over `req.ip` |
| HttpInfo.RemoteIpByEdition | dist/index.cjs:48-70 | lib/index.js reduces a text `remoteIp` to its IPv4 part; dist/index.cjs and index.js keep it |
| HttpInfo.RawRemoteIp | lib/index.js:51 | `remoteIp` before the IPv4 step; `RemoteIpSource` states its source |
| HttpInfo.Field | lib/index.js:45-55 | one key of the literal; `InfoLookup` and `AlwaysReported` state the fields |
| PayloadBuilder.ApplyArg | lib/index.js:110-125 | one pass of the argument loop, per edition; `ValuesStep` and the `Merge` lemmas state its effect |
| PayloadBuilder.MergeArgs | lib/index.js:109-126 | the argument loop as a function; `MergeAppend`, `MergeFragments`, `MergeUntouched`, `MergeLastObjectWins`, `MergeLastErrorWins` and `MergeValues` state its result |
| PayloadBuilder.Attach | lib/index.js:133-146 | the record once `httpRequest` is built; the `Attach` lemmas state each key |
| PayloadBuilder.HttpStage | lib/index.js:128-147 | the `req`/`res` step; `HttpStageSkipped`, `HttpStageThrows` and `HttpStageAttaches` state its three cases |
| PayloadBuilder.Upgrades | lib/index.js:139-140 | the severity upgrade test; `PayloadFacts.UpgradeAlwaysFires` reduces it to the status test |
| PayloadBuilder.SerializeErrorKeys | lib/index.js:150-154 | the error-key loop; `SerializeErrorKeysLookup` states its result |
| PayloadBuilder.HttpSummary | lib/index.js:165-168 | the HTTP summary message; `SummaryUrl` states which URL ends it |
| PayloadBuilder.PlaceMessage | lib/index.js:160-174 | placing the joined text or a fallback; `MessageFallbacks` states the cases |
| PayloadBuilder.AssembleMessage | lib/index.js:157-174 | the message step; `MessagePartsOrder` and `MessageFallbacks` state it |
| PayloadBuilder.MessageParts | lib/index.js:157-160 | the message parts; `PayloadFacts.MessagePartsOrder` states them |
| PayloadBuilder.IndexFields | index.js:90 | `Object.assign` of an array; `PayloadFacts.IndexFieldsLookup`, `IndexFieldsKeys` and `NotAnIndexKey` state its keys |
| PayloadBuilder.MakeLabel | lib/index.js:205-221 | `makeLabel`, per edition; `MakeLabelMoves`, `MakeLabelStays` and `MakeLabelThrows` state its cases |
| PayloadBuilder.LabelsKeyName | lib/index.js:213 | the labels key's name; `PayloadFacts.MakeLabelMoves` states where fields go |
| PayloadBuilder.TimeKey | lib/index.js:195 | the time key, `time` in index.js (index.js:154); `PayloadFacts.SeverityAndTime` and `LegacyFixedSteps` state it |
| PayloadBuilder.PromoteLabels | lib/index.js:180-182 | the `labelsProperties` loop; `PromoteMoves`, `PromoteFrame` and `PromoteOff` state its result |
| PayloadBuilder.LabelsObject | lib/index.js:184-186 | the object `opts.labels` written as a list of entries; `LabelsObjectLookup` states its values |
| PayloadBuilder.LabelKeys | lib/index.js:185 | `for...in` over `opts.labels` visits each key once, and exactly the keys of the object |
| PayloadBuilder.StaticLabels | lib/index.js:184-189 | the static-labels loop over those keys; `StaticMoves` and `StaticFrame` state its result |
| PayloadBuilder.Labelled | lib/index.js:179-189 | both label steps; `LabelledPromoted` and `LabelledStatic` state its result |
| PayloadBuilder.Finished | lib/index.js:179-195 | the steps after the hostname; `FinishedKeeps`, `FinishedFrame` and `SeverityAndTime` state it |
| PayloadBuilder.Unlabelled | lib/index.js:102-177 | the record before the label steps |
| PayloadBuilder.Payload | lib/index.js:102-203 | `buildPayload`'s record or exception; `SeverityAndTime`, `HostnameOverwritten` and `PayloadLabels` state what it guarantees |
| PayloadBuilder.ReadArgs | lib/index.js:109-126 | the argument loop merges objects, collects fragments, arrays and errors as `MergeArgs` specifies |
| PayloadBuilder.ReplaceRequest | lib/index.js:130-147 | the request step is the specified `HttpStage`, including its exception |
| PayloadBuilder.SerializeErrors | lib/index.js:150-154 | the error-key loop is the specified serialization |
| PayloadBuilder.PromoteAll | lib/index.js:180-182 | the `labelsProperties` loop is the specified promotion, including its exception |
| PayloadBuilder.ApplyStaticLabels | lib/index.js:184-189 | the static-labels loop is the specified copy and promotion |
| PayloadBuilder.WriteMessage | lib/index.js:157-174 | the message step is the specified assembly |
| PayloadBuilder.SetMessage | lib/index.js:160-174 | the joined text, or its fallbacks when empty, is placed as specified |
| PayloadBuilder.Finish | lib/index.js:177-195 | the steps after the message are the specified ones |
| PayloadBuilder.BuildPayload | lib/index.js:102-203 | `buildPayload` returns exactly the record, or the exception, that `Payload` specifies |
| PayloadFacts.IndexFieldsLookup | index.js:90 | an array argument in index.js puts item `j` under the key `"j"` |
| PayloadFacts.IndexFieldsKeys | index.js:90 | the keys it adds are exactly the item indices |
| PayloadFacts.MergeAppend | lib/index.js:109-126 | merging two argument lists in turn is merging their concatenation |
| PayloadFacts.MergeFragments | lib/index.js:123-125 | the fragments are the scalar arguments' texts, in order |
| PayloadFacts.MergeUntouched | lib/index.js:109-126 | a key that no argument sets keeps its value |
| PayloadFacts.MergeLastObjectWins | lib/index.js:122 | the last object giving a key decides its value |
| PayloadFacts.MergeLastErrorWins | lib/index.js:111-113 | the last `Error` argument decides `error`, serialized |
| PayloadFacts.ValuesStep | lib/index.js:114-120 | one array argument appends its items to `values`; any other argument leaves `values` alone |
| PayloadFacts.MergeValues | lib/index.js:114-120 | `values` is the concatenation of the array arguments, appended to an earlier array `values` |
| PayloadFacts.LegacyArraySpread | index.js:85-90 | in index.js an array argument spreads its items under index keys |
| PayloadFacts.HttpStageSkipped | lib/index.js:131 | without a truthy `req` and `res` the request step changes nothing |
| PayloadFacts.HttpStageThrows | lib/index.js:132-133 | a truthy `req` that is not an Express request throws |
| PayloadFacts.HttpStageAttaches | lib/index.js:130-147 | with an Express `req` and a truthy `res` the step succeeds; `httpRequest` is the built object; `req`, `res` and `reqTimeInMs` are gone; a truthy trace id is copied; severity becomes `ERROR` when the status is above 500 and otherwise keeps its earlier value; no other key changes; the reported `originalUrl` is the request's (none in index.js) |
| PayloadFacts.AttachSetsHttpRequest | lib/index.js:133 | `httpRequest` holds the HTTP object |
| PayloadFacts.AttachRemovesInputs | lib/index.js:144-146 | `req`, `res` and `reqTimeInMs` are gone |
| PayloadFacts.AttachCopiesTraceId | lib/index.js:134-136 | a truthy `req.corkTraceId` is copied; otherwise `corkTraceId` keeps its value |
| PayloadFacts.AttachSeverity | lib/index.js:139-142 | the upgrade sets `severity` to `ERROR`; without it `severity` is kept |
| PayloadFacts.AttachFrame | lib/index.js:131-147 | every other key keeps its value |
| PayloadFacts.UpgradeAlwaysFires | lib/index.js:139-140 | the upgrade test on an upper-case severity reduces to the status test |
| PayloadFacts.SerializeErrorKeysLookup | lib/index.js:150-154 | the keys stay the same, an `Error` under an error key is serialized, and every other value is kept |
| PayloadFacts.NoErrorUnderErrorKeys | lib/index.js:150-154 | no error key holds a raw `Error` afterwards |
| PayloadFacts.MessageFallbacks | lib/index.js:157-174 | the message is the non-empty joined text; failing that, the HTTP summary; failing that, the error's message; failing that, no key. Nothing else changes |
| PayloadFacts.MessagePartsOrder | lib/index.js:157-160 | the parts are the fragments in order, then, when the merged `message` is truthy, one more part that is its `join` rendering |
| PayloadFacts.SummaryUrl | lib/index.js:164-168 | the summary ends in a truthy `originalUrl` in lib/index.js and dist/index.cjs, and always in `requestUrl` in index.js |
| PayloadFacts.MakeLabelMoves | lib/index.js:205-221 | a truthy field moves into an absent or object labels entry and leaves the top level |
| PayloadFacts.MakeLabelStays | lib/index.js:206-211 | a falsy field, or labels turned off, leaves the record as it is |
| PayloadFacts.MakeLabelThrows | lib/index.js:215-219 | promotion of a truthy field throws exactly when the labels entry is `null`, or a string, number or boolean outside index.js |
| PayloadFacts.PromoteOff | lib/index.js:209-211 | with labels turned off, promotion changes nothing |
| PayloadFacts.PromoteFrame | lib/index.js:180-182 | promotion touches only the labels entry and the promoted keys |
| PayloadFacts.PromoteOk | lib/index.js:180-182 | with labels on, an absent or object labels entry and no listed key naming it, promotion succeeds and the entry stays absent or an object |
| PayloadFacts.LabelStep | lib/index.js:205-221 | one such `makeLabel` succeeds, keeps the entry's other fields and every other key's value and presence |
| PayloadFacts.PromoteKeepsLabel | lib/index.js:180-182 | a key already moved under the labels entry stays there and off the top level |
| PayloadFacts.PromoteMoves | lib/index.js:180-182 | under those conditions each listed key with a truthy value ends up under the labels entry and off the top level; each other listed key keeps its value |
| PayloadFacts.StaticFrame | lib/index.js:184-189 | static labels touch only the labels entry and their own keys |
| PayloadFacts.StaticOk | lib/index.js:184-189 | with labels on, an absent or object labels entry and no static label naming it, the static labels succeed |
| PayloadFacts.StaticKeepsLabel | lib/index.js:184-189 | a key already under the labels entry, and not a static label, stays there and off the top level |
| PayloadFacts.StaticMoves | lib/index.js:184-189 | a static label with a truthy value ends up under the labels entry and off the top level; one with a falsy value is copied to the top level |
| PayloadFacts.LabelsObjectLookup | lib/index.js:184-186 | a key written in `opts.labels` holds the value written last, and `for...in` visits it |
| PayloadFacts.RepeatedLabelKey | lib/index.js:184-188 | example: `{a: 'x', a: ''}` is visited once, with the value `''`, which stays at the top level |
| PayloadFacts.LabelledOk | lib/index.js:179-189 | under those conditions both label steps succeed |
| PayloadFacts.LabelledPromoted | lib/index.js:179-189 | after both label steps, a listed key that is not a static label is under the labels entry and off the top level when truthy, and keeps its value otherwise |
| PayloadFacts.LabelledStatic | lib/index.js:184-189 | after both label steps, a static label is under the labels entry and off the top level when truthy, and at the top level with its value otherwise |
| PayloadFacts.FinishedKeeps | lib/index.js:191-195 | setting severity and time fails exactly when the label steps do and keeps every other key |
| PayloadFacts.PayloadLabels | lib/index.js:177-195 | the two label laws hold of the record `buildPayload` returns, relative to the record before the label steps |
| PayloadFacts.SeverityAndTime | lib/index.js:192-195 | the time key holds the timestamp and `severity` the calling level's upper-case name, whatever the arguments or the status |
| PayloadFacts.FinishedFrame | lib/index.js:179-195 | the last steps touch only the labels entry, the promoted keys, the static labels, `severity` and the time key |
| PayloadFacts.HostnameOverwritten | lib/index.js:177 | the record's `hostname` is the configured one unless it is a label key or the time key |
| PayloadFacts.MessageKept | lib/index.js:177-195 | `message` is none of the labels properties, static labels, the labels key or the time key, so the label steps leave it alone |
| PayloadFacts.MergeOne | lib/index.js:109-126 | the argument loop over one argument is one pass |
| PayloadFacts.UnlabelledWithoutRequest | lib/index.js:128-177 | without a truthy `req` the record before the label steps is the merged record with its errors serialized, its message assembled and the hostname set |
| PayloadFacts.ErrorMessageStep | lib/index.js:169-170 | with no text and no HTTP summary, the message is the serialized error's message |
| PayloadFacts.ErrorOnlyUnlabelled | lib/index.js:102-177 | a call with one `Error` argument succeeds up to the label steps with that error's message |
| PayloadFacts.ErrorOnlyMessage | lib/index.js:102-195 | `logger.error(new Error(m))` writes a record whose `message` is `m`, when `message` is not a label key or the time key |
| PayloadFacts.NotAnIndexKey | index.js:90 | an array spread adds only digit keys, so it sets no named key |
| PayloadFacts.NoScalarTexts | lib/index.js:123-125 | without scalar arguments there are no fragments |
| PayloadFacts.ArraysTouchNothing | lib/index.js:109-126 | array and `null` arguments set none of `message`, `error`, `req`, `httpRequest` |
| PayloadFacts.NoTextNoMessage | lib/index.js:102-195 | a call whose arguments are only arrays or `null` writes a record without `message`, when `message` is not a label key or the time key |
| PayloadFacts.LegacyFixedSteps | index.js:151-154 | index.js has no static labels and always writes `time` |
| PayloadFacts.LegacyNeedsLabelsProperties | index.js:146-148 | without `labelsProperties` index.js throws |
| LoggerConfig.Resolve | lib/index.js:228-230 | a text option's resolution; `ResolvePrecedence` states its order |
| LoggerConfig.ResolveLabelsKey | lib/index.js:232-237 | `labelsKey`'s resolution, per edition; `LabelsKeyOffIff` and `LegacyLabelsKey` state it |
| LoggerConfig.ResolveList | lib/index.js:239-243 | a list option's resolution; `ListOptionWins`, `EnvListUsed`, `EnvLabelsPropertiesUsed` and `SplitListEntries` state it |
| LoggerConfig.ResolveConfig | lib/index.js:223-261 | the filled-in options; `OptionsWin`, `Defaults` and `MissingLabelsProperties` state them |
| LoggerConfig.ConfigFields | lib/index.js:284 | the filled-in options as the object the initial `info` call logs |
| LoggerConfig.EnvText | lib/index.js:229 | `process.env[k]` as a truthiness test; `ResolvePrecedence`, `EnvListUsed` and `EnvLabelsPropertiesUsed` state when the environment is used |
| LoggerConfig.SplitList | lib/index.js:240-241 | `split(',').map(trim)`; `SplitListEntries` and `EmptyEntriesKept` state its entries |
| LoggerConfig.KeySetting | lib/index.js:232-237 | the labels setting from `labelsKey`; `LabelsKeyOffIff` and `LegacyLabelsKey` state it |
| LoggerConfig.TrimAll | lib/index.js:241 | `map(p => p.trim())` keeps the length and trims each entry |
| LoggerConfig.FillText | lib/index.js:228-230 | one text option is resolved as specified |
| LoggerConfig.FillList | lib/index.js:239-243 | one list option is resolved as specified |
| LoggerConfig.FillLabelsKey | lib/index.js:232-237 | `labelsKey` is resolved as specified, per edition |
| LoggerConfig.FillOptions | lib/index.js:228-261 | filling in the options in place gives the specified configuration |
| LoggerConfig.Strs | lib/index.js:284 | list options are logged as arrays of the same texts |
| LoggerConfig.ResolvePrecedence | lib/index.js:228-230 | a truthy option wins, then a non-empty environment variable, then the default |
| LoggerConfig.LevelLowerCase | lib/index.js:252 | the resolved level has no upper-case letter |
| LoggerConfig.OptionsWin | lib/index.js:228-261 | when every option is given, the environment is ignored |
| LoggerConfig.Defaults | lib/index.js:19-23 | with no options and no environment, every setting is its default |
| LoggerConfig.LabelsKeyOffIff | dist/index.cjs:217-222 | the labels are off exactly when `labelsKey` is not given and `LOG_LABELS_KEY` is `false` |
| LoggerConfig.LegacyLabelsKey | index.js:191-196 | index.js keeps the option, `false` included, unless the environment gives a value |
| LoggerConfig.MissingLabelsProperties | index.js:198-202 | `labelsProperties` is missing exactly in index.js when neither source gives it |
| LoggerConfig.SplitListEntries | lib/index.js:241 | the entries are the trimmed comma-separated pieces, contain no comma and are already trimmed |
| LoggerConfig.EmptyEntriesKept | dist/index.cjs:236 | empty entries are kept: one more entry than commas |
| LoggerConfig.ListOptionWins | lib/index.js:254-257 | a given list option is used as is |
| LoggerConfig.EnvListUsed | lib/index.js:254-257 | otherwise a non-empty `LOG_ERROR_KEYS` is split |
| LoggerConfig.EnvLabelsPropertiesUsed | lib/index.js:239-243 | without the option, a non-empty `LOG_LABELS_PROPERTIES` is split into the labels properties |
| LoggerFacade.Call | lib/index.js:271-281 | a level method's outcome; `FilteredIff`, `WritesIff` and `WrittenIsPayload` state it |
| LoggerFacade.Written | lib/index.js:271-281 | a call writes at most one record |
| LoggerFacade.Logger.Log | lib/index.js:271-281 | a call keeps `level`, appends the built record when the level passes, and lets an exception escape |
| LoggerFacade.Logger.Write | lib/index.js:277-279 | a built record is appended to the sink; an exception is passed on and nothing is written |
| LoggerFacade.Logger.SetLevel | lib/index.js:264-266 | assigning `level` changes nothing else |
| LoggerFacade.Logger.constructor | lib/index.js:264-266 | the logger starts at the resolved level with nothing written |
| LoggerFacade.CreateLogger | lib/index.js:223-287 | `createLogger` throws exactly when its `info` call does, and otherwise returns a fresh logger that wrote that call's record |
| LoggerFacade.InitArgs | lib/index.js:284 | the arguments of the initial `info` call; `CreateLogger` states that its record is written |
| LoggerFacade.FilteredIff | lib/index.js:272-274 | a call is dropped exactly when its level does not pass |
| LoggerFacade.WritesIff | lib/index.js:272-274 | a call writes one record exactly when its rank reaches a level-name threshold, and always for any other threshold |
| LoggerFacade.WrittenIsPayload | lib/index.js:276-279 | the written record is the one `buildPayload` builds |
| LoggerFacade.LegacyInitThrows | index.js:198-202 | without `labelsProperties`, index.js throws on every call that passes, including the initial `info` log |
| LoggerFacade.DefaultLevelFilters | lib/index.js:22 | at the default level `trace` and `debug` are dropped and the rest is written |
| RequestMiddleware.PatternSource | lib/index.js:301 | the environment variable when set and non-empty, else the option unless it is an empty text; `EnvPatternsWin` states it |
| RequestMiddleware.ParsePatterns | lib/index.js:303-308 | a pattern text's parse; `ParsedPatterns` states its entries |
| RequestMiddleware.NonEmpty | lib/index.js:306 | the `filter` of empty entries; `NonEmptyKeeps`, `NonEmptyAppend` and `NonEmptyOne` state it |
| RequestMiddleware.PatternList | lib/index.js:302-308 | the pattern text made into a list; `ParsedPatterns` states its entries |
| RequestMiddleware.Disabled | lib/index.js:324 | `LOG_REQ=false`; `PassThroughIff` states its effect |
| RequestMiddleware.MakeMiddleware | lib/index.js:300-319 | the middleware's pattern lists, none in index.js |
| RequestMiddleware.Decided | lib/index.js:323-344 | the handler's decision; `PassThroughIff`, `LevelChoice` and `IgnoreBeatsDebug` state it |
| RequestMiddleware.AssignedId | lib/index.js:348-350 | the trace id assigned; `ExistingIdKept` and `IdSource` state it |
| RequestMiddleware.Decide | lib/index.js:324-344 | the handler's loops reach the specified decision |
| RequestMiddleware.TraceHeader | lib/index.js:349-352 | the `cork-trace-id` header as a truthiness test; `IdSource` and `HeaderRule` state how it is read and written |
| RequestMiddleware.Req.constructor | lib/index.js:348-353 | a request starts with the given fields |
| RequestMiddleware.Req.AssignTraceId | lib/index.js:348-353 | the id and the header are set as specified |
| RequestMiddleware.AssignedHeaders | lib/index.js:351-353 | the headers after the id is set; `HeaderRule` states them |
| RequestMiddleware.FinishArgs | lib/index.js:357 | the finish log's arguments; `Handle` states the call made with them |
| RequestMiddleware.Handle | lib/index.js:322-360 | a passed-on request is left untouched and nothing is logged; otherwise the trace id is set and the finish log is the logger call at the decided level |
| RequestMiddleware.PassThroughIff | lib/index.js:324-334 | a request is passed on exactly when `LOG_REQ` is `false` or an ignore pattern matches, and never in index.js |
| RequestMiddleware.LevelChoice | lib/index.js:336-344 | it is logged at `debug` exactly when a debug pattern matches, otherwise at `info` |
| RequestMiddleware.IgnoreBeatsDebug | lib/index.js:328-344 | an ignore match wins over a debug match |
| RequestMiddleware.EnvPatternsWin | lib/index.js:301-319 | a non-empty environment list wins over the option |
| RequestMiddleware.NonEmptyKeeps | dist/index.cjs:280-282 | the filter keeps exactly the non-empty entries |
| RequestMiddleware.NonEmptyAppend | dist/index.cjs:280-282 | the filter distributes over concatenation, so it keeps the entries in their order |
| RequestMiddleware.NonEmptyOne | dist/index.cjs:280-282 | on one entry the filter keeps it exactly when it is not empty |
| RequestMiddleware.ParsedPatterns | dist/index.cjs:278-284 | every pattern is a non-empty trimmed piece without a comma |
| RequestMiddleware.BlankPieceIsEmpty | dist/index.cjs:278-281 | every piece of a text made only of blanks and commas trims to the empty text |
| RequestMiddleware.BlankEnvIgnoresNothing | dist/index.cjs:275-286 | a blank-and-comma `LOG_REQ_IGNORE` gives an empty list that ignores no request |
| RequestMiddleware.ExistingIdKept | lib/index.js:348-350 | a truthy `req.corkTraceId` is kept |
| RequestMiddleware.IdSource | lib/index.js:349 | otherwise the id is the header when present, else the new uuid |
| RequestMiddleware.HeaderRule | lib/index.js:351-353 | afterwards the header is non-empty; it keeps its value when it had one, and otherwise holds the id |

## Left out

- Output: `console.log(JSON.stringify(log))` is modelled as appending the record to `sink`. JSON serialization is not modelled: key order, the dropping of `undefined` values, and `toISOString`.
- Clocks, host and randomness: `os.hostname()`, `new Date()`, `Date.now()` and `uuid()` are parameters (`machine`, `now`, `ms`, `uuid`).
- The `finish` event: the finish log is modelled as happening right after the handler. The handler's call to `next()` is not modelled.
- Regular expressions: `re.test(url)` for the ignore and debug patterns is an abstract `matches` parameter. `new RegExp` throwing on an invalid pattern is not modelled. A single `RegExp` given as an option is not modelled; only texts and arrays of `RegExp` objects (each by its source) are. An array holding anything else makes `re.test` throw on the first request that reaches the loop (lib/index.js:330, 339); that is not modelled.
- HttpInfo.Latency: a `reqTimeInMs` that is not a number renders as `NaNs`. JavaScript would coerce a numeric text (`"1500"` gives `1.500s`) and an empty text or array (`0.000s`); that coercion is not modelled.
- JsValues.Value: JavaScript numbers are modelled as integers; fractions, `NaN` and infinities are not modelled.
- HttpInfo.LatencyText: `toFixed(3)` is modelled for whole milliseconds only, because `Date.now()` differences are whole numbers. Fractional or floating-point input is not modelled.
- Text.ToLower and Text.ToUpper: case mapping is modelled for ASCII letters only, because Unicode case mapping is not modelled. This covers the level (lib/index.js:252), `req.protocol` (lib/index.js:54) and the severity (lib/index.js:269).
- PayloadBuilder.AboveServerError: `status > 500` is modelled for numeric statuses. A numeric text, which JavaScript would coerce, counts as not above 500.
- Aliasing: `createLogger` fills in the caller's `opts` object in place, and `makeLabel` adds properties to whatever object sits under the labels key (lib/index.js:213-219), usually an object the caller passed as an argument. The model copies values, so the caller's later view of those objects is not modelled. With the labels key `labels` and a truthy `opts.labels`, this reaches the logger's own records too. The initial `info` call merges `opts` (lib/index.js:122, 284), so the labels entry is the very object `opts.labels`, and its `makeLabel` calls (lib/index.js:219) write the promoted fields, such as `name`, into `opts.labels` itself. Every later record then copies them back as static labels (lib/index.js:184-188). For example, `logger.info({name: 'other'})` ends with `labels.name` equal to the configured name, where the model's `StaticLabels` keeps `'other'`.
- Ordering: `for…in` over `opts.labels` is modelled in insertion order, a repeated key at its first place; integer-like keys are not moved first.
- `renderTemplate` and `consoleMap`: not modelled, because nothing in the three editions reaches them.
- LoggerConfig.ConfigFields: `LOG_SRC=true` sets `opts.src = true` when the option is absent (lib/index.js:224-226, dist/index.cjs:211-213, index.js:183-185), and the initial `info` call logs it with the other options (lib/index.js:284). The model leaves `src` out of the options, so that field of the first record is not modelled. No edition reads `opts.src` when building a record. The initial `info` call logs the caller's whole `opts` object, merged by `Object.assign` (lib/index.js:122, 284; dist/index.cjs:119, 258; index.js:90, 238). So option keys other than the eight modelled ones (for example `env: 'prod'` in `createLogger({name: 'svc', env: 'prod'})`) also appear in the first record. `Options` has no place for them, so `ConfigFields` and `LoggerFacade.InitArgs` do not carry them.
- Options that are not among the eight modelled ones, and modelled options whose values are not texts, lists or label pairs (numbers, functions), are not modelled.
- Express objects put directly into a record as values are not modelled. `req`/`res` are carried as dedicated values.
- PayloadBuilder.MakeLabel: an existing labels entry that is an array, an `Error` or an Express object drops the value instead of receiving it as a property.
- A `labels` option that is not a list of pairs (a primitive or an array) is not modelled.
- The demonstration script test/index.js and the module export lines are not part of this model.
