# Honeypot detection rules, modelled in Dafny

The honeypot is an Express server with decoy endpoints. It has four pieces of
decision logic, and this project models each one and proves properties of it:

- **Risk scorer** (`calculateRiskScore`). It adds 30 for a watch-listed
  country (CN, RU, NK), 25 for a browser name containing `bot` in any letter case, 15 for a
  non-empty `x-forwarded-for` header and 20 for a path mentioning `admin` or `wp-`.
  Then it caps the sum at 100.
- **Log enrichment** (`enrichLog`). It copies the log data and adds a
  timestamp, the geolocation, the device and the risk score.
- **Device fingerprint** (`DeviceFingerprint.generate`). It keeps the truthy
  values among six request components (user agent, accept-language,
  accept-encoding, ip, sec-ch-ua, sec-ch-ua-platform), joins them with `|`
  and hashes the result with SHA-256.
- **Header analysis** (`DeviceFingerprint.analyzeHeaders`). It tags two
  inconsistencies, `missing_encoding` and `invalid_browser_os`, and
  fingerprints the request with the `x-forwarded-for` header in the ip slot.
- **Server rules.** The middleware's `suspicious` pre-filter only decides
  whether a warning is logged; the middleware always calls `next()`. The
  `/admin-login` handler answers 401 or 429, depending on the rate limiter.

JavaScript truthiness is explicit. `Js.Value` covers undefined, null,
booleans, numbers, NaN, strings, arrays and plain objects, and `Js.Truthy`
is ToBoolean. Every truthiness test goes through it.

The external collaborators are parameters:
- SHA-256 is a function `string -> Digest`. `Digest` is the type of strings
  of 64 lower-case hex digits.
- The geolocation lookup is a function `Value -> Value`.
- The user-agent parser is a function `Value -> UaResult`.
- The clock is a `now: string` argument.
- The rate limiter's `consume(req.ip)` is an `admitted: bool` argument.

Files, one module each: `js.dfy`, `text.dfy`, `ua_parser.dfy`,
`fingerprint.dfy`, `logger.dfy`, `server.dfy`.

Properties of the code that a reader might not expect, all followed by the
model:
- `calculateRiskScore` can throw. `data.path?.includes(...)` raises a
  TypeError when `path` is neither nullish, a string nor an array. The model
  returns `Threw` in that case, and `enrichLog` passes the error on.
- The cap at 100 never takes effect, because the four weights add up to 90.
- The inconsistencies form a list with a fixed order, not a set.
- `analyzeHeaders` puts the `x-forwarded-for` header in the ip slot of the
  fingerprint, not the client address.
- The fingerprint does not record which slot a value came from, and it does
  not escape `|`. So requests that differ can share a fingerprint
  (`SlotCollision`, `SeparatorCollision`, `PreImagesCollideIff`).
- No code composes fingerprinting, header analysis and scoring: `server.js`
  never calls `enrichLog` or `DeviceFingerprint`.
- Express's query parser yields only strings, arrays and objects. So
  `?admin=false` and `?admin=0` arrive as the truthy strings `"false"` and
  `"0"` and make a request suspicious; only `?admin=` (the empty string)
  does not. A JSON body can carry `false` or `0`, which do not count.
- The watch list holds `NK`, which is not an ISO 3166-1 alpha-2 code (North
  Korea is `KP`). With a lookup that returns ISO codes, that entry never
  fires. The lookup is a parameter, so the model cannot show this.

## Model

| member | source | states |
|---|---|---|
| `Js.Truthy` | server.js:37 | ToBoolean: undefined, null, `false`, `0`, `NaN` and `""` are falsy, everything else truthy (see `Js.TruthyIffNotFalsy`) |
| `Js.TruthyIffNotFalsy` | server.js:32-37 | a value is truthy exactly when it is none of undefined, null, false, 0, NaN and the empty string |
| `Js.Get` | server.js:35-36 | `v?.key`: an own field of a plain object, else `undefined` (see `Logger.GeoRuleIff`, `Server.SuspiciousIff`) |
| `Js.OfOption` | utils/fingerprint.js:17 | a possibly absent header value is truthy exactly when it is present and non-empty |
| `Text.LowerAscii` | server.js:33 | lower-casing keeps the length and maps each character through ASCII lower-casing |
| `Text.ContainsIff` | utils/logger.js:40 | the left-to-right scan behind `includes` succeeds exactly when the substring occurs at some index |
| `Text.UnjoinJoin` | utils/fingerprint.js:17 | splitting a `join` of non-empty, separator-free parts gives the parts back, in order |
| `Text.JoinEmpty` | utils/fingerprint.js:17 | a join of non-empty parts is empty exactly when there are no parts |
| `Fingerprint.KeepTruthy` | utils/fingerprint.js:17 | `filter(Boolean)` keeps at most as many values as it is given, and every kept value is non-empty |
| `Fingerprint.KeepTruthyIsFilter` | utils/fingerprint.js:17 | `filter(Boolean)` keeps one slot exactly when it is truthy, and filtering a concatenation concatenates the filtered parts, so each truthy value is kept once, in slot order |
| `Fingerprint.KeptIff` | utils/fingerprint.js:6-17 | a string is kept exactly when it is non-empty and fills one of the six slots |
| `Fingerprint.KeptNone` | utils/fingerprint.js:17 | nothing is kept exactly when every slot is absent or empty |
| `Fingerprint.PreImage` | utils/fingerprint.js:6-17 | the hashed string is empty exactly when all six components are absent or empty; absent components never cause an error |
| `Fingerprint.Generate` | utils/fingerprint.js:5-19 | the fingerprint is the SHA-256 hex digest of the pre-image, so it depends on the request only through `PreImage` (see `GenerateIgnoresOtherHeaders` and the collision lemmas) |
| `Fingerprint.PreImageDecodes` | utils/fingerprint.js:6-17 | when no component contains the separator, the hashed string gives back exactly the truthy components in slot order, and nothing about their slots |
| `Fingerprint.PreImagesCollideIff` | utils/fingerprint.js:6-17 | two such requests share a pre-image exactly when they keep the same values in the same order, whatever their slots |
| `Fingerprint.SlotCollision` | utils/fingerprint.js:6-18 | a request with only `user-agent: x` and one with only `accept-language: x` differ but get the same fingerprint |
| `Fingerprint.SeparatorCollision` | utils/fingerprint.js:6-18 | a user agent holding the separator between `a` and `b` alone, and `user-agent: a` with `accept-language: b`, differ but get the same fingerprint |
| `Fingerprint.GenerateIgnoresOtherHeaders` | utils/fingerprint.js:5-19 | the fingerprint depends only on the five component headers and the ip; any other header leaves it unchanged |
| `Fingerprint.AnalyzeHeaders` | utils/fingerprint.js:21-42 | `missing_encoding` is reported iff accept-language is truthy and accept-encoding is falsy. `invalid_browser_os` is reported iff the parsed os name is exactly `Windows` and the browser name exactly `Safari`. The list has at most two entries, no duplicates and `missing_encoding` first. The fingerprint is `generate` with `x-forwarded-for` as the ip, and the profile is the parser's result |
| `Logger.GeoRule` | utils/logger.js:37 | the geo rule: `geo` is truthy and its `country` is one of `CN`, `RU`, `NK` (see `Logger.GeoRuleIff`) |
| `Logger.BotRule` | utils/logger.js:40 | the bot rule: the browser name exists and contains `bot` after lower-casing (see `Logger.BotRuleExamples`) |
| `Logger.ProxyRule` | utils/logger.js:43 | the proxy rule: `data.headers?.['x-forwarded-for']` is truthy |
| `Logger.Score` | utils/logger.js:34-46 | the sum of 30, 25, 15 and 20 over the rules that fired, capped at 100 (see `Logger.ScoreIsSum`) |
| `Logger.ProbeRule` | utils/logger.js:44 | the path rule throws exactly when `data.path` is not nullish, a string or an array |
| `Logger.RiskScore` | utils/logger.js:33-47 | the score is produced exactly when the path rule does not throw |
| `Logger.CalculateRiskScore` | utils/logger.js:33-47 | the accumulator method returns the capped sum of the weights (30, 25, 15, 20) of the rules that fire, or the path rule's error |
| `Logger.ScoreIsSum` | utils/logger.js:34-46 | the cap never takes effect: the score equals the plain sum of the fired weights and lies in [0, 90] |
| `Logger.ScoreMonotone` | utils/logger.js:36-44 | making rules fire, with the rest unchanged, never lowers the score |
| `Logger.ScoreExtremes` | utils/logger.js:34-46 | all four rules give 90; none gives 0 |
| `Logger.RiskScoreBounds` | utils/logger.js:46 | every returned score is between 0 and 90 |
| `Logger.GeoRuleIff` | utils/logger.js:37 | the geo rule fires iff `geo` is an object whose `country` is exactly `CN`, `RU` or `NK`; a null or absent geo never fires it |
| `Logger.BotRuleExamples` | utils/logger.js:40 | an absent browser name does not fire the bot rule; `GoogleBot` does, because the test ignores case |
| `Logger.ProbeRuleExamples` | utils/logger.js:44 | an absent path adds nothing; `/wp-admin` holds both `admin` and `wp-` and fires the rule once |
| `Logger.ForwardedForNeverLowers` | utils/logger.js:43 | adding a truthy `x-forwarded-for` header never lowers the score and adds exactly 15 when the header was falsy |
| `Logger.AllRulesScore90` | utils/logger.js:34-46 | when all four rules fire, the score is 90 |
| `Logger.AdminLoginPathProbes` | utils/logger.js:44 | a path of `/admin-login` fires the probe rule |
| `Logger.ProbingBotScores90` | utils/logger.js:33-47 | data with path `/admin-login` and any truthy forwarded-for header, a `GoogleBot` browser and country `RU` score 90 |
| `Logger.EmptyRequestScores0` | utils/logger.js:33-47 | empty data, a null geolocation and no browser name score 0 |
| `Logger.EnrichLog` | utils/logger.js:16-31 | the record keeps every field of `data` except `timestamp`, `geolocation`, `device` and `risk_score`, which it sets. The geolocation comes from `data.ip`, the device from the user agent's parse, and `risk_score` is the score of the same geo and parse. It throws exactly when the score does |
| `Logger.EnrichedScoreInRange` | utils/logger.js:29 | the recorded `risk_score` is a number between 0 and 90 |
| `Server.AnyTruthyIff` | server.js:37 | `.some(Boolean)` holds exactly when some element is truthy |
| `Server.Suspicious` | server.js:32-37 | the middleware's `[...].some(Boolean)` over the bot check, the forwarded-for header and the two `admin` fields (see `Server.SuspiciousIff`) |
| `Server.SuspiciousIff` | server.js:32-37 | a request is suspicious iff its user agent contains `bot` in any case, or it has a non-empty `x-forwarded-for`, or `body.admin` or `query.admin` is truthy |
| `Server.GoogleBotIsSuspicious` | server.js:33 | a `GoogleBot` user agent makes a request suspicious |
| `Server.NoUserAgentDecidesNothing` | server.js:33 | without a user agent, only the other three checks decide |
| `Server.AdminField` | server.js:35-36 | a truthy `admin` in body or query suffices; the values `false`, `0` or `""` do not count (from a query string only `""` can arrive; `"false"` and `"0"` are truthy strings) |
| `Server.EmptyRequestNotSuspicious` | server.js:32-37 | a request without headers, body fields or query fields is not suspicious, whether `req.body` is an empty object or `undefined` |
| `Server.HoneypotMiddleware` | server.js:31-50 | the middleware always calls `next()`. It logs one warning with the request's ip, path, headers, body and query exactly when the request is suspicious, and logs nothing otherwise |
| `Server.AdminLogin` | server.js:55-68 | the handler answers 401 exactly when `consume` admits and 429 exactly when it rejects. It logs the `admin-login` trigger only when admitted |
| `Server.ServeAdminLogin` | server.js:52-68 | a request to `/admin-login` gets the handler's response. Its log holds exactly the middleware's warning with the request's ip, path, headers, body and query (if suspicious), followed by the handler's `admin-login` trigger with the ip and body (if admitted) |

## Left out

- Express routing, `express.json`, morgan, `app.listen`, and the `/api/users` and `/contact-form` endpoints are left out. They are transport plumbing with fixed responses.
- The winston loggers and their file and console transports are left out. A log call is modelled as a `LogEvent` value.
- The rate limiter (`RateLimiterMemory`, 5 points per 60 seconds) is a library whose code is not part of this model. Its `consume` outcome is the `admitted` parameter. The model has no window algorithm and does not cover the limiter's shared state under concurrency.
- SHA-256 is not modelled. It is an arbitrary function into 64-digit lower-case hex strings, so no property of the digest beyond its format is used.
- `geoip-lite` and `ua-parser-js` are not modelled; their results come in through function parameters. The parser's result keeps only `browser`, `os` and `device`, as string fields.
- `new Date().toISOString()` is the `now` parameter.
- Text.LowerAscii: lower-cases only ASCII `A`-`Z`, while `toLowerCase` follows full Unicode case mapping.
- Logger.EnrichLog: the result is a map, so it does not record JavaScript's property order.
- Property access on strings, numbers and arrays gives `undefined`. That is exact for the property names these rules read (`admin`, `country`, `headers`, `path`, `user-agent`, `x-forwarded-for`).
- Numbers are reals plus `NaN`. Infinities, which `JSON.parse` produces for literals such as `1e999`, are not represented; a non-zero `Num` stands in for them, since both are truthy and neither has an `includes` method.
- Header values are single strings keyed by lower-case names, as Node delivers the headers these rules read. Multi-valued headers are not represented.
- Server.AdminLogin: an exception thrown by the logger or by the response inside the handler's `try` would also lead to 429; only `consume`'s rejection is modelled.
- The composition of fingerprinting, header analysis and scoring into one detection step is not modelled, because no code performs it: `server.js` never calls `enrichLog` or `DeviceFingerprint`.
- `enrichLog(data)` and `analyzeHeaders(headers)` throw a TypeError when given `undefined` or `null`. The model's argument types (a map of fields, a map of headers) cannot be nullish, so that error path is not represented.
