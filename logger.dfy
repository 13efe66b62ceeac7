/** The risk scorer and the log-record enrichment of the logger module.
    `calculateRiskScore(data, geo, ua)` adds a fixed weight per rule that
    fires and caps the sum at 100; `enrichLog(data)` copies the log data and
    adds a timestamp, the geolocation, the device and the score. */
module Logger {
  import opened Js
  import opened Text
  import opened UaParser

  const GEO_WEIGHT: int := 30
  const BOT_WEIGHT: int := 25
  const PROXY_WEIGHT: int := 15
  const PROBE_WEIGHT: int := 20
  const SCORE_CAP: int := 100

  /** The high-risk countries, as `geo.country` values. */
  const WATCH_LIST: seq<Value> := [Str("CN"), Str("RU"), Str("NK")]

  /** `geo && ['CN', 'RU', 'NK'].includes(geo.country)`. */
  predicate GeoRule(geo: Value) {
    Truthy(geo) && Get(geo, "country") in WATCH_LIST
  }

  /** `ua.browser.name?.toLowerCase().includes('bot')`, truthy. */
  predicate BotRule(ua: UaResult) {
    match Name(ua.browser)
    case None => false
    case Some(name) => Contains(LowerAscii(name), "bot")
  }

  /** `data.headers?.['x-forwarded-for']`, truthy. */
  predicate ProxyRule(data: map<string, Value>) {
    Truthy(Get(Field(data, "headers"), "x-forwarded-for"))
  }

  /** `data.path?.includes('admin') || data.path?.includes('wp-')`: a
      nullish path short-circuits to `undefined`; a string is searched; an
      array is searched for an equal element; any other value has no
      `includes` method, so the call throws a TypeError. */
  function ProbeRule(data: map<string, Value>): (r: Completion<bool>)
    ensures r.Threw? <==> !(Field(data, "path").Undefined? || Field(data, "path").Null?
                            || Field(data, "path").Str? || Field(data, "path").Arr?)
  {
    match Field(data, "path")
    case Undefined => Normal(false)
    case Null => Normal(false)
    case Str(p) => Normal(Contains(p, "admin") || Contains(p, "wp-"))
    case Arr(items) => Normal(Str("admin") in items || Str("wp-") in items)
    case _ => Threw("TypeError: data.path?.includes is not a function")
  }

  /** Which of the four rules fired. */
  datatype Signals = Signals(geo: bool, bot: bool, proxy: bool, probe: bool)

  function Weight(fired: bool, w: int): int {
    if fired then w else 0
  }

  function Min(a: int, b: int): int {
    if a <= b then a else b
  }

  /** The score of a set of fired rules: the capped sum of their weights. */
  function Score(s: Signals): int {
    Min(SCORE_CAP, Weight(s.geo, GEO_WEIGHT) + Weight(s.bot, BOT_WEIGHT)
                   + Weight(s.proxy, PROXY_WEIGHT) + Weight(s.probe, PROBE_WEIGHT))
  }

  /** The score `calculateRiskScore` returns, or the error it throws. */
  function RiskScore(data: map<string, Value>, geo: Value, ua: UaResult): (r: Completion<int>)
    ensures r.Normal? <==> ProbeRule(data).Normal?
  {
    match ProbeRule(data)
    case Threw(e) => Threw(e)
    case Normal(probe) => Normal(Score(Signals(GeoRule(geo), BotRule(ua), ProxyRule(data), probe)))
  }

  /** `calculateRiskScore(data, geo, ua)`: an accumulator raised rule by
      rule, then capped. */
  method CalculateRiskScore(data: map<string, Value>, geo: Value, ua: UaResult) returns (r: Completion<int>)
    ensures r == RiskScore(data, geo, ua)
  {
    var score := 0;
    if GeoRule(geo) {
      score := score + GEO_WEIGHT;
    }
    if BotRule(ua) {
      score := score + BOT_WEIGHT;
    }
    if ProxyRule(data) {
      score := score + PROXY_WEIGHT;
    }
    var probe := ProbeRule(data);
    if probe.Threw? {
      return Threw(probe.error);
    }
    if probe.value {
      score := score + PROBE_WEIGHT;
    }
    r := Normal(Min(score, SCORE_CAP));
  }

  /** The four weights add up to 90, so the cap never takes effect: the
      score is exactly the sum of the weights of the rules that fired. */
  lemma ScoreIsSum(s: Signals)
    ensures Score(s) == Weight(s.geo, GEO_WEIGHT) + Weight(s.bot, BOT_WEIGHT)
                        + Weight(s.proxy, PROXY_WEIGHT) + Weight(s.probe, PROBE_WEIGHT)
    ensures 0 <= Score(s) <= 90 <= SCORE_CAP
  {
  }

  /** Firing one more rule never lowers the score. */
  lemma ScoreMonotone(s: Signals, t: Signals)
    requires s.geo ==> t.geo
    requires s.bot ==> t.bot
    requires s.proxy ==> t.proxy
    requires s.probe ==> t.probe
    ensures Score(s) <= Score(t)
  {
  }

  /** All four rules give 90; none gives 0. */
  lemma ScoreExtremes()
    ensures Score(Signals(true, true, true, true)) == 90
    ensures Score(Signals(false, false, false, false)) == 0
  {
  }

  /** Every score `calculateRiskScore` returns lies between 0 and 90. */
  lemma RiskScoreBounds(data: map<string, Value>, geo: Value, ua: UaResult)
    ensures RiskScore(data, geo, ua).Normal? ==> 0 <= RiskScore(data, geo, ua).value <= 90
  {
    if RiskScore(data, geo, ua).Normal? {
      ScoreIsSum(Signals(GeoRule(geo), BotRule(ua), ProxyRule(data), ProbeRule(data).value));
    }
  }

  /** The geo rule fires only for a truthy `geo` whose `country` is exactly
      one of the watch-listed codes; a null or absent `geo` never fires it. */
  lemma GeoRuleIff(geo: Value)
    ensures GeoRule(geo) <==> geo.Obj? && "country" in geo.fields
                              && geo.fields["country"] in {Str("CN"), Str("RU"), Str("NK")}
  {
  }

  /** The bot rule looks for `bot` in the browser name regardless of
      letter case, e.g. in `GoogleBot`; without a name it does not fire. */
  lemma BotRuleExamples(ua: UaResult)
    ensures Name(ua.browser) == None ==> !BotRule(ua)
    ensures Name(ua.browser) == Some("GoogleBot") ==> BotRule(ua)
  {
    GoogleBotContainsBot();
  }

  /** A path holding both `admin` and `wp-` adds the probe weight once;
      an absent path adds nothing. */
  lemma ProbeRuleExamples(data: map<string, Value>)
    ensures "path" !in data ==> ProbeRule(data) == Normal(false)
    ensures Field(data, "path") == Str("/wp-admin") ==> ProbeRule(data) == Normal(true)
  {
    assert OccursAt("/wp-admin", "admin", 4);
    ContainsIff("/wp-admin", "admin");
  }

  /** `data` with an `x-forwarded-for` header set to `v`. */
  function WithForwardedFor(data: map<string, Value>, v: Value): map<string, Value> {
    var headers := Field(data, "headers");
    data["headers" := Obj((if headers.Obj? then headers.fields else map[])["x-forwarded-for" := v])]
  }

  /** Adding a truthy `x-forwarded-for` header to otherwise unchanged data
      never lowers the score, and raises it by 15 when the header was not
      there before. */
  lemma ForwardedForNeverLowers(data: map<string, Value>, geo: Value, ua: UaResult, v: Value)
    requires Truthy(v)
    ensures RiskScore(WithForwardedFor(data, v), geo, ua).Normal? == RiskScore(data, geo, ua).Normal?
    ensures RiskScore(data, geo, ua).Normal? ==>
              RiskScore(data, geo, ua).value <= RiskScore(WithForwardedFor(data, v), geo, ua).value
    ensures RiskScore(data, geo, ua).Normal? && !ProxyRule(data) ==>
              RiskScore(WithForwardedFor(data, v), geo, ua).value == RiskScore(data, geo, ua).value + PROXY_WEIGHT
  {
    var data' := WithForwardedFor(data, v);
    assert Field(data', "path") == Field(data, "path");
    assert ProxyRule(data');
  }

  /** A path of `/admin-login` fires the probe rule. */
  lemma AdminLoginPathProbes(data: map<string, Value>)
    requires Field(data, "path") == Str("/admin-login")
    ensures ProbeRule(data) == Normal(true)
  {
    var p := "/admin-login";
    assert p[1..6] == "admin";
    assert OccursAt(p, "admin", 1);
    ContainsIff(p, "admin");
  }

  /** When all four rules fire the score is 90. */
  lemma AllRulesScore90(data: map<string, Value>, geo: Value, ua: UaResult)
    requires GeoRule(geo) && BotRule(ua) && ProxyRule(data) && ProbeRule(data) == Normal(true)
    ensures RiskScore(data, geo, ua) == Normal(90)
  {
  }

  /** The scenario of a probing bot: any data whose path is `/admin-login`
      and which has a forwarded-for header, from a `GoogleBot` browser and a
      Russian address, scores 90. */
  lemma ProbingBotScores90(data: map<string, Value>, geo: Value, ua: UaResult)
    requires Field(data, "path") == Str("/admin-login")
    requires Truthy(Get(Field(data, "headers"), "x-forwarded-for"))
    requires geo.Obj? && Get(geo, "country") == Str("RU")
    requires Name(ua.browser) == Some("GoogleBot")
    ensures RiskScore(data, geo, ua) == Normal(90)
  {
    GeoRuleIff(geo);
    BotRuleExamples(ua);
    AdminLoginPathProbes(data);
    AllRulesScore90(data, geo, ua);
  }

  /** Empty data, a null geolocation and no browser name score 0. */
  lemma EmptyRequestScores0(ua: UaResult)
    requires Name(ua.browser) == None
    ensures RiskScore(map[], Null, ua) == Normal(0)
  {
  }

  /** The four fields `enrichLog` writes over whatever `data` holds. */
  const OVERWRITTEN: set<string> := {"timestamp", "geolocation", "device", "risk_score"}

  /** `{browser: ua.browser, os: ua.os, device: ua.device}`. */
  function Device(ua: UaResult): Value {
    Obj(map["browser" := OfStrings(ua.browser), "os" := OfStrings(ua.os), "device" := OfStrings(ua.device)])
  }

  /** `enrichLog(data)`, with the geolocation lookup, the user-agent parser
      and the current time as parameters. It throws when the score does. */
  function EnrichLog(data: map<string, Value>, lookup: Value -> Value, parse: Parser, now: string)
    : (r: Completion<map<string, Value>>)
    ensures r.Normal? <==> ProbeRule(data).Normal?
    ensures r.Normal? ==> r.value.Keys == data.Keys + OVERWRITTEN
    ensures r.Normal? ==> forall k :: k in data && k !in OVERWRITTEN ==> r.value[k] == data[k]
    ensures r.Normal? ==>
              && r.value["timestamp"] == Str(now)
              && r.value["geolocation"] == lookup(Field(data, "ip"))
              && r.value["device"] == Device(parse(Get(Field(data, "headers"), "user-agent")))
    ensures r.Normal? ==>
              var score := RiskScore(data, lookup(Field(data, "ip")), parse(Get(Field(data, "headers"), "user-agent")));
              score.Normal? && r.value["risk_score"] == Num(score.value as real)
  {
    var geo := lookup(Field(data, "ip"));
    var ua := parse(Get(Field(data, "headers"), "user-agent"));
    match RiskScore(data, geo, ua)
    case Threw(e) => Threw(e)
    case Normal(score) =>
      Normal(data["timestamp" := Str(now)]["geolocation" := geo]["device" := Device(ua)]
                 ["risk_score" := Num(score as real)])
  }

  /** The score recorded by `enrichLog` is a number between 0 and 90. */
  lemma EnrichedScoreInRange(data: map<string, Value>, lookup: Value -> Value, parse: Parser, now: string)
    requires EnrichLog(data, lookup, parse, now).Normal?
    ensures var rs := EnrichLog(data, lookup, parse, now).value["risk_score"];
            rs.Num? && 0.0 <= rs.x <= 90.0
  {
    RiskScoreBounds(data, lookup(Field(data, "ip")), parse(Get(Field(data, "headers"), "user-agent")));
  }
}
