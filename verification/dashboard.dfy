/** The pure rules of the browser script (static/dashboard.js): the uptime
    colour class, the per-entry dispatch with its stake arithmetic, the
    empty-payload check, and the choice of refresh interval. The page
    itself (jQuery, HTML templates, number formatting, timers) is not
    modelled; a rendering is the set of cards the script would build. */
module Dashboard {
  import opened Results
  import opened Json
  import opened JsNum
  import Decimal

  const DefaultRefreshIntervalMs: real := 600000.0
  const HighThreshold: real := 95.0
  const MediumThreshold: real := 90.0

  /** The CSS classes `uptime-high`, `uptime-medium` and `uptime-low`. */
  datatype UptimeClass = UptimeHigh | UptimeMedium | UptimeLow

  /** JavaScript `u >= t` for a number `u` and a finite `t`: false when
      `u` is `NaN` or negative infinity, true for positive infinity. */
  predicate AtLeast(u: JsNumber, t: real) {
    match u
    case Finite(x) => x >= t
    case Infinity(negative) => !negative
    case NaN => false
  }

  /** `getUptimeClass(uptime)`. */
  function UptimeClassOf(u: JsNumber): (c: UptimeClass)
    ensures c == UptimeHigh <==> u == Infinity(false) || (u.Finite? && u.value >= HighThreshold)
    ensures c == UptimeMedium <==> u.Finite? && MediumThreshold <= u.value < HighThreshold
    ensures c == UptimeLow <==> u.NaN? || u == Infinity(true) || (u.Finite? && u.value < MediumThreshold)
  {
    if AtLeast(u, HighThreshold) then UptimeHigh
    else if AtLeast(u, MediumThreshold) then UptimeMedium
    else UptimeLow
  }

  /** How good a class is: low, medium, high. */
  function Rank(c: UptimeClass): nat {
    match c
    case UptimeLow => 0
    case UptimeMedium => 1
    case UptimeHigh => 2
  }

  /** A higher uptime never gets a worse class. */
  lemma UptimeClassMonotone(a: real, b: real)
    requires a <= b
    ensures Rank(UptimeClassOf(Finite(a))) <= Rank(UptimeClassOf(Finite(b)))
  {
  }

  /** JavaScript truthiness of a decoded JSON value: unlike Python, empty
      arrays and objects are truthy. */
  predicate JsTruthy(v: Json): (b: bool)
    ensures !b <==> v in {JNull, JBool(false), JNum(0.0), JStr("")}
  {
    match v
    case JNull => false
    case JBool(b) => b
    case JNum(n) => n != 0.0
    case JStr(s) => s != ""
    case _ => true
  }

  /** `v.name` for a value that is not `null`; `None` is `undefined`. */
  function Prop(v: Json, name: string): (r: Option<Json>)
    ensures r.Some? ==> v.JObj? && name in v.fields && r.value == v.fields[name]
    ensures v.JObj? && name in v.fields ==> r == Some(v.fields[name])
  {
    match v
    case JObj(m) => if name in m then Some(m[name]) else None
    case _ => None
  }

  /** `v || fallback`: the value when it is present and truthy, the
      fallback otherwise. */
  function OrElse(v: Option<Json>, fallback: Json): (r: Json)
    ensures v.Some? && JsTruthy(v.value) ==> r == v.value
    ensures !(v.Some? && JsTruthy(v.value)) ==> r == fallback
    ensures JsTruthy(fallback) ==> JsTruthy(r)
  {
    if v.Some? && JsTruthy(v.value) then v.value else fallback
  }

  /** `parseFloat(v) || 0`: anything that does not parse counts as 0
      (and 0 stays 0); infinities are truthy and pass through. */
  function StakeAmount(v: Option<Json>): (r: JsNumber)
    ensures !r.NaN?
    ensures ParseFloatOf(v).NaN? ==> r == Finite(0.0)
    ensures !ParseFloatOf(v).NaN? ==> r == ParseFloatOf(v)
  {
    match ParseFloatOf(v)
    case NaN => Finite(0.0)
    case x => x
  }

  /** JavaScript `a + b` on numbers: `NaN` when either side is `NaN` or
      the two are infinities of opposite sign, an infinity when either
      side is one, the sum otherwise. */
  function Add(a: JsNumber, b: JsNumber): (r: JsNumber)
    ensures a.Finite? && b.Finite? ==> r == Finite(a.value + b.value)
    ensures r.NaN? <==> a.NaN? || b.NaN? || (a.Infinity? && b.Infinity? && a.negative != b.negative)
    ensures r.Infinity? ==> r == a || r == b
    ensures a.Infinity? && (b.Finite? || b == a) ==> r == a
    ensures b.Infinity? && (a.Finite? || a == b) ==> r == b
  {
    match (a, b)
    case (NaN, _) => NaN
    case (_, NaN) => NaN
    case (Infinity(n), Infinity(m)) => if n == m then a else NaN
    case (Infinity(_), _) => a
    case (_, Infinity(_)) => b
    case (Finite(x), Finite(y)) => Finite(x + y)
  }

  /** The `"N/A"` placeholder and a missing stake field both count as 0. */
  lemma NotAvailableStakeIsZero()
    ensures StakeAmount(Some(JStr("N/A"))) == Finite(0.0)
    ensures StakeAmount(None) == Finite(0.0)
  {
    var s := "N/A";
    assert forall i :: 0 <= i < |s| ==> !Decimal.IsDigit(s[i]);
    assert !InfinityAt(s, 0) by {
      assert s[0] != 'I';
    }
  }

  /** A stake given as a number counts as itself, also inside a
      one-element or longer array, whose string form starts with it. */
  lemma NumberStakeCounts(x: real, rest: seq<Json>)
    ensures StakeAmount(Some(JNum(x))) == Finite(x)
    ensures StakeAmount(Some(JArr([JNum(x)] + rest))) == Finite(x)
  {
  }

  /** A stake given as the decimal text of a whole number counts as its
      value. */
  lemma DigitStakeCounts(n: nat)
    ensures StakeAmount(Some(JStr(Decimal.NatText(n)))) == Finite(n as real)
  {
    var v := Some(JStr(Decimal.NatText(n)));
    ParseNatText(n);
    assert ParseFloatOf(v) == Finite(n as real);
  }

  /** What one entry renders as: a status line, or the detail card with its
      location, uptime class, expiration date and three stake figures. */
  datatype Card =
    | StatusCard(status: string)
    | DetailCard(location: Json, uptime: Option<Json>, uptimeClass: UptimeClass, expiration: Json,
                 selfStake: JsNumber, delegationStake: JsNumber, totalStake: JsNumber)

  /** The body of the `forEach` callback for one entry; `None` when it
      throws, which reading a property of `null` does. */
  function CardFor(details: Json): (c: Option<Card>)
    ensures c.None? <==> details.JNull?
    ensures c.Some? ==> (c.value.StatusCard? <==> details.JStr?)
    ensures details.JStr? ==> c == Some(StatusCard(details.s))
    ensures c.Some? && c.value.DetailCard? ==>
      && c.value.totalStake == Add(c.value.selfStake, c.value.delegationStake)
      && c.value.selfStake == StakeAmount(Prop(details, "stake_from_self"))
      && c.value.delegationStake == StakeAmount(Prop(details, "stake_from_delegations"))
      && c.value.uptime == Prop(details, "uptime")
      && c.value.uptimeClass == UptimeClassOf(ToNumberOf(c.value.uptime))
      && c.value.location == OrElse(Prop(details, "location"), JStr("Unknown"))
      && c.value.expiration == OrElse(Prop(details, "expiration_date"), JStr("Unknown"))
      && JsTruthy(c.value.location) && JsTruthy(c.value.expiration)
  {
    match details
    case JStr(s) => Some(StatusCard(s))
    case JNull => None
    case _ =>
      var selfStake := StakeAmount(Prop(details, "stake_from_self"));
      var delegationStake := StakeAmount(Prop(details, "stake_from_delegations"));
      var uptime := Prop(details, "uptime");
      Some(DetailCard(
        OrElse(Prop(details, "location"), JStr("Unknown")),
        uptime,
        UptimeClassOf(ToNumberOf(uptime)),
        OrElse(Prop(details, "expiration_date"), JStr("Unknown")),
        selfStake, delegationStake, Add(selfStake, delegationStake)))
  }

  /** `m` holds exactly the entries of `xs`, keyed by the decimal text of
      their indices. */
  predicate IndexKeyed(m: map<string, Json>, xs: seq<Json>) {
    && (forall i :: 0 <= i < |xs| ==> Decimal.NatText(i) in m && m[Decimal.NatText(i)] == xs[i])
    && (forall k :: k in m ==> exists i :: 0 <= i < |xs| && Decimal.NatText(i) == k)
  }

  /** The card of an object, field by field. */
  lemma DetailCardOf(details: Json)
    requires details.JObj?
    ensures CardFor(details) == Some(DetailCard(
      OrElse(Prop(details, "location"), JStr("Unknown")),
      Prop(details, "uptime"),
      UptimeClassOf(ToNumberOf(Prop(details, "uptime"))),
      OrElse(Prop(details, "expiration_date"), JStr("Unknown")),
      StakeAmount(Prop(details, "stake_from_self")),
      StakeAmount(Prop(details, "stake_from_delegations")),
      Add(StakeAmount(Prop(details, "stake_from_self")), StakeAmount(Prop(details, "stake_from_delegations")))))
  {
  }

  /** `Object.keys(data)` with `data[key]`: a dict's own entries, an
      array's indices, a string's character positions; other values have
      no keys. */
  function Entries(data: Json): (m: map<string, Json>)
    ensures data.JObj? ==> m == data.fields
    ensures data.JArr? ==> (m == map[] <==> data.items == []) && IndexKeyed(m, data.items)
    ensures data.JStr? ==> (m == map[] <==> data.s == "") && IndexKeyed(m, Chars(data.s))
    ensures !data.JObj? && !data.JArr? && !data.JStr? ==> m == map[]
  {
    match data
    case JObj(fields) => fields
    case JArr(xs) => Indexed(xs)
    case JStr(s) => Indexed(Chars(s))
    case _ => map[]
  }

  /** A string's characters, each as a one-character string. */
  function Chars(s: string): (r: seq<Json>)
    ensures |r| == |s| && forall i :: 0 <= i < |s| ==> r[i] == JStr([s[i]])
  {
    seq(|s|, i requires 0 <= i < |s| => JStr([s[i]]))
  }

  /** The index-keyed entries of an array. */
  function Indexed(xs: seq<Json>): (m: map<string, Json>)
    ensures m == map[] <==> |xs| == 0
    ensures IndexKeyed(m, xs)
  {
    forall i, j | 0 <= i < |xs| && 0 <= j < |xs| && Decimal.NatText(i) == Decimal.NatText(j)
      ensures i == j
    {
      Decimal.NatTextInjective(i, j);
    }
    var m := map i | 0 <= i < |xs| :: Decimal.NatText(i) := xs[i];
    assert |xs| > 0 ==> Decimal.NatText(0) in m;
    m
  }

  /** What the success callback leaves on the page. */
  datatype View =
    | NoData                          // the "No validator data available." error, no cards
    | Cards(cards: map<string, Card>) // one card per entry
    | Unchanged                       // the callback threw; nothing is rendered

  /** The success callback of `fetchData`. The cards are keyed by node ID;
      their order on the page follows the payload's key order. */
  function Render(data: Json): (v: View)
    ensures v.NoData? <==> !JsTruthy(data) || Entries(data) == map[]
    ensures v.Unchanged? ==> exists k :: k in Entries(data) && Entries(data)[k] == JNull
    ensures v.Cards? ==>
      && v.cards.Keys == Entries(data).Keys
      && forall k :: k in v.cards ==> CardFor(Entries(data)[k]) == Some(v.cards[k])
  {
    var entries := Entries(data);
    if !JsTruthy(data) || entries == map[] then NoData
    else if exists k :: k in entries && entries[k] == JNull then Unchanged
    else Cards(map k | k in entries :: CardFor(entries[k]).value)
  }

  /** The reply to the `/config` request. */
  datatype ConfigReply = ConfigFailed | ConfigLoaded(body: Json)

  /** The polling timer set up on page load: the interval passed to
      `setInterval`, or none when the success callback throws. */
  datatype Timer = Every(interval: Json) | NoTimer

  /** `config.refresh_interval_ms || DEFAULT_REFRESH_INTERVAL_MS`, and the
      default when the request fails. */
  function RefreshTimer(reply: ConfigReply): (t: Timer)
    ensures reply.ConfigFailed? ==> t == Every(JNum(DefaultRefreshIntervalMs))
    ensures reply.ConfigLoaded? && reply.body.JNull? ==> t == NoTimer
    ensures reply.ConfigLoaded? && !reply.body.JNull? ==>
      var configured := Prop(reply.body, "refresh_interval_ms");
      && (configured.Some? && JsTruthy(configured.value) ==> t == Every(configured.value))
      && (!(configured.Some? && JsTruthy(configured.value)) ==> t == Every(JNum(DefaultRefreshIntervalMs)))
    ensures t.Every? && t.interval != JNum(DefaultRefreshIntervalMs) ==>
      reply.ConfigLoaded? && Prop(reply.body, "refresh_interval_ms") == Some(t.interval) && JsTruthy(t.interval)
  {
    match reply
    case ConfigFailed => Every(JNum(DefaultRefreshIntervalMs))
    case ConfigLoaded(JNull) => NoTimer
    case ConfigLoaded(body) =>
      Every(OrElse(Prop(body, "refresh_interval_ms"), JNum(DefaultRefreshIntervalMs)))
  }

  /** A configured interval is used exactly when it is truthy. */
  lemma RefreshUsesConfigured(ms: real)
    ensures RefreshTimer(ConfigLoaded(JObj(map["refresh_interval_ms" := JNum(ms)]))) ==
      Every(JNum(if ms != 0.0 then ms else DefaultRefreshIntervalMs))
    ensures RefreshTimer(ConfigLoaded(JObj(map[]))) == Every(JNum(DefaultRefreshIntervalMs))
  {
  }
}
