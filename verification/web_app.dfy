/** The later backend revision (web/app.py): `fetch_uptime` as a fold over
    the feed's `items` that threads the last-known-uptime cache, with
    per-node location overrides and a catch-all error map. The module-level
    cache is an explicit parameter and result; each ipinfo.io request is
    the `ipinfo` parameter, which gives the decoded reply (or the failure)
    for an IP address. */
module WebApp {
  import opened Results
  import opened Json
  import opened PyNum
  import opened Validations
  import Endpoint

  const Validators: seq<string> := [
    "NodeID-F3SZA2ZNdRjTBe3GYyRQFDaCXB3DyaZQQ",
    "NodeID-2Coj79FAu7rPdSdYdJ27CqTr1K2p45gze",
    "NodeID-9Efcx2E5uEHZqZSTWT1jPd8DfEkJaZeGj",
    "NodeID-8mirL2rorHYSEbkBxu8TwodvpN29RrNY3"
  ]

  const ApiEndpoint: string := Endpoint.Url(Validators)

  /** The `name` default of this revision: a warning sign and "Unknown". */
  const NameDefault: string := "\U{26A0}\U{FE0F} Unknown"

  const UnknownLocation: string := "Unknown, Unknown"

  type Cache = map<Key, real>

  /** The decoded ipinfo.io reply for an IP address, or the failure of the
      request or of its JSON decoding. Being a function, it answers every
      lookup of one address within a call alike. */
  type IpInfo = string -> Result<Json>

  /** The request URL carries exactly the configured validators. */
  lemma EndpointListsValidators()
    ensures Endpoint.NodeIdsParam(ApiEndpoint).Some?
    ensures Endpoint.Split(Endpoint.NodeIdsParam(ApiEndpoint).value) == Validators
    ensures ApiEndpoint[|ApiEndpoint| - |Endpoint.StatusFilter|..] == Endpoint.StatusFilter
  {
    ValidatorsArePlain();
    Endpoint.UrlListsIds(Validators);
  }

  lemma ValidatorsArePlain()
    ensures forall i :: 0 <= i < |Validators| ==> Endpoint.PlainId(Validators[i])
  {
    SharedValidatorIsPlain();
    Plain1();
    Plain2();
    Plain3();
  }

  lemma Plain1() ensures Endpoint.PlainId("NodeID-2Coj79FAu7rPdSdYdJ27CqTr1K2p45gze") {}
  lemma Plain2() ensures Endpoint.PlainId("NodeID-9Efcx2E5uEHZqZSTWT1jPd8DfEkJaZeGj") {}
  lemma Plain3() ensures Endpoint.PlainId("NodeID-8mirL2rorHYSEbkBxu8TwodvpN29RrNY3") {}

  /** Every cached uptime has at most two decimals. */
  predicate CacheOk(c: Cache) {
    forall k :: k in c ==> IsHundredths(c[k])
  }

  /** The cache at process start: every configured validator at 0.0. */
  function InitialCache(): (c: Cache)
    ensures c.Keys == KeySet(Validators)
    ensures forall k :: k in c ==> c[k] == 0.0
    ensures CacheOk(c)
  {
    map k | k in KeySet(Validators) :: 0.0
  }

  /** The uptime an item reports, and the cache afterwards. */
  datatype Uptime = Uptime(value: real, cache: Cache)

  /** The uptime/cache rule: a numeric `avg` is reported as a rounded
      percentage and written to the cache under a truthy node ID; any other
      `avg` reads the cache (0.0 when absent). Hashing an unhashable node ID
      raises. */
  function UptimeFor(nodeId: Json, avg: Json, cache: Cache): (r: Result<Uptime>)
    ensures r.Ok? <==> KeyOf(nodeId).Ok? || (IsNumber(avg) && !Truthy(nodeId))
    ensures r.Ok? && IsNumber(avg) ==> r.value.value == Round2(NumValue(avg) * 100.0)
    ensures r.Ok? && !IsNumber(avg) ==> r.value.value == Lookup(cache, KeyOf(nodeId).value, 0.0)
    ensures r.Ok? && IsNumber(avg) && Truthy(nodeId) ==>
      r.value.cache == cache[KeyOf(nodeId).value := r.value.value]
    ensures r.Ok? && !(IsNumber(avg) && Truthy(nodeId)) ==> r.value.cache == cache
    ensures r.Ok? && CacheOk(cache) ==> IsHundredths(r.value.value) && CacheOk(r.value.cache)
  {
    if IsNumber(avg) then
      var u := Round2(NumValue(avg) * 100.0);
      if Truthy(nodeId) then
        var key :- KeyOf(nodeId);
        Ok(Uptime(u, cache[key := u]))
      else Ok(Uptime(u, cache))
    else
      var key :- KeyOf(nodeId);
      Ok(Uptime(Lookup(cache, key, 0.0), cache))
  }

  /** The stake rule: a falsy raw value is `"N/A"`; a truthy one goes
      through `int()` (which may raise) and is converted to AVAX. */
  function StakeOf(raw: Json): (r: Result<Stake>)
    ensures !Truthy(raw) ==> r == Ok(NotAvailable)
    ensures Truthy(raw) ==> (r.Ok? <==> PyInt(raw).Ok?)
    ensures Truthy(raw) && r.Ok? ==> r.value == Avax(ToAvax(PyInt(raw).value))
  {
    if Truthy(raw) then
      var nano :- PyInt(raw);
      Ok(Avax(ToAvax(nano)))
    else Ok(NotAvailable)
  }

  /** A stake reported as the decimal text of a positive nAVAX amount
      converts to that amount in AVAX. */
  lemma StakeOfNanoText(nano: nat)
    requires nano > 0
    ensures StakeOf(JStr(Decimal.NatText(nano))) == Ok(Avax(ToAvax(nano)))
  {
    Decimal.NatTextValue(nano);
  }

  /** The stake examples: 5000000000 is 5.0 AVAX, 0 is `"N/A"`, and the
      `"N/A"` default of a missing field makes `int()` raise. */
  lemma StakeExamples()
    ensures StakeOf(JNum(5_000_000_000.0)) == Ok(Avax(5.0))
    ensures StakeOf(JNum(0.0)) == Ok(NotAvailable)
    ensures StakeOf(JStr("N/A")).Err?
  {
    FiveBillionIsFive();
    assert !Decimal.IsDigit('N');
  }

  /** `f"{city}, {country}"`. */
  function Location(city: Json, country: Json): (loc: string)
    ensures |loc| > 0
    ensures city.JStr? && country.JStr? ==> loc == city.s + ", " + country.s
    ensures loc == UnknownLocation <==> city == JStr("Unknown") && country == JStr("Unknown")
  {
    var loc := Text(city) + ", " + Text(country);
    assert loc == UnknownLocation ==> city == JStr("Unknown") && country == JStr("Unknown") by {
      if loc == UnknownLocation {
        LocationParts(Text(city), Text(country));
      }
    }
    loc
  }

  lemma LocationParts(a: string, b: string)
    requires a + ", " + b == UnknownLocation
    ensures a == "Unknown" && b == "Unknown"
  {
    var s := a + ", " + b;
    assert forall i :: 0 <= i < |UnknownLocation| && i != 7 ==> UnknownLocation[i] != ',';
    assert s[|a|] == ',';
    assert |a| == 7;
    assert a == s[..7];
    assert b == s[9..];
  }

  /** The per-node location overrides. */
  datatype Rule =
      /** look the city up, with a fixed country, when the feed gave no location */
    | WhenUnknown(ip: string, country: string)
      /** look the city up whenever the location is non-empty, and report
          São Paulo unless the lookup has no city */
    | SaoPaulo(ip: string)

  const SaoPauloLocation: string := "S\U{E3}o Paulo, Brasil"
  const UnknownBrasil: string := "Unknown, Brasil"

  /** The override table, keyed by node ID; every overridden node is a
      configured validator. */
  function RuleFor(nodeId: Json): (r: Option<Rule>)
    ensures r.Some? <==> nodeId.JStr? && nodeId.s in Validators
    ensures r.Some? ==> (r.value.SaoPaulo? <==> nodeId == JStr(Validators[0]))
  {
    if nodeId == JStr("NodeID-2Coj79FAu7rPdSdYdJ27CqTr1K2p45gze") then
      Some(WhenUnknown("158.255.76.58", "Nigeria"))
    else if nodeId == JStr("NodeID-9Efcx2E5uEHZqZSTWT1jPd8DfEkJaZeGj") then
      Some(WhenUnknown("160.202.130.67", "Brasil"))
    else if nodeId == JStr("NodeID-8mirL2rorHYSEbkBxu8TwodvpN29RrNY3") then
      Some(WhenUnknown("103.88.234.47", "Mexico"))
    else if nodeId == JStr("NodeID-F3SZA2ZNdRjTBe3GYyRQFDaCXB3DyaZQQ") then
      Some(SaoPaulo("160.202.130.45"))
    else None
  }

  /** The `city` of a successful lookup reply that is a dict. */
  predicate Answers(reply: Result<Json>) {
    reply.Ok? && reply.value.JObj?
  }

  /** Whether a rule queries the lookup service for this location: a
      fallback rule only for "Unknown, Unknown", the São Paulo rule for
      any non-empty location. */
  predicate LooksUp(rule: Rule, location: string) {
    match rule
    case WhenUnknown(_, _) => location == UnknownLocation
    case SaoPaulo(_) => location != ""
  }

  /** Applying an override to the location just computed for a node. */
  function ApplyRule(rule: Rule, location: string, ipinfo: IpInfo): (r: Result<string>)
    ensures r.Err? <==> LooksUp(rule, location) && !Answers(ipinfo(rule.ip))
    ensures !LooksUp(rule, location) ==> r == Ok(location)
    ensures rule.WhenUnknown? && location == UnknownLocation && Answers(ipinfo(rule.ip)) ==>
      var m := ipinfo(rule.ip).value.fields;
      r.value == Text(FieldOr(m, "city", JStr("Unknown"))) + ", " + rule.country
    ensures rule.SaoPaulo? && location != "" && r.Ok? ==>
      r.value == SaoPauloLocation || r.value == UnknownBrasil
    ensures rule.SaoPaulo? && location != "" && Answers(ipinfo(rule.ip)) ==>
      (r.value == UnknownBrasil <==> FieldOr(ipinfo(rule.ip).value.fields, "city", JStr("Unknown")) == JStr("Unknown"))
  {
    match rule
    case WhenUnknown(ip, country) =>
      if location == UnknownLocation then
        var reply :- ipinfo(ip);
        var city :- Get(reply, "city", JStr("Unknown"));
        Ok(Text(city) + ", " + country)
      else Ok(location)
    case SaoPaulo(ip) =>
      if location != "" then
        var reply :- ipinfo(ip);
        var city :- Get(reply, "city", JStr("Unknown"));
        Ok(if city != JStr("Unknown") then SaoPauloLocation else UnknownBrasil)
      else Ok(location)
  }

  /** What processing one item did: it emitted an entry under a key,
      emitted nothing, or raised; the cache as it stands afterwards. */
  datatype Step =
    | Emit(key: Key, entry: Entry, cache: Cache)
    | Skip(cache: Cache)
    | Fail(reason: string, cache: Cache)

  /** The output key of an item: its node ID when readable, truthy and
      hashable. */
  function NodeKey(item: Json): Option<Key> {
    match ReadItem(item, NameDefault)
    case Err(_) => None
    case Ok(raw) =>
      if Truthy(raw.nodeId) && KeyOf(raw.nodeId).Ok? then Some(KeyOf(raw.nodeId).value) else None
  }

  /** The exceptions a readable item raises: hashing an unhashable node ID
      (skipped only for a numeric `avg` under a falsy ID), `int()` of a
      truthy stake, and an override whose lookup reply is unusable. */
  predicate Raises(raw: Raw, ipinfo: IpInfo) {
    || (KeyOf(raw.nodeId).Err? && (Truthy(raw.nodeId) || !IsNumber(raw.avg)))
    || RaisesAfterUptime(raw, ipinfo)
  }

  /** The exceptions raised once the uptime is known. */
  predicate RaisesAfterUptime(raw: Raw, ipinfo: IpInfo) {
    || (Truthy(raw.fromSelf) && PyInt(raw.fromSelf).Err?)
    || (Truthy(raw.fromDelegations) && PyInt(raw.fromDelegations).Err?)
    || (Truthy(raw.nodeId) && RuleFor(raw.nodeId).Some?
        && ApplyRule(RuleFor(raw.nodeId).value, Location(raw.city, raw.country), ipinfo).Err?)
  }

  /** One iteration of the loop in `fetch_uptime`. */
  function Normalise(item: Json, cache: Cache, ipinfo: IpInfo): (s: Step)
    ensures !Readable(item) ==> s.Fail? && s.cache == cache
    ensures s.Fail? <==> !Readable(item) || Raises(ReadItem(item, NameDefault).value, ipinfo)
    ensures s.Emit? ==> NodeKey(item) == Some(s.key) && s.entry.Record?
    ensures s.Skip? ==> NodeKey(item).None?
    ensures NodeKey(item).None? ==> s.cache == cache
    ensures NodeKey(item).Some? ==>
      var k := NodeKey(item).value;
      cache.Keys <= s.cache.Keys && s.cache - {k} == cache - {k}
    ensures CacheOk(cache) ==> CacheOk(s.cache)
  {
    match ReadItem(item, NameDefault)
    case Err(e) => Fail(e, cache)
    case Ok(raw) =>
      match UptimeFor(raw.nodeId, raw.avg, cache)
      case Err(e) => Fail(e, cache)
      case Ok(up) => Finish(raw, up, ipinfo)
  }

  /** The uptime an entry reports, and the cache write that goes with it:
      a numeric `avg` is written under the node ID, any other leaves the
      cache alone and the entry reports the cached value (0.0 when absent). */
  lemma NormaliseUptime(item: Json, cache: Cache, ipinfo: IpInfo)
    requires Readable(item)
    ensures var raw := ReadItem(item, NameDefault).value;
      var s := Normalise(item, cache, ipinfo);
      && (NodeKey(item).Some? && IsNumber(raw.avg) ==>
            s.cache == cache[NodeKey(item).value := Round2(NumValue(raw.avg) * 100.0)])
      && (!IsNumber(raw.avg) ==> s.cache == cache)
      && (s.Emit? ==>
            s.entry.uptime == if IsNumber(raw.avg) then Round2(NumValue(raw.avg) * 100.0) else Lookup(cache, s.key, 0.0))
      && (CacheOk(cache) && s.Emit? ==> IsHundredths(s.entry.uptime))
  {
  }

  /** The rest of an iteration once the uptime is known: the two stake
      conversions, then the entry under a truthy node ID with its location
      override applied. */
  function Finish(raw: Raw, up: Uptime, ipinfo: IpInfo): (s: Step)
    requires Truthy(raw.nodeId) ==> KeyOf(raw.nodeId).Ok?
    ensures s.cache == up.cache
    ensures s.Skip? ==> !Truthy(raw.nodeId)
    ensures s.Emit? ==>
      && Truthy(raw.nodeId) && s.key == KeyOf(raw.nodeId).value
      && s.entry.Record? && s.entry.uptime == up.value
    ensures s.Emit? ==>
      && s.entry.name == raw.name
      && StakeOf(raw.fromSelf) == Ok(s.entry.stakeFromSelf)
      && StakeOf(raw.fromDelegations) == Ok(s.entry.stakeFromDelegations)
      && (RuleFor(raw.nodeId).None? ==> s.entry.location == Location(raw.city, raw.country))
      && (RuleFor(raw.nodeId).Some? ==>
            ApplyRule(RuleFor(raw.nodeId).value, Location(raw.city, raw.country), ipinfo) == Ok(s.entry.location))
    ensures s.Fail? <==> RaisesAfterUptime(raw, ipinfo)
  {
    match StakeOf(raw.fromSelf)
    case Err(e) => Fail(e, up.cache)
    case Ok(fromSelf) =>
      match StakeOf(raw.fromDelegations)
      case Err(e) => Fail(e, up.cache)
      case Ok(fromDelegations) =>
        if !Truthy(raw.nodeId) then Skip(up.cache)
        else
          var key := KeyOf(raw.nodeId).value;
          var location := Location(raw.city, raw.country);
          match RuleFor(raw.nodeId)
          case None => Emit(key, Record(up.value, raw.name, location, fromSelf, fromDelegations), up.cache)
          case Some(rule) =>
            match ApplyRule(rule, location, ipinfo)
            case Err(e) => Fail(e, up.cache)
            case Ok(overridden) =>
              Emit(key, Record(up.value, raw.name, overridden, fromSelf, fromDelegations), up.cache)
  }

  /** The keys the items would write: each readable item's truthy,
      hashable node ID. */
  function NodeKeys(items: seq<Json>): set<Key> {
    if items == [] then {}
    else (match NodeKey(items[0]) case Some(k) => {k} case None => {}) + NodeKeys(items[1..])
  }

  /** The state of the loop: still running with the dict built so far, or
      stopped by an exception. The cache is carried either way. */
  datatype Loop = Running(data: Data, cache: Cache) | Stopped(reason: string, cache: Cache)

  /** The `for item in ...` loop from a given state. */
  function Fold(items: seq<Json>, data: Data, cache: Cache, ipinfo: IpInfo): (r: Loop)
    ensures cache.Keys <= r.cache.Keys
    ensures CacheOk(cache) ==> CacheOk(r.cache)
    ensures r.Running? ==> r.data.Keys == data.Keys + NodeKeys(items)
    ensures r.Running? && AllRecords(data) ==> AllRecords(r.data)
    decreases |items|
  {
    if items == [] then Running(data, cache)
    else
      match Normalise(items[0], cache, ipinfo)
      case Fail(e, c) => Stopped(e, c)
      case Skip(c) => Fold(items[1..], data, c, ipinfo)
      case Emit(k, entry, c) => Fold(items[1..], data[k := entry], c, ipinfo)
  }

  /** The error placeholder of this revision: `f"Error {e}"`. */
  function ErrorText(reason: string): (t: string)
    ensures |t| >= 6 && t[..6] == "Error " && t[6..] == reason
  {
    "Error " + reason
  }

  /** The catch-all result: every configured validator, and nothing else,
      mapped to an error placeholder. */
  predicate IsErrorResult(d: Data) {
    && d.Keys == KeySet(Validators)
    && forall k :: k in d ==> d[k].Status? && |d[k].text| >= 6 && d[k].text[..6] == "Error "
  }

  /** What one call of `fetch_uptime` returns, and the cache after it. */
  datatype Outcome = Outcome(data: Data, cache: Cache)

  /** `fetch_uptime()`: the decoded response (or the failure of the request
      or of decoding it), the cache before the call, and the ipinfo.io
      replies. */
  function FetchUptime(response: Result<Json>, cache: Cache, ipinfo: IpInfo): (r: Outcome)
    ensures cache.Keys <= r.cache.Keys
    ensures CacheOk(cache) ==> CacheOk(r.cache)
    ensures IsErrorResult(r.data) || AllRecords(r.data)
    ensures Items(response).Err? ==> IsErrorResult(r.data) && r.cache == cache
    ensures Items(response).Ok? ==>
      var loop := Fold(Items(response).value, map[], cache, ipinfo);
      r.cache == loop.cache && (loop.Running? ==> r.data == loop.data) && (loop.Stopped? ==> IsErrorResult(r.data))
    ensures Items(response).Ok? && !IsErrorResult(r.data) ==> r.data.Keys == NodeKeys(Items(response).value)
  {
    match Items(response)
    case Err(e) => Outcome(ErrorMap(Validators, ErrorText(e)), cache)
    case Ok(items) =>
      match Fold(items, map[], cache, ipinfo)
      case Running(d, c) => Outcome(d, c)
      case Stopped(e, c) => Outcome(ErrorMap(Validators, ErrorText(e)), c)
  }

  /** Removing more keys from two maps that agree outside a set keeps them
      agreeing. */
  lemma AgreeOutsideWiden(a: Cache, b: Cache, small: set<Key>, large: set<Key>)
    requires a - small == b - small
    requires small <= large
    ensures a - large == b - large
  {
    assert (a - small) - large == (b - small) - large;
    assert (a - small) - large == a - large;
    assert (b - small) - large == b - large;
  }

  /** The loop changes no cache entry except under the node IDs of its
      items: a validator absent from the feed keeps its last-known uptime. */
  lemma {:induction false} FoldWritesOnlyItemKeys(items: seq<Json>, data: Data, cache: Cache, ipinfo: IpInfo)
    ensures Fold(items, data, cache, ipinfo).cache - NodeKeys(items) == cache - NodeKeys(items)
    decreases |items|
  {
    if items != [] {
      var all := NodeKeys(items);
      var s := Normalise(items[0], cache, ipinfo);
      match NodeKey(items[0]) {
        case None =>
          assert s.cache == cache;
        case Some(k) =>
          AgreeOutsideWiden(s.cache, cache, {k}, all);
      }
      assert s.cache - all == cache - all;
      if !s.Fail? {
        var d := if s.Emit? then data[s.key := s.entry] else data;
        FoldWritesOnlyItemKeys(items[1..], d, s.cache, ipinfo);
        AgreeOutsideWiden(Fold(items[1..], d, s.cache, ipinfo).cache, s.cache, NodeKeys(items[1..]), all);
      }
    }
  }

  /** The loop state after one item's step. */
  function Apply(s: Step, data: Data): Loop {
    match s
    case Fail(e, c) => Stopped(e, c)
    case Skip(c) => Running(data, c)
    case Emit(k, entry, c) => Running(data[k := entry], c)
  }

  /** Continuing a loop state over more items. */
  function Then(l: Loop, items: seq<Json>, ipinfo: IpInfo): Loop {
    match l
    case Running(d, c) => Fold(items, d, c, ipinfo)
    case Stopped(_, _) => l
  }

  /** Running the loop over `xs + ys` is running it over `xs`, then over
      `ys` from where it stopped, unless it raised. */
  lemma {:induction false} FoldAppend(xs: seq<Json>, ys: seq<Json>, data: Data, cache: Cache, ipinfo: IpInfo)
    ensures Fold(xs + ys, data, cache, ipinfo) == Then(Fold(xs, data, cache, ipinfo), ys, ipinfo)
    decreases |xs|
  {
    if xs == [] {
      assert xs + ys == ys;
    } else {
      assert (xs + ys)[0] == xs[0];
      assert (xs + ys)[1..] == xs[1..] + ys;
      match Normalise(xs[0], cache, ipinfo) {
        case Fail(_, _) =>
        case Skip(c) => FoldAppend(xs[1..], ys, data, c, ipinfo);
        case Emit(k, e, c) => FoldAppend(xs[1..], ys, data[k := e], c, ipinfo);
      }
    }
  }

  /** A later item with the same node ID overwrites the earlier entry: the
      final entry is the one the last item produces from the cache as it
      stood, whatever earlier items emitted. */
  lemma LaterItemWins(xs: seq<Json>, x: Json, cache: Cache, ipinfo: IpInfo)
    requires NodeKey(x).Some?
    requires Fold(xs + [x], map[], cache, ipinfo).Running?
    ensures Fold(xs, map[], cache, ipinfo).Running?
    ensures var s := Normalise(x, Fold(xs, map[], cache, ipinfo).cache, ipinfo);
      && s.Emit?
      && s.key == NodeKey(x).value
      && s.key in Fold(xs + [x], map[], cache, ipinfo).data
      && Fold(xs + [x], map[], cache, ipinfo).data[s.key] == s.entry
  {
    FoldAppend(xs, [x], map[], cache, ipinfo);
    var before := Fold(xs, map[], cache, ipinfo);
    var after := Fold(xs + [x], map[], cache, ipinfo);
    assert after == Then(before, [x], ipinfo);
    assert before.Running?;
    FoldSingle(x, before.data, before.cache, ipinfo);
    var s := Normalise(x, before.cache, ipinfo);
    assert after == Apply(s, before.data);
    assert s.Emit?;
  }

  /** The loop over a single item. */
  lemma FoldSingle(x: Json, data: Data, cache: Cache, ipinfo: IpInfo)
    ensures Fold([x], data, cache, ipinfo) == Apply(Normalise(x, cache, ipinfo), data)
  {
    assert [x][0] == x && [x][1..] == [];
  }

  /** When an item raises, the whole result collapses to the error map,
      but the cache keeps every write made before it (and the failing
      item's own uptime write, which precedes the stake conversion). */
  lemma CollapseKeepsEarlierWrites(xs: seq<Json>, y: Json, zs: seq<Json>, cache: Cache, ipinfo: IpInfo)
    requires Fold(xs, map[], cache, ipinfo).Running?
    requires Normalise(y, Fold(xs, map[], cache, ipinfo).cache, ipinfo).Fail?
    ensures var before := Fold(xs, map[], cache, ipinfo).cache;
      var r := FetchUptime(Ok(JObj(map["items" := JArr(xs + [y] + zs)])), cache, ipinfo);
      && IsErrorResult(r.data)
      && r.cache == Normalise(y, before, ipinfo).cache
      && before.Keys <= r.cache.Keys
      && (NodeKey(y).None? ==> r.cache == before)
      && (NodeKey(y).Some? ==> r.cache - {NodeKey(y).value} == before - {NodeKey(y).value})
  {
    var items := xs + [y] + zs;
    assert Items(Ok(JObj(map["items" := JArr(items)]))) == Ok(items);
    FoldAppend(xs + [y], zs, map[], cache, ipinfo);
    FoldAppend(xs, [y], map[], cache, ipinfo);
  }

  /** A readable item with a numeric uptime and no `fromSelf` stake
      (no `stake` dict, or one without that key): the missing stake
      defaults to the string "N/A", `int("N/A")` raises, and the item fails
      after its uptime was written to the cache. */
  lemma MissingStakeFails(y: Json, cache: Cache, ipinfo: IpInfo)
    requires Readable(y) && "fromSelf" !in FieldOr(y.fields, "stake", JObj(map[])).fields
    requires IsNumber(ReadItem(y, NameDefault).value.avg)
    requires NodeKey(y).Some?
    ensures var s := Normalise(y, cache, ipinfo);
      && s.Fail?
      && s.cache == cache[NodeKey(y).value := Round2(NumValue(ReadItem(y, NameDefault).value.avg) * 100.0)]
  {
    StakeExamples();
    NormaliseUptime(y, cache, ipinfo);
  }

  /** The São Paulo override always fires, because a location built by
      `Location` is never empty. */
  lemma SaoPauloAlwaysOverridden(item: Json, cache: Cache, ipinfo: IpInfo)
    requires Readable(item)
    requires ReadItem(item, NameDefault).value.nodeId == JStr("NodeID-F3SZA2ZNdRjTBe3GYyRQFDaCXB3DyaZQQ")
    requires Normalise(item, cache, ipinfo).Emit?
    ensures var loc := Normalise(item, cache, ipinfo).entry.location;
      loc == SaoPauloLocation || loc == UnknownBrasil
  {
  }

  /** For the three nodes with a lookup fallback, a feed location is kept,
      and a missing one is replaced by the looked-up city and the fixed
      country. */
  lemma FallbackOnlyWhenUnknown(item: Json, cache: Cache, ipinfo: IpInfo)
    requires Readable(item)
    requires var raw := ReadItem(item, NameDefault).value;
      RuleFor(raw.nodeId).Some? && RuleFor(raw.nodeId).value.WhenUnknown?
    requires Normalise(item, cache, ipinfo).Emit?
    ensures var raw := ReadItem(item, NameDefault).value;
      var rule := RuleFor(raw.nodeId).value;
      var loc := Normalise(item, cache, ipinfo).entry.location;
      && (Location(raw.city, raw.country) != UnknownLocation ==> loc == Location(raw.city, raw.country))
      && (Location(raw.city, raw.country) == UnknownLocation ==>
            loc == Text(FieldOr(ipinfo(rule.ip).value.fields, "city", JStr("Unknown"))) + ", " + rule.country)
  {
  }
}
