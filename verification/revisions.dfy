/** How the two backend revisions relate. On a well-formed item (a string
    node ID without a location override, a numeric uptime, positive
    integer stakes, string city and country, a name) they produce the same
    entry; they part ways on zero stakes, missing uptimes and missing node
    IDs. */
module Revisions {
  import opened Results
  import opened Json
  import opened PyNum
  import opened Validations
  import WebApp
  import App

  /** The item shape on which both revisions succeed and agree. */
  predicate WellFormed(item: Json) {
    && Readable(item)
    && "name" in item.fields
    && var raw := ReadItem(item, App.NameDefault).value;
       && raw.nodeId.JStr? && raw.nodeId.s != ""
       && WebApp.RuleFor(raw.nodeId).None?
       && IsNumber(raw.avg)
       && raw.city.JStr? && raw.country.JStr?
       && Truthy(raw.fromSelf) && PyInt(raw.fromSelf).Ok?
       && Truthy(raw.fromDelegations) && PyInt(raw.fromDelegations).Ok?
  }

  /** The entry a well-formed item stands for: its node ID as the key, the
      average uptime as a rounded percentage, the name, "city, country",
      and both stakes converted from nAVAX. */
  function Expected(item: Json): (kv: (Key, Entry))
    requires WellFormed(item)
    ensures kv.0 == KStr(ReadItem(item, App.NameDefault).value.nodeId.s)
    ensures kv.1.Record? && IsHundredths(kv.1.uptime)
  {
    var raw := ReadItem(item, App.NameDefault).value;
    (KStr(raw.nodeId.s),
     Record(Round2(NumValue(raw.avg) * 100.0), raw.name, raw.city.s + ", " + raw.country.s,
            Avax(ToAvax(PyInt(raw.fromSelf).value)), Avax(ToAvax(PyInt(raw.fromDelegations).value))))
  }

  /** The stateless revision stores the expected entry. */
  lemma AppGivesExpected(item: Json)
    requires WellFormed(item)
    ensures App.Normalise(item) == Ok(Expected(item))
  {
  }

  /** The dashboard revision emits the expected entry and caches its
      uptime. */
  lemma WebAppGivesExpected(item: Json, cache: WebApp.Cache, ipinfo: WebApp.IpInfo)
    requires WellFormed(item)
    ensures var kv := Expected(item);
      WebApp.Normalise(item, cache, ipinfo) == WebApp.Emit(kv.0, kv.1, cache[kv.0 := kv.1.uptime])
  {
    var kv := Expected(item);
    var raw := ReadItem(item, App.NameDefault).value;
    assert ReadItem(item, WebApp.NameDefault) == Ok(raw);
    var up := WebApp.Uptime(kv.1.uptime, cache[kv.0 := kv.1.uptime]);
    assert WebApp.UptimeFor(raw.nodeId, raw.avg, cache) == Ok(up);
    assert WebApp.StakeOf(raw.fromSelf) == Ok(kv.1.stakeFromSelf);
    assert WebApp.StakeOf(raw.fromDelegations) == Ok(kv.1.stakeFromDelegations);
    assert WebApp.Location(raw.city, raw.country) == kv.1.location;
    assert WebApp.Finish(raw, up, ipinfo) == WebApp.Emit(kv.0, kv.1, up.cache);
  }

  /** On a well-formed item both revisions produce the same entry under the
      same key, and the dashboard revision also caches its uptime. */
  lemma RevisionsAgree(item: Json, cache: WebApp.Cache, ipinfo: WebApp.IpInfo)
    requires WellFormed(item)
    ensures App.Normalise(item).Ok?
    ensures var kv := App.Normalise(item).value;
      && kv.1.Record?
      && WebApp.Normalise(item, cache, ipinfo) == WebApp.Emit(kv.0, kv.1, cache[kv.0 := kv.1.uptime])
  {
    AppGivesExpected(item);
    WebAppGivesExpected(item, cache, ipinfo);
  }

  /** Over well-formed items the two loops build the same dict, whatever
      the cache holds. */
  lemma {:induction false} FoldsAgree(items: seq<Json>, data: Data, cache: WebApp.Cache, ipinfo: WebApp.IpInfo)
    requires forall i :: 0 <= i < |items| ==> WellFormed(items[i])
    ensures WebApp.Fold(items, data, cache, ipinfo).Running?
    ensures App.Fold(items, data) == Ok(WebApp.Fold(items, data, cache, ipinfo).data)
    decreases |items|
  {
    if items != [] {
      RevisionsAgree(items[0], cache, ipinfo);
      var kv := App.Normalise(items[0]).value;
      FoldsAgree(items[1..], data[kv.0 := kv.1], cache[kv.0 := kv.1.uptime], ipinfo);
    }
  }

  /** A feed of well-formed items gives the same result dict from both
      revisions. */
  lemma FetchUptimeAgrees(items: seq<Json>, cache: WebApp.Cache, ipinfo: WebApp.IpInfo)
    requires forall i :: 0 <= i < |items| ==> WellFormed(items[i])
    ensures var response := Ok(JObj(map["items" := JArr(items)]));
      App.FetchUptime(response) == WebApp.FetchUptime(response, cache, ipinfo).data
  {
    var response := Ok(JObj(map["items" := JArr(items)]));
    assert Items(response) == Ok(items);
    FoldsAgree(items, map[], cache, ipinfo);
  }

  /** A feed item with the given node ID, uptime and stake amounts. */
  function Item(nodeId: Json, avg: Json, fromSelf: Json, fromDelegations: Json): Json {
    JObj(map[
      "nodeId" := nodeId,
      "name" := JStr("validator"),
      "node" := JObj(map[
        "uptime" := JObj(map["avg" := avg]),
        "location" := JObj(map["city" := JStr("Lagos"), "country" := JStr("NG")])]),
      "stake" := JObj(map["fromSelf" := fromSelf, "fromDelegations" := fromDelegations])])
  }

  const Node: Json := JStr("NodeID-C6MR4QwFVyf7vxttwLFbxopJrD5ce4Mwv")

  /** A zero stake: the dashboard revision reports `"N/A"` (0 is falsy),
      the stateless one 0.0 AVAX. */
  lemma ZeroStakeDiffers(cache: WebApp.Cache, ipinfo: WebApp.IpInfo)
    ensures var item := Item(Node, JNum(0.99), JNum(0.0), JNum(5_000_000_000.0));
      && App.Normalise(item).Ok?
      && App.Normalise(item).value.1.Record?
      && App.Normalise(item).value.1.stakeFromSelf == Avax(0.0)
      && WebApp.Normalise(item, cache, ipinfo).Emit?
      && WebApp.Normalise(item, cache, ipinfo).entry.stakeFromSelf == NotAvailable
  {
    var item := Item(Node, JNum(0.99), JNum(0.0), JNum(5_000_000_000.0));
    assert Readable(item);
    FiveBillionIsFive();
  }

  /** A missing uptime: the dashboard revision reports the cached value,
      the stateless one the status `"N/A"`. */
  lemma MissingUptimeDiffers(cache: WebApp.Cache, ipinfo: WebApp.IpInfo)
    ensures var item := Item(Node, JStr("N/A"), JNum(5_000_000_000.0), JNum(5_000_000_000.0));
      && App.Normalise(item) == Ok((KStr(Node.s), Status(App.NotAvailableText)))
      && WebApp.Normalise(item, cache, ipinfo).Emit?
      && WebApp.Normalise(item, cache, ipinfo).entry.uptime == Lookup(cache, KStr(Node.s), 0.0)
  {
    var item := Item(Node, JStr("N/A"), JNum(5_000_000_000.0), JNum(5_000_000_000.0));
    assert Readable(item);
    FiveBillionIsFive();
  }

  /** No node ID: the dashboard revision emits nothing, the stateless one
      stores `"N/A"` under the key `None`. */
  lemma MissingNodeIdDiffers(cache: WebApp.Cache, ipinfo: WebApp.IpInfo)
    ensures var item := Item(JNull, JNum(0.99), JNum(5_000_000_000.0), JNum(5_000_000_000.0));
      && App.Normalise(item) == Ok((KNone, Status(App.NotAvailableText)))
      && WebApp.Normalise(item, cache, ipinfo) == WebApp.Skip(cache)
  {
    var item := Item(JNull, JNum(0.99), JNum(5_000_000_000.0), JNum(5_000_000_000.0));
    assert Readable(item);
    FiveBillionIsFive();
  }
}
