/** What both backend revisions share: reading one item of the upstream
    validations feed, the normalised per-node entry, the nAVAX-to-AVAX
    conversion, and the all-validators error placeholder map. */
module Validations {
  import opened Results
  import opened Json
  import opened PyNum
  import Endpoint

  /** Minor units (nAVAX) per AVAX. */
  const NanoPerAvax: int := 1_000_000_000

  /** A stake amount in AVAX, or the `"N/A"` placeholder. */
  datatype Stake = Avax(amount: real) | NotAvailable

  /** One value of the result dict: a per-node record or a status string
      (`"N/A"` or an error placeholder). */
  datatype Entry =
    | Record(uptime: real, name: Json, location: string, stakeFromSelf: Stake, stakeFromDelegations: Stake)
    | Status(text: string)

  type Data = map<Key, Entry>

  /** The raw fields one loop iteration reads from a feed item, after the
      chained `.get(..., default)` calls. */
  datatype Raw = Raw(nodeId: Json, avg: Json, name: Json, city: Json, country: Json,
                     fromSelf: Json, fromDelegations: Json)

  /** `round(int(raw) / 1_000_000_000, 2)` for an integer number of nAVAX. */
  function ToAvax(nano: int): (r: real)
    ensures IsHundredths(r)
    ensures nano as real / 1_000_000_000.0 - 0.005 <= r <= nano as real / 1_000_000_000.0 + 0.005
    ensures nano >= 0 ==> r >= 0.0
  {
    Round2(nano as real / NanoPerAvax as real)
  }

  /** 5000000000 nAVAX is 5.0 AVAX. */
  lemma FiveBillionIsFive()
    ensures ToAvax(5_000_000_000) == 5.0
  {
  }

  /** `m.get(key, {})` is a dict, so that the next `.get` succeeds. */
  predicate ObjOrAbsent(m: map<string, Json>, key: string) {
    key !in m || m[key].JObj?
  }

  /** The item shapes on which every chained `.get` succeeds: the item and
      its `node`, `node.uptime`, `node.location` and `stake` values are
      dicts or missing. */
  predicate Readable(item: Json) {
    && item.JObj?
    && ObjOrAbsent(item.fields, "node")
    && ObjOrAbsent(item.fields, "stake")
    && var node := FieldOr(item.fields, "node", JObj(map[]));
       ObjOrAbsent(node.fields, "uptime") && ObjOrAbsent(node.fields, "location")
  }

  /** The chained lookups at the top of the loop body, with their defaults:
      a missing `nodeId` is `None`, a missing `avg` or stake is the string
      `"N/A"`, a missing city or country is `"Unknown"`. */
  function ReadItem(item: Json, nameDefault: string): (r: Result<Raw>)
    ensures r.Ok? <==> Readable(item)
    ensures r.Ok? ==> r.value.nodeId == FieldOr(item.fields, "nodeId", JNull)
    ensures r.Ok? ==> r.value.name == FieldOr(item.fields, "name", JStr(nameDefault))
    ensures r.Ok? ==>
      var node := Get(item, "node", JObj(map[])).value;
      var location := Get(node, "location", JObj(map[])).value;
      && Get(Get(node, "uptime", JObj(map[])).value, "avg", JStr("N/A")) == Ok(r.value.avg)
      && Get(location, "city", JStr("Unknown")) == Ok(r.value.city)
      && Get(location, "country", JStr("Unknown")) == Ok(r.value.country)
    ensures r.Ok? ==>
      var stake := Get(item, "stake", JObj(map[])).value;
      && Get(stake, "fromSelf", JStr("N/A")) == Ok(r.value.fromSelf)
      && Get(stake, "fromDelegations", JStr("N/A")) == Ok(r.value.fromDelegations)
    ensures r.Ok? && "node" !in item.fields ==>
      r.value.avg == JStr("N/A") && r.value.city == JStr("Unknown") && r.value.country == JStr("Unknown")
    ensures r.Ok? && "stake" !in item.fields ==>
      r.value.fromSelf == JStr("N/A") && r.value.fromDelegations == JStr("N/A")
  {
    if !Readable(item) then Err("object has no attribute 'get'")
    else
      var node := FieldOr(item.fields, "node", JObj(map[]));
      var uptime := FieldOr(node.fields, "uptime", JObj(map[]));
      var location := FieldOr(node.fields, "location", JObj(map[]));
      var stake := FieldOr(item.fields, "stake", JObj(map[]));
      Ok(Raw(
        FieldOr(item.fields, "nodeId", JNull),
        FieldOr(uptime.fields, "avg", JStr("N/A")),
        FieldOr(item.fields, "name", JStr(nameDefault)),
        FieldOr(location.fields, "city", JStr("Unknown")),
        FieldOr(location.fields, "country", JStr("Unknown")),
        FieldOr(stake.fields, "fromSelf", JStr("N/A")),
        FieldOr(stake.fields, "fromDelegations", JStr("N/A"))))
  }

  /** The keys of the configured validators. */
  function KeySet(validators: seq<string>): (ks: set<Key>)
    ensures forall v :: v in validators <==> KStr(v) in ks
    ensures forall k :: k in ks ==> k.KStr?
  {
    set v | v in validators :: KStr(v)
  }

  /** `{validator: text for validator in VALIDATORS}`. */
  function ErrorMap(validators: seq<string>, text: string): (m: Data)
    ensures m.Keys == KeySet(validators)
    ensures forall k :: k in m ==> m[k] == Status(text)
  {
    map k | k in KeySet(validators) :: Status(text)
  }

  /** Every value is a per-node record. */
  predicate AllRecords(d: Data) {
    forall k :: k in d ==> d[k].Record?
  }

  /** `data.get("items", [])` of the decoded response, as the loop
      iterates it: a failed request or an undecodable body, a body that is
      not a dict, and an `items` value that cannot be iterated all raise. */
  function Items(response: Result<Json>): (r: Result<seq<Json>>)
    ensures response.Err? ==> r.Err?
    ensures response.Ok? && !response.value.JObj? ==> r.Err?
    ensures response.Ok? && response.value.JObj? && "items" !in response.value.fields ==> r == Ok([])
    ensures response.Ok? && response.value.JObj? && "items" in response.value.fields ==>
      r == Iterate(response.value.fields["items"])
  {
    var body :- response;
    var items :- Get(body, "items", JArr([]));
    Iterate(items)
  }

  /** The validator both revisions configure contains neither "," nor "&". */
  lemma SharedValidatorIsPlain()
    ensures Endpoint.PlainId("NodeID-F3SZA2ZNdRjTBe3GYyRQFDaCXB3DyaZQQ")
  {
  }
}
