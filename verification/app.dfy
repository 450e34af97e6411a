/** The earlier, stateless backend revision (app.py): each item becomes a
    record when its node ID is truthy and its uptime numeric, and `"N/A"`
    otherwise; any exception collapses the result to `"Error"` for every
    configured validator. */
module App {
  import opened Results
  import opened Json
  import opened PyNum
  import opened Validations
  import Endpoint

  const Validators: seq<string> := [
    "NodeID-F3SZA2ZNdRjTBe3GYyRQFDaCXB3DyaZQQ",
    "NodeID-4G6U36ehMMYjJ3C9gzLmYRzQFho8c4U4w"
  ]

  const ApiEndpoint: string := Endpoint.Url(Validators)

  const NameDefault: string := "Unknown"

  /** The placeholder of an item without a usable uptime. */
  const NotAvailableText: string := "N/A"

  /** The catch-all placeholder of this revision. */
  const ErrorText: string := "Error"

  lemma Plain1() ensures Endpoint.PlainId("NodeID-4G6U36ehMMYjJ3C9gzLmYRzQFho8c4U4w") {}

  /** The request URL carries exactly the configured validators. */
  lemma EndpointListsValidators()
    ensures Endpoint.NodeIdsParam(ApiEndpoint).Some?
    ensures Endpoint.Split(Endpoint.NodeIdsParam(ApiEndpoint).value) == Validators
  {
    SharedValidatorIsPlain();
    Plain1();
    Endpoint.UrlListsIds(Validators);
  }

  /** `city + ", " + country`: Python's `+` joins two strings and raises
      `TypeError` for anything else. */
  function Concat(city: Json, country: Json): (r: Result<string>)
    ensures r.Ok? <==> city.JStr? && country.JStr?
    ensures r.Ok? ==> r.value == city.s + ", " + country.s
  {
    if city.JStr? && country.JStr? then Ok(city.s + ", " + country.s)
    else Err("can only concatenate str to str")
  }

  /** One iteration of the loop: the key it assigns and the value, or the
      exception it raises. */
  function Normalise(item: Json): (r: Result<(Key, Entry)>)
    ensures !Readable(item) ==> r.Err?
    ensures Readable(item) ==>
      var raw := ReadItem(item, NameDefault).value;
      r.Ok? <==>
        && raw.city.JStr? && raw.country.JStr?
        && KeyOf(raw.nodeId).Ok?
        && (Truthy(raw.nodeId) && IsNumber(raw.avg) ==> PyInt(raw.fromSelf).Ok? && PyInt(raw.fromDelegations).Ok?)
    ensures r.Ok? ==>
      var raw := ReadItem(item, NameDefault).value;
      && KeyOf(raw.nodeId) == Ok(r.value.0)
      && (r.value.1.Record? <==> Truthy(raw.nodeId) && IsNumber(raw.avg))
      && (r.value.1.Status? ==> r.value.1.text == NotAvailableText)
    ensures r.Ok? && r.value.1.Record? ==>
      var raw := ReadItem(item, NameDefault).value;
      var e := r.value.1;
      && e.uptime == Round2(NumValue(raw.avg) * 100.0)
      && e.name == raw.name
      && Concat(raw.city, raw.country) == Ok(e.location)
      && PyInt(raw.fromSelf).Ok? && e.stakeFromSelf == Avax(ToAvax(PyInt(raw.fromSelf).value))
      && PyInt(raw.fromDelegations).Ok? && e.stakeFromDelegations == Avax(ToAvax(PyInt(raw.fromDelegations).value))
  {
    match ReadItem(item, NameDefault)
    case Err(e) => Err(e)
    case Ok(raw) =>
      var location :- Concat(raw.city, raw.country);
      if Truthy(raw.nodeId) && IsNumber(raw.avg) then
        var fromSelf :- PyInt(raw.fromSelf);
        var fromDelegations :- PyInt(raw.fromDelegations);
        var key :- KeyOf(raw.nodeId);
        Ok((key, Record(Round2(NumValue(raw.avg) * 100.0), raw.name, location,
                        Avax(ToAvax(fromSelf)), Avax(ToAvax(fromDelegations)))))
      else
        var key :- KeyOf(raw.nodeId);
        Ok((key, Status(NotAvailableText)))
  }

  /** The value of a successful item is a record or `"N/A"`. */
  predicate RecordOrNotAvailable(e: Entry) {
    e.Record? || e == Status(NotAvailableText)
  }

  /** The keys the items are stored under: every readable item's node ID
      (`None` when it has none) that can be hashed. */
  function NodeKeys(items: seq<Json>): set<Key> {
    if items == [] then {}
    else
      (match ReadItem(items[0], NameDefault)
       case Ok(raw) => (match KeyOf(raw.nodeId) case Ok(k) => {k} case Err(_) => {})
       case Err(_) => {})
      + NodeKeys(items[1..])
  }

  /** The loop: later items overwrite earlier ones under the same key. */
  function Fold(items: seq<Json>, data: Data): (r: Result<Data>)
    ensures r.Ok? ==> r.value.Keys == data.Keys + NodeKeys(items)
    ensures r.Ok? && (forall k :: k in data ==> RecordOrNotAvailable(data[k])) ==>
      forall k :: k in r.value ==> RecordOrNotAvailable(r.value[k])
    decreases |items|
  {
    if items == [] then Ok(data)
    else
      var kv :- Normalise(items[0]);
      Fold(items[1..], data[kv.0 := kv.1])
  }

  /** `fetch_uptime()` of this revision. It has no state: the result is a
      function of the decoded response alone. */
  function FetchUptime(response: Result<Json>): (r: Data)
    ensures Items(response).Err? ==> r == ErrorMap(Validators, ErrorText)
    ensures Items(response).Ok? && Fold(Items(response).value, map[]).Err? ==> r == ErrorMap(Validators, ErrorText)
    ensures Items(response).Ok? && Fold(Items(response).value, map[]).Ok? ==> r == Fold(Items(response).value, map[]).value
    ensures r == ErrorMap(Validators, ErrorText) || forall k :: k in r ==> RecordOrNotAvailable(r[k])
    ensures Items(response).Ok? && Fold(Items(response).value, map[]).Ok? ==> r.Keys == NodeKeys(Items(response).value)
  {
    match Items(response)
    case Err(_) => ErrorMap(Validators, ErrorText)
    case Ok(items) =>
      match Fold(items, map[])
      case Ok(d) => d
      case Err(_) => ErrorMap(Validators, ErrorText)
  }

  /** An item with no `nodeId` but a string city and country (given or
      defaulted) lands under the key `None`, as `"N/A"`. */
  lemma MissingNodeIdIsNoneKey(item: Json)
    requires Readable(item) && "nodeId" !in item.fields
    requires var raw := ReadItem(item, NameDefault).value;
      raw.city.JStr? && raw.country.JStr?
    ensures Normalise(item) == Ok((KNone, Status(NotAvailableText)))
  {
  }

  /** A numeric-uptime item with a truthy node ID but no `fromSelf`
      stake (no `stake` dict, or one without that key) raises (`int("N/A")`), and the whole call returns the error map. */
  lemma MissingStakeCollapses(xs: seq<Json>, y: Json, zs: seq<Json>)
    requires Readable(y) && "fromSelf" !in FieldOr(y.fields, "stake", JObj(map[])).fields
    requires var raw := ReadItem(y, NameDefault).value;
      Truthy(raw.nodeId) && IsNumber(raw.avg)
    ensures Normalise(y).Err?
    ensures FetchUptime(Ok(JObj(map["items" := JArr(xs + [y] + zs)]))) == ErrorMap(Validators, ErrorText)
  {
    assert !Decimal.IsDigit('N');
    var items := xs + [y] + zs;
    assert Items(Ok(JObj(map["items" := JArr(items)]))) == Ok(items);
    FoldReachesFailure(xs, y, zs, map[]);
  }

  /** A failing item makes the whole loop fail, wherever it stands. */
  lemma {:induction false} FoldReachesFailure(xs: seq<Json>, y: Json, zs: seq<Json>, data: Data)
    requires Normalise(y).Err?
    ensures Fold(xs + [y] + zs, data).Err?
    decreases |xs|
  {
    var items := xs + [y] + zs;
    if xs == [] {
      assert items[0] == y;
    } else {
      assert items[0] == xs[0];
      assert items[1..] == xs[1..] + [y] + zs;
      match Normalise(xs[0]) {
        case Err(_) =>
        case Ok(kv) => FoldReachesFailure(xs[1..], y, zs, data[kv.0 := kv.1]);
      }
    }
  }
}
