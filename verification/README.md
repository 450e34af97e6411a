# Avalanche validator dashboard — a Dafny model of the normalisation core

The dashboard polls the avascan staking API for a fixed list of Avalanche
validators and reshapes each feed item into a per-node summary: uptime
percentage, name, "city, country" location, and self and delegated stake in
AVAX. A browser script then renders that summary as cards. This project models
four pieces of it as pure functions over an explicit JSON datatype:

- `fetch_uptime` of the dashboard revision (`web/app.py`). It is a fold over
  the feed's `items` that threads the module-level uptime cache. It applies
  per-node location overrides backed by ipinfo.io lookups, and it collapses
  to an all-validators error map when anything raises.
- `fetch_uptime` of the older stateless revision (`app.py`).
- The endpoint URL, which both revisions build by comma-joining the
  validator list.
- The pure rules of `static/dashboard.js`: the uptime colour class, the
  total-stake rule, the per-entry dispatch with its empty-data check, and the
  choice of refresh interval.

Modules follow the program's structure:

- `Results`: the `Option` and `Result` types.
- `Json`: decoded JSON values, together with the Python operations the
  handlers apply to them:
  - truthiness, `isinstance(x, (int, float))` and `dict.get`;
  - hashing a value as a dict key;
  - `str()` inside an f-string;
  - iterating `items`.
- `Decimal`: digit strings.
- `PyNum`: `round(x, 2)` as exact half-to-even rounding on reals, `int()`,
  and `str()` of integers.
- `Endpoint`: the join/split round trip and the URL.
- `Validations`: what both revisions share:
  - reading one feed item, with its defaults;
  - the result entry;
  - the nAVAX-to-AVAX conversion;
  - the error map.
- `WebApp`: the dashboard revision.
- `App`: the stateless revision.
- `JsNum`: JavaScript `parseFloat` and the number conversion behind `>=`.
- `Dashboard`: the browser rules.
- `Wire`: the `/data` payload (`jsonify` of the result dict) and what the
  browser renders from it.
- `Revisions`: where the two backend revisions agree and where they differ.

The HTTP calls become inputs:

- The avascan reply is a `Result<Json>`: the decoded body, or the failure of
  the request or of decoding it.
- The ipinfo.io replies are a function from IP address to `Result<Json>`.
- The cache before a call is a parameter of `WebApp.FetchUptime`, and the
  cache after it is part of the result.
- `App.FetchUptime` takes only the response. That the older revision keeps no
  state between calls is therefore shown by its signature.

Some behaviours of the code that shape the model:

- Neither revision emits an `expiration_date`. The script therefore always
  shows "Unknown" for it (`Wire.RecordCardExpiration`).
- The stake placeholder is `"N/A"`.
- An uptime is always a number; a missing `avg` reads the cache, with 0.0 as
  the default.
- A missing stake field is not handled leniently. Its default `"N/A"` reaches
  `int()`, which raises, and the whole call returns the error map
  (`WebApp.MissingStakeFails`, `App.MissingStakeCollapses`).
- Neither backend serves `/config`. That request fails, so the script polls at
  the 600000 ms default (`Dashboard.RefreshTimer`).

## Model

| member | source | states |
|---|---|---|
| Endpoint.SplitJoin | web/app.py:17 | splitting the comma-join of a non-empty list of comma-free IDs (an ID may be empty) on "," gives back exactly that list |
| Endpoint.JoinSplit | web/app.py:17 | joining the parts of any string split on "," gives back that string |
| Endpoint.UrlListsIds | web/app.py:15-19 | the `nodeIds` value of the URL is the comma-join of the IDs, splitting it recovers the list, and the URL ends with `&status=active` |
| WebApp.EndpointListsValidators | web/app.py:15-19 | for the four configured validators, the endpoint's `nodeIds` value splits back into exactly that list and the URL ends with `&status=active` |
| WebApp.ValidatorsArePlain | web/app.py:7-12 | no configured validator ID contains "," or "&", so the query value can be split unambiguously |
| App.EndpointListsValidators | app.py:13 | the older revision's endpoint lists its two validators the same way and splits back into them |
| WebApp.InitialCache | web/app.py:22 | the cache at start maps every configured validator, and nothing else, to 0.0 |
| Json.Get | web/app.py:32 | `.get` succeeds exactly on a dict and yields the stored value or the default; on any other value it raises |
| Json.Truthy | web/app.py:50 | a value is falsy exactly when it is None, False, zero, "", [] or {} |
| Json.NumberKinds | web/app.py:48 | `isinstance(x, (int, float))` holds for every number and every boolean, and fails for every string and for None |
| Validations.Items | web/app.py:32 | `data.get("items", [])` on the decoded reply (also app.py:22): a failed request or a non-dict body raises, a dict without "items" gives no items, and otherwise the "items" value is iterated |
| Json.KeyOf | web/app.py:51 | a value hashes as a dict key unless it is a list or dict; booleans share keys with 0 and 1 |
| Json.Text | web/app.py:42 | a string is formatted as itself; any other value as text that does not begin with "U", so never as "Unknown" |
| Json.Iterate | web/app.py:32 | iterating a list yields its elements, iterating "" or {} yields nothing, and iterating anything else raises before any item is processed |
| Validations.ReadItem | web/app.py:33-44 | reading an item succeeds exactly when it and its `node`, `node.uptime`, `node.location` and `stake` values are dicts or absent; each of the seven fields is the value of its chained `.get` lookups: the present value, or else None for `nodeId`, the placeholder name, "N/A" for `avg` and each stake, and "Unknown" for city and country |
| PyNum.Round2 | web/app.py:49 | `round(x, 2)` has at most two decimals, lies within 0.005 of x, and leaves a two-decimal value unchanged |
| PyNum.Round2Monotone | web/app.py:49 | rounding to two decimals never reverses the order of two values |
| PyNum.Round2Idempotent | web/app.py:49 | rounding twice is rounding once |
| PyNum.Trunc | web/app.py:56 | `int()` of a float truncates toward zero: the result is the largest integer not above a non-negative x and the smallest not below a negative one |
| PyNum.ParseInt | web/app.py:56 | `int()` of a string succeeds exactly when it is an optional sign followed by digits |
| PyNum.ParseIntText | web/app.py:56 | `int(str(i)) == i` for every integer |
| PyNum.PyInt | web/app.py:56 | `int()` of a number truncates, of a boolean gives 0 or 1, of a digit string parses, and raises on anything else |
| Validations.ToAvax | web/app.py:56 | the AVAX amount has two decimals, is within 0.005 of nano / 10^9, and is non-negative for a non-negative amount |
| Validations.FiveBillionIsFive | web/app.py:56 | 5000000000 nAVAX is 5.0 AVAX |
| Validations.ErrorMap | web/app.py:124 | the error map has exactly the configured validators as keys, each mapped to the same status text |
| WebApp.UptimeFor | web/app.py:48-53 | a numeric `avg` gives `Round2(avg*100)` and writes it to the cache under a truthy node ID; otherwise the cached value (0.0 when absent) is reported and the cache is unchanged; an unhashable node ID raises when it is truthy or when `avg` is not a number |
| WebApp.StakeOf | web/app.py:55-64 | a falsy raw stake gives "N/A"; a truthy one converts through `int()` to AVAX and raises exactly when `int()` does |
| WebApp.StakeExamples | web/app.py:55-64 | 5000000000 gives 5.0 AVAX, 0 gives "N/A", and the "N/A" default of a missing field raises |
| WebApp.StakeOfNanoText | web/app.py:55-59 | a positive nAVAX amount given as decimal text converts to that amount in AVAX |
| WebApp.Location | web/app.py:36-42 | the location is "city, country" for string parts and is never empty; it equals "Unknown, Unknown" exactly when both parts are the string "Unknown" |
| WebApp.RuleFor | web/app.py:76-106 | a node ID has a location override exactly when it is one of the four configured validators' IDs as a string, and the São Paulo rule is the one for NodeID-F3SZ… |
| WebApp.ApplyRule | web/app.py:76-119 | a fallback rule keeps any location other than "Unknown, Unknown" and otherwise gives the looked-up city with the fixed country; the São Paulo rule gives "São Paulo, Brasil" or "Unknown, Brasil", the latter exactly when the looked-up city is absent or "Unknown"; a lookup is made exactly for "Unknown, Unknown" under a fallback rule and for any non-empty location under the São Paulo rule, and fails exactly when such a lookup's reply is unusable |
| WebApp.Normalise | web/app.py:32-119 | one iteration: it raises exactly when the item is unreadable or `WebApp.Raises` holds (an unhashable node ID reaches the cache or the dict, a truthy stake fails `int()`, or an override lookup fails); an entry is emitted only under the item's truthy, hashable node ID; the cache changes at most under that key and keeps all its keys; cached uptimes stay two-decimal |
| WebApp.NormaliseUptime | web/app.py:48-53 | a numeric `avg` under a node ID sets `cache[nodeId]` to `Round2(avg*100)` and nothing else; a non-numeric `avg` leaves the cache alone; the emitted uptime is that value or the cached one |
| WebApp.Finish | web/app.py:55-119 | after the uptime step the cache is not touched again; a falsy node ID emits nothing; an emitted record carries the computed uptime, the item's name, both stakes as `StakeOf` gives them, and the "city, country" location or, for a configured validator, the override's result; it raises exactly when a stake conversion or an override lookup does |
| WebApp.Fold | web/app.py:32-119 | the loop never drops a cache key, keeps cached uptimes two-decimal, and when it completes its keys are exactly the items' truthy, hashable node IDs, all holding records |
| WebApp.FetchUptime | web/app.py:25-124 | the result is the loop's dict, or, when the payload cannot be iterated or an item raises, exactly the configured validators mapped to "Error …" strings; the cache carries every write made before the failure |
| WebApp.ErrorText | web/app.py:124 | the status text of the error collapse is "Error " followed by the exception's text |
| WebApp.FoldWritesOnlyItemKeys | web/app.py:48-53 | the loop changes no cache entry except under its items' node IDs, so a validator absent from the feed keeps its last-known uptime |
| WebApp.FoldAppend | web/app.py:32 | the loop over two lists of items is the loop over the first followed by the loop over the second, unless the first raised |
| WebApp.FoldSingle | web/app.py:32 | the loop over one item is that item's step |
| WebApp.LaterItemWins | web/app.py:66-73 | when the last item has a node ID, its entry, computed from the cache as it stood, replaces whatever earlier items stored under that ID |
| WebApp.CollapseKeepsEarlierWrites | web/app.py:48-124 | when an item raises, the result is the error map, yet the cache keeps all earlier writes plus the failing item's own uptime write |
| WebApp.MissingStakeFails | web/app.py:43-64 | an item with a numeric uptime and no `fromSelf` stake (no `stake` dict, or one without that key) raises in `int("N/A")`, after its uptime was written to the cache |
| WebApp.SaoPauloAlwaysOverridden | web/app.py:106-119 | the NodeID-F3SZ… location is always replaced, by "São Paulo, Brasil" or "Unknown, Brasil" |
| WebApp.FallbackOnlyWhenUnknown | web/app.py:76-104 | for the three fallback nodes, a feed location is kept and "Unknown, Unknown" is replaced by the looked-up city and the fixed country |
| App.Concat | app.py:26 | `city + ", " + country` succeeds exactly for two strings |
| App.Normalise | app.py:23-39 | a readable item succeeds exactly when its city and country are strings, its node ID is hashable and, for a truthy node ID with a numeric uptime, both stakes pass `int()`; it then yields a record exactly for a truthy node ID and numeric uptime, with `Round2(avg*100)`, the name, the concatenated location and both stakes through `int()`, and "N/A" under its node ID otherwise |
| App.Fold | app.py:22-39 | when the loop completes, its keys are exactly the readable items' hashable node IDs and every value is a record or "N/A" |
| App.FetchUptime | app.py:15-43 | the result is the loop's dict when the loop completes, with keys exactly the items' node IDs, and exactly the configured validators mapped to "Error" when anything raises |
| App.MissingNodeIdIsNoneKey | app.py:23-39 | a readable item without `nodeId` whose city and country are strings or absent is stored as "N/A" under the key None |
| App.MissingStakeCollapses | app.py:27-43 | a numeric-uptime item with a truthy node ID and no `fromSelf` stake (no `stake` dict, or one without that key) makes the whole result the error map, wherever it stands in the feed |
| App.FoldReachesFailure | app.py:22-39 | one raising item makes the whole loop raise, whatever precedes or follows it |
| JsNum.ParseFloat | static/dashboard.js:76 | `parseFloat` of a string yields a finite number only when the string holds a digit, and an infinity only when it holds "Infinity" |
| JsNum.StringToNumber | static/dashboard.js:12 | comparing a string with a number converts it: blank text is 0, any other finite result needs a digit, and the result is an infinity exactly when the trimmed text is "Infinity" with an optional sign, negative exactly for "-Infinity" |
| JsNum.ParseNatText | static/dashboard.js:76 | both conversions read the decimal text of a whole number back as that number |
| JsNum.ExponentNotation | static/dashboard.js:76 | digits, "e" and digits read as the first digits times ten to the power of the second, under both conversions |
| JsNum.HexNotation | static/dashboard.js:12 | `Number` reads "0x" and hex digits in base 16, while `parseFloat` stops at the "x" and gives 0 |
| JsNum.TrailingText | static/dashboard.js:76 | digits followed by text that cannot continue a literal: `parseFloat` gives the digits' value, `Number` gives NaN |
| JsNum.NumberOfInfinity | static/dashboard.js:12 | `Number` reads "Infinity", "+Infinity" and "-Infinity" as the infinities of that sign |
| JsNum.ParseFloatJson | static/dashboard.js:76 | `parseFloat` reads a value's string form: a number is itself, a string parses, an array reads its first element (NaN when empty), and null, booleans and objects are NaN |
| JsNum.ParseFloatOf | static/dashboard.js:76 | `parseFloat` of `undefined` is NaN, and of any present value is `JsNum.ParseFloatJson` of it |
| JsNum.ToNumberOf | static/dashboard.js:12 | the number a property compares as: `undefined` is NaN, and a present value converts as `JsNum.NumberJson` gives |
| JsNum.NumberJson | static/dashboard.js:12 | `Number` of a value: null is 0, booleans 0 and 1, a number itself, a string converts whole, an object is NaN; an array goes through its string form, so [] and [null] are 0, a one-element array converts its element (a boolean gives NaN) and a longer one is NaN |
| Dashboard.UptimeClassOf | static/dashboard.js:11-15 | the class is high exactly when the uptime is at least 95 or positive infinity, medium exactly when it lies in [90, 95), and low below 90, at negative infinity or when the uptime is NaN |
| Dashboard.UptimeClassMonotone | static/dashboard.js:11-15 | a higher uptime never gets a worse class |
| Dashboard.StakeAmount | static/dashboard.js:76-77 | a stake counts as its parsed value, or 0 when that is NaN, so it is never NaN |
| Dashboard.Add | static/dashboard.js:78 | the total is the sum of two finite stakes; it is NaN exactly when a side is NaN or the sides are opposite infinities, and otherwise an infinity side (or two of the same sign) gives that infinity |
| Dashboard.JsTruthy | static/dashboard.js:88 | a value is falsy exactly when it is null, false, 0 or "" (unlike Python, [] and {} are truthy) |
| Dashboard.Prop | static/dashboard.js:76 | a property read yields a dict's field when present and `undefined` otherwise |
| Dashboard.OrElse | static/dashboard.js:88 | the logical-or fallback is the value when it is present and truthy and the fallback otherwise, so a truthy fallback makes it truthy |
| Dashboard.NotAvailableStakeIsZero | static/dashboard.js:76-77 | the "N/A" placeholder and a missing field both count as 0 |
| Dashboard.NumberStakeCounts | static/dashboard.js:76-77 | a numeric stake counts as itself, also as the first element of an array |
| Dashboard.DigitStakeCounts | static/dashboard.js:76-77 | a stake given as digit text counts as its value |
| Dashboard.CardFor | static/dashboard.js:57-111 | a string entry renders only a status line with that text; a null entry throws; any other renders a detail card with the entry's uptime and its class, the location and expiration date or "Unknown" when falsy (so both are truthy), both stakes as `StakeAmount` reads them, and their JavaScript sum as the total |
| Dashboard.Entries | static/dashboard.js:56-57 | the entries of a dict are its own fields; an array or string has exactly one entry per position, keyed by the index's decimal text, and no other; other values have none |
| Dashboard.Render | static/dashboard.js:47-114 | a falsy or keyless payload shows the no-data error and no cards; otherwise there is one card per key, each that entry's card, unless some entry is null and rendering aborts |
| Dashboard.RefreshTimer | static/dashboard.js:188-199 | a failed config request polls every 600000 ms; a loaded non-null config polls at its `refresh_interval_ms` when that is present and truthy and every 600000 ms otherwise; a null config sets no timer |
| Dashboard.RefreshUsesConfigured | static/dashboard.js:193 | a configured interval is used exactly when it is non-zero, and a config without one gets the default |
| Wire.StakeJson | web/app.py:55-64 | a stake is sent as its number, the placeholder as the string "N/A" |
| Wire.EntryJson | web/app.py:67-73 | a record is sent as a dict with exactly the keys uptime, name, location, stake_from_self and stake_from_delegations; a status as its string |
| Wire.Encode | web/app.py:132-135 | the payload has one key per node ID, each holding that node's entry |
| Wire.StakeRoundTrip | static/dashboard.js:76-77 | a serialised stake reads back as its amount, and "N/A" as 0 |
| Wire.RecordCardLocation | static/dashboard.js:88 | a record's card shows its location |
| Wire.RecordCardExpiration | static/dashboard.js:96 | a record's card shows the expiration date as "Unknown" |
| Wire.RecordCardStakes | static/dashboard.js:76-78 | a record's card shows both stakes, with "N/A" as 0, and their sum as the total |
| Wire.RecordCardUptime | static/dashboard.js:92 | a record's card shows its uptime, coloured by its class |
| Wire.StatusCardOf | static/dashboard.js:60-72 | a status entry renders as a status card with the same text |
| Wire.RenderEncoded | static/dashboard.js:47-114 | a non-empty result renders one card per node ID, each the card of its entry, and an empty one shows the no-data error |
| Wire.ErrorMapRendersStatusCards | web/app.py:123-124 | the error collapse renders as one status card per configured validator, each with the error text |
| Revisions.Expected | app.py:30-37 | the reference entry of a well-formed item is a record under its node ID with a two-decimal uptime |
| Revisions.AppGivesExpected | app.py:30-37 | the stateless revision stores the reference entry |
| Revisions.WebAppGivesExpected | web/app.py:48-73 | the dashboard revision emits the reference entry and caches its uptime |
| Revisions.RevisionsAgree | app.py:30-37 | on a well-formed item both revisions produce the same record under the same key |
| Revisions.FoldsAgree | app.py:22-39 | over well-formed items both loops build the same dict, whatever the cache holds |
| Revisions.FetchUptimeAgrees | app.py:15-41 | a feed of well-formed items gets the same result from both revisions |
| Revisions.ZeroStakeDiffers | web/app.py:55-59 | a zero stake is "N/A" in the dashboard revision but 0.0 AVAX in the stateless one |
| Revisions.MissingUptimeDiffers | web/app.py:52-53 | a missing uptime reports the cached value in the dashboard revision but "N/A" in the stateless one |
| Revisions.MissingNodeIdDiffers | web/app.py:66 | an item without a node ID emits nothing in the dashboard revision but "N/A" under None in the stateless one |

## Left out

- Flask routing, `render_template` and `app.run`: HTTP plumbing. `jsonify` is modelled only for dicts keyed by strings.
- Wire.Encode: requires every key to be a string. Python's JSON encoder writes None and number keys as text, and sorting mixed key types raises. Both depend on the encoder's configuration, which is not part of this model.
- `requests.get` and `response.json()`: network I/O. The decoded body, or the failure of the request or of decoding, is an input, and the ipinfo.io replies are a function parameter.
- Varying ipinfo.io replies: the lookup is a function of the IP address, so two lookups of one address within one call (duplicate feed items) get the same reply, where real requests could differ. No property of the model depends on this.
- Exception text: an error status is "Error " followed by a reason, and the reason's wording is not modelled.
- IEEE floating point: numbers are exact reals. `round(x, 2)` is exact half-to-even on reals, and `avg*100` and `/1_000_000_000` are exact.
- Json.Text: any non-string value becomes a fixed placeholder, not Python's `repr`. That keeps the one property the overrides depend on: such a value never reads as "Unknown".
- PyNum.ParseInt: it accepts only an optional sign and ASCII digits. Surrounding whitespace, underscores and non-ASCII digits, which `int()` also accepts, are not modelled.
- IEEE range and precision in the JavaScript conversions: a finite literal is read as an exact real. A literal beyond the double range, such as "1e400", reads as a large finite value where JavaScript gives Infinity, and digits beyond double precision are kept.
- String lengths count code points, not UTF-16 units. This matters for the emoji default name, which is compared, never measured, and for the character entries of a string payload, which are keyed by code point.
- The DOM, jQuery, HTML templating, `toLocaleString`, `setInterval` timing and the loading spinner: browser runtime. A rendering is the map of cards the script would build. The order of the cards, which follows the payload's key order, is not modelled.
- The hardcoded sample data shown when `/data` fails: it is display-only and independent of the backend.
- Thread safety of the module-level cache: calls are modelled one after another, with the cache threaded through.

