/** The `/data` payload as the browser receives it: `jsonify` of the
    result dict, and what the dashboard script renders from it. */
module Wire {
  import opened Results
  import opened Json
  import opened JsNum
  import opened Validations
  import opened Dashboard

  /** A stake value as serialised: a number, or the `"N/A"` string. */
  function StakeJson(s: Stake): (j: Json)
    ensures s.Avax? <==> j.JNum?
    ensures s.Avax? ==> j == JNum(s.amount)
    ensures s.NotAvailable? ==> j == JStr("N/A")
  {
    match s
    case Avax(a) => JNum(a)
    case NotAvailable => JStr("N/A")
  }

  /** One value of the result dict as serialised. */
  function EntryJson(e: Entry): (j: Json)
    ensures e.Status? <==> j.JStr?
    ensures e.Status? ==> j == JStr(e.text)
    ensures e.Record? ==>
      j.JObj? && j.fields.Keys == {"uptime", "name", "location", "stake_from_self", "stake_from_delegations"}
    ensures e.Record? ==>
      && j.fields["uptime"] == JNum(e.uptime)
      && j.fields["name"] == e.name
      && j.fields["location"] == JStr(e.location)
      && j.fields["stake_from_self"] == StakeJson(e.stakeFromSelf)
      && j.fields["stake_from_delegations"] == StakeJson(e.stakeFromDelegations)
  {
    match e
    case Status(t) => JStr(t)
    case Record(uptime, name, location, fromSelf, fromDelegations) =>
      JObj(map[
        "uptime" := JNum(uptime),
        "name" := name,
        "location" := JStr(location),
        "stake_from_self" := StakeJson(fromSelf),
        "stake_from_delegations" := StakeJson(fromDelegations)])
  }

  /** Every key of the result dict is a string node ID. */
  predicate StringKeyed(d: Data) {
    forall k :: k in d ==> k.KStr?
  }

  /** The string keys of the result dict. */
  function Names(d: Data): (names: set<string>)
    ensures forall s :: s in names <==> KStr(s) in d
  {
    set k | k in d && k.KStr? :: k.s
  }

  /** `jsonify(uptime_data)` for a dict keyed by strings. */
  function Encode(d: Data): (j: Json)
    requires StringKeyed(d)
    ensures j.JObj? && j.fields.Keys == Names(d)
    ensures forall s :: s in j.fields ==> j.fields[s] == EntryJson(d[KStr(s)])
  {
    JObj(map s | s in Names(d) :: EntryJson(d[KStr(s)]))
  }

  /** The amount the script counts for a serialised stake: the placeholder
      counts as 0. */
  function Counted(s: Stake): real {
    match s
    case Avax(a) => a
    case NotAvailable => 0.0
  }

  /** The stake a record's card shows, read back from the payload. */
  lemma StakeRoundTrip(s: Stake)
    ensures StakeAmount(Some(StakeJson(s))) == Finite(Counted(s))
  {
    if s.NotAvailable? {
      NotAvailableStakeIsZero();
    }
  }

  /** A record renders as a detail card showing its location (the backend
      never produces an empty one). */
  lemma RecordCardLocation(e: Entry)
    requires e.Record? && e.location != ""
    ensures CardFor(EntryJson(e)).Some? && CardFor(EntryJson(e)).value.DetailCard?
    ensures CardFor(EntryJson(e)).value.location == JStr(e.location)
  {
    var j := EntryJson(e);
    assert j.JObj? && Prop(j, "location") == Some(JStr(e.location));
    assert JsTruthy(JStr(e.location));
  }

  /** The backend sends no expiration date, so every record's card shows
      it as unknown. */
  lemma RecordCardExpiration(e: Entry)
    requires e.Record?
    ensures CardFor(EntryJson(e)).Some? && CardFor(EntryJson(e)).value.DetailCard?
    ensures CardFor(EntryJson(e)).value.expiration == JStr("Unknown")
  {
    NoExpiration(e);
  }

  /** A record's card shows its two stakes, with `"N/A"` counted as 0, and
      a total that is their sum. */
  lemma RecordCardStakes(e: Entry)
    requires e.Record?
    ensures CardFor(EntryJson(e)).Some? && CardFor(EntryJson(e)).value.DetailCard?
    ensures CardFor(EntryJson(e)).value.selfStake == Finite(Counted(e.stakeFromSelf))
    ensures CardFor(EntryJson(e)).value.delegationStake == Finite(Counted(e.stakeFromDelegations))
    ensures CardFor(EntryJson(e)).value.totalStake == Finite(Counted(e.stakeFromSelf) + Counted(e.stakeFromDelegations))
  {
    var j := EntryJson(e);
    DetailCardOf(j);
    var self, delegation := Counted(e.stakeFromSelf), Counted(e.stakeFromDelegations);
    assert StakeAmount(Prop(j, "stake_from_self")) == Finite(self) by {
      assert Prop(j, "stake_from_self") == Some(StakeJson(e.stakeFromSelf));
      StakeRoundTrip(e.stakeFromSelf);
    }
    assert StakeAmount(Prop(j, "stake_from_delegations")) == Finite(delegation) by {
      assert Prop(j, "stake_from_delegations") == Some(StakeJson(e.stakeFromDelegations));
      StakeRoundTrip(e.stakeFromDelegations);
    }
    assert Add(Finite(self), Finite(delegation)) == Finite(self + delegation);
  }

  /** A record's card is coloured by the class of its uptime. */
  lemma RecordCardUptime(e: Entry)
    requires e.Record?
    ensures CardFor(EntryJson(e)).Some? && CardFor(EntryJson(e)).value.DetailCard?
    ensures CardFor(EntryJson(e)).value.uptime == Some(JNum(e.uptime))
    ensures CardFor(EntryJson(e)).value.uptimeClass == UptimeClassOf(Finite(e.uptime))
  {
  }

  /** The backend sends no expiration date. */
  lemma NoExpiration(e: Entry)
    ensures Prop(EntryJson(e), "expiration_date") == None
  {
    var key := "expiration_date";
    assert key[0] == 'e';
    assert key !in {"uptime", "name", "location", "stake_from_self", "stake_from_delegations"};
  }

  /** A status entry renders as a status-only card with the same text. */
  lemma StatusCardOf(e: Entry)
    requires e.Status?
    ensures CardFor(EntryJson(e)) == Some(StatusCard(e.text))
  {
  }

  /** A payload of entries renders one card per node, each the card of its
      entry; an empty result dict shows the "no data" message. */
  lemma RenderEncoded(d: Data)
    requires StringKeyed(d)
    ensures d == map[] ==> Render(Encode(d)) == NoData
    ensures d != map[] ==>
      && Render(Encode(d)).Cards?
      && Render(Encode(d)).cards.Keys == Names(d)
      && forall s :: s in Names(d) ==> Some(Render(Encode(d)).cards[s]) == CardFor(EntryJson(d[KStr(s)]))
  {
    var j := Encode(d);
    assert Entries(j) == j.fields;
    if d != map[] {
      var k :| k in d;
      assert k.s in j.fields;
      EncodedHasNoNull(d);
      var v := Render(j);
      assert v.Cards?;
      forall s | s in Names(d)
        ensures Some(v.cards[s]) == CardFor(EntryJson(d[KStr(s)]))
      {
        assert j.fields[s] == EntryJson(d[KStr(s)]);
      }
    } else {
      assert Names(d) == {};
    }
  }

  /** No value of an encoded result dict is `null`. */
  lemma EncodedHasNoNull(d: Data)
    requires StringKeyed(d)
    ensures forall s :: s in Encode(d).fields ==> Encode(d).fields[s] != JNull
  {
    var j := Encode(d);
    forall s | s in j.fields ensures j.fields[s] != JNull {
      assert j.fields[s] == EntryJson(d[KStr(s)]);
    }
  }

  /** The error collapse as the browser shows it: one status card per
      configured validator, each with the error text. */
  lemma ErrorMapRendersStatusCards(validators: seq<string>, text: string)
    requires |validators| > 0
    ensures StringKeyed(ErrorMap(validators, text))
    ensures Render(Encode(ErrorMap(validators, text))).Cards?
    ensures forall s :: s in Render(Encode(ErrorMap(validators, text))).cards <==> s in validators
    ensures forall s :: s in Render(Encode(ErrorMap(validators, text))).cards ==>
      Render(Encode(ErrorMap(validators, text))).cards[s] == StatusCard(text)
  {
    var d := ErrorMap(validators, text);
    assert KStr(validators[0]) in d;
    RenderEncoded(d);
  }
}
