/** The Kalshi entities the report pipeline reads: an event and its nested
    markets, with every field the pipeline renders held as the text an
    f-string would produce for it. */
module Kalshi {
  import opened Common

  /** A key of a market dict as the endpoint returns it: absent, present but
      null, or a string. */
  datatype Field = Missing | Null | Text(text: string)

  /** A market nested in an event. Only `rules_secondary` may be absent or
      null; the other fields are read by subscript and always hold text. */
  datatype Market = Market(
    ticker: string,
    title: string,
    yesSubTitle: string,
    rulesPrimary: string,
    rulesSecondary: Field,
    expirationTime: string)

  /** An event as returned by the events endpoint with nested markets;
      `markets` is None when the key is missing or null. */
  datatype Event = Event(eventTicker: string, title: string, markets: Option<seq<Market>>)

  /** An entry of the published list of active events: the scripts read only
      its ticker and its category. */
  datatype EventMeta = EventMeta(eventTicker: string, category: string)

  /** Python truthiness of an optional string field. */
  predicate IsTruthyText(o: Option<string>)
  {
    o.Some? && o.value != ""
  }

  /** The field holds a non-empty string: `m.get(key)` is truthy, and so is
      `type(m[key]) == str and len(m[key]) > 0` once the key is present. */
  predicate IsTruthyField(f: Field)
  {
    f.Text? && f.text != ""
  }

  /** `event.get("markets")` is truthy: present, not null, not empty. */
  predicate HasMarkets(e: Event)
  {
    e.markets.Some? && e.markets.value != []
  }
}
