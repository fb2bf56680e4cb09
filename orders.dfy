/** The result-shaping half of `getOrderData`: turning the order search's aggregations (sum of
    totals, latest order date, order count) into the three order fields of the payload. */
module OrderData {
  import opened Php

  /** The variables of the three aggregations; `None` is PHP null. `latest` is the maximum
      order date as the store renders it. */
  datatype Aggregations = Aggregations(sum: Option<real>, latest: Option<string>, count: Option<int>)

  /** A search result; its aggregation collection may be missing. */
  datatype SearchResult = SearchResult(aggregations: Option<Aggregations>)

  const OrderKeys: set<string> := {"totalSpent", "lastOrder", "orderCount"}

  /** `(float)` on a nullable float: null becomes 0.0. */
  function FloatCast(v: Option<real>): (r: real)
    ensures v.None? ==> r == 0.0
    ensures v.Some? ==> r == v.value
  {
    match v
    case None => 0.0
    case Some(x) => x
  }

  /** `(int)` on a nullable int: null becomes 0. */
  function IntCast(v: Option<int>): (r: int)
    ensures v.None? ==> r == 0
    ensures v.Some? ==> r == v.value
  {
    match v
    case None => 0
    case Some(x) => x
  }

  /** `strtotime`'s result as a PHP value: the Unix time, or false when the date does not
      parse. */
  function Timestamp(parsed: Option<int>): (v: Value)
    ensures v == Bool(false) <==> parsed.None?
    ensures parsed.Some? ==> v == Int(parsed.value)
  {
    match parsed
    case None => Bool(false)
    case Some(t) => Int(t)
  }

  /** The order fields, or null when the search gave no result or no aggregations. */
  function Shape(result: Option<SearchResult>, strtotime: string -> Option<int>): (r: Option<map<string, Value>>)
    ensures r.None? <==> result.None? || result.value.aggregations.None?
    ensures r.Some? ==> r.value.Keys == OrderKeys
    ensures r.Some? ==> var a := result.value.aggregations.value;
      && r.value["totalSpent"] == Float(FloatCast(a.sum))
      && r.value["orderCount"] == Int(IntCast(a.count))
      && (r.value["lastOrder"] == Null <==> a.latest.None? || a.latest.value == "")
      && (a.latest.Some? && a.latest.value != "" ==> r.value["lastOrder"] == Timestamp(strtotime(a.latest.value)))
  {
    match result
    case None => None
    case Some(found) =>
      match found.aggregations
      case None => None
      case Some(a) =>
        var lastOrder := if !LooselyNull(FromNullable(a.latest)) then Timestamp(strtotime(a.latest.value)) else Null;
        Some(map["totalSpent" := Float(FloatCast(a.sum)), "lastOrder" := lastOrder,
                 "orderCount" := Int(IntCast(a.count))])
  }
}
