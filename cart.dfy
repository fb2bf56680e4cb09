/** `getCart`: the shopper's cart as the widget sees it. */
module CartSummary {
  import opened Php

  /** A cart line as the cart service hands it over; `id` is the line item's identifier,
      which the storefront uses as the product identifier in the detail-page URL. */
  datatype LineItem = LineItem(id: string, lineLabel: Option<string>, unitPrice: real, quantity: int)

  /** The cart returned for the session's token, with its aggregate prices. */
  datatype Cart = Cart(lineItems: seq<LineItem>, totalPrice: real, netPrice: real)

  const ItemKeys: set<string> := {"id", "name", "price", "url", "quantity"}
  const SummaryKeys: set<string> := {"total", "subtotal", "currency", "items"}

  /** One entry of `items`. Its `id` is always 0, whatever the line item's identifier. */
  function ItemSummary(item: LineItem, url: string): (r: map<string, Value>)
    ensures r.Keys == ItemKeys
    ensures r["id"] == Int(0)
  {
    map["id" := Int(0), "name" := FromNullable(item.lineLabel), "price" := Float(item.unitPrice),
        "url" := Str(url), "quantity" := Int(item.quantity)]
  }

  /** The `items` list: one entry per line item, in the cart's order. */
  function ItemSummaries(items: seq<LineItem>, urlOf: LineItem -> string): (r: seq<Value>)
    ensures |r| == |items|
    ensures forall i :: 0 <= i < |items| ==> r[i] == Assoc(ItemSummary(items[i], urlOf(items[i])))
    decreases |items|
  {
    if |items| == 0 then []
    else [Assoc(ItemSummary(items[0], urlOf(items[0])))] + ItemSummaries(items[1..], urlOf)
  }

  /** The cart summary: null for a cart without line items, never an empty `items` list. */
  function Summary(cart: Cart, currency: string, urlOf: LineItem -> string): (r: Value)
    ensures r == Null <==> |cart.lineItems| == 0
    ensures r != Null ==> r.Assoc? && r.entries.Keys == SummaryKeys
    ensures r != Null ==> r.entries["items"] == List(ItemSummaries(cart.lineItems, urlOf))
    ensures r != Null ==> r.entries["currency"] == Str(currency)
    ensures r != Null ==> r.entries["total"] == Float(cart.totalPrice)
    ensures r != Null ==> r.entries["subtotal"] == Float(cart.netPrice)
  {
    if |cart.lineItems| == 0 then Null
    else Assoc(map["total" := Float(cart.totalPrice), "subtotal" := Float(cart.netPrice),
                   "currency" := Str(currency), "items" := List(ItemSummaries(cart.lineItems, urlOf))])
  }

  /** Builds the summary the way the subscriber does, appending one entry per line item. */
  method GetCart(cart: Cart, currency: string, urlOf: LineItem -> string) returns (r: Value)
    ensures r == Summary(cart, currency, urlOf)
  {
    if |cart.lineItems| == 0 {
      return Null;
    }
    var items: seq<Value> := [];
    for n := 0 to |cart.lineItems|
      invariant |items| == n
      invariant forall k :: 0 <= k < n ==> items[k] == Assoc(ItemSummary(cart.lineItems[k], urlOf(cart.lineItems[k])))
    {
      var item := cart.lineItems[n];
      items := items + [Assoc(map["id" := Int(0), "name" := FromNullable(item.lineLabel),
                                  "price" := Float(item.unitPrice), "url" := Str(urlOf(item)),
                                  "quantity" := Int(item.quantity)])];
    }
    assert items == ItemSummaries(cart.lineItems, urlOf);
    r := Assoc(map["total" := Float(cart.totalPrice), "subtotal" := Float(cart.netPrice),
                   "currency" := Str(currency), "items" := List(items)]);
  }

  /** Every entry of a summary's `items` has `id` 0 and the name, unit price and quantity of
      the line item at the same position. */
  lemma {:induction false} SummaryItemsFollowLineItems(cart: Cart, currency: string, urlOf: LineItem -> string, i: nat)
    requires i < |cart.lineItems|
    ensures var s := Summary(cart, currency, urlOf);
      && s.Assoc? && "items" in s.entries && s.entries["items"].List?
      && |s.entries["items"].items| == |cart.lineItems|
      && s.entries["items"].items[i].Assoc?
      && var e := s.entries["items"].items[i].entries;
         && e.Keys == ItemKeys && e["id"] == Int(0)
         && e["name"] == FromNullable(cart.lineItems[i].lineLabel)
         && e["price"] == Float(cart.lineItems[i].unitPrice)
         && e["quantity"] == Int(cart.lineItems[i].quantity)
         && e["url"] == Str(urlOf(cart.lineItems[i]))
  {
    var items := ItemSummaries(cart.lineItems, urlOf);
    assert items[i] == Assoc(ItemSummary(cart.lineItems[i], urlOf(cart.lineItems[i])));
  }
}
