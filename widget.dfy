/** `getWidgetConfig`: the widget payload, assembled from the shop id, the cart summary, the
    customer profile, the customer's order statistics and a signature of the customer id. */
module Widget {
  import opened Php
  import opened Settings
  import opened CartSummary
  import opened CustomerData
  import opened OrderData

  /** The framework services the subscriber calls, as functions of their arguments:
      the plugin configuration by sales channel, SEO URL generation for a product id and its
      rewriting against a host, the order search by customer id, `strtotime`,
      `hash_hmac('sha256', message, key)` and `json_encode`. */
  datatype Services = Services(
    configStore: string -> Option<Config>,
    seoGenerate: string -> string,
    seoReplace: (string, Value) -> string,
    searchOrders: Value -> Option<SearchResult>,
    strtotime: string -> Option<int>,
    hmacSha256: (string, string) -> string,
    jsonEncode: Value -> string)

  /** What the sales-channel context exposes: the channel, the session currency, the
      logged-in customer if any, and the cart stored under the session token. */
  datatype SalesContext = SalesContext(
    channelId: string,
    currencyIso: string,
    customer: Option<Customer>,
    cart: Cart)

  const BaseKeys: set<string> := {"shopId", "cart"}

  function ChannelConfig(svc: Services, ctx: SalesContext): Config {
    ConfigFor(svc.configStore, ctx.channelId)
  }

  /** `getProductUrl`: the detail-page URL of the item, rewritten against the configured
      domain name. */
  function UrlOf(svc: Services, ctx: SalesContext): (url: LineItem -> string)
    ensures forall a: LineItem, b: LineItem :: a.id == b.id ==> url(a) == url(b)
  {
    (item: LineItem) => svc.seoReplace(svc.seoGenerate(item.id), Lookup(ChannelConfig(svc, ctx), "domainName"))
  }

  /** `getOrderData` for a customer: the order fields the search by the customer's id gives,
      or null when it finds nothing to aggregate. */
  function OrdersOf(svc: Services, customer: Customer): (r: Option<map<string, Value>>)
    ensures var found := svc.searchOrders(Str(customer.id));
      r.None? <==> found.None? || found.value.aggregations.None?
    ensures r.Some? ==> r.value.Keys == OrderKeys
  {
    Shape(svc.searchOrders(Str(customer.id)), svc.strtotime)
  }

  /** The payload, before JSON encoding. Merging and adding the hash only ever add keys. */
  function Payload(svc: Services, ctx: SalesContext): (p: map<string, Value>)
    ensures BaseKeys <= p.Keys
    ensures ctx.customer.Some? ==> Profile(ctx.customer, ctx.currencyIso).Keys <= p.Keys
  {
    var config := ChannelConfig(svc, ctx);
    var customer := Profile(ctx.customer, ctx.currencyIso);
    var base := map["shopId" := Lookup(config, "shopId"),
                    "cart" := Summary(ctx.cart, ctx.currencyIso, UrlOf(svc, ctx))];
    if !Truthy(Assoc(customer)) then base
    else
      var withProfile := ArrayMerge(base, customer);
      var orders := Shape(svc.searchOrders(customer["id"]), svc.strtotime);
      var withOrders := if orders.Some? then ArrayMerge(withProfile, orders.value) else withProfile;
      var secret := Lookup(config, "apiSecret");
      if Truthy(secret) then withOrders["hash" := Str(svc.hmacSha256(customer["id"].s, secret.s))]
      else withOrders
  }

  /** Assembles and encodes the payload the way the subscriber does, reassigning one array
      step by step. */
  method GetWidgetConfig(svc: Services, ctx: SalesContext) returns (encoded: string)
    ensures encoded == svc.jsonEncode(Assoc(Payload(svc, ctx)))
  {
    var customer := GetCustomer(ctx.customer, ctx.currencyIso);
    var config := ConfigFor(svc.configStore, ctx.channelId);
    var cart := GetCart(ctx.cart, ctx.currencyIso, UrlOf(svc, ctx));
    var belcoConfig := map["shopId" := Lookup(config, "shopId"), "cart" := cart];
    if Truthy(Assoc(customer)) {
      belcoConfig := ArrayMerge(belcoConfig, customer);
      var order := Shape(svc.searchOrders(customer["id"]), svc.strtotime);
      if order.Some? {
        belcoConfig := ArrayMerge(belcoConfig, order.value);
      }
      var secret := Lookup(config, "apiSecret");
      if Truthy(secret) {
        belcoConfig := belcoConfig["hash" := Str(svc.hmacSha256(customer["id"].s, secret.s))];
      }
    }
    encoded := svc.jsonEncode(Assoc(belcoConfig));
  }

  /** The key groups of the payload do not overlap, so no merge overwrites an earlier key. */
  lemma KeyGroupsDisjoint()
    ensures BaseKeys !! ProfileKeys + {"phoneNumber"}
    ensures BaseKeys + ProfileKeys + {"phoneNumber"} !! OrderKeys
    ensures "hash" !in BaseKeys + ProfileKeys + {"phoneNumber"} + OrderKeys
  {
  }

  /** `shopId` and `cart` are always present with their own values, and a guest gets
      nothing else. */
  lemma PayloadBase(svc: Services, ctx: SalesContext)
    ensures var p := Payload(svc, ctx);
      && "shopId" in p && p["shopId"] == Lookup(ChannelConfig(svc, ctx), "shopId")
      && "cart" in p && p["cart"] == Summary(ctx.cart, ctx.currencyIso, UrlOf(svc, ctx))
      && (ctx.customer.None? ==> p.Keys == BaseKeys)
  {
    KeyGroupsDisjoint();
  }

  /** A customer adds exactly the profile fields, the order fields when the search has
      them, and possibly the hash; merged fields keep their values. */
  lemma PayloadCustomerFields(svc: Services, ctx: SalesContext)
    requires ctx.customer.Some?
    ensures var p := Payload(svc, ctx);
      var profile := Profile(ctx.customer, ctx.currencyIso);
      var orders := OrdersOf(svc, ctx.customer.value);
      && p.Keys == BaseKeys + profile.Keys
                   + (if orders.Some? then OrderKeys else {})
                   + (if "hash" in p then {"hash"} else {})
      && (forall k :: k in profile ==> p[k] == profile[k])
      && (orders.Some? ==> forall k :: k in orders.value ==> p[k] == orders.value[k])
  {
    KeyGroupsDisjoint();
  }

  /** The hash is present exactly for a customer with a truthy secret, and signs the
      customer id (the message) with the secret (the key). */
  lemma PayloadHash(svc: Services, ctx: SalesContext)
    ensures var p := Payload(svc, ctx);
      && ("hash" in p <==> ctx.customer.Some? && Truthy(Lookup(ChannelConfig(svc, ctx), "apiSecret")))
      && ("hash" in p ==>
           p["hash"] == Str(svc.hmacSha256(ctx.customer.value.id, ChannelConfig(svc, ctx)["apiSecret"].value)))
  {
    KeyGroupsDisjoint();
  }
}
