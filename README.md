# Belco widget payload for Shopware 6, in Dafny

This project models the decision core of the Belco storefront subscriber for Shopware 6
(`BelcoSubscriber`). On every rendered footer pagelet the subscriber does the following:

- It reads the plugin configuration of the sales channel.
- It checks that `shopId`, `apiSecret` and `domainName` are set. If any is missing, it logs
  an error naming them and stops.
- Otherwise it assembles the Belco widget payload from five parts: the shop id, a summary of
  the cart, the logged-in customer's profile, that customer's order statistics, and an HMAC
  signature of the customer id.
- It JSON-encodes the payload and assigns it to the pagelet as `belcoConfig`, together with
  `shopId`.

Modules, one per part of the subscriber:

- `Php`: the PHP value semantics the code depends on. This covers a value type with null,
  loose comparison with null (`!= null`), conversion to bool (`if ($x)`), `array_merge` on
  string keys, and `implode`.
- `Settings`: `getConfig`, `isset` on the configuration, the list of missing settings, and
  the error message.
- `CartSummary`: `getCart`.
- `CustomerData`: `getCustomer`.
- `OrderData`: the part of `getOrderData` that shapes the search result.
- `Widget`: `getWidgetConfig`, and the framework services it calls.
- `Footer`: `onPostDispatch`, with the pagelet and the logger as classes whose state it
  changes.

Each step the subscriber performs step by step is a `method`. `GetCart` appends in a loop.
`GetCustomer` and `GetWidgetConfig` reassign one array. `CollectMissing` and
`OnPostDispatch` append and assign. Each such method is proved equal to a function
(`Summary`, `Profile`, `Payload`, `MissingAmong`, `HookOutcome`). The properties of the
subscriber are proved about those functions.

The framework services are fields of the `Services` datatype:

- the configuration store, looked up by sales channel;
- SEO URL generation and host rewriting;
- the order search, looked up by customer id;
- `strtotime`;
- `hash_hmac('sha256', message, key)`;
- `json_encode`.

Beyond their signatures, the model assumes only that they are total and deterministic (see
"## Left out"). The cart that the cart service
returns for the session token is part of the `SalesContext` input.

## Behaviour a reader might not expect

- `signedUp` is whatever `getFirstLogin()` returns. The code does not convert it to a
  boolean, so it is an opaque `Value` here.
- `hash` is added only when the secret is truthy. So `"0"` disables signing as well as `""`.
- `lastOrder` is null only when the maximum order date is null or `""`. When `strtotime`
  cannot parse the date, the field is `false`.
- The pagelet receives `belcoConfig` and `shopId`.
- The file declares `strict_types=1`. So a null `domainName` passed to the URL rewriting
  would throw a `TypeError`, not rewrite against a null host. The hook's configuration check
  makes that path unreachable: the payload is only built when `domainName` is set.
- `country` holds the session's currency ISO code, exactly as the code fills it.

## Model

| member | source | states |
|---|---|---|
| `Php.NullableStringTests` | BelcoShopware/src/Storefront/Subscriber/BelcoSubscriber.php:156 | `$s != null` on a nullable string is false exactly for null and `""`. `if ($s)` is also false for `"0"`. |
| `Php.LooselyNull` | BelcoShopware/src/Storefront/Subscriber/BelcoSubscriber.php:189-193 | `$v != null` fails for a string exactly when it is `""`. For any other value it fails exactly when the value converts to false (null, false, 0, 0.0, the empty array). |
| `Php.Truthy` | BelcoShopware/src/Storefront/Subscriber/BelcoSubscriber.php:223-231 | `if ($v)` is false for null. A string is true exactly when it is neither `""` nor `"0"`. An array is true exactly when it is non-empty. |
| `Php.ArrayMerge` | BelcoShopware/src/Storefront/Subscriber/BelcoSubscriber.php:224 | `array_merge` on string keys yields the union of the keys. A key of the second array overwrites the same key of the first. Every other key keeps its value. |
| `Php.Implode` | BelcoShopware/src/Storefront/Subscriber/BelcoSubscriber.php:268 | `implode` of no pieces is `""`. Otherwise the result starts with the first piece, and its length is the pieces' total length plus one glue per gap between neighbours. |
| `Php.ImplodeInjective` | BelcoShopware/src/Storefront/Subscriber/BelcoSubscriber.php:268 | `implode` can be undone for non-empty pieces that do not contain the glue's first character: equal implosions come from equal lists. |
| `Settings.ConfigFor` | BelcoShopware/src/Storefront/Subscriber/BelcoSubscriber.php:239-244 | `getConfig` returns the stored configuration of the channel, or the empty array when nothing is stored. |
| `Settings.IsSet` | BelcoShopware/src/Storefront/Subscriber/BelcoSubscriber.php:255-263 | `isset($config[$key])` is true exactly when the key is present and its value is not null. |
| `Settings.Lookup` | BelcoShopware/src/Storefront/Subscriber/BelcoSubscriber.php:219 | `$config[$key]` is null exactly when the key is not set (absent or null). Otherwise it is the stored string. |
| `Settings.MissingAmong` | BelcoShopware/src/Storefront/Subscriber/BelcoSubscriber.php:255-265 | The missing list holds exactly the required keys that are unset or null. It keeps the order in which they are checked. |
| `Settings.CollectMissing` | BelcoShopware/src/Storefront/Subscriber/BelcoSubscriber.php:255-265 | The three `isset` checks with their appends give exactly the missing list over `shopId`, `apiSecret`, `domainName`. |
| `Settings.MissingMessage` | BelcoShopware/src/Storefront/Subscriber/BelcoSubscriber.php:268 | The logged message starts with the fixed prefix. For a single missing setting it is the prefix followed by that setting's name. |
| `Settings.MessageDeterminesMissing` | BelcoShopware/src/Storefront/Subscriber/BelcoSubscriber.php:267-268 | The logged message names the missing settings unambiguously: configurations that log the same message miss the same settings. |
| `CartSummary.ItemSummary` | BelcoShopware/src/Storefront/Subscriber/BelcoSubscriber.php:119-125 | A cart entry has exactly the keys `id`, `name`, `price`, `url`, `quantity`. Its `id` is 0 whatever the line item's identifier. |
| `CartSummary.ItemSummaries` | BelcoShopware/src/Storefront/Subscriber/BelcoSubscriber.php:116-126 | `items` has one entry per line item, in iteration order. Each entry is built from the line item at the same position. |
| `CartSummary.Summary` | BelcoShopware/src/Storefront/Subscriber/BelcoSubscriber.php:113-133 | The summary is null exactly when the cart has no line items. Otherwise it has exactly `total`, `subtotal`, `currency` (the context currency) and the `items` list. |
| `CartSummary.GetCart` | BelcoShopware/src/Storefront/Subscriber/BelcoSubscriber.php:109-134 | The loop that appends one entry per line item computes exactly the cart summary. |
| `CartSummary.SummaryItemsFollowLineItems` | BelcoShopware/src/Storefront/Subscriber/BelcoSubscriber.php:116-126 | Entry i of `items` has `id` 0, and the name, unit price, quantity and URL of line item i. |
| `CustomerData.Profile` | BelcoShopware/src/Storefront/Subscriber/BelcoSubscriber.php:142-161 | No customer gives the empty array. A customer gives exactly `id`, `firstName`, `lastName`, `email`, `country` (the currency ISO code) and `signedUp`, with `id`, `firstName`, `lastName` and `email` taken from the customer and `signedUp` from its first login. `phoneNumber` is added exactly when the billing phone is neither null nor `""`. The profile is truthy exactly when a customer is present. |
| `CustomerData.GetCustomer` | BelcoShopware/src/Storefront/Subscriber/BelcoSubscriber.php:140-162 | Building the array and then conditionally adding `phoneNumber` computes exactly the profile. |
| `OrderData.FloatCast` | BelcoShopware/src/Storefront/Subscriber/BelcoSubscriber.php:198 | `(float)` on the nullable sum gives 0.0 for null and the sum itself otherwise. |
| `OrderData.IntCast` | BelcoShopware/src/Storefront/Subscriber/BelcoSubscriber.php:200 | `(int)` on the nullable count gives 0 for null and the count itself otherwise. |
| `OrderData.Timestamp` | BelcoShopware/src/Storefront/Subscriber/BelcoSubscriber.php:194 | `strtotime`'s result is `false` exactly when the date does not parse, and the Unix time otherwise. |
| `OrderData.Shape` | BelcoShopware/src/Storefront/Subscriber/BelcoSubscriber.php:189-204 | The result is null exactly when the search result or its aggregations are null. Otherwise it has exactly `totalSpent`, `lastOrder` and `orderCount`. A null sum or count reads as 0. `lastOrder` is null exactly when the max value is loosely null; otherwise it is `strtotime` of it. |
| `Widget.UrlOf` | BelcoShopware/src/Storefront/Subscriber/BelcoSubscriber.php:292-298 | The product URL of a line item depends only on its id (rewritten against the channel's configured `domainName`): line items with the same id get the same URL. |
| `Widget.OrdersOf` | BelcoShopware/src/Storefront/Subscriber/BelcoSubscriber.php:225 | `getOrderData` for the customer id is null exactly when the search finds nothing or has no aggregations. Otherwise it has exactly the three order keys. |
| `Widget.Payload` | BelcoShopware/src/Storefront/Subscriber/BelcoSubscriber.php:214-234 | The assembled array always holds `shopId` and `cart`, and for a customer every profile key. The merges and the hash only add keys. The exact keys and values are stated by the three lemmas below. |
| `Widget.GetWidgetConfig` | BelcoShopware/src/Storefront/Subscriber/BelcoSubscriber.php:212-237 | The step-by-step reassignment of `$belcoConfig`, then JSON encoding, yields the encoding of the payload. |
| `Widget.PayloadBase` | BelcoShopware/src/Storefront/Subscriber/BelcoSubscriber.php:218-223 | `shopId` and `cart` are always present, with the configured shop id and the cart summary. A guest's payload has no other key. |
| `Widget.PayloadCustomerFields` | BelcoShopware/src/Storefront/Subscriber/BelcoSubscriber.php:223-229 | For a customer the keys are: the base keys, the profile keys, the order keys exactly when the search yields a result, and possibly `hash`. Merged profile and order fields keep their values. |
| `Widget.PayloadHash` | BelcoShopware/src/Storefront/Subscriber/BelcoSubscriber.php:231-233 | `hash` is present exactly when a customer is present and `apiSecret` is truthy. Its value is the HMAC with the customer id as message and the secret as key. |
| `Footer.HookOutcome` | BelcoShopware/src/Storefront/Subscriber/BelcoSubscriber.php:249-285 | The hook assigns exactly when all three settings are set. It then writes exactly `belcoConfig` (the encoded payload) and `shopId` (the configured shop id). Otherwise it logs the fixed prefix followed by the missing list joined with ", ". |
| `Footer.Pagelet.Assign` | BelcoShopware/src/Storefront/Subscriber/BelcoSubscriber.php:284 | The pagelet's variables become the old ones with every given option written over them. |
| `Footer.Logger.Error` | BelcoShopware/src/Storefront/Subscriber/BelcoSubscriber.php:268 | The log becomes the old log with the message appended. |
| `Footer.OnPostDispatch` | BelcoShopware/src/Storefront/Subscriber/BelcoSubscriber.php:249-285 | On abort the log gains that one message and the pagelet is unchanged. Otherwise the pagelet gains exactly the two variables and the log is unchanged. |
| `Footer.OnlySecretMissing` | BelcoShopware/src/Storefront/Subscriber/BelcoSubscriber.php:259-269 | With `shopId` and `domainName` set but no `apiSecret`, the hook aborts and logs exactly `...missing: apiSecret`. |
| `Footer.AssignedPayload` | BelcoShopware/src/Storefront/Subscriber/BelcoSubscriber.php:255-284 | When the hook assigns, the payload's `shopId` is the configured one. A customer's payload is signed unless the secret is `""` or `"0"`: `isset` lets those through, the truthiness test does not. |

## Left out

- `activate`, `uninstall`, `getSubscribedEvents` and the constructor: plugin lifecycle and
  dependency wiring, with no logic.
- Building the order `Criteria` and running the repository search. The search is the
  function `searchOrders` of the customer id, and only its result is shaped.
- `CartService::getCart`. The cart for the session token is an input.
- SEO URL generation and host rewriting in `getProductUrl`. They are the uninterpreted
  functions `seoGenerate` and `seoReplace`.
- The SHA-256 and HMAC internals of `hash_hmac`. The function `hmacSha256` is
  uninterpreted, so the model cannot prove that swapping message and key changes the
  signature. It fixes the order instead: customer id as message, secret as key.
- The bytes that `json_encode` produces. The payload is a map, so the insertion order of PHP
  array keys is not kept. The case where `json_encode` returns false is also left out.
- `strtotime` date parsing. The parsed time is an input function that may fail.
- Floating-point rounding. The `(float)` prices and totals are carried as reals.
- Configuration values other than strings and null.
- `array_merge` renumbering of integer keys. No such key occurs in the payload.
- Fatal errors from framework objects that are null where the code does not check: a
  customer without a default billing address, a line item without a price, and a missing
  aggregation entry. The model assumes these exist.
- The `TypeError` that strict types would raise if a null `domainName` reached the URL
  rewriting. `seoReplace` takes any value instead. The hook's configuration check makes that
  path unreachable.
- Two assumptions about the framework services. Each one is a Dafny function, so it is total
  and deterministic. First, every read of the configuration store in one request returns the
  same array: the hook's read, the payload's read, and the read per line item for the product
  URL. The shop id equality in `Footer.AssignedPayload`, and the argument that a null
  `domainName` never reaches the URL rewriting, both rely on this. Second, the cart service
  and the order search never throw, so every run of the hook either logs or assigns.
- The logger beyond the message text, and the mechanics of `assign` beyond which variables
  are written.
