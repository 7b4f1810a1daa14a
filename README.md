# BarterPay WooCommerce gateway: a Dafny model of its payment logic

This project models the payment logic of the BarterPay WooCommerce gateway
plugin (`barterpay-gateway.php`). It covers five pieces:

- **Payment initiation** (`process_payment`). The gateway records a fresh
  transaction id on the order under `_barterpay_txn_id`, then posts a deposit
  request to the BarterPay API. If the reply carries a `redirectUrl`, it stores
  `transactionIndex` under `_barterpay_txn_index` when the reply has one, puts
  the order `on-hold` and returns the redirect. Otherwise it adds an error
  notice and returns nothing.
- **Callback reconciliation** (`barterpay_callback_handler`). The provider's
  JSON notification is read. The order whose `_barterpay_txn_index` equals
  `TransactionIndex`, in status on-hold, pending, failed or processing, is
  completed when `TransactionStatus` is exactly `success` and failed otherwise.
  The reply is `OK`, `Order not found` or `Invalid callback data`.
- **Status poll** (`barterpay_check_status_callback`). A read-only answer:
  `paid` or `pending`, or an error for a missing or unknown order id.
- **Availability** (`is_available`, `get_canonical_package_rate_ids`,
  `get_matching_rates`). Whether the gateway is offered, given the shipping
  need, the virtual-order setting and the shipping-method restriction.
- **Registration** (`add_barterpay_gateway`). It appends the gateway class to
  WooCommerce's list.

Layout, one module per file:

- `php_json.dfy` (`PhpJson`): decoded JSON values, with PHP's `isset` and
  `empty`.
- `platform.dfy` (`Platform`): the WordPress/WooCommerce side. The class
  `Store` holds the orders, a map from order id to status, metadata, notes and
  total. It also keeps a log of every platform call the gateway makes, in
  order: meta writes, status updates, `payment_complete`, notes, the
  `get_posts` lookup, the outbound POST and notices. The log is what lets the
  contracts say that the transaction id is written before the request is sent,
  and that a malformed callback performs no lookup.
- `gateway.dfy` (`Gateway`): settings, endpoint, deposit request, reading the
  reply, `ProcessPayment`, `AddGateway`.
- `availability.dfy` (`Availability`): rate canonicalisation, rate matching,
  `IsAvailable`.
- `callback.dfy` (`Callback`): body parsing, settlement, `HandleCallback`,
  and lemmas on repeated callbacks.
- `status_poll.dfy` (`StatusPoll`): `CheckStatus`.

Platform behaviour that is not visible in the plugin becomes an input:

- `payment_complete` is a fixed but unknown transition, `Store.complete`.
- `is_paid` is a predicate parameter.
- `sanitize_text_field`, `wc_get_string_before_colon` and the
  `woocommerce_cart_needs_shipping` filter are function parameters.
- The parent class's availability answer is a boolean parameter.
- `uniqid` is replaced by the fresh id, which `ProcessPayment` takes as a
  parameter.
- The provider's HTTP reply and the callback body arrive already decoded.

What the plugin does, and so what the model does, includes the following
points, some of which a reader might not expect of a payment gateway:

- The callback is matched by `TransactionIndex`. `ExternalTransactionId` is
  read but never used.
- The status comparison is exact and case-sensitive. There is no
  lower-casing.
- Every status other than `success` fails the order. There is no cancelled,
  expired or unknown case that leaves the order alone.
- There is no idempotency guard. Failed and processing orders stay
  matchable, so a repeated callback is applied again.
- There is no browser-return receiver and no legacy meta key.
- The poll never answers `failed`.
- A transport error or a reply without a redirect leaves `_barterpay_txn_id`
  written on the order.
- A notification without a `TransactionIndex` reads as the empty index.
  WordPress adds no value condition to a `get_posts` meta query with an empty
  `meta_value`, so the lookup then returns any eligible order that carries a
  `_barterpay_txn_index`. The callback has no authentication, so such a
  notification can complete or fail an order it does not name
  (`Callback.UnindexedCallbackReachesAnyOrder`).
- On the order-pay page, `is_available` can call a method the gateway does
  not have (see "## Findings").

## Model

| member | source | states |
|---|---|---|
| `PhpJson.Field` | barterpay-gateway.php:381-383 | `isset($value[$key])` on a decoded value: set exactly when the value is a decoded object holding the key with a non-null entry, and then it is that entry; lists, strings and scalars never have a string key |
| `Platform.MatchingOrders` | barterpay-gateway.php:491-497 | reference definition of an exact meta match: an order in one of the given statuses whose meta under the key equals the value |
| `Platform.LookupCandidates` | barterpay-gateway.php:491-497 | the orders get_posts can return: every exact match is one; for a non-empty value they are exactly the matches; for an empty value every order in the statuses that carries the key, whatever its value; never an order without the key or outside the statuses |
| `Platform.SetMeta` | barterpay-gateway.php:351 | update_post_meta sets one key to the value and leaves other keys, status, notes and total alone |
| `Platform.SetStatus` | barterpay-gateway.php:387 | update_status sets the status; the note is recorded as one more order note only when the status changes, and setting the status an order already has records nothing; meta and total unchanged |
| `Platform.AddNote` | barterpay-gateway.php:506 | add_order_note appends exactly one note and changes nothing else |
| `Platform.Store.UpdateMeta` | barterpay-gateway.php:351 | only the named order's meta changes; the write is logged |
| `Platform.Store.UpdateStatus` | barterpay-gateway.php:509 | only the named order's status and notes change; the update is logged |
| `Platform.Store.PaymentComplete` | barterpay-gateway.php:505 | only the named order changes, by the platform's payment_complete transition; logged |
| `Platform.Store.AddOrderNote` | barterpay-gateway.php:506 | only the named order gains one note; logged |
| `Platform.Store.FindOrder` | barterpay-gateway.php:491-497 | the lookup changes no order and is logged; the found order is one of the lookup's candidates, and nothing is found exactly when there is no candidate |
| `Platform.Store.Post` | barterpay-gateway.php:371 | the outbound request is logged and no order changes |
| `Platform.Store.AddNotice` | barterpay-gateway.php:374 | the checkout notice is logged and no order changes |
| `Gateway.AddGateway` | barterpay-gateway.php:562-567 | the list keeps its entries in place and gains the gateway class as its last entry |
| `Gateway.Endpoint` | barterpay-gateway.php:341-346 | the test endpoint exactly when the sandbox option equals "yes", otherwise the production endpoint |
| `Gateway.DepositRequest` | barterpay-gateway.php:353-368 | the payload carries the given transaction id, the configured currency (not the order's) and the order total; timeout 45; the API key in X-SAO-Token; JSON content type |
| `Gateway.ReadReply` | barterpay-gateway.php:373-395 | a transport error is a connection failure; the reply is accepted exactly when the decoded body has a set, non-empty redirectUrl, and then carries that URL and the transactionIndex if set; everything else is an invalid response |
| `Gateway.AcceptedOrder` | barterpay-gateway.php:381-387 | after an accepted reply the order is on-hold, its transaction index is stored only when the reply had one, and the awaiting note is recorded only when the order was not on hold already |
| `Gateway.ProcessPayment` | barterpay-gateway.php:336-396 | the transaction id is written before the deposit request carrying that id is posted; on a connection failure or invalid reply: no result, one error notice, status and stored transaction index untouched, the id still written; on an accepted reply: result "success" with exactly that redirect, order on-hold; no other order changes |
| `Availability.CanonicalRateIds` | barterpay-gateway.php:248-254 | there is at most one canonical id per chosen rate |
| `Availability.CanonicalRateIdsMembers` | barterpay-gateway.php:248-254 | an id is produced exactly when it is the `method_id:instance_id` of a chosen rate that exists in its package |
| `Availability.CanonicalPackageRateIds` | barterpay-gateway.php:242-258 | the loop yields the canonical ids of the resolvable chosen rates in order, and nothing when the session value is not an array |
| `Availability.Intersect` | barterpay-gateway.php:271 | array_intersect keeps exactly the values of the first list that occur in the second; empty when the second is empty |
| `Availability.Unique` | barterpay-gateway.php:271 | array_unique keeps the same set of values, each once |
| `Availability.BeforeColonAll` | barterpay-gateway.php:271 | definition of array_map over wc_get_string_before_colon: the function applied to each rate id, position by position |
| `Availability.MatchingRates` | barterpay-gateway.php:268-272 | every result is an enabled method; an enabled method is in the result exactly when it equals a rate id or the before-colon part of one; no duplicates; empty when either input is empty |
| `Availability.OrderNeedsShipping` | barterpay-gateway.php:197-206 | true exactly when some order item has a product that needs shipping |
| `Availability.ShippingNeed` | barterpay-gateway.php:187-208 | the order is looked at only on the order-pay page when the cart needs no shipping, and the shipping need is the filtered "cart ships, or some order item ships" |
| `Availability.IsAvailable` | barterpay-gateway.php:185-232 | as written: the undefined-method error happens exactly on the order-pay path with shipping items under a method restriction; false for a virtual order when virtual orders are not accepted; false when a method restriction is set, shipping is needed and no enabled method matches a session rate id or its prefix; otherwise the parent's answer |
| `Availability.UndefinedMethodOnOrderPay` | barterpay-gateway.php:218-223 | a concrete checkout (order-pay page, an item that ships, a flat-rate shipping item, gateway restricted to flat rate) reaches the undefined method |
| `Availability.OrderItemRateIds` | barterpay-gateway.php:222 | one `method_id:instance_id` per shipping item; an id is produced exactly when it is that of some shipping item |
| `Availability.IsAvailableIntended` | barterpay-gateway.php:185-232 | corrected: always answers; false for a virtual order when virtual orders are not accepted; false when a method restriction is set, shipping is needed and no enabled method matches the order's shipping-item ids (or the session's, without shipping items) or their prefixes; otherwise the parent's answer |
| `Availability.IntendedAgreesWhereDefined` | barterpay-gateway.php:218-226 | wherever the code as written answers, the corrected version matches against the same rate ids |
| `Availability.IntendedOffersEnabledShippingItem` | barterpay-gateway.php:218-230 | corrected: a shipping item whose `method_id:instance_id` or `method_id` is enabled satisfies the method restriction |
| `Callback.TextField` | barterpay-gateway.php:484-486 | definition of the `isset(...) ? sanitize_text_field(...) : ''` reading: a missing or null field reads as the empty string, a set field as its sanitized value |
| `Callback.ParseCallback` | barterpay-gateway.php:475-486 | a body is refused exactly when it is not JSON or has no non-null `data` entry (the falsiness test adds nothing); otherwise the three fields are read from `data` |
| `Callback.Settle` | barterpay-gateway.php:503-510 | status exactly "success" applies payment_complete and adds one completion note; any other status fails the order, leaves its meta, and records the failure note only when it was not failed already |
| `Callback.HandleCallback` | barterpay-gateway.php:471-518 | no flag: nothing happens; malformed body: "Invalid callback data" with no lookup and no change; otherwise one lookup by TransactionIndex among on-hold, pending, failed and processing orders; "Order not found" changes nothing and happens exactly when there is no candidate; "OK" settles one candidate (an exact match for a non-empty index) and no other order |
| `Callback.FailureKeepsCandidates` | barterpay-gateway.php:491-509 | failing a candidate leaves the lookup's candidates unchanged: a failed order keeps its index and stays eligible, so the same callback finds it again |
| `Callback.CompletedOrderStillMatches` | barterpay-gateway.php:491-505 | when payment_complete leaves the order eligible with its index, a repeated success callback finds it again |
| `Callback.RepeatedFailureLeavesOrder` | barterpay-gateway.php:507-510 | failing an order a second time leaves it exactly as the first time did |
| `Callback.RepeatedFailingCallback` | barterpay-gateway.php:471-518 | no deduplication: the same failing notification twice, for the only candidate order, answers "OK" twice, looks the order up and calls update_status('failed', ...) twice, and leaves the order failed as after the first delivery |
| `Callback.RepeatedSuccessIsReapplied` | barterpay-gateway.php:503-506 | completing twice records the completion note twice when payment_complete keeps notes: no deduplication |
| `Callback.CallbackBodyRoundTrip` | barterpay-gateway.php:483-486 | a provider body with the three string fields reads back as those fields, sanitized |
| `Callback.MissingFieldsReadAsEmpty` | barterpay-gateway.php:476-486 | a set `data` entry without the fields (even `false` or a number) is accepted with every field empty; a null or missing `data` is refused |
| `Callback.ExternalIdDoesNotSteer` | barterpay-gateway.php:484-497 | bodies differing only in ExternalTransactionId give the same index and status, the only fields the lookup and settlement use |
| `Callback.UnindexedCallbackReachesAnyOrder` | barterpay-gateway.php:484-497 | a notification without TransactionIndex reads as the empty index, and then every eligible order carrying an index is a lookup candidate, even one whose index is not empty and so does not match |
| `StatusPoll.CheckStatus` | barterpay-gateway.php:538-556 | missing id: "No order id provided"; unknown id: "Invalid order id"; otherwise "paid" exactly when the order is paid, else "pending"; never "failed" |
| `StatusPoll.SettledOrderNeverPollsFailed` | barterpay-gateway.php:503-554 | after a callback with any status, the poll for that order succeeds and never answers "failed"; after a failing callback it answers "pending" unless is_paid holds of the failed order |

## Findings

| source | as written | input that shows it | evidently intended | confidence | as-written member | corrected member |
|---|---|---|---|---|---|---|
| barterpay-gateway.php:218-223 | with a shipping-method restriction and shipping needed, an order on the order-pay page that has shipping items is passed to `get_canonical_order_shipping_item_rate_ids`, which `WC_Gateway_BarterPay` does not define; PHP stops with "Call to undefined method" | cart needs no shipping; order-pay page; the order has an item that ships and a shipping item `flat_rate:3`; `enable_for_methods` is `["flat_rate"]` | the cash-on-delivery gateway's helper: the order's shipping items as `method_id:instance_id` ids, matched like the session's rates | high (not executed) | `Availability.IsAvailable`, `Availability.UndefinedMethodOnOrderPay` | `Availability.IsAvailableIntended`, `Availability.IntendedOffersEnabledShippingItem` |

## Left out

- WordPress and WooCommerce plumbing: hook registration, `file_get_contents('php://input')`, `json_decode`, `json_encode`, `echo`/`exit`, `wp_send_json_*`, `__()` translations, `WC()->session` and `WC()->shipping()`. Decoded values and replies are inputs; echoed text is the returned reply.
- `uniqid('txn_', true)`: the fresh id is a parameter, so uniqueness across attempts is not modelled.
- `floatval($order->get_total())`: floating point; the order total is copied into the payload unchanged.
- `payment_complete` and `is_paid`: WooCommerce internals that are not shown; an unknown transition and an unknown predicate.
- `sanitize_text_field`, `wc_get_string_before_colon`, `absint` and the `woocommerce_cart_needs_shipping` filter: uninterpreted (absint is applied before the poll model sees the id).
- `Platform.Store.FindOrder`: which of several candidates `get_posts` returns first is left open. Meta values are compared exactly, whereas the database compares them under its collation, which is usually case-insensitive; `Platform.MatchingOrders` idealises that.
- `Platform.SetStatus`: WooCommerce's own "Order status changed from ... to ..." text, which it joins to the gateway's note, is not modelled. Only the note the gateway passes is recorded, and only when the status changes.
- `Availability.IsAvailable`: the plugin stops with a fatal error where it calls `get_canonical_order_shipping_item_rate_ids` (barterpay-gateway.php:222). The model returns `UndefinedMethod` there and does not model what happens to the request afterwards.
- `Availability.CanonicalPackageRateIds`: the truthiness of a found rate object is taken as given, and the package key is a natural number.
- Order lookup uses WooCommerce status slugs without their `wc-` prefix.
- The constructor's option reads (barterpay-gateway.php:65-91) are summarised in the `Gateway.Settings` value.
- Admin settings UI (`init_form_fields`, `load_shipping_method_options`, `is_accessing_settings`), the inline-JavaScript `thankyou_page`, the block-checkout support class and the JavaScript front ends: presentation only.
- Callback signature verification: the code has only a comment for it, so there is nothing to model.
- Concurrency between simultaneous callbacks: each handler call is modelled as one atomic sequence of store calls.
