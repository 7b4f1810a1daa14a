/**
 * WC_Gateway_BarterPay::is_available and its shipping-rate helpers: whether
 * the gateway is offered at checkout, given whether the order needs shipping,
 * the "enable for virtual orders" setting and the shipping methods the gateway
 * is restricted to.
 */
module Availability {
  import opened PhpJson
  import opened Gateway

  /** A shipping rate as WooCommerce hands it out. */
  datatype Rate = Rate(methodId: string, instanceId: string)

  /** One entry of the session's chosen_shipping_methods: package key => rate id. */
  datatype ChosenRate = ChosenRate(packageKey: nat, rateId: string)

  /** The shipping packages' rates: package key => rate id => rate. */
  type Packages = map<nat, map<string, Rate>>

  datatype Product = Product(needsShipping: bool)

  /** An order line; its product may no longer exist. */
  datatype Item = Item(product: Option<Product>)

  /** The order being paid on the order-pay page: its items, and the shipping
      items get_shipping_methods() returns, each naming a shipping method and
      its instance. */
  datatype PayOrder = PayOrder(items: seq<Item>, shippingItems: seq<Rate>)

  /** What is_available gives: an answer, or the fatal "Call to undefined
      method" error that ends the request. */
  datatype Offer = Offered(available: bool) | UndefinedMethod

  /** What is_available reads from the request, the cart and the session. */
  datatype Checkout = Checkout(
    cartNeedsShipping: bool,                 // WC()->cart && WC()->cart->needs_shipping()
    onOrderPayPage: bool,                    // checkout page with an order-pay query var above 0
    payOrder: Option<PayOrder>,              // wc_get_order on that order-pay id
    chosenMethods: Option<seq<ChosenRate>>,  // the session value, None when it is not an array
    packages: Packages)                      // WC()->shipping()->get_packages()

  predicate Distinct(s: seq<string>) {
    forall i, j :: 0 <= i < j < |s| ==> s[i] != s[j]
  }

  // ---------------------------------------------------------------------
  // get_canonical_package_rate_ids

  function CanonicalId(r: Rate): string {
    r.methodId + ":" + r.instanceId
  }

  predicate Resolves(c: ChosenRate, packages: Packages) {
    c.packageKey in packages && c.rateId in packages[c.packageKey]
  }

  /** The canonical ids of the chosen rates that exist in their package, in
      the order they were chosen. */
  function CanonicalRateIds(chosen: seq<ChosenRate>, packages: Packages): (ids: seq<string>)
    ensures |ids| <= |chosen|
  {
    if chosen == [] then []
    else
      var last := chosen[|chosen| - 1];
      CanonicalRateIds(chosen[..|chosen| - 1], packages) +
        (if Resolves(last, packages) then [CanonicalId(packages[last.packageKey][last.rateId])] else [])
  }

  /** An id is canonical for the chosen rates exactly when it is the
      `method_id:instance_id` of one chosen rate that exists in its package. */
  lemma {:induction false} CanonicalRateIdsMembers(chosen: seq<ChosenRate>, packages: Packages, x: string)
    ensures x in CanonicalRateIds(chosen, packages) <==>
      exists k :: 0 <= k < |chosen| && Resolves(chosen[k], packages) &&
        x == CanonicalId(packages[chosen[k].packageKey][chosen[k].rateId])
  {
    if chosen != [] {
      var n := |chosen| - 1;
      var front := chosen[..n];
      CanonicalRateIdsMembers(front, packages, x);
      if x in CanonicalRateIds(chosen, packages) {
        if x in CanonicalRateIds(front, packages) {
          var k :| 0 <= k < |front| && Resolves(front[k], packages) &&
            x == CanonicalId(packages[front[k].packageKey][front[k].rateId]);
          assert chosen[k] == front[k];
        } else {
          assert Resolves(chosen[n], packages);
        }
      } else {
        forall k | 0 <= k < |chosen| && Resolves(chosen[k], packages)
          ensures x != CanonicalId(packages[chosen[k].packageKey][chosen[k].rateId])
        {
          if k < n {
            assert chosen[k] == front[k];
          }
        }
      }
    }
  }

  /** get_canonical_package_rate_ids. */
  method CanonicalPackageRateIds(chosen: Option<seq<ChosenRate>>, packages: Packages) returns (ids: seq<string>)
    ensures chosen.Some? ==> ids == CanonicalRateIds(chosen.value, packages)
    ensures chosen.None? ==> ids == []
  {
    ids := [];
    if chosen.Some? && chosen.value != [] {
      var c := chosen.value;
      for k := 0 to |c|
        invariant ids == CanonicalRateIds(c[..k], packages)
      {
        if c[k].packageKey in packages && c[k].rateId in packages[c[k].packageKey] {
          var rate := packages[c[k].packageKey][c[k].rateId];
          ids := ids + [rate.methodId + ":" + rate.instanceId];
        }
        assert c[..k + 1][..k] == c[..k];
      }
      assert c[..|c|] == c;
    }
  }

  // ---------------------------------------------------------------------
  // get_matching_rates

  /** array_intersect($a, $b): the entries of `a`, in order, that occur in `b`. */
  function Intersect(a: seq<string>, b: seq<string>): (r: seq<string>)
    ensures forall x :: x in r <==> x in a && x in b
    ensures |r| <= |a|
    ensures b == [] ==> r == []
  {
    if a == [] then []
    else (if a[0] in b then [a[0]] else []) + Intersect(a[1..], b)
  }

  /** array_unique: each value once, at its first occurrence. */
  function Unique(s: seq<string>): (r: seq<string>)
    ensures forall x :: x in r <==> x in s
    ensures Distinct(r)
    ensures |r| <= |s|
  {
    if s == [] then []
    else
      var front := Unique(s[..|s| - 1]);
      var last := s[|s| - 1];
      assert forall x :: x in s <==> x in s[..|s| - 1] || x == last;
      if last in front then front else front + [last]
  }

  /** array_map('wc_get_string_before_colon', $ids). */
  function BeforeColonAll(ids: seq<string>, beforeColon: string -> string): (r: seq<string>)
    ensures |r| == |ids|
    ensures forall k :: 0 <= k < |ids| ==> r[k] == beforeColon(ids[k])
  {
    seq(|ids|, k requires 0 <= k < |ids| => beforeColon(ids[k]))
  }

  /** get_matching_rates: the enabled methods that equal a rate id or the
      part before the colon of a rate id, each once. */
  function MatchingRates(enabled: seq<string>, rateIds: seq<string>, beforeColon: string -> string): (r: seq<string>)
    ensures forall x :: x in r ==> x in enabled
    ensures forall x :: x in r <==>
      x in enabled && (x in rateIds || exists k :: 0 <= k < |rateIds| && beforeColon(rateIds[k]) == x)
    ensures Distinct(r)
    ensures enabled == [] || rateIds == [] ==> r == []
  {
    var prefixes := BeforeColonAll(rateIds, beforeColon);
    assert forall x :: x in prefixes <==> exists k :: 0 <= k < |rateIds| && beforeColon(rateIds[k]) == x by {
      forall x | x in prefixes ensures exists k :: 0 <= k < |rateIds| && beforeColon(rateIds[k]) == x {
        var k :| 0 <= k < |prefixes| && prefixes[k] == x;
        assert beforeColon(rateIds[k]) == x;
      }
      forall x | exists k :: 0 <= k < |rateIds| && beforeColon(rateIds[k]) == x ensures x in prefixes {
        var k :| 0 <= k < |rateIds| && beforeColon(rateIds[k]) == x;
        assert prefixes[k] == x;
      }
    }
    Unique(Intersect(enabled, rateIds) + Intersect(enabled, Unique(prefixes)))
  }

  // ---------------------------------------------------------------------
  // is_available

  predicate Ships(item: Item) {
    item.product.Some? && item.product.value.needsShipping
  }

  /** The loop over the order's items: does some item's product need shipping? */
  method OrderNeedsShipping(items: seq<Item>) returns (needs: bool)
    ensures needs <==> exists k :: 0 <= k < |items| && Ships(items[k])
  {
    needs := false;
    var k := 0;
    while k < |items|
      invariant 0 <= k <= |items|
      invariant forall j :: 0 <= j < k ==> !Ships(items[j])
    {
      if items[k].product.Some? && items[k].product.value.needsShipping {
        needs := true;
        break;
      }
      k := k + 1;
    }
  }

  /** The order is_available looks at: set only on the order-pay page when the
      cart itself does not need shipping. */
  function PageOrder(c: Checkout): Option<PayOrder> {
    if !c.cartNeedsShipping && c.onOrderPayPage then c.payOrder else None
  }

  /** Whether shipping is needed, after the woocommerce_cart_needs_shipping
      filter `filter`. */
  function NeedsShipping(c: Checkout, filter: bool -> bool): bool {
    var order := PageOrder(c);
    filter(c.cartNeedsShipping ||
           (order.Some? && exists k :: 0 <= k < |order.value.items| && Ships(order.value.items[k])))
  }

  /** The canonical rate ids of the session's chosen rates; none when the
      session value is not an array. */
  function SessionRateIds(c: Checkout): seq<string> {
    if c.chosenMethods.Some? then CanonicalRateIds(c.chosenMethods.value, c.packages) else []
  }

  /** is_available reaches its call of get_canonical_order_shipping_item_rate_ids,
      a method the gateway class does not have: a method restriction is set,
      shipping is needed and the order on the order-pay page has shipping
      items. */
  predicate CallsUndefinedMethod(s: Settings, c: Checkout, filter: bool -> bool) {
    s.enableForMethods != [] && NeedsShipping(c, filter) &&
    PageOrder(c).Some? && PageOrder(c).value.shippingItems != []
  }

  /** is_available as written. `filter` is the woocommerce_cart_needs_shipping
      filter, `beforeColon` is wc_get_string_before_colon and `parentAvailable`
      is WC_Payment_Gateway::is_available(). */
  method IsAvailable(s: Settings, c: Checkout, filter: bool -> bool,
                     beforeColon: string -> string, parentAvailable: bool)
    returns (offer: Offer)
    // the order-pay path with shipping items under a method restriction fails
    ensures offer.UndefinedMethod? <==> CallsUndefinedMethod(s, c, filter)
    // a virtual order when virtual orders are not accepted
    ensures !s.enableForVirtual && !NeedsShipping(c, filter) ==> offer == Offered(false)
    // a restriction to shipping methods that no chosen rate meets
    ensures s.enableForMethods != [] && NeedsShipping(c, filter) && !CallsUndefinedMethod(s, c, filter) &&
            (forall x :: x in s.enableForMethods ==>
               x !in SessionRateIds(c) &&
               forall k :: 0 <= k < |SessionRateIds(c)| ==> beforeColon(SessionRateIds(c)[k]) != x)
            ==> offer == Offered(false)
    // otherwise the parent's answer
    ensures offer.Offered? ==> (offer.available <==>
      parentAvailable &&
      (s.enableForVirtual || NeedsShipping(c, filter)) &&
      (s.enableForMethods == [] || !NeedsShipping(c, filter) ||
       MatchingRates(s.enableForMethods, SessionRateIds(c), beforeColon) != []))
  {
    var order, needs := ShippingNeed(c, filter);
    if !s.enableForVirtual && !needs {
      return Offered(false);
    }
    if s.enableForMethods != [] && needs {
      if order.Some? && order.value.shippingItems != [] {
        return UndefinedMethod;
      }
      var rateIds := CanonicalPackageRateIds(c.chosenMethods, c.packages);
      assert rateIds == SessionRateIds(c);
      var matching := MatchingRates(s.enableForMethods, rateIds, beforeColon);
      if |matching| == 0 {
        return Offered(false);
      }
      var m := matching[0];
      assert m in s.enableForMethods && (m in rateIds || exists k :: 0 <= k < |rateIds| && beforeColon(rateIds[k]) == m);
    }
    return Offered(parentAvailable);
  }

  /** The first part of is_available: the order on the order-pay page, and
      whether shipping is needed after the filter. */
  method ShippingNeed(c: Checkout, filter: bool -> bool) returns (order: Option<PayOrder>, needs: bool)
    ensures order == PageOrder(c) && needs == NeedsShipping(c, filter)
  {
    order := None;
    needs := false;
    if c.cartNeedsShipping {
      needs := true;
    } else if c.onOrderPayPage {
      order := c.payOrder;
      if order.Some? && 0 < |order.value.items| {
        needs := OrderNeedsShipping(order.value.items);
      }
    }
    needs := filter(needs);
  }

  // ---------------------------------------------------------------------
  // is_available as evidently intended

  /** What WooCommerce's cash-on-delivery gateway, from which is_available is
      adapted, computes in get_canonical_order_shipping_item_rate_ids: the
      `method_id:instance_id` of each shipping item, in order. */
  function OrderItemRateIds(items: seq<Rate>): (ids: seq<string>)
    ensures |ids| == |items|
    ensures forall x :: x in ids <==> exists k :: 0 <= k < |items| && x == CanonicalId(items[k])
  {
    if items == [] then []
    else [CanonicalId(items[0])] + OrderItemRateIds(items[1..])
  }

  /** The rate ids is_available means to match: the order's shipping items
      when it has some, otherwise the session's chosen rates. */
  function IntendedRateIds(c: Checkout): seq<string> {
    var order := PageOrder(c);
    if order.Some? && order.value.shippingItems != [] then OrderItemRateIds(order.value.shippingItems)
    else SessionRateIds(c)
  }

  /** is_available with the order's shipping items read as intended: it always
      answers. */
  method IsAvailableIntended(s: Settings, c: Checkout, filter: bool -> bool,
                             beforeColon: string -> string, parentAvailable: bool)
    returns (available: bool)
    // a virtual order when virtual orders are not accepted
    ensures !s.enableForVirtual && !NeedsShipping(c, filter) ==> !available
    // a restriction to shipping methods that no rate meets
    ensures s.enableForMethods != [] && NeedsShipping(c, filter) &&
            (forall x :: x in s.enableForMethods ==>
               x !in IntendedRateIds(c) &&
               forall k :: 0 <= k < |IntendedRateIds(c)| ==> beforeColon(IntendedRateIds(c)[k]) != x)
            ==> !available
    // otherwise the parent's answer
    ensures available <==>
      parentAvailable &&
      (s.enableForVirtual || NeedsShipping(c, filter)) &&
      (s.enableForMethods == [] || !NeedsShipping(c, filter) ||
       MatchingRates(s.enableForMethods, IntendedRateIds(c), beforeColon) != [])
  {
    var order, needs := ShippingNeed(c, filter);
    if !s.enableForVirtual && !needs {
      return false;
    }
    if s.enableForMethods != [] && needs {
      var rateIds;
      if order.Some? && order.value.shippingItems != [] {
        rateIds := OrderItemRateIds(order.value.shippingItems);
      } else {
        rateIds := CanonicalPackageRateIds(c.chosenMethods, c.packages);
      }
      assert rateIds == IntendedRateIds(c);
      var matching := MatchingRates(s.enableForMethods, rateIds, beforeColon);
      if |matching| == 0 {
        return false;
      }
      var m := matching[0];
      assert m in s.enableForMethods && (m in rateIds || exists k :: 0 <= k < |rateIds| && beforeColon(rateIds[k]) == m);
    }
    return parentAvailable;
  }

  /** Where the code as written answers, the intended reading matches the same
      rate ids, so the two give the same answer. */
  lemma IntendedAgreesWhereDefined(s: Settings, c: Checkout, filter: bool -> bool)
    requires !CallsUndefinedMethod(s, c, filter)
    ensures s.enableForMethods != [] && NeedsShipping(c, filter) ==> IntendedRateIds(c) == SessionRateIds(c)
  {
  }

  /** With the intended reading, an order whose shipping item uses an enabled
      method (by `method_id:instance_id` or by `method_id` alone) matches the
      restriction, so the gateway is offered whenever the parent offers it. */
  lemma IntendedOffersEnabledShippingItem(s: Settings, c: Checkout, beforeColon: string -> string, k: nat)
    requires PageOrder(c).Some? && k < |PageOrder(c).value.shippingItems|
    requires var id := CanonicalId(PageOrder(c).value.shippingItems[k]);
      id in s.enableForMethods || beforeColon(id) in s.enableForMethods
    ensures MatchingRates(s.enableForMethods, IntendedRateIds(c), beforeColon) != []
  {
    var items := PageOrder(c).value.shippingItems;
    var ids := IntendedRateIds(c);
    var id := CanonicalId(items[k]);
    assert id in ids;
    var j :| 0 <= j < |ids| && ids[j] == id;
    if id in s.enableForMethods {
      assert id in MatchingRates(s.enableForMethods, ids, beforeColon);
    } else {
      assert beforeColon(ids[j]) in MatchingRates(s.enableForMethods, ids, beforeColon);
    }
  }

  /** The failing input: the cart needs no shipping, the order-pay page shows an
      order with an item that ships and a flat-rate shipping item, and the
      gateway is restricted to flat rate. */
  lemma UndefinedMethodOnOrderPay()
    ensures CallsUndefinedMethod(
      Settings("key", "USD", "no", ["flat_rate"], true),
      Checkout(false, true, Some(PayOrder([Item(Some(Product(true)))], [Rate("flat_rate", "3")])), None, map[]),
      b => b)
  {
    var items := [Item(Some(Product(true)))];
    assert Ships(items[0]);
  }
}
