/**
 * The WordPress/WooCommerce side the gateway talks to: the order store and
 * the other platform calls the gateway makes (post-meta writes, status
 * updates, payment_complete, order notes, the get_posts lookup, the outbound
 * HTTP POST and checkout notices). Every call is recorded, in order, in the
 * store's log, so that the order of the gateway's side effects can be stated.
 */
module Platform {
  import opened PhpJson

  type OrderId = nat

  /** An order status slug as WooCommerce stores it without its "wc-" prefix. */
  type Status = string

  const OnHold: Status := "on-hold"
  const Pending: Status := "pending"
  const Failed: Status := "failed"
  const Processing: Status := "processing"

  /** Post-meta keys the gateway writes. */
  const TxnIdKey := "_barterpay_txn_id"
  const TxnIndexKey := "_barterpay_txn_index"

  /** An order as far as the gateway sees it. The total is kept as the text
      the platform stores; the gateway only copies it. */
  datatype Order = Order(status: Status, meta: map<string, string>, notes: seq<string>, total: string)

  datatype Header = Header(name: string, value: string)

  /** The JSON payload of the deposit request (json_encode is not modelled). */
  datatype Payload = Payload(transactionId: string, currency: string, amount: string)

  datatype Request = Request(endpoint: string, payload: Payload, timeout: nat, headers: seq<Header>)

  /** One platform call made by the gateway. */
  datatype Event =
    | MetaUpdated(id: OrderId, key: string, value: string)
    | StatusUpdated(id: OrderId, status: Status, note: string)
    | PaymentCompleted(id: OrderId)
    | NoteAdded(id: OrderId, note: string)
    | Queried(key: string, value: string, statuses: set<Status>)
    | Posted(request: Request)
    | NoticeAdded(message: string, kind: string)

  /** update_post_meta on one order. */
  function SetMeta(o: Order, key: string, value: string): (r: Order)
    ensures r.meta.Keys == o.meta.Keys + {key} && r.meta[key] == value
    ensures forall k :: k in o.meta && k != key ==> r.meta[k] == o.meta[k]
    ensures r.status == o.status && r.notes == o.notes && r.total == o.total
  {
    o.(meta := o.meta[key := value])
  }

  /** update_status($status, $note): the new status. WooCommerce records a
      status transition, and with it the note, only when the status actually
      changes; setting an order to the status it already has adds no note. */
  function SetStatus(o: Order, status: Status, note: string): (r: Order)
    ensures r.status == status && r.meta == o.meta && r.total == o.total
    ensures o.status != status ==> r.notes == o.notes + [note]
    ensures o.status == status ==> r.notes == o.notes
  {
    o.(status := status, notes := if o.status == status then o.notes else o.notes + [note])
  }

  /** add_order_note. */
  function AddNote(o: Order, note: string): (r: Order)
    ensures r.notes == o.notes + [note] && |r.notes| == |o.notes| + 1
    ensures r.status == o.status && r.meta == o.meta && r.total == o.total
  {
    o.(notes := o.notes + [note])
  }

  /** Reference definition: the orders in one of the given statuses whose
      meta under the key is exactly the value. */
  function MatchingOrders(orders: map<OrderId, Order>, key: string, value: string, statuses: set<Status>): (r: set<OrderId>)
    ensures forall id :: id in r <==>
      id in orders && orders[id].status in statuses && key in orders[id].meta && orders[id].meta[key] == value
  {
    set id | id in orders && orders[id].status in statuses && key in orders[id].meta && orders[id].meta[key] == value
  }

  /** The orders a get_posts query with a meta key and a meta value can
      return among the given statuses. WordPress adds no value condition for
      an empty meta value, so then every order carrying the key qualifies,
      whatever is stored under it. */
  function LookupCandidates(orders: map<OrderId, Order>, key: string, value: string, statuses: set<Status>): (r: set<OrderId>)
    ensures MatchingOrders(orders, key, value, statuses) <= r
    ensures value != "" ==> r == MatchingOrders(orders, key, value, statuses)
    ensures forall id :: id in r ==> id in orders && orders[id].status in statuses && key in orders[id].meta
    ensures value == "" ==> forall id :: id in orders && orders[id].status in statuses && key in orders[id].meta ==> id in r
  {
    if value == "" then set id | id in orders && orders[id].status in statuses && key in orders[id].meta
    else MatchingOrders(orders, key, value, statuses)
  }

  class Store {
    var orders: map<OrderId, Order>
    var log: seq<Event>
    /** WC_Order::payment_complete(): its effect on the order is WooCommerce's
        and is not shown, so it is a fixed but unknown transition. */
    const complete: Order -> Order

    constructor (initial: map<OrderId, Order>, paymentComplete: Order -> Order)
      ensures orders == initial && log == [] && complete == paymentComplete
    {
      orders := initial;
      log := [];
      complete := paymentComplete;
    }

    method UpdateMeta(id: OrderId, key: string, value: string)
      requires id in orders
      modifies this
      ensures orders == old(orders)[id := SetMeta(old(orders)[id], key, value)]
      ensures log == old(log) + [MetaUpdated(id, key, value)]
    {
      orders := orders[id := SetMeta(orders[id], key, value)];
      log := log + [MetaUpdated(id, key, value)];
    }

    method UpdateStatus(id: OrderId, status: Status, note: string)
      requires id in orders
      modifies this
      ensures orders == old(orders)[id := SetStatus(old(orders)[id], status, note)]
      ensures log == old(log) + [StatusUpdated(id, status, note)]
    {
      orders := orders[id := SetStatus(orders[id], status, note)];
      log := log + [StatusUpdated(id, status, note)];
    }

    method PaymentComplete(id: OrderId)
      requires id in orders
      modifies this
      ensures orders == old(orders)[id := complete(old(orders)[id])]
      ensures log == old(log) + [PaymentCompleted(id)]
    {
      orders := orders[id := complete(orders[id])];
      log := log + [PaymentCompleted(id)];
    }

    method AddOrderNote(id: OrderId, note: string)
      requires id in orders
      modifies this
      ensures orders == old(orders)[id := AddNote(old(orders)[id], note)]
      ensures log == old(log) + [NoteAdded(id, note)]
    {
      orders := orders[id := AddNote(orders[id], note)];
      log := log + [NoteAdded(id, note)];
    }

    /** get_posts with a meta key, a meta value, posts_per_page 1 and a status
        filter: one of the candidates, or none when there are none. Which of
        several candidates comes first is the platform's choice. */
    method FindOrder(key: string, value: string, statuses: set<Status>) returns (found: Option<OrderId>)
      modifies this
      ensures orders == old(orders)
      ensures log == old(log) + [Queried(key, value, statuses)]
      ensures found.None? <==> LookupCandidates(orders, key, value, statuses) == {}
      ensures found.Some? ==> found.value in LookupCandidates(orders, key, value, statuses)
    {
      log := log + [Queried(key, value, statuses)];
      var candidates := LookupCandidates(orders, key, value, statuses);
      if candidates == {} {
        found := None;
      } else {
        var id :| id in candidates;
        found := Some(id);
      }
    }

    /** wp_remote_post: the request leaves; its reply is an input of the caller. */
    method Post(request: Request)
      modifies this
      ensures orders == old(orders)
      ensures log == old(log) + [Posted(request)]
    {
      log := log + [Posted(request)];
    }

    /** wc_add_notice. */
    method AddNotice(message: string, kind: string)
      modifies this
      ensures orders == old(orders)
      ensures log == old(log) + [NoticeAdded(message, kind)]
    {
      log := log + [NoticeAdded(message, kind)];
    }
  }
}
