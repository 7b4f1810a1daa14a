/**
 * barterpay_callback_handler: the provider's server-to-server notification.
 * The body's `data` object names a TransactionIndex and a TransactionStatus;
 * the order carrying that index in an open or retryable status is completed
 * (status exactly "success") or failed (anything else), and the handler
 * answers "OK", "Order not found" or "Invalid callback data".
 */
module Callback {
  import opened PhpJson
  import opened Platform

  const InvalidData := "Invalid callback data"
  const OkReply := "OK"
  const NotFoundReply := "Order not found"

  const CompletedNote := "Payment completed via BarterPay callback."
  const FailedNote := "Payment failed via BarterPay callback."

  /** The only status value that completes a payment; compared exactly. */
  const SuccessStatus := "success"

  /** The statuses the order lookup is restricted to. */
  const Eligible: set<Status> := {OnHold, Pending, Failed, Processing}

  /** The three fields the handler reads from `data`. */
  datatype Notification = Notification(externalTransactionId: string, transactionIndex: string, transactionStatus: string)

  /** `isset($data[$key]) ? sanitize_text_field($data[$key]) : ''`. */
  function TextField(data: Json, key: string, sanitize: Json -> string): (r: string)
    ensures Field(data, key).None? ==> r == ""
    ensures Field(data, key).Some? ==> r == sanitize(Field(data, key).value)
  {
    match Field(data, key)
    case None => ""
    case Some(v) => sanitize(v)
  }

  /** Reading the decoded body (None when it is not JSON). A body is refused
      exactly when it has no non-null `data` entry: the separate falsiness
      test never refuses anything more. */
  function ParseCallback(body: Option<Json>, sanitize: Json -> string): (r: Option<Notification>)
    ensures r.None? <==> body.None? || Field(body.value, "data").None?
    ensures r.Some? ==>
      var data := body.value.fields["data"];
      r.value.externalTransactionId == TextField(data, "ExternalTransactionId", sanitize) &&
      r.value.transactionIndex == TextField(data, "TransactionIndex", sanitize) &&
      r.value.transactionStatus == TextField(data, "TransactionStatus", sanitize)
  {
    if body.None? then None
    else if !Truthy(body.value) || Field(body.value, "data").None? then None
    else
      var data := Field(body.value, "data").value;
      Some(Notification(TextField(data, "ExternalTransactionId", sanitize),
                        TextField(data, "TransactionIndex", sanitize),
                        TextField(data, "TransactionStatus", sanitize)))
  }

  /** What the handler does to the matched order: payment_complete() and one
      note for the exact status "success"; for any other status, including
      "", "SUCCESS" or unknown values, the order is failed, with the failure
      note recorded when it was not failed already. */
  function Settle(o: Order, status: string, complete: Order -> Order): (r: Order)
    ensures status == SuccessStatus ==>
      r.status == complete(o).status && r.meta == complete(o).meta &&
      r.notes == complete(o).notes + [CompletedNote]
    ensures status != SuccessStatus ==>
      r.status == Failed && r.meta == o.meta && r.total == o.total
    ensures status != SuccessStatus && o.status != Failed ==> r.notes == o.notes + [FailedNote]
    ensures status != SuccessStatus && o.status == Failed ==> r.notes == o.notes
  {
    if status == SuccessStatus then AddNote(complete(o), CompletedNote)
    else SetStatus(o, Failed, FailedNote)
  }

  /** The platform calls that apply a status to the matched order. */
  function SettleEvents(id: OrderId, status: string): seq<Event> {
    if status == SuccessStatus then [PaymentCompleted(id), NoteAdded(id, CompletedNote)]
    else [StatusUpdated(id, Failed, FailedNote)]
  }

  /** barterpay_callback_handler. `isCallback` is whether the request carries
      the barterpay_callback query flag, `body` the decoded request body (None
      when it is not JSON), `sanitize` stands for sanitize_text_field. `reply`
      is what is echoed (None: not a callback request, nothing echoed);
      `matched` names the order that was changed, if any. */
  method HandleCallback(store: Store, isCallback: bool, body: Option<Json>, sanitize: Json -> string)
    returns (reply: Option<string>, ghost matched: Option<OrderId>)
    modifies store
    ensures store.orders.Keys == old(store.orders).Keys
    // not a callback request: nothing happens
    ensures !isCallback ==>
      reply.None? && matched.None? && store.orders == old(store.orders) && store.log == old(store.log)
    // a malformed body: refused before any lookup, nothing changed
    ensures isCallback && ParseCallback(body, sanitize).None? ==>
      reply == Some(InvalidData) && matched.None? &&
      store.orders == old(store.orders) && store.log == old(store.log)
    // a well-formed body: one lookup by TransactionIndex among the eligible
    // statuses (an empty index adds no value condition to the lookup)
    ensures isCallback && ParseCallback(body, sanitize).Some? ==>
      var n := ParseCallback(body, sanitize).value;
      (reply == Some(OkReply) || reply == Some(NotFoundReply)) &&
      |store.log| > |old(store.log)| &&
      store.log[|old(store.log)|] == Queried(TxnIndexKey, n.transactionIndex, Eligible)
    // no order found: nothing changed, and there was no candidate
    ensures reply == Some(NotFoundReply) ==>
      var n := ParseCallback(body, sanitize).value;
      isCallback && matched.None? && store.orders == old(store.orders) &&
      store.log == old(store.log) + [Queried(TxnIndexKey, n.transactionIndex, Eligible)] &&
      LookupCandidates(old(store.orders), TxnIndexKey, n.transactionIndex, Eligible) == {}
    // when there is a candidate, an order is always found
    ensures isCallback && ParseCallback(body, sanitize).Some? &&
            LookupCandidates(old(store.orders), TxnIndexKey, ParseCallback(body, sanitize).value.transactionIndex, Eligible) != {}
            ==> reply == Some(OkReply)
    // an order found: a candidate, and it alone is settled
    ensures reply == Some(OkReply) ==>
      var n := ParseCallback(body, sanitize).value;
      isCallback && matched.Some? && matched.value in old(store.orders) &&
      old(store.orders)[matched.value].status in Eligible &&
      matched.value in LookupCandidates(old(store.orders), TxnIndexKey, n.transactionIndex, Eligible) &&
      (n.transactionIndex != "" ==>
        matched.value in MatchingOrders(old(store.orders), TxnIndexKey, n.transactionIndex, Eligible)) &&
      store.orders == old(store.orders)[matched.value :=
        Settle(old(store.orders)[matched.value], n.transactionStatus, store.complete)] &&
      store.log == old(store.log) + [Queried(TxnIndexKey, n.transactionIndex, Eligible)] +
                   SettleEvents(matched.value, n.transactionStatus)
  {
    matched := None;
    if !isCallback {
      return None, matched;
    }
    var parsed := ParseCallback(body, sanitize);
    if parsed.None? {
      return Some(InvalidData), matched;
    }
    var n := parsed.value;
    var found := store.FindOrder(TxnIndexKey, n.transactionIndex, Eligible);
    if found.None? {
      return Some(NotFoundReply), matched;
    }
    var id := found.value;
    if n.transactionStatus == SuccessStatus {
      store.PaymentComplete(id);
      store.AddOrderNote(id, CompletedNote);
    } else {
      store.UpdateStatus(id, Failed, FailedNote);
    }
    matched := Some(id);
    reply := Some(OkReply);
  }

  // -----------------------------------------------------------------------
  // What a repeated callback does

  /** A failed order keeps its transaction index and "failed" is an eligible
      status, so failing a candidate leaves every lookup's candidates as they
      were: the same callback finds the same order again. */
  lemma FailureKeepsCandidates(orders: map<OrderId, Order>, id: OrderId, index: string,
                                status: string, complete: Order -> Order)
    requires id in LookupCandidates(orders, TxnIndexKey, index, Eligible)
    requires status != SuccessStatus
    ensures LookupCandidates(orders[id := Settle(orders[id], status, complete)], TxnIndexKey, index, Eligible) ==
            LookupCandidates(orders, TxnIndexKey, index, Eligible)
  {
  }

  /** If payment_complete leaves the order in an eligible status (such as
      processing) with its transaction index, a repeated success callback
      finds it again as well. */
  lemma CompletedOrderStillMatches(orders: map<OrderId, Order>, id: OrderId, index: string,
                                   complete: Order -> Order)
    requires id in MatchingOrders(orders, TxnIndexKey, index, Eligible)
    requires complete(orders[id]).status in Eligible
    requires TxnIndexKey in complete(orders[id]).meta
    requires complete(orders[id]).meta[TxnIndexKey] == orders[id].meta[TxnIndexKey]
    ensures id in MatchingOrders(orders[id := Settle(orders[id], SuccessStatus, complete)], TxnIndexKey, index, Eligible)
  {
  }

  /** Settling an order as failed a second time leaves it as the first time
      did: update_status('failed', ...) on a failed order records nothing. */
  lemma RepeatedFailureLeavesOrder(o: Order, status: string, complete: Order -> Order)
    requires status != SuccessStatus
    ensures Settle(Settle(o, status, complete), status, complete) == Settle(o, status, complete)
    ensures Settle(Settle(o, status, complete), status, complete).status == Failed
  {
  }

  /** No deduplication: the same failing notification delivered twice, for an
      order that alone is a candidate for its transaction index, finds that
      order both times and both times calls update_status('failed', ...); the
      order ends failed, exactly as after the first delivery. */
  method RepeatedFailingCallback(store: Store, body: Option<Json>, sanitize: Json -> string, ghost id: OrderId)
    returns (first: Option<string>, second: Option<string>)
    requires ParseCallback(body, sanitize).Some?
    requires ParseCallback(body, sanitize).value.transactionStatus != SuccessStatus
    requires LookupCandidates(store.orders, TxnIndexKey, ParseCallback(body, sanitize).value.transactionIndex, Eligible) == {id}
    modifies store
    ensures first == Some(OkReply) && second == Some(OkReply)
    ensures store.orders == old(store.orders)[id := SetStatus(old(store.orders)[id], Failed, FailedNote)]
    ensures store.orders[id].status == Failed
    ensures var q := Queried(TxnIndexKey, ParseCallback(body, sanitize).value.transactionIndex, Eligible);
      store.log == old(store.log) + [q, StatusUpdated(id, Failed, FailedNote), q, StatusUpdated(id, Failed, FailedNote)]
  {
    var n := ParseCallback(body, sanitize).value;
    ghost var before := store.orders;
    ghost var m1, m2;
    first, m1 := HandleCallback(store, true, body, sanitize);
    FailureKeepsCandidates(before, id, n.transactionIndex, n.transactionStatus, store.complete);
    ghost var middle := store.orders;
    second, m2 := HandleCallback(store, true, body, sanitize);
    RepeatedFailureLeavesOrder(before[id], n.transactionStatus, store.complete);
  }

  /** No deduplication: when payment_complete keeps an order's notes, settling
      twice with "success" records the completion note twice. */
  lemma RepeatedSuccessIsReapplied(o: Order, complete: Order -> Order)
    requires forall p: Order :: complete(p).notes == p.notes
    ensures Settle(Settle(o, SuccessStatus, complete), SuccessStatus, complete).notes ==
      o.notes + [CompletedNote, CompletedNote]
  {
  }

  // -----------------------------------------------------------------------
  // Reading the body

  const ExternalIdKey := "ExternalTransactionId"
  const IndexKey := "TransactionIndex"
  const StatusKey := "TransactionStatus"

  /** The body the provider sends, with string fields. */
  function CallbackBody(externalId: string, index: string, status: string): Json {
    JObject(map["data" := JObject(map[ExternalIdKey := JString(externalId),
                                      IndexKey := JString(index),
                                      StatusKey := JString(status)])])
  }

  /** Reading a provider body gives back its three fields, each passed through
      sanitize_text_field. */
  lemma CallbackBodyRoundTrip(externalId: string, index: string, status: string,
                                                 sanitize: Json -> string)
    ensures ParseCallback(Some(CallbackBody(externalId, index, status)), sanitize) ==
      Some(Notification(sanitize(JString(externalId)), sanitize(JString(index)), sanitize(JString(status))))
  {
  }

  /** A `data` entry that is set but holds none of the three fields (false,
      a number, a list, an unrelated object) is accepted with every field
      empty; a missing or null `data` entry is refused. */
  lemma MissingFieldsReadAsEmpty(top: map<string, Json>, data: Json, sanitize: Json -> string)
    requires data != JNull
    requires data.JObject? ==>
      ExternalIdKey !in data.fields && IndexKey !in data.fields && StatusKey !in data.fields
    ensures ParseCallback(Some(JObject(top["data" := data])), sanitize) == Some(Notification("", "", ""))
    ensures ParseCallback(Some(JObject(top["data" := JNull])), sanitize).None?
    ensures ParseCallback(Some(JObject(top - {"data"})), sanitize).None?
  {
  }

  /** ExternalTransactionId is read but steers nothing: two bodies that differ
      only in it give the same TransactionIndex and TransactionStatus, the only
      fields the handler's lookup and settlement use. */
  lemma ExternalIdDoesNotSteer(top: map<string, Json>, data: map<string, Json>,
                                                  first: Json, second: Json, sanitize: Json -> string)
    ensures var n1 := ParseCallback(Some(JObject(top["data" := JObject(data[ExternalIdKey := first])])), sanitize);
            var n2 := ParseCallback(Some(JObject(top["data" := JObject(data[ExternalIdKey := second])])), sanitize);
            n1.Some? && n2.Some? &&
            n1.value.transactionIndex == n2.value.transactionIndex &&
            n1.value.transactionStatus == n2.value.transactionStatus
  {
  }

  /** A notification without a TransactionIndex reads as the empty index, and
      every eligible order that carries a transaction index, whatever its
      value, is then a candidate of the lookup: such a notification can settle
      an order it does not name. */
  lemma UnindexedCallbackReachesAnyOrder(orders: map<OrderId, Order>, id: OrderId, status: Json,
                                         sanitize: Json -> string)
    requires id in orders && orders[id].status in Eligible && TxnIndexKey in orders[id].meta
    ensures var n := ParseCallback(Some(JObject(map["data" := JObject(map[StatusKey := status])])), sanitize);
      n.Some? && n.value.transactionIndex == "" &&
      id in LookupCandidates(orders, TxnIndexKey, n.value.transactionIndex, Eligible) &&
      (orders[id].meta[TxnIndexKey] != "" ==> id !in MatchingOrders(orders, TxnIndexKey, n.value.transactionIndex, Eligible))
  {
  }
}
