/**
 * The BarterPay gateway class (WC_Gateway_BarterPay): its settings, the
 * deposit request it builds, and process_payment, which records a fresh
 * transaction id on the order, posts the deposit request and, on a reply with
 * a redirect URL, puts the order on hold and sends the buyer to that URL.
 */
module Gateway {
  import opened PhpJson
  import opened Platform

  /** The option values the gateway reads at construction. */
  datatype Settings = Settings(
    apiKey: string,
    currency: string,
    sandbox: string,
    enableForMethods: seq<string>,
    enableForVirtual: bool)

  const GatewayClass := "WC_Gateway_BarterPay"

  const TestEndpoint := "https://test-api.getbarterpay.com/api/pay/m-api/add-in-deposit-queue"
  const ProductionEndpoint := "https://api.getbarterpay.com/api/pay/m-api/add-in-deposit-queue"
  const RequestTimeout := 45

  const ConnectErrorNotice := "Payment error: Unable to connect to BarterPay."
  const InvalidResponseNotice := "Payment error: Invalid response from BarterPay."
  const AwaitingNote := "Awaiting BarterPay payment confirmation."

  /** add_barterpay_gateway: the gateway's class is appended to the list
      WooCommerce passes in. */
  function AddGateway(gateways: seq<string>): (r: seq<string>)
    ensures |r| == |gateways| + 1
    ensures r[..|gateways|] == gateways
    ensures r[|gateways|] == GatewayClass
    ensures GatewayClass in r
  {
    gateways + [GatewayClass]
  }

  /** The deposit endpoint: the test API exactly when the sandbox option is
      the string "yes". */
  function Endpoint(s: Settings): (url: string)
    ensures url == TestEndpoint <==> s.sandbox == "yes"
    ensures url == ProductionEndpoint <==> s.sandbox != "yes"
  {
    if s.sandbox == "yes" then TestEndpoint else ProductionEndpoint
  }

  /** The deposit request for a transaction id and an order total. */
  function DepositRequest(s: Settings, txnId: string, total: string): (req: Request)
    ensures req.endpoint == Endpoint(s) && req.timeout == RequestTimeout
    ensures req.payload.transactionId == txnId
    ensures req.payload.currency == s.currency && req.payload.amount == total
    ensures Header("X-SAO-Token", s.apiKey) in req.headers
    ensures Header("Content-Type", "application/json") in req.headers
  {
    Request(Endpoint(s), Payload(txnId, s.currency, total), RequestTimeout,
            [Header("Content-Type", "application/json"), Header("X-SAO-Token", s.apiKey)])
  }

  /** What wp_remote_post gives back: a transport error, or a body that
      json_decode turned into a value (None when it is not JSON). */
  datatype HttpReply = TransportError | Body(decoded: Option<Json>)

  datatype ReplyOutcome =
    | ConnectFailed
    | InvalidResponse
    | Accepted(redirect: Json, transactionIndex: Option<Json>)

  /** How process_payment reads the provider's reply: accepted exactly when the
      decoded body has a set, non-empty redirectUrl. */
  function ReadReply(reply: HttpReply): (r: ReplyOutcome)
    ensures r.ConnectFailed? <==> reply.TransportError?
    ensures r.Accepted? <==>
      reply.Body? && reply.decoded.Some? &&
      Field(reply.decoded.value, "redirectUrl").Some? &&
      !Empty(Field(reply.decoded.value, "redirectUrl").value)
    ensures r.Accepted? ==>
      r.redirect == reply.decoded.value.fields["redirectUrl"] && Truthy(r.redirect) &&
      r.transactionIndex == Field(reply.decoded.value, "transactionIndex")
  {
    match reply
    case TransportError => ConnectFailed
    case Body(decoded) =>
      if decoded.None? then InvalidResponse
      else
        var url := Field(decoded.value, "redirectUrl");
        if url.Some? && !Empty(url.value)
        then Accepted(url.value, Field(decoded.value, "transactionIndex"))
        else InvalidResponse
  }

  /** The array process_payment returns on success. */
  datatype PaymentResult = PaymentResult(result: string, redirect: Json)

  /** True when the log holds a write of `txnId` under the transaction-id key
      of order `id` before a deposit request carrying that same id. */
  ghost predicate IdWrittenBeforeSend(log: seq<Event>, id: OrderId, txnId: string) {
    exists i, j :: 0 <= i < j < |log| &&
      log[i] == MetaUpdated(id, TxnIdKey, txnId) &&
      log[j].Posted? && log[j].request.payload.transactionId == txnId
  }

  /** The order after a reply with a redirect: the transaction index stored if
      the reply has one, then the order put on hold; the awaiting note is
      recorded only when the order was not on hold already. */
  function AcceptedOrder(o: Order, index: Option<Json>, sanitize: Json -> string): (r: Order)
    ensures r.status == OnHold && r.total == o.total
    ensures o.status != OnHold ==> r.notes == o.notes + [AwaitingNote]
    ensures o.status == OnHold ==> r.notes == o.notes
    ensures index.Some? ==> r.meta == o.meta[TxnIndexKey := sanitize(index.value)]
    ensures index.None? ==> r.meta == o.meta
  {
    var indexed := if index.Some? then SetMeta(o, TxnIndexKey, sanitize(index.value)) else o;
    SetStatus(indexed, OnHold, AwaitingNote)
  }

  /** process_payment. `txnId` is the fresh id uniqid('txn_', true) would
      produce, `reply` is what the outbound POST returns and `sanitize` stands
      for sanitize_text_field. */
  method ProcessPayment(s: Settings, store: Store, orderId: OrderId, txnId: string,
                        reply: HttpReply, sanitize: Json -> string)
    returns (result: Option<PaymentResult>)
    requires orderId in store.orders
    modifies store
    ensures orderId in store.orders && store.orders.Keys == old(store.orders).Keys
    // the id is stored, then sent, whatever the reply
    ensures TxnIdKey in store.orders[orderId].meta && store.orders[orderId].meta[TxnIdKey] == txnId
    ensures IdWrittenBeforeSend(store.log, orderId, txnId)
    ensures |store.log| >= |old(store.log)| + 2 && store.log[..|old(store.log)| + 2] ==
      old(store.log) + [MetaUpdated(orderId, TxnIdKey, txnId),
                        Posted(DepositRequest(s, txnId, old(store.orders[orderId]).total))]
    // the outcome
    ensures result.Some? <==> ReadReply(reply).Accepted?
    ensures result.Some? ==> result.value == PaymentResult("success", ReadReply(reply).redirect)
    // whole new state, per outcome
    ensures var o := old(store.orders[orderId]);
            var sent := old(store.log) + [MetaUpdated(orderId, TxnIdKey, txnId),
                                           Posted(DepositRequest(s, txnId, o.total))];
            match ReadReply(reply)
            case ConnectFailed =>
              store.orders == old(store.orders)[orderId := SetMeta(o, TxnIdKey, txnId)] &&
              store.log == sent + [NoticeAdded(ConnectErrorNotice, "error")]
            case InvalidResponse =>
              store.orders == old(store.orders)[orderId := SetMeta(o, TxnIdKey, txnId)] &&
              store.log == sent + [NoticeAdded(InvalidResponseNotice, "error")]
            case Accepted(_, index) =>
              store.orders == old(store.orders)[orderId :=
                AcceptedOrder(SetMeta(o, TxnIdKey, txnId), index, sanitize)] &&
              store.log == sent +
                (if index.Some? then [MetaUpdated(orderId, TxnIndexKey, sanitize(index.value))] else []) +
                [StatusUpdated(orderId, OnHold, AwaitingNote)]
    // on failure the status and the stored transaction index are untouched
    ensures result.None? ==>
      store.orders[orderId].status == old(store.orders[orderId]).status &&
      (TxnIndexKey in store.orders[orderId].meta <==> TxnIndexKey in old(store.orders[orderId]).meta) &&
      (TxnIndexKey in old(store.orders[orderId]).meta ==>
        store.orders[orderId].meta[TxnIndexKey] == old(store.orders[orderId]).meta[TxnIndexKey])
  {
    var total := store.orders[orderId].total;
    store.UpdateMeta(orderId, TxnIdKey, txnId);
    var request := DepositRequest(s, txnId, total);
    store.Post(request);
    ghost var sent := store.log;
    assert sent[|sent| - 2] == MetaUpdated(orderId, TxnIdKey, txnId);
    assert sent[|sent| - 1] == Posted(request);

    if reply.TransportError? {
      store.AddNotice(ConnectErrorNotice, "error");
      assert store.log[..|sent|] == sent;
      return None;
    }

    var url := if reply.decoded.Some? then Field(reply.decoded.value, "redirectUrl") else None;
    if url.Some? && !Empty(url.value) {
      var index := Field(reply.decoded.value, "transactionIndex");
      if index.Some? {
        store.UpdateMeta(orderId, TxnIndexKey, sanitize(index.value));
      }
      store.UpdateStatus(orderId, OnHold, AwaitingNote);
      assert store.log[..|sent|] == sent;
      result := Some(PaymentResult("success", url.value));
    } else {
      store.AddNotice(InvalidResponseNotice, "error");
      assert store.log[..|sent|] == sent;
      result := None;
    }
  }
}
