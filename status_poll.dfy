/**
 * barterpay_check_status_callback: the AJAX endpoint the thank-you page polls.
 * It only reads the order store and answers "paid" or "pending".
 */
module StatusPoll {
  import opened PhpJson
  import opened Platform
  import opened Callback

  const NoOrderIdMessage := "No order id provided"
  const InvalidOrderIdMessage := "Invalid order id"

  /** wp_send_json_error / wp_send_json_success; both end the request. */
  datatype PollAnswer = JsonError(message: string) | JsonSuccess(status: string)

  /** The poll. `postedOrderId` is absint($_POST['order_id']), None when the
      field is missing; `isPaid` stands for WC_Order::is_paid(). */
  function CheckStatus(orders: map<OrderId, Order>, isPaid: Order -> bool, postedOrderId: Option<nat>): (r: PollAnswer)
    ensures postedOrderId.None? ==> r == JsonError(NoOrderIdMessage)
    ensures postedOrderId.Some? && postedOrderId.value !in orders ==> r == JsonError(InvalidOrderIdMessage)
    ensures r.JsonSuccess? <==> postedOrderId.Some? && postedOrderId.value in orders
    ensures r.JsonSuccess? ==> (r.status == "paid" <==> isPaid(orders[postedOrderId.value]))
    ensures r.JsonSuccess? ==> r.status == "paid" || r.status == "pending"
    ensures r != JsonSuccess("failed")
  {
    if postedOrderId.None? then JsonError(NoOrderIdMessage)
    else if postedOrderId.value !in orders then JsonError(InvalidOrderIdMessage)
    else if isPaid(orders[postedOrderId.value]) then JsonSuccess("paid")
    else JsonSuccess("pending")
  }

  /** Whatever status a callback carries, the poll for the settled order
      afterwards answers successfully and never with "failed": a failed
      payment reads as "pending" unless is_paid counts the failed order as
      paid. */
  lemma SettledOrderNeverPollsFailed(orders: map<OrderId, Order>, id: OrderId, status: string,
                                     complete: Order -> Order, isPaid: Order -> bool)
    requires id in orders
    ensures var settled := orders[id := Settle(orders[id], status, complete)];
      var answer := CheckStatus(settled, isPaid, Some(id));
      answer.JsonSuccess? && answer.status != "failed" &&
      (status != SuccessStatus && !isPaid(settled[id]) ==> answer.status == "pending")
  {
  }
}
