/** GET /api/payment-status: the page returning from a payment form polls here with
    its `order_id` until the webhook has recorded the order. Read-only. */
module PaymentStatus {
  import opened Db

  datatype Response =
    | NoOrderId               // { success: false }
    | Pending                 // { success: false, pending: true }
    | RecordMissing           // { success: false }
    | Found(record: PaymentRecord)
  {
    /** The `pending` field. */
    predicate IsPending() {
      Pending?
    }
  }

  /** `redis.get("order:<orderId>")` is set (a non-empty payment key). */
  predicate Mapped(s: Store, orderId: string) {
    orderId in s.orders && s.orders[orderId] != ""
  }

  /** The answer for `order_id` (absent is ""). */
  function Get(s: Store, orderId: string): (r: Response)
    ensures orderId == "" ==> r == NoOrderId
    ensures r.IsPending() <==> orderId != "" && !Mapped(s, orderId)
    ensures r == RecordMissing <==> orderId != "" && Mapped(s, orderId) && s.orders[orderId] !in s.payments
    // the record is answered exactly as stored
    ensures r.Found? <==> orderId != "" && Mapped(s, orderId) && s.orders[orderId] in s.payments
    ensures r.Found? ==> r.record == s.payments[s.orders[orderId]]
  {
    if orderId == "" then NoOrderId
    else
      var paymentKey := Lookup(s.orders, orderId);
      if paymentKey.None? || paymentKey.value == "" then Pending
      else
        var data := Lookup(s.payments, paymentKey.value);
        if data.None? then RecordMissing else Found(data.value)
  }
}
