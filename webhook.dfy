/** POST /api/webhooks/cashfree: the push adapter. Cashfree delivers a signed
    payment-form event; a PAID order is recorded once under `cashfree_<orderId>`. */
module Webhook {
  import opened Db

  /** The order object of the payload (`body.data.order`). */
  datatype OrderData = OrderData(orderId: string, orderStatus: string, orderAmount: int)

  /** The parsed JSON payload: `body.type` and `body.data?.order`. */
  datatype Body = Body(eventType: string, order: Option<OrderData>)

  /** Headers, raw body and its parse (None: `JSON.parse` throws). Absent headers are "". */
  datatype Request = Request(signature: string, timestamp: string, rawBody: string, body: Option<Body>)

  /** `CASHFREE_KEY_SECRET` and `CASHFREE_SECRET_KEY`; "" when unset. */
  datatype Env = Env(keySecret: string, secretKey: string)

  datatype Response =
    | MissingHeaders
    | ProcessingFailed
    | SecretNotConfigured
    | InvalidSignature
    | NotPaymentFormEvent(eventType: string)
    | MissingOrderData
    | NotPaid(orderStatus: string)
    | AlreadyProcessed
    | Processed
  {
    function Status(): int {
      match this
      case MissingHeaders => 400
      case ProcessingFailed => 500
      case SecretNotConfigured => 500
      case InvalidSignature => 401
      case _ => 200
    }
  }

  const PaymentFormEvent := "PAYMENT_FORM_ORDER_WEBHOOK"

  /** `amountType` as the webhook records it. */
  function AmountType(amount: int): (t: string)
    ensures t == "addSentence" <==> amount == 1
    ensures t == "createStory" <==> amount == 2
    ensures t == "unknown" <==> amount != 1 && amount != 2
  {
    if amount == 1 then "addSentence" else if amount == 2 then "createStory" else "unknown"
  }

  /** `CASHFREE_KEY_SECRET || CASHFREE_SECRET_KEY`. */
  function Secret(env: Env): (secret: string)
    ensures env.keySecret != "" ==> secret == env.keySecret
    // an unset first variable falls back to the second, set or not
    ensures env.keySecret == "" ==> secret == env.secretKey
  {
    if env.keySecret != "" then env.keySecret else env.secretKey
  }

  /** The request passes every gate before the event filter: headers present, body
      parsed, secret configured and `sign(secret, timestamp + rawBody)` equal to the
      received signature (`sign` stands for HMAC-SHA256 followed by base64). */
  predicate Authentic(req: Request, env: Env, sign: (string, string) -> string) {
    && req.signature != "" && req.timestamp != ""
    && req.body.Some?
    && Secret(env) != ""
    && sign(Secret(env), req.timestamp + req.rawBody) == req.signature
  }

  /** The authenticated payload is a payment-form event for a PAID order. */
  predicate PaidOrder(req: Request) {
    && req.body.Some?
    && req.body.value.eventType == PaymentFormEvent
    && req.body.value.order.Some?
    && req.body.value.order.value.orderStatus == "PAID"
  }

  /** The record the webhook stores for a first delivery of `order`. */
  function NewRecord(s: Store, order: OrderData): (rec: PaymentRecord)
    // ranked at the counter after this payment, with the running total after it
    ensures rec.rank == rec.totalPayments == s.totalPayments + 1
    ensures rec.totalAmount == s.totalAmount + order.orderAmount
    // the order's amount and the webhook's label for it
    ensures rec.amount == order.orderAmount && rec.amountType == AmountType(order.orderAmount)
    // it names its own key and its order, and is marked verified by the gateway
    ensures rec.paymentId == CashfreeKey(order.orderId) && rec.orderId == Some(order.orderId)
    ensures rec.success && rec.verified && rec.provider == "cashfree"
    // no stored quota: the routes' fallbacks apply
    ensures rec.maxSentences.None? && rec.maxStories.None?
  {
    PaymentRecord(
      success := true,
      rank := s.totalPayments + 1,
      totalPayments := s.totalPayments + 1,
      totalAmount := s.totalAmount + order.orderAmount,
      amount := order.orderAmount,
      amountType := AmountType(order.orderAmount),
      paymentId := CashfreeKey(order.orderId),
      orderId := Some(order.orderId),
      provider := "cashfree",
      verified := true,
      maxSentences := None,
      maxStories := None)
  }

  /** The idempotent recording step for a PAID order: an existing record is left
      alone, otherwise the payment is counted and recorded for the first time. */
  function Record(s: Store, order: OrderData): (r: Step<Response>)
    ensures CashfreeKey(order.orderId) in s.payments ==> r == Step(AlreadyProcessed, s)
    ensures CashfreeKey(order.orderId) !in s.payments ==>
              r.response == Processed && FirstRecording(s, r.store, order)
  {
    var key := CashfreeKey(order.orderId);
    if key in s.payments then Step(AlreadyProcessed, s)
    else
      var rec := NewRecord(s, order);
      Step(Processed, s.(totalPayments := rec.rank,
                         totalAmount := rec.totalAmount,
                         payments := s.payments[key := rec],
                         used := s.used[key := "false"],
                         orders := s.orders[order.orderId := key]))
  }

  /** What a first delivery of `order` does to the store: one more payment, counted
      once, recorded under `cashfree_<orderId>` with rank equal to the new counter,
      its used flag "false" and its order mapping; nothing else changes. */
  predicate FirstRecording(s: Store, t: Store, order: OrderData) {
    var key := CashfreeKey(order.orderId);
    && key !in s.payments
    && t.totalPayments == s.totalPayments + 1
    && t.totalAmount == s.totalAmount + order.orderAmount
    && t.payments.Keys == s.payments.Keys + {key}
    && (forall k :: k in s.payments ==> t.payments[k] == s.payments[k])
    && t.payments[key].rank == t.totalPayments
    && t.payments[key].amount == order.orderAmount
    && t.payments[key].amountType == AmountType(order.orderAmount)
    && t.payments[key].verified
    && t.used == s.used[key := "false"]
    && t.orders == s.orders[order.orderId := key]
    && ContentAndUsageUnchanged(s, t)
  }

  /** The effect of one delivery on the store. */
  function Deliver(s: Store, req: Request, env: Env, sign: (string, string) -> string): (r: Step<Response>)
    // the gates, in order; each rejection leaves the store as it was
    ensures (req.signature == "" || req.timestamp == "") ==> r == Step(MissingHeaders, s)
    // an unparsable body and an unset secret are server errors, so the gateway retries
    ensures req.signature != "" && req.timestamp != "" && req.body.None? ==> r == Step(ProcessingFailed, s)
    ensures req.signature != "" && req.timestamp != "" && req.body.Some? && Secret(env) == "" ==>
              r == Step(SecretNotConfigured, s)
    ensures r.response == InvalidSignature <==>
              (&& req.signature != "" && req.timestamp != "" && req.body.Some? && Secret(env) != ""
               && sign(Secret(env), req.timestamp + req.rawBody) != req.signature)
    ensures r.response.Status() != 200 ==> r.store == s
    // only an authentic paid-order event can reach the ledger
    ensures r.response == Processed || r.response == AlreadyProcessed <==> Authentic(req, env, sign) && PaidOrder(req)
    ensures Authentic(req, env, sign) && !PaidOrder(req) ==> r.response.Status() == 200 && r.store == s
    ensures r.response != Processed ==> r.store == s
    ensures r.response == AlreadyProcessed ==> CashfreeKey(req.body.value.order.value.orderId) in s.payments
    // first processing
    ensures r.response == Processed ==> FirstRecording(s, r.store, req.body.value.order.value)
  {
    if req.signature == "" || req.timestamp == "" then Step(MissingHeaders, s)
    else match req.body
      case None => Step(ProcessingFailed, s)
      case Some(body) =>
        var secret := Secret(env);
        if secret == "" then Step(SecretNotConfigured, s)
        else if sign(secret, req.timestamp + req.rawBody) != req.signature then Step(InvalidSignature, s)
        else if body.eventType != PaymentFormEvent then Step(NotPaymentFormEvent(body.eventType), s)
        else match body.order
          case None => Step(MissingOrderData, s)
          case Some(order) =>
            if order.orderStatus != "PAID" then Step(NotPaid(order.orderStatus), s)
            else Record(s, order)
  }

  /** Delivering the same event a second time changes nothing and is answered
      `already_processed` whenever the first delivery reached the ledger. */
  lemma DeliverTwiceIsOnce(s: Store, req: Request, env: Env, sign: (string, string) -> string)
    ensures var first := Deliver(s, req, env, sign);
            var second := Deliver(first.store, req, env, sign);
            && second.store == first.store
            && (first.response == Processed || first.response == AlreadyProcessed ==> second.response == AlreadyProcessed)
  {
  }

  /** The handler: the same gates and writes, one store command at a time. */
  method Post(db: Redis, req: Request, env: Env, sign: (string, string) -> string) returns (r: Response)
    modifies db
    ensures r == Deliver(old(db.Snapshot()), req, env, sign).response
    ensures db.Snapshot() == Deliver(old(db.Snapshot()), req, env, sign).store
  {
    if req.signature == "" || req.timestamp == "" {
      return MissingHeaders;
    }
    if req.body.None? {
      return ProcessingFailed;
    }
    var body := req.body.value;
    var secret := if env.keySecret != "" then env.keySecret else env.secretKey;
    if secret == "" {
      return SecretNotConfigured;
    }
    var computed := sign(secret, req.timestamp + req.rawBody);
    if computed != req.signature {
      return InvalidSignature;
    }
    if body.eventType != PaymentFormEvent {
      return NotPaymentFormEvent(body.eventType);
    }
    if body.order.None? {
      return MissingOrderData;
    }
    var order := body.order.value;
    if order.orderStatus != "PAID" {
      return NotPaid(order.orderStatus);
    }
    r := RecordPaid(db, order);
  }

  /** The recording step of the handler: look the payment up and, only if it is absent,
      count it, rank it and store it with its used flag and order mapping. */
  method RecordPaid(db: Redis, order: OrderData) returns (r: Response)
    modifies db
    ensures Step(r, db.Snapshot()) == Record(old(db.Snapshot()), order)
  {
    var orderId, amount := order.orderId, order.orderAmount;
    var paymentIdentifier := CashfreeKey(orderId);
    if paymentIdentifier in db.payments {
      return AlreadyProcessed;
    }
    var rank := db.IncrTotalPayments();
    var totalAmount := db.IncrByTotalAmount(amount);
    var amountType := AmountType(amount);
    var paymentData := PaymentRecord(
      success := true, rank := rank, totalPayments := rank, totalAmount := totalAmount,
      amount := amount, amountType := amountType, paymentId := paymentIdentifier,
      orderId := Some(orderId), provider := "cashfree", verified := true,
      maxSentences := None, maxStories := None);
    db.SetPayment(paymentIdentifier, paymentData);
    db.SetUsed(paymentIdentifier, "false");
    db.SetOrder(orderId, paymentIdentifier);
    return Processed;
  }
}
