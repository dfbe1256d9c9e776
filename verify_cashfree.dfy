/** GET /api/verify-payment-cashfree: the pull adapter. The client comes back from
    Cashfree with `order_id` and/or `payment_id`; the payment is recorded once under
    its canonical key. The amount is an input (the query parameter or the order
    fetched from Cashfree, neither part of this model); 0 means it could not be
    determined. */
module VerifyCashfree {
  import opened Db

  datatype Response =
    | MissingIdentifier
    | AmountUndetermined
    | Payment(record: PaymentRecord)
  {
    function Status(): int {
      if Payment? then 200 else 400
    }
  }

  /** `amountType` as this route records it (the webhook says `createStory` for 2). */
  function AmountType(amount: int): (t: string)
    ensures t == "addSentence" <==> amount == 1
    ensures t == "createGossip" <==> amount == 2
    ensures t == "unknown" <==> amount != 1 && amount != 2
  {
    if amount == 1 then "addSentence" else if amount == 2 then "createGossip" else "unknown"
  }

  /** `orderId || paymentId`. */
  function Identifier(orderId: string, paymentId: string): (id: string)
    ensures orderId != "" ==> id == orderId
    // without an order id, the payment id, present or not
    ensures orderId == "" ==> id == paymentId
  {
    if orderId != "" then orderId else paymentId
  }

  /** The key the payment is looked up and stored under: the `order:<identifier>`
      mapping when one is set, else `cashfree_<identifier>`. */
  function CanonicalKey(orders: map<string, string>, identifier: string): (key: string)
    ensures identifier in orders && orders[identifier] != "" ==> key == orders[identifier]
    ensures !(identifier in orders && orders[identifier] != "") ==> key == CashfreeKey(identifier)
  {
    if identifier in orders && orders[identifier] != "" then orders[identifier] else CashfreeKey(identifier)
  }

  /** The record stored for a first verification under `key`. */
  function NewRecord(s: Store, key: string, orderId: string, amount: int): (rec: PaymentRecord)
    // ranked at the counter after this payment, with the running total after it
    ensures rec.rank == rec.totalPayments == s.totalPayments + 1
    ensures rec.totalAmount == s.totalAmount + amount
    // the amount and the pull route's label for it
    ensures rec.amount == amount && rec.amountType == AmountType(amount)
    // it names its key, and its order only when the request gave one
    ensures rec.paymentId == key
    ensures orderId != "" ==> rec.orderId == Some(orderId)
    ensures orderId == "" ==> rec.orderId.None?
    // not confirmed by the gateway
    ensures rec.success && !rec.verified && rec.provider == "cashfree"
    ensures rec.maxSentences.None? && rec.maxStories.None?
  {
    PaymentRecord(
      success := true,
      rank := s.totalPayments + 1,
      totalPayments := s.totalPayments + 1,
      totalAmount := s.totalAmount + amount,
      amount := amount,
      amountType := AmountType(amount),
      paymentId := key,
      orderId := if orderId != "" then Some(orderId) else None,
      provider := "cashfree",
      verified := false,
      maxSentences := None,
      maxStories := None)
  }

  /** Count the payment, rank it and store it with its used flag. */
  function RecordNew(s: Store, key: string, orderId: string, amount: int): (r: Step<Response>)
    // the answer is the record just stored
    ensures key in r.store.payments && r.response == Payment(r.store.payments[key])
    ensures key !in s.payments ==> FirstRecording(s, r.store, key, amount)
  {
    var rec := NewRecord(s, key, orderId, amount);
    Step(Payment(rec), s.(totalPayments := rec.rank,
                          totalAmount := rec.totalAmount,
                          payments := s.payments[key := rec],
                          used := s.used[key := "false"]))
  }

  /** What a first verification under `key` does to the store: one more payment,
      counted once, rank equal to the new counter, used flag "false"; no order
      mapping and no content key is written. */
  predicate FirstRecording(s: Store, t: Store, key: string, amount: int) {
    && key !in s.payments
    && t.totalPayments == s.totalPayments + 1
    && t.totalAmount == s.totalAmount + amount
    && t.payments.Keys == s.payments.Keys + {key}
    && (forall k :: k in s.payments ==> t.payments[k] == s.payments[k])
    && t.payments[key].rank == t.totalPayments
    && t.payments[key].amount == amount
    && t.payments[key].amountType == AmountType(amount)
    && !t.payments[key].verified
    && t.used == s.used[key := "false"]
    && t.orders == s.orders
    && ContentAndUsageUnchanged(s, t)
  }

  /** The effect of one verification request on the store. */
  function Verify(s: Store, orderId: string, paymentId: string, amount: int): (r: Step<Response>)
    ensures Identifier(orderId, paymentId) == "" ==> r == Step(MissingIdentifier, s)
    ensures Identifier(orderId, paymentId) != "" && amount == 0 ==> r == Step(AmountUndetermined, s)
    ensures r.response.Status() != 200 ==> r.store == s
    // an existing record under the canonical key is returned as stored, nothing counted
    ensures var key := CanonicalKey(s.orders, Identifier(orderId, paymentId));
            Identifier(orderId, paymentId) != "" && amount != 0 && key in s.payments ==>
              r == Step(Payment(s.payments[key]), s)
    // otherwise the payment is recorded for the first time and the new record returned
    ensures var key := CanonicalKey(s.orders, Identifier(orderId, paymentId));
            Identifier(orderId, paymentId) != "" && amount != 0 && key !in s.payments ==>
              && FirstRecording(s, r.store, key, amount)
              && r.response == Payment(r.store.payments[key])
  {
    var identifier := Identifier(orderId, paymentId);
    if identifier == "" then Step(MissingIdentifier, s)
    else if amount == 0 then Step(AmountUndetermined, s)
    else
      var key := CanonicalKey(s.orders, identifier);
      // the handler's second lookup, of the webhook's record, reads this same key again and is
      // left out here; the handler below proves that it can never answer
      if key in s.payments then Step(Payment(s.payments[key]), s)
      else RecordNew(s, key, orderId, amount)
  }

  /** Verifying twice is verifying once: the second request returns the record the
      first one stored and changes nothing. */
  lemma VerifyTwiceIsOnce(s: Store, orderId: string, paymentId: string, amount: int)
    ensures var first := Verify(s, orderId, paymentId, amount);
            var second := Verify(first.store, orderId, paymentId, amount);
            && second.store == first.store
            && (first.response.Payment? ==> second.response == first.response)
  {
  }

  /** The handler, one store command at a time. */
  method Get(db: Redis, orderId: string, paymentId: string, amount: int) returns (r: Response)
    modifies db
    ensures r == Verify(old(db.Snapshot()), orderId, paymentId, amount).response
    ensures db.Snapshot() == Verify(old(db.Snapshot()), orderId, paymentId, amount).store
  {
    var identifier := if orderId != "" then orderId else paymentId;
    if identifier == "" {
      return MissingIdentifier;
    }
    if amount == 0 {
      return AmountUndetermined;
    }
    var paymentIdentifier := CashfreeKey(identifier);
    var orderMapping := Lookup(db.orders, identifier);
    if orderMapping.Some? && orderMapping.value != "" {
      paymentIdentifier := orderMapping.value;
    }
    var alreadyCounted := Lookup(db.payments, paymentIdentifier);
    if alreadyCounted.Some? {
      return Payment(alreadyCounted.value);
    }
    if orderMapping.Some? && orderMapping.value != "" {
      var webhookPayment := Lookup(db.payments, orderMapping.value);
      if webhookPayment.Some? {
        // dead: with a mapping, `payment:<orderMapping>` is the key just found absent
        assert false;
      }
    }
    r := RecordPulled(db, paymentIdentifier, orderId, amount);
  }

  /** The first-recording step of the handler: two increments, then the record and its
      used flag. */
  method RecordPulled(db: Redis, paymentIdentifier: string, orderId: string, amount: int) returns (r: Response)
    modifies db
    ensures Step(r, db.Snapshot()) == RecordNew(old(db.Snapshot()), paymentIdentifier, orderId, amount)
  {
    var rank := db.IncrTotalPayments();
    var totalAmount := db.IncrByTotalAmount(amount);
    var response := PaymentRecord(
      success := true, rank := rank, totalPayments := rank, totalAmount := totalAmount,
      amount := amount, amountType := AmountType(amount), paymentId := paymentIdentifier,
      orderId := if orderId != "" then Some(orderId) else None, provider := "cashfree",
      verified := false, maxSentences := None, maxStories := None);
    db.SetPayment(paymentIdentifier, response);
    db.SetUsed(paymentIdentifier, "false");
    return Payment(response);
  }
}
