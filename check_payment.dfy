/** GET /api/check-payment: the entitlement view of one payment. Read-only. */
module CheckPayment {
  import opened Db

  /** The fields the route answers for an existing payment (`exists: true`). */
  datatype Entitlement = Entitlement(
    used: bool,
    amount: int,
    amountType: string,
    rank: int,
    maxSentences: int,
    maxStories: int,
    sentencesUsed: int,
    storiesUsed: int)

  datatype Response =
    | MissingPaymentId
    | NotFound
    | Found(view: Entitlement)
  {
    function Status(): int {
      if MissingPaymentId? then 400 else 200
    }
    /** The `exists` field. */
    predicate Exists() {
      Found?
    }
    /** The `used` field (`false` for an unknown payment). */
    predicate Used() {
      Found? && view.used
    }
  }

  /** The view of payment `paymentId` in store `s` (`payment_id` absent is ""). */
  function Get(s: Store, paymentId: string): (r: Response)
    ensures r == MissingPaymentId <==> paymentId == ""
    ensures r == NotFound <==> paymentId != "" && paymentId !in s.payments
    ensures r.Status() == 200 ==> (r.Exists() <==> paymentId in s.payments)
    ensures r.Found? ==>
              var p := s.payments[paymentId];
              var v := r.view;
              // counters read as 0 when their keys are absent
              && v.sentencesUsed == CountOr0(s.sentencesUsed, paymentId)
              && v.storiesUsed == CountOr0(s.storiesUsed, paymentId)
              // `used` is the flag, or a spent single sentence for amount 1
              && (v.used <==> Spent(s.used, paymentId)
                              || (p.amount == 1 && v.sentencesUsed >= 1))
              // quotas: the stored value when non-zero, else the route's fallback
              && (p.maxSentences.Some? && p.maxSentences.value != 0 ==> v.maxSentences == p.maxSentences.value)
              && (!(p.maxSentences.Some? && p.maxSentences.value != 0) ==> v.maxSentences == (if p.amount == 1 then 1 else 0))
              && (p.maxStories.Some? && p.maxStories.value != 0 ==> v.maxStories == p.maxStories.value)
              && (!(p.maxStories.Some? && p.maxStories.value != 0) ==> v.maxStories == 0)
              // echoed from the record
              && v.amount == p.amount && v.amountType == p.amountType && v.rank == p.rank
  {
    if paymentId == "" then MissingPaymentId
    else if paymentId !in s.payments then NotFound
    else
      var payment := s.payments[paymentId];
      var sentencesUsed := CountOr0(s.sentencesUsed, paymentId);
      var storiesUsed := CountOr0(s.storiesUsed, paymentId);
      var used := Spent(s.used, paymentId) || (payment.amount == 1 && sentencesUsed >= 1);
      Found(Entitlement(
        used := used,
        amount := payment.amount,
        amountType := payment.amountType,
        rank := payment.rank,
        maxSentences := OrDefault(payment.maxSentences, if payment.amount == 1 then 1 else 0),
        maxStories := OrDefault(payment.maxStories, 0),
        sentencesUsed := sentencesUsed,
        storiesUsed := storiesUsed))
  }
}
