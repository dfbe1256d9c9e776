/** POST /api/gossips/create: the older variant, in which a payment of 2 founds a
    single gossip and a one-shot `used` flag guards it. */
module GossipsCreate {
  import opened Db

  datatype Request = Request(paymentId: string, title: string, firstSentence: string)

  datatype Response =
    | MissingFields
    | SentenceTooLong
    | PaymentNotFound
    | WrongAmount
    | AlreadyUsed
    | Created(gossipId: string, sentenceId: string)
  {
    function Status(): int {
      match this
      case PaymentNotFound => 404
      case Created(_, _) => 200
      case _ => 400
    }
  }

  const MaxSentenceLength := 30
  const MaxTitleLength := 100
  const GossipAmount := 2

  /** `paymentId && title && firstSentence`. */
  predicate FieldsPresent(req: Request) {
    req.paymentId != "" && req.title != "" && req.firstSentence != ""
  }

  /** The request passes the checks that do not read the store. */
  predicate Validated(req: Request) {
    FieldsPresent(req) && |req.firstSentence| <= MaxSentenceLength
  }


  /** The request passes every check, so the gossip is created. */
  predicate Admitted(s: Store, req: Request) {
    && Validated(req)
    && req.paymentId in s.payments
    && s.payments[req.paymentId].amount == GossipAmount
    && !Spent(s.used, req.paymentId)
  }

  /** The meta hash of a gossip founded by `paymentId` with payment `p`. */
  function NewMeta(req: Request, p: PaymentRecord): (m: Meta)
    // the title cut to at most 100 characters, keeping its start
    ensures m.title <= req.title && |m.title| == (if |req.title| <= MaxTitleLength then |req.title| else MaxTitleLength)
    // the founder and the founder's rank
    ensures m.creatorPaymentId == req.paymentId && m.createdRank == p.rank
  {
    Meta(Prefix(req.title, MaxTitleLength), req.paymentId, p.rank)
  }

  /** Every write of a successful creation: meta, first sentence, sorted set, list
      and the spent flag. */
  function Write(s: Store, req: Request, p: PaymentRecord, gossipId: string, sentenceId: string): (t: Store)
    ensures t.gossipMeta == s.gossipMeta[gossipId := NewMeta(req, p)]
    ensures t.sentences == s.sentences[sentenceId := Sentence(req.firstSentence, req.paymentId, p.rank, GossipParent(gossipId))]
    ensures gossipId in t.gossipSentences
    ensures gossipId !in s.gossipSentences ==> t.gossipSentences[gossipId] == map[sentenceId := p.rank]
    // every other gossip's sorted set is left alone
    ensures forall id :: id != gossipId ==> Lookup(t.gossipSentences, id) == Lookup(s.gossipSentences, id)
    ensures t.gossipAll == s.gossipAll + [gossipId]
    ensures t.used == s.used[req.paymentId := "true"]
    // the ledger, the counters and the story side are untouched
    ensures t.payments == s.payments && t.orders == s.orders
    ensures t.totalPayments == s.totalPayments && t.totalAmount == s.totalAmount
    ensures t.storiesUsed == s.storiesUsed && t.sentencesUsed == s.sentencesUsed
    ensures t.storyAll == s.storyAll && t.storyMeta == s.storyMeta && t.storySentences == s.storySentences
  {
    s.(gossipMeta := s.gossipMeta[gossipId := NewMeta(req, p)],
       sentences := s.sentences[sentenceId := Sentence(req.firstSentence, req.paymentId, p.rank, GossipParent(gossipId))],
       gossipSentences := ZAdd(s.gossipSentences, gossipId, p.rank, sentenceId),
       gossipAll := s.gossipAll + [gossipId],
       used := s.used[req.paymentId := "true"])
  }

  /** The effect of one creation request, `gossipId` and `sentenceId` being the ids
      the handler generates. */
  function Create(s: Store, req: Request, gossipId: string, sentenceId: string): (r: Step<Response>)
    // the checks in order: the first that fails answers, and nothing is written
    ensures !FieldsPresent(req) ==> r == Step(MissingFields, s)
    ensures FieldsPresent(req) && |req.firstSentence| > MaxSentenceLength ==> r == Step(SentenceTooLong, s)
    ensures Validated(req) && req.paymentId !in s.payments ==> r == Step(PaymentNotFound, s)
    ensures Validated(req) && req.paymentId in s.payments && s.payments[req.paymentId].amount != GossipAmount ==>
              r == Step(WrongAmount, s)
    ensures Validated(req) && req.paymentId in s.payments && s.payments[req.paymentId].amount == GossipAmount
            && Spent(s.used, req.paymentId) ==>
              r == Step(AlreadyUsed, s)
    ensures r.response.Created? <==> Admitted(s, req)
    ensures !r.response.Created? ==> r.store == s
    ensures r.response.Created? ==> r.store == Write(s, req, s.payments[req.paymentId], gossipId, sentenceId)
    // a creation spends the payment: afterwards its flag is "true"
    ensures r.response.Created? ==> r.response == Created(gossipId, sentenceId) && Spent(r.store.used, req.paymentId)
    // the ledger and the story quota are untouched
    ensures r.store.payments == s.payments && r.store.orders == s.orders
    ensures r.store.totalPayments == s.totalPayments && r.store.totalAmount == s.totalAmount
    ensures r.store.storiesUsed == s.storiesUsed && r.store.sentencesUsed == s.sentencesUsed
  {
    if req.paymentId == "" || req.title == "" || req.firstSentence == "" then Step(MissingFields, s)
    else if |req.firstSentence| > MaxSentenceLength then Step(SentenceTooLong, s)
    else if req.paymentId !in s.payments then Step(PaymentNotFound, s)
    else
      var p := s.payments[req.paymentId];
      if p.amount != GossipAmount then Step(WrongAmount, s)
      else if Spent(s.used, req.paymentId) then Step(AlreadyUsed, s)
      else Step(Created(gossipId, sentenceId), Write(s, req, p, gossipId, sentenceId))
  }

  /** A payment founds at most one gossip: once one creation succeeded, the same
      payment is refused with `Payment already used`, whatever the new request. */
  lemma SecondCreateRefused(s: Store, req: Request, gossipId: string, sentenceId: string,
                            req2: Request, gossipId2: string, sentenceId2: string)
    requires Create(s, req, gossipId, sentenceId).response.Created?
    requires req2.paymentId == req.paymentId && Validated(req2)
    ensures var t := Create(s, req, gossipId, sentenceId).store;
            Create(t, req2, gossipId2, sentenceId2) == Step(AlreadyUsed, t)
  {
  }

  /** What a successful creation stores: the meta with the title cut to 100
      characters and the payment's rank, the first sentence with that rank, a sorted
      set holding exactly that sentence scored by the rank, and the gossip at the end
      of `gossip:all`. */
  lemma CreatedStores(s: Store, req: Request, gossipId: string, sentenceId: string)
    requires Create(s, req, gossipId, sentenceId).response.Created?
    requires gossipId !in s.gossipSentences
    ensures var t := Create(s, req, gossipId, sentenceId).store;
            var p := s.payments[req.paymentId];
            && t.gossipMeta[gossipId] == Meta(Prefix(req.title, MaxTitleLength), req.paymentId, p.rank)
            && |t.gossipMeta[gossipId].title| <= MaxTitleLength
            && t.sentences[sentenceId] == Sentence(req.firstSentence, req.paymentId, p.rank, GossipParent(gossipId))
            && t.gossipSentences[gossipId] == map[sentenceId := p.rank]
            && t.gossipAll == s.gossipAll + [gossipId]
  {
  }

  /** The handler, one store command at a time. */
  method Post(db: Redis, req: Request, gossipId: string, sentenceId: string) returns (r: Response)
    modifies db
    ensures r == Create(old(db.Snapshot()), req, gossipId, sentenceId).response
    ensures db.Snapshot() == Create(old(db.Snapshot()), req, gossipId, sentenceId).store
  {
    var paymentId, title, firstSentence := req.paymentId, req.title, req.firstSentence;
    if paymentId == "" || title == "" || firstSentence == "" {
      return MissingFields;
    }
    if |firstSentence| > MaxSentenceLength {
      return SentenceTooLong;
    }
    var paymentData := Lookup(db.payments, paymentId);
    if paymentData.None? {
      return PaymentNotFound;
    }
    var payment := paymentData.value;
    if payment.amount != GossipAmount {
      return WrongAmount;
    }
    var isUsed := Lookup(db.used, paymentId);
    if isUsed == Some("true") {
      return AlreadyUsed;
    }
    WriteGossip(db, req, payment, gossipId, sentenceId);
    return Created(gossipId, sentenceId);
  }

  /** The writes of the handler, one store command each. */
  method WriteGossip(db: Redis, req: Request, payment: PaymentRecord, gossipId: string, sentenceId: string)
    modifies db
    ensures db.Snapshot() == Write(old(db.Snapshot()), req, payment, gossipId, sentenceId)
  {
    db.HSetGossipMeta(gossipId, NewMeta(req, payment));
    db.HSetSentence(sentenceId, Sentence(req.firstSentence, req.paymentId, payment.rank, GossipParent(gossipId)));
    db.ZAddGossip(gossipId, payment.rank, sentenceId);
    db.RPushGossip(gossipId);
    db.SetUsed(req.paymentId, "true");
  }
}
