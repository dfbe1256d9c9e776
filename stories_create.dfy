/** POST /api/stories/create: a payment founds a story, within its story quota. */
module StoriesCreate {
  import opened Db

  datatype Request = Request(paymentId: string, title: string, firstSentence: string)

  datatype Response =
    | MissingFields
    | SentenceTooLong
    | PaymentNotFound
    | TierNotAllowed
    | LimitReached(maxStories: int)
    | Created(storyId: string, sentenceId: string)
  {
    function Status(): int {
      match this
      case PaymentNotFound => 404
      case Created(_, _) => 200
      case _ => 400
    }
  }

  const MaxSentenceLength := 150
  const MaxTitleLength := 100

  /** The amounts whose payments may found a story. */
  predicate StoryTier(amount: int): (b: bool)
    ensures b <==> amount in {2, 5, 11}
  {
    amount == 2 || amount == 5 || amount == 11
  }

  /** `payment.maxStories || (payment.amount === 2 ? 1 : 0)`. */
  function StoryLimit(p: PaymentRecord): (n: int)
    ensures p.maxStories.Some? && p.maxStories.value != 0 ==> n == p.maxStories.value
    // absent and 0 alike fall back to the amount's default
    ensures !(p.maxStories.Some? && p.maxStories.value != 0) ==> n == (if p.amount == 2 then 1 else 0)
  {
    OrDefault(p.maxStories, if p.amount == 2 then 1 else 0)
  }

  /** The meta hash of a story founded by `paymentId` with payment `p`. */
  function NewMeta(req: Request, p: PaymentRecord): (m: Meta)
    // the title cut to at most 100 characters, keeping its start
    ensures m.title <= req.title && |m.title| == (if |req.title| <= MaxTitleLength then |req.title| else MaxTitleLength)
    // the founder and the founder's rank
    ensures m.creatorPaymentId == req.paymentId && m.createdRank == p.rank
  {
    Meta(Prefix(req.title, MaxTitleLength), req.paymentId, p.rank)
  }

  /** Every write of a successful creation: meta, first sentence, sorted set, list,
      usage counter and, for a payment of 2, the legacy flag. */
  function Write(s: Store, req: Request, p: PaymentRecord, storyId: string, sentenceId: string): (t: Store)
    ensures t.storyMeta == s.storyMeta[storyId := NewMeta(req, p)]
    ensures t.sentences == s.sentences[sentenceId := Sentence(req.firstSentence, req.paymentId, p.rank, StoryParent(storyId))]
    ensures storyId in t.storySentences
    ensures storyId !in s.storySentences ==> t.storySentences[storyId] == map[sentenceId := p.rank]
    // every other story's sorted set is left alone
    ensures forall id :: id != storyId ==> Lookup(t.storySentences, id) == Lookup(s.storySentences, id)
    ensures t.storyAll == s.storyAll + [storyId]
    ensures t.storiesUsed == s.storiesUsed[req.paymentId := CountOr0(s.storiesUsed, req.paymentId) + 1]
    ensures CountOr0(t.storiesUsed, req.paymentId) == CountOr0(s.storiesUsed, req.paymentId) + 1
    ensures t.sentencesUsed == s.sentencesUsed
    ensures (p.amount == 2 ==> t.used == s.used[req.paymentId := "true"]) && (p.amount != 2 ==> t.used == s.used)
    // the ledger and the gossip side are untouched
    ensures t.payments == s.payments && t.orders == s.orders
    ensures t.totalPayments == s.totalPayments && t.totalAmount == s.totalAmount
    ensures t.gossipAll == s.gossipAll && t.gossipMeta == s.gossipMeta && t.gossipSentences == s.gossipSentences
  {
    s.(storyMeta := s.storyMeta[storyId := NewMeta(req, p)],
       sentences := s.sentences[sentenceId := Sentence(req.firstSentence, req.paymentId, p.rank, StoryParent(storyId))],
       storySentences := ZAdd(s.storySentences, storyId, p.rank, sentenceId),
       storyAll := s.storyAll + [storyId],
       storiesUsed := s.storiesUsed[req.paymentId := CountOr0(s.storiesUsed, req.paymentId) + 1],
       used := if p.amount == 2 then s.used[req.paymentId := "true"] else s.used)
  }

  /** `paymentId && title && firstSentence`. */
  predicate FieldsPresent(req: Request) {
    req.paymentId != "" && req.title != "" && req.firstSentence != ""
  }

  /** The request passes the checks that do not read the store. */
  predicate Validated(req: Request) {
    FieldsPresent(req) && |req.firstSentence| <= MaxSentenceLength
  }

  /** The request passes every check, so the story is created. */
  predicate Admitted(s: Store, req: Request) {
    && Validated(req)
    && req.paymentId in s.payments
    && StoryTier(s.payments[req.paymentId].amount)
    && CountOr0(s.storiesUsed, req.paymentId) < StoryLimit(s.payments[req.paymentId])
  }

  /** The effect of one creation request, `storyId` and `sentenceId` being the ids
      the handler generates. */
  function Create(s: Store, req: Request, storyId: string, sentenceId: string): (r: Step<Response>)
    // the checks in order: the first that fails answers, and nothing is written
    ensures !FieldsPresent(req) ==> r == Step(MissingFields, s)
    ensures FieldsPresent(req) && |req.firstSentence| > MaxSentenceLength ==> r == Step(SentenceTooLong, s)
    ensures Validated(req) && req.paymentId !in s.payments ==> r == Step(PaymentNotFound, s)
    ensures Validated(req) && req.paymentId in s.payments && !StoryTier(s.payments[req.paymentId].amount) ==>
              r == Step(TierNotAllowed, s)
    ensures Validated(req) && req.paymentId in s.payments && StoryTier(s.payments[req.paymentId].amount)
            && CountOr0(s.storiesUsed, req.paymentId) >= StoryLimit(s.payments[req.paymentId]) ==>
              r == Step(LimitReached(StoryLimit(s.payments[req.paymentId])), s)
    ensures r.response.Created? <==> Admitted(s, req)
    ensures !r.response.Created? ==> r.store == s
    ensures r.response.Created? ==> r.store == Write(s, req, s.payments[req.paymentId], storyId, sentenceId)
    // a creation consumes exactly one story of the quota, never beyond it
    ensures r.response.Created? ==>
              && r.response == Created(storyId, sentenceId)
              && CountOr0(r.store.storiesUsed, req.paymentId) == CountOr0(s.storiesUsed, req.paymentId) + 1
              && CountOr0(r.store.storiesUsed, req.paymentId) <= StoryLimit(s.payments[req.paymentId])
              && (forall k :: k != req.paymentId ==> CountOr0(r.store.storiesUsed, k) == CountOr0(s.storiesUsed, k))
    // the ledger is untouched
    ensures r.store.payments == s.payments && r.store.orders == s.orders
    ensures r.store.totalPayments == s.totalPayments && r.store.totalAmount == s.totalAmount
  {
    if req.paymentId == "" || req.title == "" || req.firstSentence == "" then Step(MissingFields, s)
    else if |req.firstSentence| > MaxSentenceLength then Step(SentenceTooLong, s)
    else if req.paymentId !in s.payments then Step(PaymentNotFound, s)
    else
      var p := s.payments[req.paymentId];
      if !StoryTier(p.amount) then Step(TierNotAllowed, s)
      else
        var storiesUsed := CountOr0(s.storiesUsed, req.paymentId);
        var maxStories := StoryLimit(p);
        if storiesUsed >= maxStories then Step(LimitReached(maxStories), s)
        else Step(Created(storyId, sentenceId), Write(s, req, p, storyId, sentenceId))
  }

  /** What a successful creation stores: the story's meta with the title cut to 100
      characters and the payment's rank, the first sentence with that rank, a sorted
      set holding exactly that sentence scored by the rank, the story at the end of
      `story:all`, and the `used` flag set to "true" exactly when the amount is 2. */
  lemma CreatedStores(s: Store, req: Request, storyId: string, sentenceId: string)
    requires Create(s, req, storyId, sentenceId).response.Created?
    requires storyId !in s.storySentences
    ensures var t := Create(s, req, storyId, sentenceId).store;
            var p := s.payments[req.paymentId];
            && t.storyMeta[storyId] == Meta(Prefix(req.title, MaxTitleLength), req.paymentId, p.rank)
            && |t.storyMeta[storyId].title| <= MaxTitleLength
            && t.sentences[sentenceId] == Sentence(req.firstSentence, req.paymentId, p.rank, StoryParent(storyId))
            && t.storySentences[storyId] == map[sentenceId := p.rank]
            && t.storyAll == s.storyAll + [storyId]
            && (p.amount == 2 ==> t.used == s.used[req.paymentId := "true"])
            && (p.amount != 2 ==> t.used == s.used)
  {
  }

  /** The handler, one store command at a time. */
  method Post(db: Redis, req: Request, storyId: string, sentenceId: string) returns (r: Response)
    modifies db
    ensures r == Create(old(db.Snapshot()), req, storyId, sentenceId).response
    ensures db.Snapshot() == Create(old(db.Snapshot()), req, storyId, sentenceId).store
  {
    var paymentId, title, firstSentence := req.paymentId, req.title, req.firstSentence;
    if paymentId == "" || title == "" || firstSentence == "" {
      return MissingFields;
    }
    if |firstSentence| > MaxSentenceLength {
      return SentenceTooLong;
    }
    var paymentData := Lookup(db.payments, paymentId);
    if paymentData.None? {
      return PaymentNotFound;
    }
    var payment := paymentData.value;
    if payment.amount != 2 && payment.amount != 5 && payment.amount != 11 {
      return TierNotAllowed;
    }
    var storiesUsed := CountOr0(db.storiesUsed, paymentId);
    var maxStories := OrDefault(payment.maxStories, if payment.amount == 2 then 1 else 0);
    if storiesUsed >= maxStories {
      return LimitReached(maxStories);
    }
    WriteStory(db, req, payment, storyId, sentenceId);
    return Created(storyId, sentenceId);
  }

  /** The writes of the handler, one store command each. */
  method WriteStory(db: Redis, req: Request, payment: PaymentRecord, storyId: string, sentenceId: string)
    modifies db
    ensures db.Snapshot() == Write(old(db.Snapshot()), req, payment, storyId, sentenceId)
  {
    db.HSetStoryMeta(storyId, NewMeta(req, payment));
    db.HSetSentence(sentenceId, Sentence(req.firstSentence, req.paymentId, payment.rank, StoryParent(storyId)));
    db.ZAddStory(storyId, payment.rank, sentenceId);
    db.RPushStory(storyId);
    var newStoriesUsed := db.IncrStoriesUsed(req.paymentId);
    if payment.amount == 2 {
      db.SetUsed(req.paymentId, "true");
    }
  }
}
