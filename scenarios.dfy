/** Properties that span several routes: the two recording adapters in either order,
    what the routes' records entitle a payment to, and what the listings and views
    show after a creation. */
module Scenarios {
  import opened Db
  import Webhook
  import VerifyCashfree
  import StoriesCreate
  import GossipsCreate
  import CheckPayment
  import PaymentStatus
  import Listing
  import opened Invariants

  /** The order a delivery is about. */
  function OrderOf(req: Webhook.Request): Webhook.OrderData
    requires Webhook.PaidOrder(req)
  {
    req.body.value.order.value
  }

  /** Webhook first, then the client's verification of the same order: the
      verification returns exactly the record the webhook stored, counted once. */
  lemma WebhookThenVerify(s: Store, req: Webhook.Request, env: Webhook.Env, sign: (string, string) -> string,
                          paymentId: string, amount: int)
    requires Webhook.Deliver(s, req, env, sign).response == Webhook.Processed
    requires OrderOf(req).orderId != "" && amount != 0
    ensures var t := Webhook.Deliver(s, req, env, sign).store;
            var key := CashfreeKey(OrderOf(req).orderId);
            && VerifyCashfree.Verify(t, OrderOf(req).orderId, paymentId, amount) == Step(VerifyCashfree.Payment(t.payments[key]), t)
            && t.payments[key].verified
            && t.totalPayments == s.totalPayments + 1
  {
  }

  /** Verification first, then the webhook for the same order: the webhook finds the
      record and answers `already_processed` without writing, so no `order:<id>`
      mapping is ever written and the status page keeps answering pending. */
  lemma VerifyThenWebhook(s: Store, paymentId: string, amount: int,
                          req: Webhook.Request, env: Webhook.Env, sign: (string, string) -> string)
    requires Valid(s)
    requires Webhook.Authentic(req, env, sign) && Webhook.PaidOrder(req)
    requires OrderOf(req).orderId != "" && amount != 0
    requires CashfreeKey(OrderOf(req).orderId) !in s.payments
    ensures var o := OrderOf(req).orderId;
            var t := VerifyCashfree.Verify(s, o, paymentId, amount).store;
            && Webhook.Deliver(t, req, env, sign) == Step(Webhook.AlreadyProcessed, t)
            && !t.payments[CashfreeKey(o)].verified
            && PaymentStatus.Get(t, o) == PaymentStatus.Pending
            && t.totalPayments == s.totalPayments + 1
  {
    var o := OrderOf(req).orderId;
    // with no record under `cashfree_<o>` there is no mapping for `o` either
    assert o !in s.orders;
    CanonicalKeyIsCashfreeKey(s, o);
  }

  /** The two adapters disagree on the `amountType` of a payment of 2. */
  lemma AmountTypesDisagree()
    ensures Webhook.AmountType(2) == "createStory"
    ensures VerifyCashfree.AmountType(2) == "createGossip"
  {
  }

  /** In every reachable store a payment has founded at most one story, and only if
      it paid 2: no route writes `maxStories`, so the story route's default
      applies. */
  lemma AtMostOneStory(s: Store, k: string)
    requires Valid(s) && k in s.payments
    ensures Founded(s.storyAll, s.storyMeta, k) <= (if s.payments[k].amount == 2 then 1 else 0)
  {
    assert s.payments[k].maxStories.None?;
  }

  /** `payment_status` answers a record only if the webhook stored it: records of
      the pull adapter never surface there, and a mapping always finds its record. */
  lemma StatusShowsOnlyWebhookRecords(s: Store, orderId: string)
    requires Valid(s)
    ensures PaymentStatus.Get(s, orderId) != PaymentStatus.RecordMissing
    ensures PaymentStatus.Get(s, orderId).Found? ==> PaymentStatus.Get(s, orderId).record.verified
  {
  }

  /** `check-payment` reports `maxStories: 0` for every payment the routes record,
      while the story route lets a payment of 2 found one story: the view and the
      route disagree exactly on payments of 2. */
  lemma ViewUnderstatesStoryQuota(s: Store, k: string)
    requires Valid(s) && k != "" && k in s.payments
    ensures CheckPayment.Get(s, k).view.maxStories == 0
    ensures StoriesCreate.StoryLimit(s.payments[k]) == (if s.payments[k].amount == 2 then 1 else 0)
    ensures CheckPayment.Get(s, k).view.storiesUsed == Founded(s.storyAll, s.storyMeta, k)
  {
    assert s.payments[k].maxStories.None?;
  }

  /** A fresh payment of 2 whose story is refused nowhere: it creates its story. */
  lemma FirstStoryOfTwoAdmitted(s: Store, req: StoriesCreate.Request)
    requires Valid(s)
    requires StoriesCreate.Validated(req) && req.paymentId in s.payments
    requires s.payments[req.paymentId].amount == 2
    requires Founded(s.storyAll, s.storyMeta, req.paymentId) == 0
    ensures StoriesCreate.Admitted(s, req)
  {
    assert s.payments[req.paymentId].maxStories.None?;
  }

  /** A payment of 5 or 11 recorded by these routes never founds a story: its quota
      falls back to 0. */
  lemma NoStoryForFiveOrEleven(s: Store, req: StoriesCreate.Request, storyId: string, sentenceId: string)
    requires Valid(s)
    requires StoriesCreate.Validated(req) && req.paymentId in s.payments
    requires s.payments[req.paymentId].amount == 5 || s.payments[req.paymentId].amount == 11
    ensures StoriesCreate.Create(s, req, storyId, sentenceId) == Step(StoriesCreate.LimitReached(0), s)
  {
    assert s.payments[req.paymentId].maxStories.None?;
  }

  /** A story spends a payment of 2 for the gossip route: a later gossip with the
      same payment is refused as already used. */
  lemma StoryThenGossipRefused(s: Store, req: StoriesCreate.Request, storyId: string, sentenceId: string,
                               greq: GossipsCreate.Request, gossipId: string, gossipSentenceId: string)
    requires StoriesCreate.Create(s, req, storyId, sentenceId).response.Created?
    requires s.payments[req.paymentId].amount == 2
    requires greq.paymentId == req.paymentId && GossipsCreate.Validated(greq)
    ensures var t := StoriesCreate.Create(s, req, storyId, sentenceId).store;
            GossipsCreate.Create(t, greq, gossipId, gossipSentenceId) == Step(GossipsCreate.AlreadyUsed, t)
  {
  }

  /** The gossip route does not count against the story quota: after a gossip, the
      same payment of 2 can still found its one story. */
  lemma GossipThenStoryAdmitted(s: Store, greq: GossipsCreate.Request, gossipId: string, gossipSentenceId: string,
                                req: StoriesCreate.Request)
    requires Valid(s)
    requires GossipsCreate.Create(s, greq, gossipId, gossipSentenceId).response.Created?
    requires req.paymentId == greq.paymentId && StoriesCreate.Validated(req)
    requires Founded(s.storyAll, s.storyMeta, req.paymentId) == 0
    ensures StoriesCreate.Admitted(GossipsCreate.Create(s, greq, gossipId, gossipSentenceId).store, req)
  {
    assert s.payments[req.paymentId].maxStories.None?;
  }

  /** Right after a story is created, the listing shows it once, with its founder's
      rank, its stored title and one sentence. */
  lemma StoryListedAfterCreate(s: Store, req: StoriesCreate.Request, storyId: string, sentenceId: string)
    requires storyId !in s.storyAll && storyId !in s.storySentences
    requires StoriesCreate.Create(s, req, storyId, sentenceId).response.Created?
    ensures var t := StoriesCreate.Create(s, req, storyId, sentenceId).store;
            var listed := Listing.ListStories(t);
            && Listing.Summary(storyId, Prefix(req.title, StoriesCreate.MaxTitleLength),
                               s.payments[req.paymentId].rank, 1) in listed
            && multiset(Listing.Ids(listed))[storyId] == 1
  {
    var t := StoriesCreate.Create(s, req, storyId, sentenceId).store;
    StoriesCreate.CreatedStores(s, req, storyId, sentenceId);
    Listing.AppendedListed(s.storyAll, t.storyMeta, t.storySentences, storyId, sentenceId);
  }

  /** Right after a gossip is created, the listing shows it once, with its founder's
      rank, its stored title and one sentence. */
  lemma GossipListedAfterCreate(s: Store, req: GossipsCreate.Request, gossipId: string, sentenceId: string)
    requires gossipId !in s.gossipAll && gossipId !in s.gossipSentences
    requires GossipsCreate.Create(s, req, gossipId, sentenceId).response.Created?
    ensures var t := GossipsCreate.Create(s, req, gossipId, sentenceId).store;
            var listed := Listing.ListGossips(t);
            && Listing.Summary(gossipId, Prefix(req.title, GossipsCreate.MaxTitleLength),
                               s.payments[req.paymentId].rank, 1) in listed
            && multiset(Listing.Ids(listed))[gossipId] == 1
  {
    var t := GossipsCreate.Create(s, req, gossipId, sentenceId).store;
    GossipsCreate.CreatedStores(s, req, gossipId, sentenceId);
    Listing.AppendedListed(s.gossipAll, t.gossipMeta, t.gossipSentences, gossipId, sentenceId);
  }

  /** After a story is created, `check-payment` shows the payment with one more story
      used, and as used when it paid 2. */
  lemma StoryShowsInView(s: Store, req: StoriesCreate.Request, storyId: string, sentenceId: string)
    requires StoriesCreate.Create(s, req, storyId, sentenceId).response.Created?
    ensures var t := StoriesCreate.Create(s, req, storyId, sentenceId).store;
            var r := CheckPayment.Get(t, req.paymentId);
            && r.Found?
            && r.view.storiesUsed == CountOr0(s.storiesUsed, req.paymentId) + 1
            && (s.payments[req.paymentId].amount == 2 ==> r.Used())
  {
  }

  /** After a gossip is created, `check-payment` shows its payment as used. */
  lemma GossipShowsInView(s: Store, req: GossipsCreate.Request, gossipId: string, sentenceId: string)
    requires GossipsCreate.Create(s, req, gossipId, sentenceId).response.Created?
    ensures var t := GossipsCreate.Create(s, req, gossipId, sentenceId).store;
            CheckPayment.Get(t, req.paymentId).Used()
  {
  }
}
