/** What every store the routes can reach from an empty database satisfies, and
    proofs that each mutating route keeps it (the two creation routes given ids
    that are not yet in use, as the random ids they generate are meant to be). */
module Invariants {
  import opened Db
  import Webhook
  import VerifyCashfree
  import StoriesCreate
  import GossipsCreate

  /** Ranks are dense: the n recorded payments hold ranks 1..n, each once; every
      per-payment key belongs to a recorded payment; no record carries quota fields. */
  predicate LedgerValid(s: Store) {
    && s.totalPayments == |s.payments.Keys|
    && (forall k :: k in s.payments ==> 1 <= s.payments[k].rank <= s.totalPayments)
    && (forall k1, k2 :: k1 in s.payments && k2 in s.payments && k1 != k2 ==> s.payments[k1].rank != s.payments[k2].rank)
    && s.used.Keys <= s.payments.Keys
    && s.storiesUsed.Keys <= s.payments.Keys
    && s.sentencesUsed.Keys <= s.payments.Keys
    // no route of this model writes the quota fields of a record
    && (forall k :: k in s.payments ==> s.payments[k].maxStories.None? && s.payments[k].maxSentences.None?)
  }

  /** Only the webhook writes `order:<o>`, always to `cashfree_<o>`, a record it
      stored as verified. */
  predicate OrdersValid(orders: map<string, string>, payments: map<string, PaymentRecord>) {
    forall o :: o in orders ==>
      && orders[o] == CashfreeKey(o)
      && CashfreeKey(o) in payments
      && payments[CashfreeKey(o)].verified
  }

  /** Every founded entry is listed exactly once, has its meta and a non-empty
      sentence set, and carries the rank of its founder, a recorded payment. */
  predicate ContentValid(all: seq<string>, metas: map<string, Meta>, sets: map<string, map<string, int>>,
                         payments: map<string, PaymentRecord>) {
    && (forall i, j :: 0 <= i < j < |all| ==> all[i] != all[j])
    && (forall i :: 0 <= i < |all| ==> all[i] in metas)
    && (forall id :: id in metas ==> id in all)
    && sets.Keys == metas.Keys
    && (forall id :: id in sets ==> sets[id] != map[])
    && (forall id :: id in metas ==>
          && metas[id].creatorPaymentId in payments
          && metas[id].createdRank == payments[metas[id].creatorPaymentId].rank)
  }

  /** `zscore key member == score`. */
  predicate InSet(sets: map<string, map<string, int>>, key: string, member: string, score: int) {
    key in sets && member in sets[key] && sets[key][member] == score
  }

  /** Sentence `id` sits in its parent's sorted set, scored by the rank of its
      author, a recorded payment. */
  predicate Filed(id: string, sentence: Sentence, storySets: map<string, map<string, int>>,
                  gossipSets: map<string, map<string, int>>, payments: map<string, PaymentRecord>) {
    && sentence.authorPaymentId in payments
    && sentence.rank == payments[sentence.authorPaymentId].rank
    && (sentence.parent.StoryParent? ==> InSet(storySets, sentence.parent.storyId, id, sentence.rank))
    && (sentence.parent.GossipParent? ==> InSet(gossipSets, sentence.parent.gossipId, id, sentence.rank))
  }

  predicate SentencesValid(sentences: map<string, Sentence>, storySets: map<string, map<string, int>>,
                           gossipSets: map<string, map<string, int>>, payments: map<string, PaymentRecord>) {
    forall id :: id in sentences ==> Filed(id, sentences[id], storySets, gossipSets, payments)
  }

  /** The number of entries of `ids` founded by payment `k`. */
  function Founded(ids: seq<string>, metas: map<string, Meta>, k: string): nat {
    if ids == [] then 0
    else (if ids[0] in metas && metas[ids[0]].creatorPaymentId == k then 1 else 0) + Founded(ids[1..], metas, k)
  }

  /** `stories_used` counts exactly the stories a payment founded, and never
      exceeds the quota the story route computes for it. */
  predicate QuotaValid(s: Store) {
    forall k :: k in s.payments ==>
      && CountOr0(s.storiesUsed, k) == Founded(s.storyAll, s.storyMeta, k)
      && CountOr0(s.storiesUsed, k) <= StoriesCreate.StoryLimit(s.payments[k])
  }

  /** Each gossip was founded by a payment of 2 whose flag now reads "true", and no
      payment founded two. */
  predicate GossipValid(metas: map<string, Meta>, payments: map<string, PaymentRecord>, used: map<string, string>) {
    && (forall g :: g in metas ==>
          && metas[g].creatorPaymentId in payments
          && payments[metas[g].creatorPaymentId].amount == GossipsCreate.GossipAmount
          && Spent(used, metas[g].creatorPaymentId))
    && (forall g1, g2 :: g1 in metas && g2 in metas && g1 != g2 ==>
          metas[g1].creatorPaymentId != metas[g2].creatorPaymentId)
  }

  predicate Valid(s: Store) {
    && LedgerValid(s)
    && OrdersValid(s.orders, s.payments)
    && ContentValid(s.storyAll, s.storyMeta, s.storySentences, s.payments)
    && ContentValid(s.gossipAll, s.gossipMeta, s.gossipSentences, s.payments)
    && SentencesValid(s.sentences, s.storySentences, s.gossipSentences, s.payments)
    && QuotaValid(s)
    && GossipValid(s.gossipMeta, s.payments, s.used)
  }

  lemma EmptyStoreValid()
    ensures Valid(EmptyStore)
  {
  }

  // ---- building blocks

  /** Every record of `p` is in `q`, unchanged. */
  predicate Extends(p: map<string, PaymentRecord>, q: map<string, PaymentRecord>) {
    forall k :: k in p ==> k in q && q[k] == p[k]
  }

  lemma ContentGrows(all: seq<string>, metas: map<string, Meta>, sets: map<string, map<string, int>>,
                     p: map<string, PaymentRecord>, q: map<string, PaymentRecord>)
    requires ContentValid(all, metas, sets, p) && Extends(p, q)
    ensures ContentValid(all, metas, sets, q)
  {
  }

  /** Founding a fresh entry: listed at the end, its meta, a set with its first sentence. */
  lemma ContentAppend(all: seq<string>, metas: map<string, Meta>, sets: map<string, map<string, int>>,
                      p: map<string, PaymentRecord>, id: string, m: Meta, member: string)
    requires ContentValid(all, metas, sets, p)
    requires id !in metas
    requires m.creatorPaymentId in p && m.createdRank == p[m.creatorPaymentId].rank
    ensures ContentValid(all + [id], metas[id := m], ZAdd(sets, id, m.createdRank, member), p)
  {
    var all2 := all + [id];
    assert id !in all;
    forall i, j | 0 <= i < j < |all2|
      ensures all2[i] != all2[j]
    {
      assert all2[i] == all[i];
      if j < |all| {
        assert all2[j] == all[j];
      }
    }
    forall i | 0 <= i < |all2|
      ensures all2[i] in metas[id := m]
    {
      if i < |all| {
        assert all2[i] == all[i];
      }
    }
    forall x | x in metas[id := m]
      ensures x in all2
    {
      if x != id {
        var i :| 0 <= i < |all| && all[i] == x;
        assert all2[i] == x;
      } else {
        assert all2[|all|] == id;
      }
    }
    var sets2 := ZAdd(sets, id, m.createdRank, member);
    assert sets2.Keys == sets.Keys + {id};
    assert member in sets2[id];
  }

  /** A route that leaves the ledger alone and only flags or counts recorded payments. */
  lemma LedgerFrame(s: Store, t: Store)
    requires LedgerValid(s)
    requires t.payments == s.payments && t.totalPayments == s.totalPayments
    requires t.used.Keys <= s.payments.Keys && t.storiesUsed.Keys <= s.payments.Keys
    requires t.sentencesUsed == s.sentencesUsed
    ensures LedgerValid(t)
  {
  }

  lemma SentencesGrow(sentences: map<string, Sentence>, ss: map<string, map<string, int>>,
                      gs: map<string, map<string, int>>, p: map<string, PaymentRecord>, q: map<string, PaymentRecord>)
    requires SentencesValid(sentences, ss, gs, p) && Extends(p, q)
    ensures SentencesValid(sentences, ss, gs, q)
  {
    forall id | id in sentences
      ensures Filed(id, sentences[id], ss, gs, q)
    {
      assert Filed(id, sentences[id], ss, gs, p);
    }
  }

  /** Filing a fresh sentence in its parent's set keeps every other sentence filed. */
  lemma SentenceAdded(sentences: map<string, Sentence>, ss: map<string, map<string, int>>,
                      gs: map<string, map<string, int>>, p: map<string, PaymentRecord>,
                      id: string, sentence: Sentence, ss2: map<string, map<string, int>>,
                      gs2: map<string, map<string, int>>)
    requires SentencesValid(sentences, ss, gs, p)
    requires id !in sentences
    requires Filed(id, sentence, ss2, gs2, p)
    requires forall k, x, v :: InSet(ss, k, x, v) && x != id ==> InSet(ss2, k, x, v)
    requires forall k, x, v :: InSet(gs, k, x, v) && x != id ==> InSet(gs2, k, x, v)
    ensures SentencesValid(sentences[id := sentence], ss2, gs2, p)
  {
    forall x | x in sentences || x == id
      ensures Filed(x, sentences[id := sentence][x], ss2, gs2, p)
    {
      if x != id {
        assert Filed(x, sentences[x], ss, gs, p);
      }
    }
  }

  /** `zadd` of `member` leaves every other member's score where it was. */
  lemma ZAddKeeps(z: map<string, map<string, int>>, key: string, score: int, member: string)
    ensures forall k, x, v :: InSet(z, k, x, v) && x != member ==> InSet(ZAdd(z, key, score, member), k, x, v)
    ensures InSet(ZAdd(z, key, score, member), key, member, score)
  {
  }

  lemma GossipGrows(metas: map<string, Meta>, p: map<string, PaymentRecord>, q: map<string, PaymentRecord>,
                    used: map<string, string>, used2: map<string, string>)
    requires GossipValid(metas, p, used) && Extends(p, q)
    requires forall k :: Spent(used, k) ==> Spent(used2, k)
    ensures GossipValid(metas, q, used2)
  {
  }

  /** A gossip founded by a payment of 2 whose flag was not yet spent. */
  lemma GossipAdded(metas: map<string, Meta>, p: map<string, PaymentRecord>, used: map<string, string>,
                    used2: map<string, string>, g: string, m: Meta)
    requires GossipValid(metas, p, used)
    requires g !in metas
    requires m.creatorPaymentId in p && p[m.creatorPaymentId].amount == GossipsCreate.GossipAmount
    requires !Spent(used, m.creatorPaymentId) && Spent(used2, m.creatorPaymentId)
    requires forall k :: Spent(used, k) ==> Spent(used2, k)
    ensures GossipValid(metas[g := m], p, used2)
  {
    // the flag was not "true", so this payment had founded no gossip yet
    forall g1 | g1 in metas
      ensures metas[g1].creatorPaymentId != m.creatorPaymentId
    {
    }
  }

  // ---- counting founded entries

  /** A payment that founded nothing in `metas` founded nothing in any list. */
  lemma {:induction false} FoundedNone(ids: seq<string>, metas: map<string, Meta>, k: string)
    requires forall id :: id in metas ==> metas[id].creatorPaymentId != k
    ensures Founded(ids, metas, k) == 0
    decreases |ids|
  {
    if ids != [] {
      FoundedNone(ids[1..], metas, k);
    }
  }

  /** Appending a fresh entry with its meta adds one to its founder's count only. */
  lemma {:induction false} FoundedAppend(ids: seq<string>, metas: map<string, Meta>, id: string, m: Meta, k: string)
    requires id !in ids
    ensures Founded(ids + [id], metas[id := m], k) == Founded(ids, metas, k) + (if m.creatorPaymentId == k then 1 else 0)
    decreases |ids|
  {
    if ids == [] {
      assert [] + [id] == [id];
      assert [id][1..] == [];
    } else {
      assert (ids + [id])[0] == ids[0];
      assert (ids + [id])[1..] == ids[1..] + [id];
      FoundedAppend(ids[1..], metas, id, m, k);
    }
  }

  // ---- the two recording routes

  /** What both recording routes do on a first recording under `key`. */
  predicate Recorded(s: Store, t: Store, key: string) {
    && key !in s.payments
    && t.totalPayments == s.totalPayments + 1
    && t.payments.Keys == s.payments.Keys + {key}
    && Extends(s.payments, t.payments)
    && t.payments[key].rank == t.totalPayments
    && t.payments[key].maxStories.None? && t.payments[key].maxSentences.None?
    && t.used == s.used[key := "false"]
    && ContentAndUsageUnchanged(s, t)
  }

  lemma RecordingLedger(s: Store, t: Store, key: string)
    requires LedgerValid(s)
    requires key !in s.payments && t.totalPayments == s.totalPayments + 1
    requires t.payments.Keys == s.payments.Keys + {key} && Extends(s.payments, t.payments)
    requires t.payments[key].rank == t.totalPayments
    requires t.payments[key].maxStories.None? && t.payments[key].maxSentences.None?
    requires t.used == s.used[key := "false"]
    requires t.storiesUsed == s.storiesUsed && t.sentencesUsed == s.sentencesUsed
    ensures LedgerValid(t)
  {
    KeysGrow(s.payments, t.payments, key);
    RecordingRanks(s.payments, t.payments, s.totalPayments, key);
    RecordingFields(s.payments, t.payments, key);
  }

  /** Every record keeps its quota fields unset when the new one has them unset. */
  lemma RecordingFields(sp: map<string, PaymentRecord>, tp: map<string, PaymentRecord>, key: string)
    requires tp.Keys == sp.Keys + {key} && Extends(sp, tp)
    requires tp[key].maxStories.None? && tp[key].maxSentences.None?
    requires forall k :: k in sp ==> sp[k].maxStories.None? && sp[k].maxSentences.None?
    ensures forall k :: k in tp ==> tp[k].maxStories.None? && tp[k].maxSentences.None?
  {
    forall k | k in tp
      ensures tp[k].maxStories.None? && tp[k].maxSentences.None?
    {
      if k != key {
        assert tp[k] == sp[k];
      }
    }
  }

  /** One fresh key adds one to the count of keys. */
  lemma KeysGrow(sp: map<string, PaymentRecord>, tp: map<string, PaymentRecord>, key: string)
    requires key !in sp && tp.Keys == sp.Keys + {key}
    ensures |tp.Keys| == |sp.Keys| + 1
  {
    assert key !in sp.Keys;
  }

  /** A record ranked one past the old total keeps the ranks in range and distinct. */
  lemma RecordingRanks(sp: map<string, PaymentRecord>, tp: map<string, PaymentRecord>, total: int, key: string)
    requires key !in sp && tp.Keys == sp.Keys + {key} && Extends(sp, tp)
    requires total >= 0 && tp[key].rank == total + 1
    requires forall k :: k in sp ==> 1 <= sp[k].rank <= total
    requires forall k1, k2 :: k1 in sp && k2 in sp && k1 != k2 ==> sp[k1].rank != sp[k2].rank
    ensures forall k :: k in tp ==> 1 <= tp[k].rank <= total + 1
    ensures forall k1, k2 :: k1 in tp && k2 in tp && k1 != k2 ==> tp[k1].rank != tp[k2].rank
  {
    forall k | k in tp
      ensures 1 <= tp[k].rank <= total + 1
    {
      if k != key {
        assert tp[k] == sp[k];
      }
    }
    forall k1, k2 | k1 in tp && k2 in tp && k1 != k2
      ensures tp[k1].rank != tp[k2].rank
    {
      if k1 != key && k2 != key {
        assert tp[k1] == sp[k1] && tp[k2] == sp[k2];
      }
    }
  }

  lemma RecordingQuota(s: Store, t: Store, key: string)
    requires QuotaValid(s) && key !in s.payments && s.storiesUsed.Keys <= s.payments.Keys
    requires forall id :: id in s.storyMeta ==> s.storyMeta[id].creatorPaymentId in s.payments
    requires t.payments.Keys == s.payments.Keys + {key} && Extends(s.payments, t.payments)
    requires t.payments[key].maxStories.None?
    requires t.storiesUsed == s.storiesUsed && t.storyAll == s.storyAll && t.storyMeta == s.storyMeta
    ensures QuotaValid(t)
  {
    forall k | k in t.payments
      ensures CountOr0(t.storiesUsed, k) == Founded(t.storyAll, t.storyMeta, k)
      ensures CountOr0(t.storiesUsed, k) <= StoriesCreate.StoryLimit(t.payments[k])
    {
      if k == key {
        FoundedNone(t.storyAll, t.storyMeta, k);
      }
    }
  }

  /** A first recording under a fresh key keeps every part of the invariant but the
      order mappings, which each route settles itself. */
  lemma RecordingPreserves(s: Store, t: Store, key: string)
    requires Valid(s) && Recorded(s, t, key)
    requires OrdersValid(t.orders, t.payments)
    ensures Valid(t)
  {
    RecordingLedger(s, t, key);
    RecordingContent(s, t, key);
    RecordingQuota(s, t, key);
    RecordingGossip(s, t, key);
  }

  lemma RecordingGossip(s: Store, t: Store, key: string)
    requires GossipValid(s.gossipMeta, s.payments, s.used)
    requires s.used.Keys <= s.payments.Keys && Recorded(s, t, key)
    ensures GossipValid(t.gossipMeta, t.payments, t.used)
  {
    assert key !in s.used;
    forall k | Spent(s.used, k)
      ensures Spent(t.used, k)
    {
    }
    GossipGrows(s.gossipMeta, s.payments, t.payments, s.used, t.used);
  }

  lemma RecordingContent(s: Store, t: Store, key: string)
    requires ContentValid(s.storyAll, s.storyMeta, s.storySentences, s.payments)
    requires ContentValid(s.gossipAll, s.gossipMeta, s.gossipSentences, s.payments)
    requires SentencesValid(s.sentences, s.storySentences, s.gossipSentences, s.payments)
    requires Recorded(s, t, key)
    ensures ContentValid(t.storyAll, t.storyMeta, t.storySentences, t.payments)
    ensures ContentValid(t.gossipAll, t.gossipMeta, t.gossipSentences, t.payments)
    ensures SentencesValid(t.sentences, t.storySentences, t.gossipSentences, t.payments)
  {
    ContentGrows(s.storyAll, s.storyMeta, s.storySentences, s.payments, t.payments);
    ContentGrows(s.gossipAll, s.gossipMeta, s.gossipSentences, s.payments, t.payments);
    SentencesGrow(s.sentences, s.storySentences, s.gossipSentences, s.payments, t.payments);
  }

  lemma DeliverPreserves(s: Store, req: Webhook.Request, env: Webhook.Env, sign: (string, string) -> string)
    requires Valid(s)
    ensures Valid(Webhook.Deliver(s, req, env, sign).store)
  {
    var r := Webhook.Deliver(s, req, env, sign);
    if r.response == Webhook.Processed {
      var order := req.body.value.order.value;
      var key := CashfreeKey(order.orderId);
      var t := r.store;
      assert t == Webhook.Record(s, order).store;
      forall o | o in t.orders
        ensures t.orders[o] == CashfreeKey(o) && CashfreeKey(o) in t.payments && t.payments[CashfreeKey(o)].verified
      {
        if o != order.orderId {
          assert o in s.orders;
        }
      }
      RecordingPreserves(s, t, key);
    }
  }

  lemma VerifyPreserves(s: Store, orderId: string, paymentId: string, amount: int)
    requires Valid(s)
    ensures Valid(VerifyCashfree.Verify(s, orderId, paymentId, amount).store)
  {
    var r := VerifyCashfree.Verify(s, orderId, paymentId, amount);
    var identifier := VerifyCashfree.Identifier(orderId, paymentId);
    var key := VerifyCashfree.CanonicalKey(s.orders, identifier);
    if identifier != "" && amount != 0 && key !in s.payments {
      assert r.store == VerifyCashfree.RecordNew(s, key, orderId, amount).store;
      RecordingPreserves(s, r.store, key);
    }
  }

  /** Under the invariant the pull adapter's canonical key is always
      `cashfree_<identifier>`: an order mapping, when present, says the same. */
  lemma CanonicalKeyIsCashfreeKey(s: Store, identifier: string)
    requires OrdersValid(s.orders, s.payments)
    ensures VerifyCashfree.CanonicalKey(s.orders, identifier) == CashfreeKey(identifier)
  {
  }

  // ---- the two creation routes

  /** The ids a creation route generates are not in use. */
  predicate FreshStory(s: Store, storyId: string, sentenceId: string) {
    storyId !in s.storyMeta && sentenceId !in s.sentences
  }

  predicate FreshGossip(s: Store, gossipId: string, sentenceId: string) {
    gossipId !in s.gossipMeta && sentenceId !in s.sentences
  }

  lemma StoryQuota(s: Store, req: StoriesCreate.Request, p: PaymentRecord, storyId: string, sentenceId: string)
    requires QuotaValid(s)
    requires storyId !in s.storyAll && req.paymentId in s.payments && p == s.payments[req.paymentId]
    requires CountOr0(s.storiesUsed, req.paymentId) < StoriesCreate.StoryLimit(p)
    ensures QuotaValid(StoriesCreate.Write(s, req, p, storyId, sentenceId))
  {
    var t := StoriesCreate.Write(s, req, p, storyId, sentenceId);
    forall k | k in t.payments
      ensures CountOr0(t.storiesUsed, k) == Founded(t.storyAll, t.storyMeta, k)
      ensures CountOr0(t.storiesUsed, k) <= StoriesCreate.StoryLimit(t.payments[k])
    {
      FoundedAppend(s.storyAll, s.storyMeta, storyId, StoriesCreate.NewMeta(req, p), k);
    }
  }

  lemma StoryWriteLedger(s: Store, req: StoriesCreate.Request, storyId: string, sentenceId: string)
    requires LedgerValid(s) && OrdersValid(s.orders, s.payments) && StoriesCreate.Admitted(s, req)
    ensures var t := StoriesCreate.Write(s, req, s.payments[req.paymentId], storyId, sentenceId);
            LedgerValid(t) && OrdersValid(t.orders, t.payments)
  {
    var t := StoriesCreate.Write(s, req, s.payments[req.paymentId], storyId, sentenceId);
    LedgerFrame(s, t);
  }

  lemma StoryWriteGossip(s: Store, req: StoriesCreate.Request, storyId: string, sentenceId: string)
    requires GossipValid(s.gossipMeta, s.payments, s.used) && StoriesCreate.Admitted(s, req)
    ensures var t := StoriesCreate.Write(s, req, s.payments[req.paymentId], storyId, sentenceId);
            GossipValid(t.gossipMeta, t.payments, t.used)
  {
    var t := StoriesCreate.Write(s, req, s.payments[req.paymentId], storyId, sentenceId);
    forall k | Spent(s.used, k)
      ensures Spent(t.used, k)
    {
    }
    GossipGrows(s.gossipMeta, s.payments, t.payments, s.used, t.used);
  }

  lemma StoryWriteContent(s: Store, req: StoriesCreate.Request, storyId: string, sentenceId: string)
    requires ContentValid(s.storyAll, s.storyMeta, s.storySentences, s.payments)
    requires ContentValid(s.gossipAll, s.gossipMeta, s.gossipSentences, s.payments)
    requires SentencesValid(s.sentences, s.storySentences, s.gossipSentences, s.payments)
    requires FreshStory(s, storyId, sentenceId) && StoriesCreate.Admitted(s, req)
    ensures var t := StoriesCreate.Write(s, req, s.payments[req.paymentId], storyId, sentenceId);
            && ContentValid(t.storyAll, t.storyMeta, t.storySentences, t.payments)
            && ContentValid(t.gossipAll, t.gossipMeta, t.gossipSentences, t.payments)
            && SentencesValid(t.sentences, t.storySentences, t.gossipSentences, t.payments)
  {
    var p := s.payments[req.paymentId];
    var t := StoriesCreate.Write(s, req, p, storyId, sentenceId);
    ContentAppend(s.storyAll, s.storyMeta, s.storySentences, s.payments, storyId, StoriesCreate.NewMeta(req, p), sentenceId);
    ZAddKeeps(s.storySentences, storyId, p.rank, sentenceId);
    SentenceAdded(s.sentences, s.storySentences, s.gossipSentences, s.payments,
                  sentenceId, t.sentences[sentenceId], t.storySentences, t.gossipSentences);
  }

  lemma StoryWritePreserves(s: Store, req: StoriesCreate.Request, storyId: string, sentenceId: string)
    requires Valid(s) && FreshStory(s, storyId, sentenceId)
    requires StoriesCreate.Admitted(s, req)
    ensures Valid(StoriesCreate.Write(s, req, s.payments[req.paymentId], storyId, sentenceId))
  {
    StoryWriteLedger(s, req, storyId, sentenceId);
    StoryWriteGossip(s, req, storyId, sentenceId);
    assert storyId !in s.storyAll;
    StoryQuota(s, req, s.payments[req.paymentId], storyId, sentenceId);
    StoryWriteContent(s, req, storyId, sentenceId);
  }

  lemma CreateStoryPreserves(s: Store, req: StoriesCreate.Request, storyId: string, sentenceId: string)
    requires Valid(s) && FreshStory(s, storyId, sentenceId)
    ensures Valid(StoriesCreate.Create(s, req, storyId, sentenceId).store)
  {
    if StoriesCreate.Admitted(s, req) {
      StoryWritePreserves(s, req, storyId, sentenceId);
    }
  }

  lemma GossipWriteLedger(s: Store, req: GossipsCreate.Request, gossipId: string, sentenceId: string)
    requires LedgerValid(s) && QuotaValid(s) && OrdersValid(s.orders, s.payments)
    requires GossipsCreate.Admitted(s, req)
    ensures var t := GossipsCreate.Write(s, req, s.payments[req.paymentId], gossipId, sentenceId);
            LedgerValid(t) && OrdersValid(t.orders, t.payments) && QuotaValid(t)
  {
    var t := GossipsCreate.Write(s, req, s.payments[req.paymentId], gossipId, sentenceId);
    LedgerFrame(s, t);
  }

  lemma GossipWriteGossip(s: Store, req: GossipsCreate.Request, gossipId: string, sentenceId: string)
    requires GossipValid(s.gossipMeta, s.payments, s.used)
    requires gossipId !in s.gossipMeta && GossipsCreate.Admitted(s, req)
    ensures var t := GossipsCreate.Write(s, req, s.payments[req.paymentId], gossipId, sentenceId);
            GossipValid(t.gossipMeta, t.payments, t.used)
  {
    var p := s.payments[req.paymentId];
    var t := GossipsCreate.Write(s, req, p, gossipId, sentenceId);
    forall k | Spent(s.used, k)
      ensures Spent(t.used, k)
    {
    }
    GossipAdded(s.gossipMeta, s.payments, s.used, t.used, gossipId, GossipsCreate.NewMeta(req, p));
  }

  lemma GossipWriteContent(s: Store, req: GossipsCreate.Request, gossipId: string, sentenceId: string)
    requires ContentValid(s.storyAll, s.storyMeta, s.storySentences, s.payments)
    requires ContentValid(s.gossipAll, s.gossipMeta, s.gossipSentences, s.payments)
    requires SentencesValid(s.sentences, s.storySentences, s.gossipSentences, s.payments)
    requires FreshGossip(s, gossipId, sentenceId) && GossipsCreate.Admitted(s, req)
    ensures var t := GossipsCreate.Write(s, req, s.payments[req.paymentId], gossipId, sentenceId);
            && ContentValid(t.storyAll, t.storyMeta, t.storySentences, t.payments)
            && ContentValid(t.gossipAll, t.gossipMeta, t.gossipSentences, t.payments)
            && SentencesValid(t.sentences, t.storySentences, t.gossipSentences, t.payments)
  {
    var p := s.payments[req.paymentId];
    var t := GossipsCreate.Write(s, req, p, gossipId, sentenceId);
    ContentAppend(s.gossipAll, s.gossipMeta, s.gossipSentences, s.payments, gossipId, GossipsCreate.NewMeta(req, p), sentenceId);
    ZAddKeeps(s.gossipSentences, gossipId, p.rank, sentenceId);
    SentenceAdded(s.sentences, s.storySentences, s.gossipSentences, s.payments,
                  sentenceId, t.sentences[sentenceId], t.storySentences, t.gossipSentences);
  }

  lemma GossipWritePreserves(s: Store, req: GossipsCreate.Request, gossipId: string, sentenceId: string)
    requires Valid(s) && FreshGossip(s, gossipId, sentenceId)
    requires GossipsCreate.Admitted(s, req)
    ensures Valid(GossipsCreate.Write(s, req, s.payments[req.paymentId], gossipId, sentenceId))
  {
    GossipWriteLedger(s, req, gossipId, sentenceId);
    GossipWriteGossip(s, req, gossipId, sentenceId);
    GossipWriteContent(s, req, gossipId, sentenceId);
  }

  lemma CreateGossipPreserves(s: Store, req: GossipsCreate.Request, gossipId: string, sentenceId: string)
    requires Valid(s) && FreshGossip(s, gossipId, sentenceId)
    ensures Valid(GossipsCreate.Create(s, req, gossipId, sentenceId).store)
  {
    if GossipsCreate.Admitted(s, req) {
      GossipWritePreserves(s, req, gossipId, sentenceId);
    }
  }
}
