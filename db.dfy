/** The Redis store the API routes share, as a value (`Store`) and as the mutable
    object the route handlers update step by step (`Redis`).
    Each family of keys is one map, indexed by the part of the key after its prefix:
      payment:<k>                -> payments[k]       (the JSON record, decoded)
      payment:<k>:used           -> used[k]
      payment:<k>:stories_used   -> storiesUsed[k]
      payment:<k>:sentences_used -> sentencesUsed[k]
      order:<orderId>            -> orders[orderId]
      totalPayments, totalAmount -> the two integer counters
      story:all, gossip:all      -> storyAll, gossipAll
      story:<id>:meta, gossip:<id>:meta, sentence:<id> -> storyMeta, gossipMeta, sentences
      story:<id>:sentences, gossip:<id>:sentences      -> sorted sets member -> score */
module Db {

  datatype Option<T> = None | Some(value: T)

  /** A payment record as the recording routes store it under `payment:<key>`.
      `verified` is false where the record has no such field; `maxSentences` and
      `maxStories` are None where the record has no such field (no shown route
      writes them). */
  datatype PaymentRecord = PaymentRecord(
    success: bool,
    rank: int,
    totalPayments: int,
    totalAmount: int,
    amount: int,
    amountType: string,
    paymentId: string,
    orderId: Option<string>,
    provider: string,
    verified: bool,
    maxSentences: Option<int>,
    maxStories: Option<int>)

  /** The hash `story:<id>:meta` or `gossip:<id>:meta`. */
  datatype Meta = Meta(title: string, creatorPaymentId: string, createdRank: int)

  /** The content unit a sentence hash names (its `storyId` or `gossipId` field). */
  datatype Parent = StoryParent(storyId: string) | GossipParent(gossipId: string)

  /** The hash `sentence:<id>`. */
  datatype Sentence = Sentence(text: string, authorPaymentId: string, rank: int, parent: Parent)

  datatype Store = Store(
    payments: map<string, PaymentRecord>,
    used: map<string, string>,
    storiesUsed: map<string, int>,
    sentencesUsed: map<string, int>,
    orders: map<string, string>,
    totalPayments: int,
    totalAmount: int,
    storyAll: seq<string>,
    gossipAll: seq<string>,
    storyMeta: map<string, Meta>,
    gossipMeta: map<string, Meta>,
    sentences: map<string, Sentence>,
    storySentences: map<string, map<string, int>>,
    gossipSentences: map<string, map<string, int>>)

  /** What a handler answers, together with the store it leaves behind. */
  datatype Step<R> = Step(response: R, store: Store)

  const EmptyStore := Store(map[], map[], map[], map[], map[], 0, 0, [], [],
                            map[], map[], map[], map[], map[])

  /** `redis.get(key)`: the value, or None when the key is absent. */
  function Lookup<V>(m: map<string, V>, k: string): (r: Option<V>)
    ensures r.Some? <==> k in m
    ensures r.Some? ==> r.value == m[k]
  {
    if k in m then Some(m[k]) else None
  }

  /** `parseInt(await redis.get(key) || "0", 10)` on a counter that only `incr` writes. */
  function CountOr0(m: map<string, int>, k: string): (n: int)
    ensures k in m ==> n == m[k]
    ensures k !in m ==> n == 0
  {
    if k in m then m[k] else 0
  }

  /** JavaScript's `x || d` on an optional number: absent and 0 both fall back. */
  function OrDefault(x: Option<int>, d: int): (r: int)
    ensures x.Some? && x.value != 0 ==> r == x.value
    // absent and 0 alike give the default
    ensures !(x.Some? && x.value != 0) ==> r == d
  {
    if x.Some? && x.value != 0 then x.value else d
  }

  /** `s.substring(0, n)`. */
  function Prefix(s: string, n: nat): (r: string)
    ensures r <= s
    ensures |r| == (if |s| <= n then |s| else n)
  {
    if |s| <= n then s else s[..n]
  }

  /** `zadd key score member` on the sorted set `z` (absent meaning empty). */
  function ZAdd(z: map<string, map<string, int>>, key: string, score: int, member: string): (r: map<string, map<string, int>>)
    // the set exists afterwards and scores `member` by `score`
    ensures key in r && member in r[key] && r[key][member] == score
    // its other members keep their scores; no member is dropped or added
    ensures r[key].Keys == (if key in z then z[key].Keys else {}) + {member}
    ensures key in z ==> forall m :: m in z[key] && m != member ==> r[key][m] == z[key][m]
    // every other sorted set is left alone
    ensures forall k :: k != key ==> Lookup(r, k) == Lookup(z, k)
  {
    var members := if key in z then z[key] else map[];
    z[key := members[member := score]]
  }

  /** The key a payment-form order is recorded under: `cashfree_<orderId>`. */
  function CashfreeKey(orderId: string): (key: string)
    // the fixed prefix, then the order id itself, so distinct orders get distinct keys
    ensures |key| == |"cashfree_"| + |orderId|
    ensures key[..|"cashfree_"|] == "cashfree_" && key[|"cashfree_"|..] == orderId
  {
    "cashfree_" + orderId
  }

  /** `get("payment:<k>:used") === "true"`: the payment's flag marks it spent. */
  predicate Spent(used: map<string, string>, k: string): (b: bool)
    ensures b <==> Lookup(used, k) == Some("true")
  {
    k in used && used[k] == "true"
  }

  /** Only the payment ledger changed: every content key, and the per-payment usage
      counters `stories_used` and `sentences_used`, are as before. */
  predicate ContentAndUsageUnchanged(s: Store, t: Store) {
    && t.storyAll == s.storyAll && t.gossipAll == s.gossipAll
    && t.storyMeta == s.storyMeta && t.gossipMeta == s.gossipMeta
    && t.sentences == s.sentences
    && t.storySentences == s.storySentences && t.gossipSentences == s.gossipSentences
    && t.storiesUsed == s.storiesUsed && t.sentencesUsed == s.sentencesUsed
  }

  /** The in-memory stand-in for the Redis client the routes share. */
  class Redis {
    var payments: map<string, PaymentRecord>
    var used: map<string, string>
    var storiesUsed: map<string, int>
    var sentencesUsed: map<string, int>
    var orders: map<string, string>
    var totalPayments: int
    var totalAmount: int
    var storyAll: seq<string>
    var gossipAll: seq<string>
    var storyMeta: map<string, Meta>
    var gossipMeta: map<string, Meta>
    var sentences: map<string, Sentence>
    var storySentences: map<string, map<string, int>>
    var gossipSentences: map<string, map<string, int>>

    /** An empty database. */
    constructor ()
      ensures Snapshot() == EmptyStore
    {
      payments, used, storiesUsed, sentencesUsed, orders := map[], map[], map[], map[], map[];
      totalPayments, totalAmount := 0, 0;
      storyAll, gossipAll := [], [];
      storyMeta, gossipMeta, sentences := map[], map[], map[];
      storySentences, gossipSentences := map[], map[];
    }

    /** The whole database as a value. */
    function Snapshot(): Store
      reads this
    {
      Store(payments, used, storiesUsed, sentencesUsed, orders, totalPayments, totalAmount,
            storyAll, gossipAll, storyMeta, gossipMeta, sentences, storySentences, gossipSentences)
    }

    // The store commands the routes issue; each changes one key and nothing else.

    /** `incr totalPayments`: the new value. */
    method IncrTotalPayments() returns (v: int)
      modifies this
      ensures v == old(totalPayments) + 1
      ensures Snapshot() == old(Snapshot()).(totalPayments := v)
    {
      totalPayments := totalPayments + 1;
      v := totalPayments;
    }

    /** `incrby totalAmount n`: the new value. */
    method IncrByTotalAmount(n: int) returns (v: int)
      modifies this
      ensures v == old(totalAmount) + n
      ensures Snapshot() == old(Snapshot()).(totalAmount := v)
    {
      totalAmount := totalAmount + n;
      v := totalAmount;
    }

    /** `set payment:<k> <record>`. */
    method SetPayment(k: string, rec: PaymentRecord)
      modifies this
      ensures Snapshot() == old(Snapshot()).(payments := old(payments)[k := rec])
    {
      payments := payments[k := rec];
    }

    /** `set payment:<k>:used <v>`. */
    method SetUsed(k: string, v: string)
      modifies this
      ensures Snapshot() == old(Snapshot()).(used := old(used)[k := v])
    {
      used := used[k := v];
    }

    /** `set order:<orderId> <k>`. */
    method SetOrder(orderId: string, k: string)
      modifies this
      ensures Snapshot() == old(Snapshot()).(orders := old(orders)[orderId := k])
    {
      orders := orders[orderId := k];
    }

    /** `incr payment:<k>:stories_used`: the new value (an absent counter counts as 0). */
    method IncrStoriesUsed(k: string) returns (v: int)
      modifies this
      ensures v == CountOr0(old(storiesUsed), k) + 1
      ensures Snapshot() == old(Snapshot()).(storiesUsed := old(storiesUsed)[k := v])
    {
      v := CountOr0(storiesUsed, k) + 1;
      storiesUsed := storiesUsed[k := v];
    }

    /** `hset story:<id>:meta ...` with every field of the hash. */
    method HSetStoryMeta(id: string, m: Meta)
      modifies this
      ensures Snapshot() == old(Snapshot()).(storyMeta := old(storyMeta)[id := m])
    {
      storyMeta := storyMeta[id := m];
    }

    /** `hset gossip:<id>:meta ...` with every field of the hash. */
    method HSetGossipMeta(id: string, m: Meta)
      modifies this
      ensures Snapshot() == old(Snapshot()).(gossipMeta := old(gossipMeta)[id := m])
    {
      gossipMeta := gossipMeta[id := m];
    }

    /** `hset sentence:<id> ...` with every field of the hash. */
    method HSetSentence(id: string, sentence: Sentence)
      modifies this
      ensures Snapshot() == old(Snapshot()).(sentences := old(sentences)[id := sentence])
    {
      sentences := sentences[id := sentence];
    }

    /** `zadd story:<id>:sentences score member`. */
    method ZAddStory(id: string, score: int, member: string)
      modifies this
      ensures Snapshot() == old(Snapshot()).(storySentences := ZAdd(old(storySentences), id, score, member))
    {
      storySentences := ZAdd(storySentences, id, score, member);
    }

    /** `zadd gossip:<id>:sentences score member`. */
    method ZAddGossip(id: string, score: int, member: string)
      modifies this
      ensures Snapshot() == old(Snapshot()).(gossipSentences := ZAdd(old(gossipSentences), id, score, member))
    {
      gossipSentences := ZAdd(gossipSentences, id, score, member);
    }

    /** `rpush story:all id`. */
    method RPushStory(id: string)
      modifies this
      ensures Snapshot() == old(Snapshot()).(storyAll := old(storyAll) + [id])
    {
      storyAll := storyAll + [id];
    }

    /** `rpush gossip:all id`. */
    method RPushGossip(id: string)
      modifies this
      ensures Snapshot() == old(Snapshot()).(gossipAll := old(gossipAll) + [id])
    {
      gossipAll := gossipAll + [id];
    }
  }
}
