# Paid sentences: payment-to-entitlement model

A Dafny model of the server side of a site where a paying user appends a sentence
to a collaborative story, or founds a story or a gossip. Each payment is recorded
once under its canonical key: `cashfree_<orderId>`, or `cashfree_<paymentId>` for
a pull verification without an order id. It gets a global rank, which is the value of the `totalPayments` counter,
and its amount decides what it may create. The model covers the API routes that
record payments, gate creation on them, show entitlements and list content.

- `db.dfy` (module `Db`):
  - the store as a value (`Store`, one map per Redis key family);
  - the class `Redis`, whose fields the handlers update one command at a time;
  - small helpers that model JavaScript idioms: `||` on an optional number and
    `substring(0, n)`.
- `webhook.dfy` (module `Webhook`), `POST /api/webhooks/cashfree`: the push adapter.
  It passes the header, secret and signature gates, filters for PAID payment-form
  events, and records the order once under `cashfree_<orderId>` together with an
  `order:<orderId>` mapping.
- `verify_cashfree.dfy` (module `VerifyCashfree`), `GET /api/verify-payment-cashfree`:
  the pull adapter. It picks the identifier, rejects an amount of 0, resolves the
  order mapping and records the payment once.
- `stories_create.dfy` (module `StoriesCreate`), `POST /api/stories/create`: the
  validation chain, the tier gate, the `maxStories` fallback, the writes, the
  `stories_used` increment and the legacy `used` flag.
- `gossips_create.dfy` (module `GossipsCreate`), `POST /api/gossips/create`: the
  older variant with a one-shot `used` flag.
- `check_payment.dfy` (module `CheckPayment`), `GET /api/check-payment`: the
  entitlement view.
- `payment_status.dfy` (module `PaymentStatus`), `GET /api/payment-status`: the
  order-status lookup.
- `listing.dfy` (module `Listing`), `GET /api/stories` and `GET /api/gossips`:
  summaries sorted by founder rank.
- `invariants.dfy` (module `Invariants`): `Valid`, a property of every store the
  routes reach from an empty database. The lemmas prove that each mutating route
  keeps it. Its parts:
  - ranks are exactly 1..n (for the integer amounts the model takes);
  - every order mapping points at a webhook record;
  - every founded entry is listed once and carries its founder's rank;
  - `stories_used` counts the stories a payment founded and stays within its
    quota;
  - a payment founds at most one gossip.
- `scenarios.dfy` (module `Scenarios`): properties across routes — the two
  adapters in either order, what recorded payments entitle to, and what the
  listings and the view show after a creation.

Each mutating route is written twice:
- a function from the old store to `Step(response, new store)`, which states what
  the route does;
- a handler method over `Redis` that issues the same store commands in the
  source's order and is proved to produce exactly that function's result.

The read-only routes are functions of the store.

Modelling choices:
- An absent header, query parameter, JSON field or environment variable is the
  empty string, as JavaScript's falsiness treats it.
- A body that fails to parse is `None`.
- HMAC-SHA256 with base64 is an uninterpreted parameter `sign(secret, message)`.
- The amount of a pull verification is an input, with 0 meaning undetermined.
- The ids that the creation routes draw from the clock and a random source are
  parameters.

## Model

| member | source | states |
|---|---|---|
| `Db.Lookup` | app/api/payment-status/route.ts:13-18 | `redis.get` yields a value exactly when the key is present, and that value is the stored one |
| `Db.Prefix` | app/api/stories/create/route.ts:63 | `substring(0, n)` is a prefix of the input of length exactly `n` when the input is longer, and the whole input otherwise |
| `Db.CountOr0` | app/api/check-payment/route.ts:25-26 | `parseInt(get(k) \|\| "0")` of a counter: the stored count when the key is present, 0 when it is absent |
| `Db.OrDefault` | app/api/stories/create/route.ts:45 | `x \|\| d` on a number: `x` when present and non-zero, `d` when absent or 0 |
| `Db.ZAdd` | app/api/stories/create/route.ts:77 | `zadd` leaves the set present with `member` scored by `score`, adds no other member and drops none, keeps the other members' scores, and leaves every other set alone |
| `Db.CashfreeKey` | app/api/webhooks/cashfree/route.ts:116 | the key is `cashfree_` followed by the order id itself, so distinct orders get distinct keys |
| `Db.Spent` | app/api/gossips/create/route.ts:44-45 | a payment is spent exactly when `get("payment:<k>:used")` yields "true" |
| `Db.Redis.IncrTotalPayments` | app/api/webhooks/cashfree/route.ts:123 | `incr totalPayments` returns the old value plus one and changes that counter only |
| `Db.Redis.IncrByTotalAmount` | app/api/webhooks/cashfree/route.ts:124 | `incrby totalAmount n` returns the old value plus `n` and changes that counter only |
| `Db.Redis.SetPayment` | app/api/webhooks/cashfree/route.ts:143-148 | `set payment:<k>` replaces that one record and nothing else |
| `Db.Redis.SetUsed` | app/api/webhooks/cashfree/route.ts:151-156 | `set payment:<k>:used` replaces that one flag and nothing else |
| `Db.Redis.SetOrder` | app/api/webhooks/cashfree/route.ts:159-164 | `set order:<o>` replaces that one mapping and nothing else |
| `Db.Redis.IncrStoriesUsed` | app/api/stories/create/route.ts:83 | `incr payment:<k>:stories_used` treats an absent counter as 0, returns the new value, and changes that counter only |
| `Db.Redis.HSetStoryMeta` | app/api/stories/create/route.ts:62-66 | writes one story's meta hash and nothing else |
| `Db.Redis.HSetGossipMeta` | app/api/gossips/create/route.ts:59-63 | writes one gossip's meta hash and nothing else |
| `Db.Redis.HSetSentence` | app/api/stories/create/route.ts:69-74 | writes one sentence hash and nothing else |
| `Db.Redis.ZAddStory` | app/api/stories/create/route.ts:77 | adds one member with its score to one story's sorted set, creating the set when absent |
| `Db.Redis.ZAddGossip` | app/api/gossips/create/route.ts:74 | adds one member with its score to one gossip's sorted set, creating the set when absent |
| `Db.Redis.RPushStory` | app/api/stories/create/route.ts:80 | appends one id at the end of `story:all` |
| `Db.Redis.RPushGossip` | app/api/gossips/create/route.ts:77 | appends one id at the end of `gossip:all` |
| `Webhook.AmountType` | app/api/webhooks/cashfree/route.ts:126-127 | `addSentence` exactly for 1, `createStory` exactly for 2, `unknown` for every other amount |
| `Webhook.Secret` | app/api/webhooks/cashfree/route.ts:26 | `CASHFREE_KEY_SECRET` when set, else `CASHFREE_SECRET_KEY`, set or not |
| `Webhook.NewRecord` | app/api/webhooks/cashfree/route.ts:123-139 | the record is ranked at the counter after this payment with the running total after it, carries the order's amount and the webhook's label for it, names `cashfree_<orderId>` and the order, is verified, and stores no quota |
| `Webhook.Deliver` | app/api/webhooks/cashfree/route.ts:9-168 | a missing signature or timestamp is a 400, an unparsable body or an unset secret a 500, and a wrong signature a 401; only an authentic PAID payment-form event reaches the ledger; every answer other than `processed` leaves the store exactly as it was; `already_processed` means the record exists; a first processing adds one to `totalPayments` and `amount` to `totalAmount`, stores a verified record ranked at the new counter with the right `amountType`, sets `used` to "false" and maps the order to `cashfree_<orderId>`, and touches no content key |
| `Webhook.DeliverTwiceIsOnce` | app/api/webhooks/cashfree/route.ts:116-164 | a second delivery of the same request changes nothing and answers `already_processed` whenever the first one reached the ledger |
| `Webhook.Post` | app/api/webhooks/cashfree/route.ts:6-168 | the handler's answer and the database it leaves are exactly those of `Deliver` |
| `Webhook.Record` | app/api/webhooks/cashfree/route.ts:115-164 | an existing record answers `already_processed` with the store unchanged; otherwise the answer is `processed` and the payment is recorded for the first time: one more payment, the amount added, a verified record ranked at the new counter, `used` "false" and the order mapping |
| `Webhook.RecordPaid` | app/api/webhooks/cashfree/route.ts:115-164 | the lookup, two increments and three sets produce exactly the recording step: nothing when the record exists, else the new record, flag and mapping |
| `VerifyCashfree.AmountType` | app/api/verify-payment-cashfree/route.ts:108-109 | `addSentence` exactly for 1, `createGossip` exactly for 2, `unknown` otherwise |
| `VerifyCashfree.Identifier` | app/api/verify-payment-cashfree/route.ts:14 | the order id when given, else the payment id |
| `VerifyCashfree.NewRecord` | app/api/verify-payment-cashfree/route.ts:104-121 | the record is ranked at the counter after this payment with the running total after it, carries the amount and the pull route's label for it, names its key, names the order only when one was given (`orderId \|\| null`), has no `verified` field (read as false), and stores no quota |
| `VerifyCashfree.Verify` | app/api/verify-payment-cashfree/route.ts:14-139 | no identifier and an amount of 0 are 400s that change nothing; an existing record under the canonical key (the mapping when set, else `cashfree_<identifier>`) is returned verbatim with nothing counted; otherwise one payment is counted, ranked at the new counter, stored unverified with `used` "false", and no order mapping or content key is written |
| `VerifyCashfree.CanonicalKey` | app/api/verify-payment-cashfree/route.ts:83-87 | the key is the one the order mapping stores when there is one, else `cashfree_<identifier>` |
| `VerifyCashfree.RecordNew` | app/api/verify-payment-cashfree/route.ts:105-137 | the answer is the record now stored under the key; for a new key, one more payment is counted, ranked at the new counter, stored unverified with `used` "false", with no order mapping or content key written |
| `VerifyCashfree.VerifyTwiceIsOnce` | app/api/verify-payment-cashfree/route.ts:89-93 | a repeated verification returns the record the first one answered and changes nothing |
| `VerifyCashfree.Get` | app/api/verify-payment-cashfree/route.ts:6-139 | the handler's answer and database are exactly those of `Verify`; its second lookup of the webhook record is proved unreachable |
| `VerifyCashfree.RecordPulled` | app/api/verify-payment-cashfree/route.ts:104-137 | the two increments and two sets store exactly the new record and its flag |
| `StoriesCreate.StoryLimit` | app/api/stories/create/route.ts:45 | the stored `maxStories` when set and non-zero; when unset or 0, 1 for amount 2 and 0 otherwise |
| `StoriesCreate.StoryTier` | app/api/stories/create/route.ts:36 | a payment may found stories exactly when its amount is one of 2, 5 and 11 |
| `StoriesCreate.NewMeta` | app/api/stories/create/route.ts:62-66 | the meta keeps the title's first 100 characters (all of a shorter title), the founder's payment id and its rank |
| `StoriesCreate.Create` | app/api/stories/create/route.ts:7-94 | the checks run in order (missing field, sentence over 150, unknown payment 404, tier outside {2, 5, 11}, limit reached) and the first failure answers without any write; a story is created exactly when every check passes, and the store it leaves is exactly that of `Write`; a creation adds exactly one to `stories_used`, keeps it within the limit and leaves every other payment's counter alone; the ledger and order mappings are never touched |
| `StoriesCreate.CreatedStores` | app/api/stories/create/route.ts:61-88 | a creation stores the meta with the title cut to 100 characters and the payment's rank, the sentence with that rank, a sorted set holding exactly that sentence scored by the rank, and the story at the end of `story:all`; it sets `used` to "true" exactly when the amount is 2 |
| `StoriesCreate.Write` | app/api/stories/create/route.ts:62-88 | the writes store the new meta, the whole first sentence (text, author, rank, story) beside the other sentences, a one-member sorted set for a fresh story with every other story's set unchanged, the story at the end of `story:all`, one more `stories_used` for this payment only, and `used` "true" exactly for amount 2; `sentences_used`, the ledger, order mappings and the gossip side are untouched |
| `StoriesCreate.Post` | app/api/stories/create/route.ts:5-94 | the handler's answer and database are exactly those of `Create` |
| `StoriesCreate.WriteStory` | app/api/stories/create/route.ts:61-88 | the six store commands of a creation produce exactly the written store |
| `GossipsCreate.Create` | app/api/gossips/create/route.ts:7-86 | the checks run in order (missing field, sentence over 30, unknown payment 404, amount other than 2, flag already "true") and the first failure answers without any write; a gossip is created exactly when all pass, the store it leaves is exactly that of `Write`, and the creation leaves the flag "true"; payments, order mappings, both totals and the usage counters are untouched |
| `GossipsCreate.NewMeta` | app/api/gossips/create/route.ts:59-63 | the meta keeps the title's first 100 characters (all of a shorter title), the founder's payment id and its rank |
| `GossipsCreate.SecondCreateRefused` | app/api/gossips/create/route.ts:43-80 | after one creation, any further valid request with the same payment is refused as already used and changes nothing |
| `GossipsCreate.CreatedStores` | app/api/gossips/create/route.ts:58-77 | a creation stores the meta with the title cut to 100 characters and the rank, the sentence with that rank, a sorted set holding exactly that sentence scored by the rank, and the gossip at the end of `gossip:all` |
| `GossipsCreate.Write` | app/api/gossips/create/route.ts:59-80 | the writes store the new meta, the whole first sentence (text, author, rank, gossip) beside the other sentences, a one-member sorted set for a fresh gossip with every other gossip's set unchanged, the gossip at the end of `gossip:all`, and `used` "true"; ledger, order mappings, usage counters and the story side are untouched |
| `GossipsCreate.Post` | app/api/gossips/create/route.ts:5-86 | the handler's answer and database are exactly those of `Create` |
| `GossipsCreate.WriteGossip` | app/api/gossips/create/route.ts:58-80 | the five store commands of a creation produce exactly the written store |
| `CheckPayment.Get` | app/api/check-payment/route.ts:7-42 | a missing id is the only 400; an unknown payment is `exists: false, used: false`; the counters read 0 when absent; `used` holds exactly when the flag is "true" or the amount is 1 with a sentence used; `maxSentences` is the stored non-zero value, else (unset or 0) 1 for amount 1 and 0 otherwise; `maxStories` is the stored non-zero value, else (unset or 0) 0; amount, type and rank are echoed |
| `PaymentStatus.Get` | app/api/payment-status/route.ts:6-23 | a missing order id is a plain failure; `pending` holds exactly when there is no mapping; a mapping without its record is a plain failure; otherwise the stored record is returned verbatim |
| `Listing.SummaryOf` | app/api/stories/route.ts:10-18 | the summary takes the title and rank from the meta, or "" and 0 without one, and counts the members of the sorted set, 0 without one |
| `Listing.Summaries` | app/api/stories/route.ts:7-20 | one summary per listed id, in list order |
| `Listing.InsertAt` | app/api/stories/route.ts:23 | inserting splices the item in at one position and keeps the other items in order |
| `Listing.InsertPermutes` | app/api/stories/route.ts:23 | inserting adds exactly the one item, and its id |
| `Listing.InsertSorted` | app/api/stories/route.ts:23 | inserting into a list sorted by rank keeps it sorted |
| `Listing.InsertStable` | app/api/stories/route.ts:23 | among items of any one rank, the inserted item lands before those already present |
| `Listing.SortByRank` | app/api/stories/route.ts:23 | the sort orders by ascending `creatorRank`, neither drops nor duplicates a summary, and permutes the ids |
| `Listing.SortStable` | app/api/gossips/route.ts:23 | summaries of equal rank keep their input order, as `Array.prototype.sort` is stable |
| `Listing.List` | app/api/stories/route.ts:7-25 | the entries are sorted by rank, are a permutation of the mapped summaries, carry ids that are a permutation of the list, and keep list order among equal ranks |
| `Listing.ListStories` | app/api/stories/route.ts:5-25 | the entries are sorted by rank, their ids are a permutation of `story:all`, and equal ranks keep list order |
| `Listing.ListGossips` | app/api/gossips/route.ts:5-25 | the entries are sorted by rank, their ids are a permutation of `gossip:all`, and equal ranks keep list order |
| `Listing.ListMembers` | app/api/gossips/route.ts:7-25 | a summary is listed exactly when its id is in the list and it is that id's summary |
| `Listing.AppendedListed` | app/api/gossips/route.ts:9-20 | an id newly appended with a meta and a one-member set is listed exactly once, with that meta's title and rank and a count of 1 |
| `Invariants.RecordingRanks` | app/api/webhooks/cashfree/route.ts:123-132 | a record ranked one past the old total keeps every rank within 1..n and all ranks distinct |
| `Invariants.DeliverPreserves` | app/api/webhooks/cashfree/route.ts:115-164 | every webhook delivery keeps the invariant |
| `Invariants.VerifyPreserves` | app/api/verify-payment-cashfree/route.ts:82-137 | every pull verification keeps the invariant |
| `Invariants.CanonicalKeyIsCashfreeKey` | app/api/verify-payment-cashfree/route.ts:83-87 | under the invariant the canonical key is always `cashfree_<identifier>`, since a mapping says the same |
| `Invariants.StoryQuota` | app/api/stories/create/route.ts:44-83 | an admitted story keeps `stories_used` equal to the stories founded and within the quota |
| `Invariants.CreateStoryPreserves` | app/api/stories/create/route.ts:24-88 | every story creation with unused ids keeps the invariant |
| `Invariants.GossipWriteGossip` | app/api/gossips/create/route.ts:43-80 | an admitted gossip keeps every gossip founded by a spent payment of 2, one per payment |
| `Invariants.CreateGossipPreserves` | app/api/gossips/create/route.ts:24-80 | every gossip creation with unused ids keeps the invariant |
| `Scenarios.WebhookThenVerify` | app/api/verify-payment-cashfree/route.ts:83-93 | after the webhook records an order, verifying the same order returns the webhook's record and counts nothing |
| `Scenarios.VerifyThenWebhook` | app/api/webhooks/cashfree/route.ts:116-120 | after a pull verification by order id, the webhook for that order answers `already_processed` and writes nothing; the record stays unverified and the status page keeps answering pending |
| `Scenarios.AmountTypesDisagree` | app/api/verify-payment-cashfree/route.ts:108-109 | the two adapters label a payment of 2 differently |
| `Scenarios.AtMostOneStory` | app/api/stories/create/route.ts:44-53 | in every reachable store a payment has founded at most one story, and only when it paid 2 |
| `Scenarios.StatusShowsOnlyWebhookRecords` | app/api/payment-status/route.ts:13-23 | under the invariant the status never finds a mapping without its record, and it returns only webhook (verified) records |
| `Scenarios.ViewUnderstatesStoryQuota` | app/api/check-payment/route.ts:39 | for every recorded payment the view reports `maxStories` 0, while the story route allows 1 for amount 2; `storiesUsed` equals the stories founded |
| `Scenarios.FirstStoryOfTwoAdmitted` | app/api/stories/create/route.ts:35-53 | a valid request from a payment of 2 that has founded no story is admitted |
| `Scenarios.NoStoryForFiveOrEleven` | app/api/stories/create/route.ts:35-53 | a valid request from a recorded payment of 5 or 11 is refused with a limit of 0 and changes nothing |
| `Scenarios.StoryThenGossipRefused` | app/api/stories/create/route.ts:86-88 | a story spends a payment of 2 for the gossip route |
| `Scenarios.GossipThenStoryAdmitted` | app/api/gossips/create/route.ts:79-80 | a gossip does not count against the story quota, so the same payment can still found its story |
| `Scenarios.StoryListedAfterCreate` | app/api/stories/route.ts:7-23 | right after a creation with fresh ids, the story is listed once with the cut title, the payment's rank and one sentence |
| `Scenarios.GossipListedAfterCreate` | app/api/gossips/route.ts:7-23 | right after a creation with fresh ids, the gossip is listed once with the cut title, the payment's rank and one sentence |
| `Scenarios.StoryShowsInView` | app/api/check-payment/route.ts:25-30 | after a story, the view shows the payment with one more story used, and as used when it paid 2 |
| `Scenarios.GossipShowsInView` | app/api/check-payment/route.ts:29-30 | after a gossip, the view shows its payment as used |

## Left out

- Signature: HMAC-SHA256 and base64 are not modelled. `sign` is an uninterpreted
  parameter, compared for equality as the handler compares the strings.
- Amount fetch: the Cashfree order fetch and its call into the network are not
  modelled, nor is `parseFloat` of the query parameter. The amount is an integer
  input, with 0 meaning undetermined.
- Amount values: floating-point amounts and the paise-to-rupee division are not
  modelled. Amounts are integers.
- Invariants.LedgerValid: dense ranks (exactly 1..n) hold only because amounts are
  integers here. In the pull route, `parseFloat` of the `amount` parameter can give
  a fraction such as 1.5, or NaN for "abc"; either passes the `amount === 0` check
  (app/api/verify-payment-cashfree/route.ts:30,71). Then `incr totalPayments`
  (line 105) succeeds and `incrby totalAmount` (line 106) fails on a non-integer,
  so the route answers 500 with the counter advanced and no record stored. That
  leaves a rank no record holds, which the model does not capture.
- Double counting: a record is unique per canonical key only. A pull verification
  by `payment_id` alone, with no order mapping, records under
  `cashfree_<payment_id>` (app/api/verify-payment-cashfree/route.ts:14,83-87). The
  webhook records the same payment under `cashfree_<order_id>`, so one payment can
  be counted twice. The model allows this and does not prove otherwise.
- Other payment routes: `create-cashfree-order` and the Razorpay `verify-payment`
  wrap SDK and network calls and are not part of this model.
- Expiry: the 30-day TTLs of the `set` commands are not modelled, because they
  depend on wall-clock time. Keys never expire.
- Concurrency: every handler runs alone, start to finish. The get-then-incr
  races between concurrent requests are real and are not modelled. Nothing here
  claims the routes are free of races.
- Ids: story, gossip and sentence ids come from the clock and a random source in
  the routes. Here they are parameters. The preservation lemmas assume ids not yet
  in use, and the listing lemmas assume a story or gossip id not yet listed.
- Other routes: the React pages and components, `check-payment-by-amount` (its
  loop does nothing and it always answers `exists: false`) and `stats` are not
  modelled. `stats` reads the `count:*` counters, which no modelled route writes,
  and `totalAmount`, which both recording routes write (app/api/stats/route.ts:6-9).
- Add-sentence routes: `stories/[id]/add-sentence` and `gossips/[id]/add-sentence`
  are not part of this model.
- Logging: logging is not modelled.
- Errors: the 500 answers for a failed store command or a thrown exception are
  not modelled. The unparsable webhook body and the missing webhook secret are
  modelled. A request body that fails to parse in a creation route is not.
- Serialisation: JSON and hash-field serialisation is not modelled, including
  `rank.toString()`/`parseInt`. Records, metas and sentences are typed values
  stored whole. An `hset` is modelled as writing every field of a fresh hash.
- Key space: the store keeps one map per key family. For example,
  `payment:X:used` is kept apart from a record whose key is `X:used`. The aliasing
  the single Redis key space allows between such keys is not modelled.
- Lengths: JavaScript's `.length` counts UTF-16 code units. Here a length is the
  length of a `seq<char>`.
- VerifyCashfree.Verify: the handler's second lookup of `payment:<orderMapping>`
  is proved unreachable in `VerifyCashfree.Get`. The function leaves it out.
- `sentences_used`: `check-payment` reads it. The story add-sentence route, which
  is not modelled, reads it and increments it
  (app/api/stories/[id]/add-sentence/route.ts:54,80). No modelled route writes it,
  so in the model the amount-1 branch of `used` is reachable only from a store
  built by that route.
- Listing order: the listings read each entry's meta and set at once; the
  `Promise.all` ordering of those reads is not modelled.
- Library sort: `Array.prototype.sort` is specified by a stable insertion sort
  over values. The library's own algorithm and its in-place update of the local
  array are not modelled; sortedness, permutation and stability are proved of the
  model.
- Runtime checks of `Valid`: `Valid` is a property of the model, proved to hold
  in every reachable store. It is not a condition the routes check at runtime.
- Unknown tier: a payment of an amount other than 1 or 2 is recorded with the
  type `unknown` and entitles to nothing. The model follows the code there and
  does not reject it.
