/** GET /api/stories and GET /api/gossips: every founded entry, in insertion order
    mapped to a summary, then sorted by the founder's rank (oldest first). The
    library sort with comparator `a.creatorRank - b.creatorRank` is stable, so it is
    modelled by a stable insertion sort whose result is proved sorted, a permutation
    and order-preserving among equal ranks. Read-only. */
module Listing {
  import opened Db

  datatype Summary = Summary(id: string, title: string, creatorRank: int, sentenceCount: nat)

  /** The summary of entry `id`: `meta.title || ""`, `createdRank || 0`, and the
      size of its sentence set (0 when the set is absent). */
  function SummaryOf(id: string, metas: map<string, Meta>, sets: map<string, map<string, int>>): (r: Summary)
    ensures r.id == id
    ensures id in metas ==> r.title == metas[id].title && r.creatorRank == metas[id].createdRank
    ensures id !in metas ==> r.title == "" && r.creatorRank == 0
    ensures r.sentenceCount == (if id in sets then |sets[id].Keys| else 0)
  {
    var meta := Lookup(metas, id);
    Summary(
      id,
      if meta.Some? then meta.value.title else "",
      if meta.Some? then meta.value.createdRank else 0,
      if id in sets then |sets[id].Keys| else 0)
  }

  /** The ids of a list of summaries, in order. */
  function Ids(s: seq<Summary>): seq<string> {
    if s == [] then [] else [s[0].id] + Ids(s[1..])
  }

  /** `ids.map(...)`: one summary per id, in list order. */
  function Summaries(ids: seq<string>, metas: map<string, Meta>, sets: map<string, map<string, int>>): (r: seq<Summary>)
    ensures |r| == |ids|
    ensures forall i :: 0 <= i < |ids| ==> r[i] == SummaryOf(ids[i], metas, sets)
    ensures Ids(r) == ids
  {
    if ids == [] then [] else [SummaryOf(ids[0], metas, sets)] + Summaries(ids[1..], metas, sets)
  }

  /** Oldest founder first. */
  predicate Sorted(s: seq<Summary>) {
    forall i, j :: 0 <= i < j < |s| ==> s[i].creatorRank <= s[j].creatorRank
  }

  /** The summaries of rank `v`, in order: what a stable sort must preserve. */
  function WithRank(s: seq<Summary>, v: int): seq<Summary> {
    if s == [] then []
    else (if s[0].creatorRank == v then [s[0]] else []) + WithRank(s[1..], v)
  }

  /** Inserts `x` before the first summary of rank at least its own. */
  function Insert(x: Summary, s: seq<Summary>): seq<Summary>
    decreases |s|
  {
    if s == [] || x.creatorRank <= s[0].creatorRank then [x] + s
    else [s[0]] + Insert(x, s[1..])
  }

  /** `WithRank` of a list with a known head. */
  lemma WithRankCons(y: Summary, r: seq<Summary>, v: int)
    ensures WithRank([y] + r, v) == (if y.creatorRank == v then [y] else []) + WithRank(r, v)
  {
    assert ([y] + r)[1..] == r;
  }

  lemma {:induction false} IdsAppend(a: seq<Summary>, b: seq<Summary>)
    ensures Ids(a + b) == Ids(a) + Ids(b)
    decreases |a|
  {
    if a == [] {
      assert a + b == b;
    } else {
      assert (a + b)[1..] == a[1..] + b;
      IdsAppend(a[1..], b);
    }
  }

  /** Where `Insert` puts `x`: past every summary of smaller rank. */
  function InsertPos(x: Summary, s: seq<Summary>): (i: nat)
    ensures i <= |s|
    decreases |s|
  {
    if s == [] || x.creatorRank <= s[0].creatorRank then 0 else 1 + InsertPos(x, s[1..])
  }

  /** `Insert` splices `x` in at `InsertPos`, leaving the rest in order. */
  lemma {:induction false} InsertAt(x: Summary, s: seq<Summary>)
    ensures Insert(x, s) == s[..InsertPos(x, s)] + [x] + s[InsertPos(x, s)..]
    decreases |s|
  {
    if s == [] || x.creatorRank <= s[0].creatorRank {
      assert s[..0] == [] && s[0..] == s;
    } else {
      var i := InsertPos(x, s[1..]);
      InsertAt(x, s[1..]);
      assert s[..i + 1] == [s[0]] + s[1..][..i];
      assert s[i + 1..] == s[1..][i..];
    }
  }

  lemma InsertPermutes(x: Summary, s: seq<Summary>)
    ensures multiset(Insert(x, s)) == multiset(s) + multiset{x}
    ensures multiset(Ids(Insert(x, s))) == multiset(Ids(s)) + multiset{x.id}
  {
    var i := InsertPos(x, s);
    InsertAt(x, s);
    assert s == s[..i] + s[i..];
    IdsAppend(s[..i] + [x], s[i..]);
    IdsAppend(s[..i], [x]);
    IdsAppend(s[..i], s[i..]);
    assert Ids([x]) == [x.id];
  }

  lemma InsertMembers(x: Summary, s: seq<Summary>)
    ensures forall y :: y in Insert(x, s) ==> y == x || y in s
  {
    var i := InsertPos(x, s);
    InsertAt(x, s);
    assert s == s[..i] + s[i..];
  }

  lemma {:induction false} InsertSorted(x: Summary, s: seq<Summary>)
    requires Sorted(s)
    ensures Sorted(Insert(x, s))
    decreases |s|
  {
    if s == [] || x.creatorRank <= s[0].creatorRank {
    } else {
      var rest := Insert(x, s[1..]);
      InsertSorted(x, s[1..]);
      InsertMembers(x, s[1..]);
      forall j | 0 <= j < |rest|
        ensures s[0].creatorRank <= rest[j].creatorRank
      {
        assert rest[j] in rest;
      }
    }
  }

  /** Every summary `Insert` skips has a smaller rank, so `x` stays behind its equals. */
  lemma {:induction false} InsertStable(x: Summary, s: seq<Summary>, v: int)
    ensures WithRank(Insert(x, s), v) == (if x.creatorRank == v then [x] else []) + WithRank(s, v)
    decreases |s|
  {
    if s == [] || x.creatorRank <= s[0].creatorRank {
      WithRankCons(x, s, v);
    } else {
      var rest := Insert(x, s[1..]);
      var head := if s[0].creatorRank == v then [s[0]] else [];
      var mine := if x.creatorRank == v then [x] else [];
      InsertStable(x, s[1..], v);
      WithRankCons(s[0], rest, v);
      WithRankCons(s[0], s[1..], v);
      assert s == [s[0]] + s[1..];
      // `x` outranks `s[0]`, so at most one of the two is kept
      assert head == [] || mine == [];
      assert head + (mine + WithRank(s[1..], v)) == mine + (head + WithRank(s[1..], v));
    }
  }

  /** A list is its head and its tail, for both summaries and ids. */
  lemma Uncons(s: seq<Summary>)
    requires s != []
    ensures multiset(s) == multiset(s[1..]) + multiset{s[0]}
    ensures multiset(Ids(s)) == multiset(Ids(s[1..])) + multiset{s[0].id}
  {
    assert s == [s[0]] + s[1..];
  }

  /** `Array.prototype.sort` with `(a, b) => a.creatorRank - b.creatorRank`: the
      result is ordered by rank and neither drops nor duplicates a summary or an id. */
  function SortByRank(s: seq<Summary>): (r: seq<Summary>)
    ensures Sorted(r)
    ensures multiset(r) == multiset(s)
    ensures multiset(Ids(r)) == multiset(Ids(s))
    decreases |s|
  {
    if s == [] then []
    else
      InsertSorted(s[0], SortByRank(s[1..]));
      InsertPermutes(s[0], SortByRank(s[1..]));
      Uncons(s);
      Insert(s[0], SortByRank(s[1..]))
  }

  /** The sort keeps summaries of equal rank in their original order. */
  lemma {:induction false} SortStable(s: seq<Summary>, v: int)
    ensures WithRank(SortByRank(s), v) == WithRank(s, v)
    decreases |s|
  {
    if s != [] {
      SortStable(s[1..], v);
      InsertStable(s[0], SortByRank(s[1..]), v);
    }
  }

  /** The `entries` array of a listing over list `ids`. */
  function List(ids: seq<string>, metas: map<string, Meta>, sets: map<string, map<string, int>>): (r: seq<Summary>)
    ensures Sorted(r)
    ensures multiset(r) == multiset(Summaries(ids, metas, sets))
    ensures multiset(Ids(r)) == multiset(ids)
    // entries of equal rank keep the order of the list
    ensures forall v :: WithRank(r, v) == WithRank(Summaries(ids, metas, sets), v)
  {
    var sums := Summaries(ids, metas, sets);
    assert forall v :: WithRank(SortByRank(sums), v) == WithRank(sums, v) by {
      forall v { SortStable(sums, v); }
    }
    SortByRank(sums)
  }

  /** GET /api/stories: the stories of `story:all`, oldest founder first, ties in list
      order. */
  function ListStories(s: Store): (r: seq<Summary>)
    ensures Sorted(r)
    ensures multiset(Ids(r)) == multiset(s.storyAll)
    ensures forall v :: WithRank(r, v) == WithRank(Summaries(s.storyAll, s.storyMeta, s.storySentences), v)
  {
    List(s.storyAll, s.storyMeta, s.storySentences)
  }

  /** GET /api/gossips: the gossips of `gossip:all`, oldest founder first, ties in list
      order. */
  function ListGossips(s: Store): (r: seq<Summary>)
    ensures Sorted(r)
    ensures multiset(Ids(r)) == multiset(s.gossipAll)
    ensures forall v :: WithRank(r, v) == WithRank(Summaries(s.gossipAll, s.gossipMeta, s.gossipSentences), v)
  {
    List(s.gossipAll, s.gossipMeta, s.gossipSentences)
  }

  /** A listing holds exactly the summaries of its list's ids, each as often as the id
      is listed. */
  lemma {:induction false} ListMembers(ids: seq<string>, metas: map<string, Meta>, sets: map<string, map<string, int>>, x: Summary)
    ensures x in List(ids, metas, sets) <==> x.id in ids && x == SummaryOf(x.id, metas, sets)
  {
    var sums := Summaries(ids, metas, sets);
    var listed := List(ids, metas, sets);
    assert multiset(listed) == multiset(sums);
    assert x in listed <==> x in multiset(listed);
    assert x in sums <==> x in multiset(sums);
    if x in sums {
      var i :| 0 <= i < |sums| && sums[i] == x;
      assert ids[i] == x.id;
    }
    if x.id in ids && x == SummaryOf(x.id, metas, sets) {
      var i :| 0 <= i < |ids| && ids[i] == x.id;
      assert sums[i] == x;
    }
  }

  /** An entry appended to a list that did not hold it, with its meta and a set of
      one sentence, is listed exactly once with that meta's title and rank. */
  lemma AppendedListed(ids: seq<string>, metas: map<string, Meta>, sets: map<string, map<string, int>>,
                       id: string, member: string)
    requires id !in ids && id in metas && id in sets && sets[id] == map[member := metas[id].createdRank]
    ensures Summary(id, metas[id].title, metas[id].createdRank, 1) in List(ids + [id], metas, sets)
    ensures multiset(Ids(List(ids + [id], metas, sets)))[id] == 1
  {
    var all := ids + [id];
    assert sets[id].Keys == {member};
    assert all[|ids|] == id;
    ListMembers(all, metas, sets, Summary(id, metas[id].title, metas[id].createdRank, 1));
    assert multiset(all) == multiset(ids) + multiset{id};
  }
}
