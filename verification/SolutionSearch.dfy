/**
 * Choosing and ranking ready-made solutions: the pool of found repositories, the selection, the consistency of
 * the stored snapshot, model scores and ranking (apps/agents/src/solution-search.ts).
 */
module SolutionSearch {
  import opened Common
  import Sorting

  /** A found repository; `nameKey` is its full name in lower case, `signals` its Telegram/CRM metadata hits. */
  datatype Repo = Repo(id: int, nameKey: string, stars: int, signals: nat)

  datatype Outcome = SearchFailed | Found(incomplete: bool, items: seq<Repo>)

  datatype Entry = Entry(repo: Repo, queries: seq<nat>, order: nat)

  const MAX_CANDIDATES := 3

  // ── The pool ─────────────────────────────────────────────────────────────────

  predicate DistinctEntries(found: seq<Entry>) {
    forall i, j :: 0 <= i < j < |found| ==>
      found[i].repo.id != found[j].repo.id && found[i].repo.nameKey != found[j].repo.nameKey
  }

  /** Query lists name existing queries, each once, in the order they ran. */
  predicate QueriesOk(found: seq<Entry>, queryCount: nat) {
    forall i :: 0 <= i < |found| ==>
      && found[i].queries != [] && found[i].order == i
      && (forall a :: 0 <= a < |found[i].queries| ==> found[i].queries[a] < queryCount)
      && (forall a, b :: 0 <= a < b < |found[i].queries| ==> found[i].queries[a] < found[i].queries[b])
  }

  ghost predicate Pool(found: seq<Entry>, queryCount: nat) {
    DistinctEntries(found) && QueriesOk(found, queryCount)
  }

  function IndexById(found: seq<Entry>, id: int): (at: Option<nat>)
    ensures at.Some? ==> at.value < |found| && found[at.value].repo.id == id
    ensures at.None? ==> forall i :: 0 <= i < |found| ==> found[i].repo.id != id
  {
    if found == [] then None
    else if found[|found| - 1].repo.id == id then Some(|found| - 1)
    else IndexById(found[..|found| - 1], id)
  }

  function Names(found: seq<Entry>): set<string> {
    set e | e in found :: e.repo.nameKey
  }

  lemma NamesKept(found: seq<Entry>, i: nat, e: Entry)
    requires i < |found| && e.repo == found[i].repo
    ensures Names(found[i := e]) == Names(found)
  {
    var found' := found[i := e];
    forall x | x in found ensures x.repo.nameKey in Names(found') {
      var j :| 0 <= j < |found| && found[j] == x;
      assert found'[j].repo == x.repo && found'[j] in found';
    }
    assert found[i] in found;
  }

  lemma NamesAdded(found: seq<Entry>, e: Entry)
    ensures Names(found + [e]) == Names(found) + {e.repo.nameKey}
  {
    assert (found + [e])[|found|] == e;
  }

  /** Some entry of that repository came from that query. */
  predicate HitBy(found: seq<Entry>, id: int, q: nat) {
    exists i :: 0 <= i < |found| && found[i].repo.id == id && q in found[i].queries
  }

  /** Entries keep their repository and gain at most query `q`, and only for the repository hit. */
  predicate Grew(found: seq<Entry>, found': seq<Entry>, q: nat, id: int) {
    && |found| <= |found'|
    && (forall i :: 0 <= i < |found| ==> found'[i].repo == found[i].repo && found[i].queries <= found'[i].queries)
    && (forall i, p :: 0 <= i < |found'| && p in found'[i].queries ==>
          (i < |found| && p in found[i].queries) || (p == q && found'[i].repo.id == id))
  }

  /** A repository that a search returned is in the pool with that query, or hidden by an entry of the same name. */
  ghost predicate Kept(found: seq<Entry>, q: nat, r: Repo) {
    HitBy(found, r.id, q) || r.nameKey in Names(found)
  }

  ghost predicate KeptAll(found: seq<Entry>, results: seq<Outcome>, upTo: nat)
    requires upTo <= |results|
  {
    forall q, n :: 0 <= q < upTo && results[q].Found? && 0 <= n < |results[q].items| ==>
      Kept(found, q, results[q].items[n])
  }

  predicate Returned(results: seq<Outcome>, q: nat, id: int) {
    q < |results| && results[q].Found? && exists n :: 0 <= n < |results[q].items| && results[q].items[n].id == id
  }

  /** Every query an entry names did return that repository. */
  predicate Truthful(found: seq<Entry>, results: seq<Outcome>) {
    forall i, q :: 0 <= i < |found| && q in found[i].queries ==> Returned(results, q, found[i].repo.id)
  }

  lemma KeptStays(found: seq<Entry>, found': seq<Entry>, q: nat, id: int, p: nat, r: Repo)
    requires Grew(found, found', q, id) && Kept(found, p, r)
    ensures Kept(found', p, r)
  {
    if HitBy(found, r.id, p) {
      var i :| 0 <= i < |found| && found[i].repo.id == r.id && p in found[i].queries;
      assert found'[i].repo.id == r.id && p in found'[i].queries;
    } else {
      var e :| e in found && e.repo.nameKey == r.nameKey;
      var i :| 0 <= i < |found| && found[i] == e;
      assert found'[i] in found';
    }
  }

  lemma KeptAllStays(found: seq<Entry>, found': seq<Entry>, q: nat, id: int, results: seq<Outcome>, upTo: nat)
    requires upTo <= |results| && Grew(found, found', q, id) && KeptAll(found, results, upTo)
    ensures KeptAll(found', results, upTo)
  {
    forall p, n | 0 <= p < upTo && results[p].Found? && 0 <= n < |results[p].items|
      ensures Kept(found', p, results[p].items[n])
    {
      KeptStays(found, found', q, id, p, results[p].items[n]);
    }
  }

  lemma QueryAdded(found: seq<Entry>, i: nat, q: nat)
    requires Pool(found, q + 1) && i < |found| && q !in found[i].queries
    ensures Pool(found[i := found[i].(queries := found[i].queries + [q])], q + 1)
  {
    var e := found[i];
    assert forall a :: 0 <= a < |e.queries| ==> e.queries[a] in e.queries;
  }

  lemma EntryAdded(found: seq<Entry>, q: nat, r: Repo)
    requires Pool(found, q + 1) && r.nameKey !in Names(found)
    requires forall i :: 0 <= i < |found| ==> found[i].repo.id != r.id
    ensures Pool(found + [Entry(r, [q], |found|)], q + 1)
  {
    assert forall i :: 0 <= i < |found| ==> found[i] in found;
  }

  /** Adds one search hit: a known repository gains the query, a new name gains an entry. */
  method AddHit(found: seq<Entry>, names: set<string>, q: nat, r: Repo)
    returns (found': seq<Entry>, names': set<string>)
    requires Pool(found, q + 1) && names == Names(found)
    ensures Pool(found', q + 1) && names' == Names(found')
    ensures Grew(found, found', q, r.id)
    ensures HitBy(found', r.id, q) || r.nameKey in Names(found')
  {
    found', names' := found, names;
    var prior := IndexById(found, r.id);
    if prior.Some? {
      var e := found[prior.value];
      if q !in e.queries {
        QueryAdded(found, prior.value, q);
        NamesKept(found, prior.value, e.(queries := e.queries + [q]));
        found' := found[prior.value := e.(queries := e.queries + [q])];
      }
      assert found'[prior.value].repo.id == r.id && q in found'[prior.value].queries;
    } else if r.nameKey !in names {
      EntryAdded(found, q, r);
      NamesAdded(found, Entry(r, [q], |found|));
      names' := names + {r.nameKey};
      found' := found + [Entry(r, [q], |found|)];
      assert found'[|found|].repo.id == r.id && q in found'[|found|].queries;
    }
  }

  /** The search loop of `gatherSnapshot`: issues name the query they belong to. */
  method GatherFound(results: seq<Outcome>) returns (found: seq<Entry>, issues: seq<nat>, completed: nat)
    ensures Pool(found, |results|) && completed <= |results|
    ensures Truthful(found, results) && KeptAll(found, results, |results|)
    ensures forall i :: 0 <= i < |issues| ==> issues[i] < |results|
    ensures completed < |results| ==> issues != []
    ensures completed == 0 ==> found == [] && |issues| == |results|
    ensures completed == 0 <==> forall q :: 0 <= q < |results| ==> results[q].SearchFailed?
    ensures issues == [] <==> forall q :: 0 <= q < |results| ==> results[q].Found? && !results[q].incomplete
    ensures |issues| <= |results|
  {
    found, issues, completed := [], [], 0;
    var names: set<string> := {};
    for q := 0 to |results|
      invariant Pool(found, q) && completed <= q && names == Names(found)
      invariant Truthful(found, results) && KeptAll(found, results, q)
      invariant forall i :: 0 <= i < |issues| ==> issues[i] < q
      invariant completed < q ==> issues != []
      invariant completed == 0 ==> found == [] && |issues| == q
      invariant completed == 0 <==> forall p :: 0 <= p < q ==> results[p].SearchFailed?
      invariant issues == [] <==> forall p :: 0 <= p < q ==> results[p].Found? && !results[p].incomplete
      invariant |issues| <= q
    {
      match results[q] {
        case SearchFailed => issues := issues + [q];
        case Found(incomplete, items) =>
          completed := completed + 1;
          if incomplete { issues := issues + [q]; }
          found, names := AddHits(results, q, found, names);
      }
    }
  }

  /** All hits of one search. */
  method AddHits(results: seq<Outcome>, q: nat, found0: seq<Entry>, names0: set<string>)
    returns (found: seq<Entry>, names: set<string>)
    requires q < |results| && results[q].Found? && Pool(found0, q) && names0 == Names(found0)
    requires Truthful(found0, results) && KeptAll(found0, results, q)
    ensures Pool(found, q + 1) && names == Names(found)
    ensures Truthful(found, results) && KeptAll(found, results, q + 1)
  {
    found, names := found0, names0;
    var items := results[q].items;
    for n := 0 to |items|
      invariant Pool(found, q + 1) && names == Names(found)
      invariant Truthful(found, results) && KeptAll(found, results, q)
      invariant forall m :: 0 <= m < n ==> Kept(found, q, items[m])
    {
      ghost var before := found;
      assert Returned(results, q, items[n].id);
      found, names := AddHit(found, names, q, items[n]);
      KeptAllStays(before, found, q, items[n].id, results, q);
      forall m | 0 <= m < n ensures Kept(found, q, items[m]) { KeptStays(before, found, q, items[n].id, q, items[m]); }
    }
  }

  // ── Selection ────────────────────────────────────────────────────────────────

  /** The pool's order: the hint's signals, then stars, then first seen, then id. */
  function PoolOrder(hint: bool): (Entry, Entry) -> bool {
    (a: Entry, b: Entry) =>
      if hint && a.repo.signals != b.repo.signals then a.repo.signals > b.repo.signals
      else if a.repo.stars != b.repo.stars then a.repo.stars > b.repo.stars
      else if a.order != b.order then a.order < b.order
      else a.repo.id <= b.repo.id
  }

  /** With the hint more signals come first, otherwise and then more stars, then what was found earlier. */
  lemma PoolPrefers(a: Entry, b: Entry, hint: bool)
    requires PoolOrder(hint)(a, b)
    ensures hint ==> a.repo.signals >= b.repo.signals
    ensures !hint || a.repo.signals == b.repo.signals ==>
              a.repo.stars >= b.repo.stars && (a.repo.stars == b.repo.stars ==> a.order <= b.order)
  {
  }

  predicate DistinctIds(es: seq<Entry>) {
    forall i, j :: 0 <= i < j < |es| ==> es[i].repo.id != es[j].repo.id
  }

  predicate Picked(selected: seq<Entry>, id: int) {
    exists i :: 0 <= i < |selected| && selected[i].repo.id == id
  }

  predicate Exclusive(e: Entry, q: nat) { e.queries == [q] }

  /** A distinct part of the pool, within the limit. */
  predicate Selection(pool: seq<Entry>, selected: seq<Entry>) {
    && |selected| <= MAX_CANDIDATES && DistinctIds(selected)
    && forall i :: 0 <= i < |selected| ==> selected[i] in pool
  }

  predicate Wanted(e: Entry, q: nat, exclusive: bool) {
    if exclusive then Exclusive(e, q) else q in e.queries
  }

  /** The first entry of that query not yet picked. */
  method FirstOf(pool: seq<Entry>, selected: seq<Entry>, q: nat, exclusive: bool) returns (e: Option<Entry>)
    ensures e.Some? ==> e.value in pool && Wanted(e.value, q, exclusive) && !Picked(selected, e.value.repo.id)
    ensures e.Some? ==> exists i :: 0 <= i < |pool| && pool[i] == e.value
                                    && forall j :: 0 <= j < i && Wanted(pool[j], q, exclusive) ==>
                                         Picked(selected, pool[j].repo.id)
    ensures e.None? ==>
              forall i :: 0 <= i < |pool| && Wanted(pool[i], q, exclusive) ==> Picked(selected, pool[i].repo.id)
  {
    for i := 0 to |pool|
      invariant forall j :: 0 <= j < i && Wanted(pool[j], q, exclusive) ==> Picked(selected, pool[j].repo.id)
    {
      if Wanted(pool[i], q, exclusive) && !Picked(selected, pool[i].repo.id) { return Some(pool[i]); }
    }
    return None;
  }

  /** Every query so far that has an exclusive hit got one. */
  ghost predicate Covered(pool: seq<Entry>, selected: seq<Entry>, upTo: nat) {
    forall q, i :: 0 <= q < upTo && 0 <= i < |pool| && Exclusive(pool[i], q) ==>
      exists j :: 0 <= j < |selected| && Exclusive(selected[j], q)
  }

  /** Every pick was taken for a query before `q`. */
  ghost predicate TakenBefore(selected: seq<Entry>, q: nat) {
    forall i :: 0 <= i < |selected| ==> TakenFor(selected[i], q)
  }

  ghost predicate TakenFor(e: Entry, q: nat) {
    exists p :: 0 <= p < q && p in e.queries
  }

  lemma TakenNext(selected: seq<Entry>, q: nat, pick: Option<Entry>)
    requires TakenBefore(selected, q) && (pick.Some? ==> q in pick.value.queries)
    ensures TakenBefore(if pick.Some? then selected + [pick.value] else selected, q + 1)
  {
    forall i | 0 <= i < |selected| ensures TakenFor(selected[i], q + 1) { assert TakenFor(selected[i], q); }
  }

  /** The coverage round: one slot per query, an exclusive hit first. */
  method Coverage(pool: seq<Entry>, queryCount: nat, hint: bool) returns (selected: seq<Entry>)
    requires queryCount <= 2 && DistinctIds(pool)
    ensures Selection(pool, selected) && |selected| <= queryCount
    ensures !hint ==> Covered(pool, selected, queryCount)
  {
    selected := [];
    for q := 0 to queryCount
      invariant Selection(pool, selected) && |selected| <= q
      invariant !hint ==> Covered(pool, selected, q)
      invariant TakenBefore(selected, q)
    {
      var pick: Option<Entry> := None;
      if !hint { pick := FirstOf(pool, selected, q, true); }
      ghost var none := !hint && pick.None?;
      if pick.None? { pick := FirstOf(pool, selected, q, false); }
      if !hint { CoveredNext(pool, selected, q, pick, none); }
      TakenNext(selected, q, pick);
      if pick.Some? { selected := selected + [pick.value]; }
    }
  }

  lemma CoveredNext(pool: seq<Entry>, before: seq<Entry>, q: nat, pick: Option<Entry>, none: bool)
    requires Covered(pool, before, q) && DistinctIds(pool) && Selection(pool, before) && TakenBefore(before, q)
    requires !none ==> pick.Some? && Exclusive(pick.value, q)
    requires none ==> forall i :: 0 <= i < |pool| && Wanted(pool[i], q, true) ==> Picked(before, pool[i].repo.id)
    ensures Covered(pool, if pick.Some? then before + [pick.value] else before, q + 1)
  {
    var selected := if pick.Some? then before + [pick.value] else before;
    forall p, i | 0 <= p < q + 1 && 0 <= i < |pool| && Exclusive(pool[i], p)
      ensures exists j :: 0 <= j < |selected| && Exclusive(selected[j], p)
    {
      if p < q {
        var j :| 0 <= j < |before| && Exclusive(before[j], p);
        assert Exclusive(selected[j], p);
      } else {
        NotPickedEarlier(pool, before, q, i);
        assert Wanted(pool[i], q, true);
        assert selected[|before|] == pick.value;
      }
    }
  }

  /** An exclusive hit of a query cannot have been taken for an earlier one. */
  lemma NotPickedEarlier(pool: seq<Entry>, before: seq<Entry>, q: nat, i: nat)
    requires DistinctIds(pool) && i < |pool| && Exclusive(pool[i], q)
    requires Selection(pool, before) && TakenBefore(before, q)
    ensures !Picked(before, pool[i].repo.id)
  {
    forall j | 0 <= j < |before| ensures before[j].repo.id != pool[i].repo.id {
      var n :| 0 <= n < |pool| && pool[n] == before[j];
      assert TakenFor(before[j], q);
      var p :| 0 <= p < q && p in before[j].queries;
      assert n != i;
    }
  }

  /** Every pick from `from` on stands before every entry of the pool that was left out. */
  ghost predicate TopFirst(pool: seq<Entry>, selected: seq<Entry>, from: nat) {
    forall i, j :: from <= i < |selected| && 0 <= j < |pool| && !Picked(selected, pool[j].repo.id) ==>
      Among(pool, j, selected[i])
  }

  /** Every pick from `from` on came from the first `n` entries. */
  ghost predicate FromTop(pool: seq<Entry>, selected: seq<Entry>, from: nat, n: nat)
    requires n <= |pool|
  {
    forall i :: from <= i < |selected| ==> Among(pool, n, selected[i])
  }

  ghost predicate Among(pool: seq<Entry>, n: nat, e: Entry)
    requires n <= |pool|
  {
    exists m :: 0 <= m < n && pool[m] == e
  }

  lemma FromTopNext(pool: seq<Entry>, selected: seq<Entry>, from: nat, n: nat)
    requires n < |pool| && FromTop(pool, selected, from, n)
    ensures FromTop(pool, selected, from, n + 1) && FromTop(pool, selected + [pool[n]], from, n + 1)
  {
    var longer := selected + [pool[n]];
    forall i | from <= i < |longer|
      ensures Among(pool, n + 1, longer[i]) && (i < |selected| ==> Among(pool, n + 1, selected[i]))
    {
      if i < |selected| { assert Among(pool, n, selected[i]); } else { assert pool[n] == longer[i]; }
    }
  }

  lemma TopOfFilled(pool: seq<Entry>, selected: seq<Entry>, from: nat, n: nat)
    requires n <= |pool| && FromTop(pool, selected, from, n)
    requires forall j :: 0 <= j < n ==> Picked(selected, pool[j].repo.id)
    ensures TopFirst(pool, selected, from)
  {
    forall i, j | from <= i < |selected| && 0 <= j < |pool| && !Picked(selected, pool[j].repo.id)
      ensures Among(pool, j, selected[i])
    {
      assert Among(pool, n, selected[i]);
      var m :| 0 <= m < n && pool[m] == selected[i];
      assert n <= j;
    }
  }

  /** The rest of the slots, from the top of the pool. */
  method Fill(pool: seq<Entry>, first: seq<Entry>) returns (selected: seq<Entry>)
    requires Selection(pool, first)
    ensures Selection(pool, selected) && first <= selected && TopFirst(pool, selected, |first|)
    ensures |selected| == MAX_CANDIDATES || forall i :: 0 <= i < |pool| ==> Picked(selected, pool[i].repo.id)
  {
    selected := first;
    var n := 0;
    while n < |pool| && |selected| < MAX_CANDIDATES
      invariant 0 <= n <= |pool| && Selection(pool, selected) && first <= selected
      invariant FromTop(pool, selected, |first|, n)
      invariant forall i :: 0 <= i < n ==> Picked(selected, pool[i].repo.id)
    {
      FromTopNext(pool, selected, |first|, n);
      if !Picked(selected, pool[n].repo.id) {
        PickedStays(selected, selected + [pool[n]]);
        selected := selected + [pool[n]];
        assert selected[|selected| - 1].repo.id == pool[n].repo.id;
      }
      n := n + 1;
    }
    TopOfFilled(pool, selected, |first|, n);
  }

  /** No entry left out of the selection precedes a pick of the fill round. */
  ghost predicate BestFilled(found: seq<Entry>, selected: seq<Entry>, from: nat, hint: bool) {
    forall i, e :: from <= i < |selected| && e in found && !Picked(selected, e.repo.id) ==>
      PoolOrder(hint)(selected[i], e)
  }

  lemma FilledFromSorted(found: seq<Entry>, pool: seq<Entry>, selected: seq<Entry>, from: nat, hint: bool)
    requires TopFirst(pool, selected, from) && Sorting.Sorted(pool, PoolOrder(hint))
    requires forall e :: e in found ==> e in pool
    ensures BestFilled(found, selected, from, hint)
  {
    forall i, e | from <= i < |selected| && e in found && !Picked(selected, e.repo.id)
      ensures PoolOrder(hint)(selected[i], e)
    {
      var j :| 0 <= j < |pool| && pool[j] == e;
      assert !Picked(selected, pool[j].repo.id);
      assert Among(pool, j, selected[i]);
      var m :| 0 <= m < j && pool[m] == selected[i];
    }
  }

  lemma PoolIsSorted(found: seq<Entry>, hint: bool)
    ensures Sorting.Sorted(Sorting.Sort(found, PoolOrder(hint)), PoolOrder(hint))
  {
    Sorting.SortSorted(found, PoolOrder(hint));
  }

  /**
   * The selection: at most three distinct found repositories, one for every query with an exclusive hit; the
   * slots after the `covered` ones of the coverage round go to the top of the pool.
   */
  method Select(found: seq<Entry>, queryCount: nat, hint: bool) returns (selected: seq<Entry>, ghost covered: nat)
    requires Pool(found, queryCount) && queryCount <= 2
    ensures Selection(found, selected)
    ensures |selected| == MAX_CANDIDATES || forall i :: 0 <= i < |found| ==> Picked(selected, found[i].repo.id)
    ensures !hint ==> Covered(found, selected, queryCount)
    ensures covered <= queryCount && BestFilled(found, selected, covered, hint)
  {
    var pool := Sorting.Sort(found, PoolOrder(hint));
    PoolIsSorted(found, hint);
    SameEntries(found, pool);
    var first := Coverage(pool, queryCount, hint);
    covered := |first|;
    selected := Fill(pool, first);
    FilledFromSorted(found, pool, selected, covered, hint);
    if !hint {
      CoveredStays(pool, first, selected, queryCount);
      CoveredBack(found, pool, selected, queryCount);
    }
    forall i | 0 <= i < |found| ensures |selected| == MAX_CANDIDATES || Picked(selected, found[i].repo.id) {
      assert found[i] in found;
      var n :| 0 <= n < |pool| && pool[n] == found[i];
    }
  }

  lemma CoveredBack(found: seq<Entry>, pool: seq<Entry>, selected: seq<Entry>, n: nat)
    requires Covered(pool, selected, n) && forall e :: e in found ==> e in pool
    ensures Covered(found, selected, n)
  {
    forall q, i | 0 <= q < n && 0 <= i < |found| && Exclusive(found[i], q)
      ensures exists j :: 0 <= j < |selected| && Exclusive(selected[j], q)
    {
      assert found[i] in found;
      var k :| 0 <= k < |pool| && pool[k] == found[i];
      assert Exclusive(pool[k], q);
    }
  }

  lemma PickedStays(a: seq<Entry>, b: seq<Entry>)
    requires a <= b
    ensures forall id :: Picked(a, id) ==> Picked(b, id)
  {
    forall id | Picked(a, id) ensures Picked(b, id) {
      var i :| 0 <= i < |a| && a[i].repo.id == id;
      assert b[i] == a[i];
    }
  }

  lemma CoveredStays(pool: seq<Entry>, a: seq<Entry>, b: seq<Entry>, n: nat)
    requires Covered(pool, a, n) && a <= b
    ensures Covered(pool, b, n)
  {
    forall q, i | 0 <= q < n && 0 <= i < |pool| && Exclusive(pool[i], q)
      ensures exists j :: 0 <= j < |b| && Exclusive(b[j], q)
    {
      var j :| 0 <= j < |a| && Exclusive(a[j], q);
      assert b[j] == a[j];
    }
  }

  /** No two entries share an id, told from the multiset alone. */
  ghost predicate UniqueIds(m: multiset<Entry>) {
    (forall e :: m[e] <= 1) && forall a, b :: a in m && b in m && a.repo.id == b.repo.id ==> a == b
  }

  lemma {:induction false} DistinctIsUnique(s: seq<Entry>)
    requires DistinctIds(s)
    ensures UniqueIds(multiset(s))
    decreases |s|
  {
    if s != [] {
      var front, x := s[..|s| - 1], s[|s| - 1];
      DistinctIsUnique(front);
      assert s == front + [x];
      forall e: Entry | e in multiset(front) ensures e.repo.id != x.repo.id {
        var i :| 0 <= i < |front| && front[i] == e;
      }
    }
  }

  lemma {:induction false} UniqueIsDistinct(s: seq<Entry>)
    requires UniqueIds(multiset(s))
    ensures DistinctIds(s)
    decreases |s|
  {
    if s != [] {
      var front, x := s[..|s| - 1], s[|s| - 1];
      assert s == front + [x];
      var f, m := multiset(front), multiset(s);
      assert m == f + multiset{x};
      FewerUnique(f, m);
      UniqueIsDistinct(front);
      assert x !in f && x in m;
      forall i | 0 <= i < |front| ensures front[i].repo.id != x.repo.id { assert front[i] in f && front[i] in m; }
    }
  }

  lemma FewerUnique(f: multiset<Entry>, m: multiset<Entry>)
    requires f <= m && UniqueIds(m)
    ensures UniqueIds(f)
  {
    assert forall e :: f[e] <= m[e] && (e in f ==> e in m);
  }

  /** Sorting the pool keeps its entries and their distinct ids. */
  lemma SameEntries(found: seq<Entry>, pool: seq<Entry>)
    requires multiset(found) == multiset(pool) && DistinctEntries(found)
    ensures forall e :: e in found <==> e in pool
    ensures DistinctIds(pool)
  {
    assert forall e :: e in found <==> e in multiset(found);
    assert forall e :: e in pool <==> e in multiset(pool);
    assert DistinctIds(found);
    DistinctIsUnique(found);
    UniqueIsDistinct(pool);
  }

  // ── The snapshot ─────────────────────────────────────────────────────────────

  datatype SearchStatus = StatusOk | StatusPartial | StatusError

  datatype Candidate = Candidate(entry: Entry, evidenceError: bool)

  datatype Snapshot = Snapshot(queryCount: nat, status: SearchStatus, issues: seq<nat>, candidates: seq<Candidate>)

  function Entries(cs: seq<Candidate>): seq<Entry> {
    seq(|cs|, i requires 0 <= i < |cs| => cs[i].entry)
  }

  predicate HasEvidenceErrors(cs: seq<Candidate>) {
    exists i :: 0 <= i < |cs| && cs[i].evidenceError
  }

  /** The cross-field checks of `parseSolutionSnapshot`. */
  predicate Consistent(s: Snapshot) {
    var partial := s.issues != [] || HasEvidenceErrors(s.candidates);
    && |s.candidates| <= MAX_CANDIDATES && |s.issues| <= 4
    && (forall i :: 0 <= i < |s.issues| ==> s.issues[i] < s.queryCount)
    && (forall i, j :: 0 <= i < j < |s.candidates| ==>
          s.candidates[i].entry.repo.id != s.candidates[j].entry.repo.id
          && s.candidates[i].entry.repo.nameKey != s.candidates[j].entry.repo.nameKey)
    && (forall i, a :: 0 <= i < |s.candidates| && 0 <= a < |s.candidates[i].entry.queries| ==>
          s.candidates[i].entry.queries[a] < s.queryCount)
    && (s.status == StatusOk ==> !partial)
    && (s.status == StatusPartial ==> partial)
    && (s.status == StatusError ==> s.candidates == [] && |s.issues| == s.queryCount)
  }

  lemma SelectedDistinct(found: seq<Entry>, selected: seq<Entry>, queryCount: nat)
    requires Pool(found, queryCount) && Selection(found, selected)
    ensures forall i, j :: 0 <= i < j < |selected| ==> selected[i].repo.nameKey != selected[j].repo.nameKey
    ensures forall i, a :: 0 <= i < |selected| && 0 <= a < |selected[i].queries| ==> selected[i].queries[a] < queryCount
  {
    forall i, j | 0 <= i < j < |selected| ensures selected[i].repo.nameKey != selected[j].repo.nameKey {
      var a :| 0 <= a < |found| && found[a] == selected[i];
      var b :| 0 <= b < |found| && found[b] == selected[j];
      assert a != b;
    }
    forall i, a | 0 <= i < |selected| && 0 <= a < |selected[i].queries| ensures selected[i].queries[a] < queryCount {
      var n :| 0 <= n < |found| && found[n] == selected[i];
    }
  }

  /** `gatherSnapshot`: whatever the searches and the evidence reads return, the snapshot passes its own check. */
  method GatherSnapshot(results: seq<Outcome>, hint: bool, broken: Entry -> bool)
    returns (s: Snapshot, ghost found: seq<Entry>)
    requires 1 <= |results| <= 2
    ensures Consistent(s) && s.queryCount == |results|
    ensures Pool(found, |results|) && Truthful(found, results) && KeptAll(found, results, |results|)
    ensures Selection(found, Entries(s.candidates)) && (!hint ==> Covered(found, Entries(s.candidates), |results|))
    ensures s.status == StatusOk <==> (forall q :: 0 <= q < |results| ==> results[q].Found? && !results[q].incomplete)
                                      && (forall i :: 0 <= i < |s.candidates| ==> !s.candidates[i].evidenceError)
    ensures forall i :: 0 <= i < |s.candidates| ==> s.candidates[i].evidenceError == broken(s.candidates[i].entry)
    ensures (forall q :: 0 <= q < |results| ==> results[q].SearchFailed?) <==> s.status == StatusError
  {
    var entries, issues, completed := GatherFound(results);
    found := entries;
    var selected, _ := Select(entries, |results|, hint);
    SelectedDistinct(found, selected, |results|);
    assert found == [] ==> selected == [] by { if selected != [] { assert selected[0] in found; } }
    var candidates: seq<Candidate> := [];
    for i := 0 to |selected|
      invariant |candidates| == i && forall j :: 0 <= j < i ==> candidates[j].entry == selected[j]
      invariant forall j :: 0 <= j < i ==> candidates[j].evidenceError == broken(candidates[j].entry)
    {
      candidates := candidates + [Candidate(selected[i], broken(selected[i]))];
    }
    var status := if completed == 0 then StatusError
                  else if completed < |results| || issues != [] || HasEvidenceErrors(candidates) then StatusPartial
                  else StatusOk;
    s := Snapshot(|results|, status, issues, candidates);
    assert Entries(candidates) == selected;
  }

  // ── Model scores ─────────────────────────────────────────────────────────────

  datatype Scores = Scores(readiness: int, cis: int, relevance: int)

  /** One ranking of the model's answer; anything not of the exact shape is `Malformed`. */
  datatype Ranking = Malformed | Ranking(id: int, scores: Scores)

  predicate InRange(s: Scores) {
    1 <= s.readiness <= 5 && 1 <= s.cis <= 5 && 1 <= s.relevance <= 5
  }

  /** Every score is a whole mark from one to five. */
  lemma MarksOneToFive(s: Scores)
    ensures InRange(s) <==> && s.readiness in {1, 2, 3, 4, 5} && s.cis in {1, 2, 3, 4, 5}
                            && s.relevance in {1, 2, 3, 4, 5}
  {
  }

  function IdSet(ids: seq<int>): set<int> { set x | x in ids }

  /** The ids that the rankings name. */
  function RankedIds(items: seq<Ranking>): set<int> {
    if items == [] then {}
    else RankedIds(items[..|items| - 1]) + if items[|items| - 1].Ranking? then {items[|items| - 1].id} else {}
  }

  lemma {:induction false} RankedHas(items: seq<Ranking>, x: int)
    ensures x in RankedIds(items) <==> exists i :: 0 <= i < |items| && items[i].Ranking? && items[i].id == x
    decreases |items|
  {
    if items != [] {
      var n := |items| - 1;
      RankedHas(items[..n], x);
      if i :| 0 <= i < n && items[..n][i].Ranking? && items[..n][i].id == x {
        assert items[i].Ranking? && items[i].id == x;
      }
      if i :| 0 <= i < |items| && items[i].Ranking? && items[i].id == x {
        if i < n { assert items[..n][i] == items[i]; }
      }
    }
  }

  predicate ItemOk(r: Ranking, allowed: set<int>) {
    r.Ranking? && r.id >= 1 && r.id in allowed && InRange(r.scores)
  }

  predicate AllOk(items: seq<Ranking>, allowed: set<int>) {
    && (forall i :: 0 <= i < |items| ==> ItemOk(items[i], allowed))
    && (forall i, j :: 0 <= i < j < |items| ==> items[i].id != items[j].id)
  }

  /** The answer ranks each candidate exactly once, with scores in range. */
  predicate Acceptable(items: seq<Ranking>, ids: seq<int>) {
    |items| == |ids| && AllOk(items, IdSet(ids)) && RankedIds(items) == IdSet(ids)
  }

  /** The scores read off rankings that are all in order. */
  predicate Reads(result: map<int, Scores>, items: seq<Ranking>) {
    && result.Keys == RankedIds(items)
    && forall i :: 0 <= i < |items| && items[i].Ranking? ==>
         items[i].id in result && result[items[i].id] == items[i].scores
  }

  /** `parseModelScores`: accepted exactly when every candidate is ranked once, and then with those scores. */
  method ParseModelScores(items: seq<Ranking>, ids: seq<int>) returns (r: Option<map<int, Scores>>)
    ensures r.Some? <==> Acceptable(items, ids)
    ensures r.Some? ==> Reads(r.value, items)
  {
    if |items| != |ids| { return None; }
    var allowed := IdSet(ids);
    var result: map<int, Scores> := map[];
    for n := 0 to |items|
      invariant AllOk(items[..n], allowed) && Reads(result, items[..n])
    {
      var item := items[n];
      RankedNext(items, n, allowed, result);
      if !ItemOk(item, allowed) || item.id in result { return None; }
      result := result[item.id := item.scores];
    }
    assert items[..|items|] == items;
    RankedWithin(items, allowed);
    Sizes(result, allowed);
    return if |result| == |allowed| then Some(result) else None;
  }

  /** An answer ranking distinct candidates in their order is accepted exactly when every id starts at one or above. */
  lemma EachOnce(items: seq<Ranking>, ids: seq<int>)
    requires |items| == |ids| && (forall i, j :: 0 <= i < j < |ids| ==> ids[i] != ids[j])
    requires forall i :: 0 <= i < |ids| ==> items[i].Ranking? && items[i].id == ids[i] && InRange(items[i].scores)
    ensures Acceptable(items, ids) <==> forall i :: 0 <= i < |ids| ==> ids[i] >= 1
  {
    forall x ensures x in RankedIds(items) <==> x in IdSet(ids) { RankedHas(items, x); }
    if Acceptable(items, ids) {
      forall i | 0 <= i < |ids| ensures ids[i] >= 1 { assert ItemOk(items[i], IdSet(ids)); }
    }
  }

  /** One more ranking either joins those read so far or spoils the whole answer. */
  lemma RankedNext(items: seq<Ranking>, n: nat, allowed: set<int>, result: map<int, Scores>)
    requires n < |items| && AllOk(items[..n], allowed) && Reads(result, items[..n])
    ensures var item := items[n];
            if !ItemOk(item, allowed) || item.id in result then !AllOk(items, allowed)
            else AllOk(items[..n + 1], allowed) && Reads(result[item.id := item.scores], items[..n + 1])
  {
    var front, item := items[..n], items[n];
    assert items[..n + 1] == front + [item] && items[..n + 1][..n] == front;
    assert forall i :: 0 <= i < n ==> front[i] == items[i];
    if ItemOk(item, allowed) { RankedHas(front, item.id); }
  }

  lemma RankedWithin(items: seq<Ranking>, allowed: set<int>)
    requires AllOk(items, allowed)
    ensures RankedIds(items) <= allowed
  {
    forall x | x in RankedIds(items) ensures x in allowed { RankedHas(items, x); }
  }

  lemma Sizes(m: map<int, Scores>, allowed: set<int>)
    requires m.Keys <= allowed
    ensures |m| == |allowed| <==> m.Keys == allowed
  {
    assert |m| == |m.Keys|;
    assert allowed == m.Keys + (allowed - m.Keys);
    assert |allowed| == |m.Keys| + |allowed - m.Keys|;
    if |m| == |allowed| { assert allowed - m.Keys == {}; }
  }

  // ── Ranking ──────────────────────────────────────────────────────────────────

  /** What the ranking reads of a candidate; `ageDays` is the time since its last push, None if never. */
  datatype Judged = Judged(id: int, stars: int, denylisted: bool, openSource: bool, archived: bool,
                           ageDays: Option<real>,
                           readme: bool, install: bool, cyrillic: bool, cisIntegration: bool)

  /** `deterministicScores`, used when the model's answer was rejected. */
  function Fallback(c: Judged): (s: Scores)
    ensures InRange(s)
  {
    Scores(if c.archived then 1 else if !c.readme then 2 else if c.install then 4 else 3,
           if c.cyrillic then 4 else if c.cisIntegration then 3 else 2, 3)
  }

  function Maintenance(c: Judged): (n: int)
    ensures 1 <= n <= 5
    ensures c.archived ==> n == 1
  {
    if c.archived || c.ageDays.None? then 1
    else
      var age := if c.ageDays.value < 0.0 then 0.0 else c.ageDays.value;
      if age <= 90.0 && c.stars >= 1000 then 5
      else if age <= 270.0 && c.stars >= 100 then 4
      else if age <= 365.0 then 3
      else if age <= 730.0 then 2 else 1
  }

  function ScoresOf(c: Judged, model: map<int, Scores>): Scores {
    if c.id in model then model[c.id] else Fallback(c)
  }

  function Readiness(c: Judged, model: map<int, Scores>): int {
    var r := ScoresOf(c, model).readiness;
    if c.denylisted && r > 2 then 2 else r
  }

  function Total(c: Judged, model: map<int, Scores>): int {
    Readiness(c, model) + ScoresOf(c, model).cis + (if c.openSource then 5 else 3) + ScoresOf(c, model).relevance
      + Maintenance(c)
  }

  /** Totals lie between 7 and 25, and a denylisted candidate cannot exceed 22. */
  lemma TotalRange(c: Judged, model: map<int, Scores>)
    requires forall id :: id in model ==> InRange(model[id])
    ensures 7 <= Total(c, model) <= 25
    ensures c.denylisted ==> Total(c, model) <= 22
  {
    assert InRange(ScoresOf(c, model));
  }

  /** What each level of upkeep takes, from the date of the last push and the stars. */
  lemma UpkeepLevels(c: Judged)
    requires !c.archived && c.ageDays.Some?
    ensures Maintenance(c) >= 2 <==> c.ageDays.value <= 730.0
    ensures Maintenance(c) >= 3 <==> c.ageDays.value <= 365.0
    ensures Maintenance(c) >= 4 <==> c.ageDays.value <= 270.0 && c.stars >= 100
    ensures Maintenance(c) >= 5 <==> c.ageDays.value <= 90.0 && c.stars >= 1000
  {
  }

  /** Without the model a working installation beats a mere description, that beats none, and an archive comes last. */
  lemma FallbackPrefers(c: Judged)
    ensures var ready := (readme: bool, install: bool) =>
              Fallback(c.(archived := false, readme := readme, install := install)).readiness;
            Fallback(c.(archived := true)).readiness < ready(false, c.install) < ready(true, false) < ready(true, true)
    ensures var fits := (cyrillic: bool, integration: bool) =>
              Fallback(c.(cyrillic := cyrillic, cisIntegration := integration)).cis;
            fits(false, false) < fits(false, true) < fits(true, c.cisIntegration)
    // The marks at both ends, and relevance in the middle.
    ensures Fallback(c.(archived := true)).readiness == 1
            && Fallback(c.(archived := false, readme := true, install := true)).readiness == 4
    ensures Fallback(c.(cyrillic := false, cisIntegration := false)).cis == 2
            && Fallback(c.(cyrillic := true)).cis == 4 && Fallback(c).relevance == 3
  {
  }

  /** An open licence is worth two points, all else equal. */
  lemma OpenSourceCounts(c: Judged, model: map<int, Scores>)
    ensures Total(c.(openSource := true), model) == Total(c.(openSource := false), model) + 2
  {
    var (a, b) := (c.(openSource := true), c.(openSource := false));
    assert ScoresOf(a, model) == ScoresOf(b, model) && Maintenance(a) == Maintenance(b);
  }

  /** A deny-listed candidate loses what readiness exceeds two by, all else equal. */
  lemma DenylistCosts(c: Judged, model: map<int, Scores>)
    ensures var ready := ScoresOf(c.(denylisted := false), model).readiness;
            Total(c.(denylisted := true), model)
            == Total(c.(denylisted := false), model) - if ready > 2 then ready - 2 else 0
  {
    var (a, b) := (c.(denylisted := true), c.(denylisted := false));
    assert ScoresOf(a, model) == ScoresOf(b, model) && Maintenance(a) == Maintenance(b);
  }

  /** The model's scores count one for one, and only where it scored the candidate. */
  lemma ModelCounts(c: Judged, model: map<int, Scores>, s: Scores)
    requires !c.denylisted
    ensures Total(c, model[c.id := s]) - Total(c, model[c.id := Scores(0, 0, 0)]) == s.readiness + s.cis + s.relevance
    ensures c.id !in model ==> Total(c, model) == Total(c, model[c.id := Fallback(c)])
  {
  }

  function RankOrder(model: map<int, Scores>): (Judged, Judged) -> bool {
    (a: Judged, b: Judged) =>
      if Total(a, model) != Total(b, model) then Total(a, model) > Total(b, model)
      else if ScoresOf(a, model).relevance != ScoresOf(b, model).relevance then
        ScoresOf(a, model).relevance > ScoresOf(b, model).relevance
      else if Maintenance(a) != Maintenance(b) then Maintenance(a) > Maintenance(b)
      else if a.stars != b.stars then a.stars > b.stars
      else a.id <= b.id
  }

  function Rank(candidates: seq<Judged>, model: map<int, Scores>): (r: seq<Judged>)
    ensures multiset(r) == multiset(candidates)
  {
    Sorting.Sort(candidates, RankOrder(model))
  }

  lemma RankIsTotal(candidates: seq<Judged>, model: map<int, Scores>)
    ensures Sorting.OrdersAll(multiset(candidates), RankOrder(model))
  {
  }

  lemma RankHasNoTies(candidates: seq<Judged>, model: map<int, Scores>)
    requires forall i, j :: 0 <= i < j < |candidates| ==> candidates[i].id != candidates[j].id
    ensures Sorting.NoTies(multiset(candidates), RankOrder(model))
  {
    var order, all := RankOrder(model), multiset(candidates);
    forall a, b | a in all && b in all && order(a, b) && order(b, a) ensures a == b {
      assert a.id == b.id;
      var i :| 0 <= i < |candidates| && candidates[i] == a;
      var j :| 0 <= j < |candidates| && candidates[j] == b;
    }
  }

  /** The better total comes first; a tie is broken by relevance, then upkeep, then stars, then the smaller id. */
  lemma RankDescends(candidates: seq<Judged>, model: map<int, Scores>, i: nat, j: nat)
    requires i < j < |candidates|
    ensures |Rank(candidates, model)| == |candidates|
    ensures var (a, b) := (Rank(candidates, model)[i], Rank(candidates, model)[j]);
            var (ra, rb) := (ScoresOf(a, model).relevance, ScoresOf(b, model).relevance);
            && Total(a, model) >= Total(b, model)
            && (Total(a, model) == Total(b, model) ==>
                  ra >= rb && (ra == rb ==>
                    Maintenance(a) >= Maintenance(b) && (Maintenance(a) == Maintenance(b) ==>
                      a.stars >= b.stars && (a.stars == b.stars ==> a.id <= b.id))))
  {
    RankIsTotal(candidates, model);
    Sorting.SortSorted(candidates, RankOrder(model));
    Sorting.SameLength(Rank(candidates, model), candidates);
    assert RankOrder(model)(Rank(candidates, model)[i], Rank(candidates, model)[j]);
  }

  /** The ranking does not depend on the order of the candidates. */
  lemma RankIgnoresOrder(a: seq<Judged>, b: seq<Judged>, model: map<int, Scores>)
    requires multiset(a) == multiset(b)
    requires forall i, j :: 0 <= i < j < |a| ==> a[i].id != a[j].id
    ensures Rank(a, model) == Rank(b, model)
    ensures Sorting.Sorted(Rank(a, model), RankOrder(model))
  {
    RankIsTotal(a, model);
    RankHasNoTies(a, model);
    Sorting.SortSorted(a, RankOrder(model));
    Sorting.SortSorted(b, RankOrder(model));
    Sorting.SortedUnique(Rank(a, model), Rank(b, model), RankOrder(model));
  }

  // ── The relevance gate ───────────────────────────────────────────────────────

  datatype Signals = Signals(telegramMeta: bool, crmMeta: bool, telegramReadme: bool, crmReadme: bool)

  predicate Accepted(s: Signals) {
    (s.telegramMeta || s.telegramReadme) && (s.crmMeta || s.crmReadme) && (s.telegramMeta || s.crmMeta)
  }

  function AcceptedOf(cs: seq<Signals>): seq<Signals> {
    if cs == [] then [] else AcceptedOf(cs[..|cs| - 1]) + if Accepted(cs[|cs| - 1]) then [cs[|cs| - 1]] else []
  }

  datatype Reason = NoTelegram | NoCrm | NoAnchor

  predicate Lacks(s: Signals, reason: Reason) {
    match reason
    case NoTelegram => !s.telegramMeta && !s.telegramReadme
    case NoCrm => !s.crmMeta && !s.crmReadme
    case NoAnchor => !s.telegramMeta && !s.crmMeta
  }

  /** A candidate is accepted exactly when it lacks nothing. */
  lemma AcceptedLacksNothing(s: Signals)
    ensures Accepted(s) <==> !Lacks(s, NoTelegram) && !Lacks(s, NoCrm) && !Lacks(s, NoAnchor)
  {
  }

  function CountLacking(cs: seq<Signals>, reason: Reason): nat {
    if cs == [] then 0
    else
      var s := cs[|cs| - 1];
      CountLacking(cs[..|cs| - 1], reason) + if !Accepted(s) && Lacks(s, reason) then 1 else 0
  }

  /**
   * `applyRelevanceGate`: the accepted in order; each counter counts the rejected that lack its signal, and none lacks
   * nothing.
   */
  method ApplyRelevanceGate(cs: seq<Signals>, active: bool)
    returns (accepted: seq<Signals>, missingTelegram: nat, missingCrm: nat, missingAnchor: nat)
    ensures accepted == if active then AcceptedOf(cs) else cs
    ensures active ==> missingTelegram == CountLacking(cs, NoTelegram) && missingCrm == CountLacking(cs, NoCrm)
    ensures active ==> missingAnchor == CountLacking(cs, NoAnchor)
    ensures active ==> |cs| - |accepted| <= missingTelegram + missingCrm + missingAnchor
  {
    missingTelegram, missingCrm, missingAnchor := 0, 0, 0;
    if !active { return cs, 0, 0, 0; }
    accepted := [];
    for i := 0 to |cs|
      invariant accepted == AcceptedOf(cs[..i]) && |accepted| <= i
      invariant missingTelegram == CountLacking(cs[..i], NoTelegram) && missingCrm == CountLacking(cs[..i], NoCrm)
      invariant missingAnchor == CountLacking(cs[..i], NoAnchor)
      invariant i - |accepted| <= missingTelegram + missingCrm + missingAnchor
    {
      var s := cs[i];
      assert cs[..i + 1][..i] == cs[..i];
      if Accepted(s) { accepted := accepted + [s]; continue; }
      if !(s.telegramMeta || s.telegramReadme) { missingTelegram := missingTelegram + 1; }
      if !(s.crmMeta || s.crmReadme) { missingCrm := missingCrm + 1; }
      if !(s.telegramMeta || s.crmMeta) { missingAnchor := missingAnchor + 1; }
    }
    assert cs[..|cs|] == cs;
  }
}
