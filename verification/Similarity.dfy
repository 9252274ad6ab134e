/** Cosine similarity in exact arithmetic, and recall by it (apps/agents/src/embedding.ts, memory-rag.ts). */
module Similarity {
  import opened Common
  import Sorting

  type Vector = seq<real>

  function Dot(a: Vector, b: Vector): real
    requires |a| == |b|
  {
    if a == [] then 0.0 else Dot(a[..|a| - 1], b[..|b| - 1]) + a[|a| - 1] * b[|b| - 1]
  }

  lemma {:induction false} DotSymmetric(a: Vector, b: Vector)
    requires |a| == |b|
    ensures Dot(a, b) == Dot(b, a)
    decreases |a|
  {
    if a != [] { DotSymmetric(a[..|a| - 1], b[..|b| - 1]); }
  }

  lemma DotNext(a: Vector, b: Vector, i: nat)
    requires |a| == |b| && i < |a|
    ensures Dot(a[..i + 1], b[..i + 1]) == Dot(a[..i], b[..i]) + a[i] * b[i]
  {
    assert a[..i + 1][..i] == a[..i] && b[..i + 1][..i] == b[..i];
  }

  lemma Square(x: real)
    ensures x * x >= 0.0
  {
  }

  lemma {:induction false} NormNonNegative(a: Vector)
    ensures Dot(a, a) >= 0.0
    decreases |a|
  {
    if a != [] {
      NormNonNegative(a[..|a| - 1]);
      Square(a[|a| - 1]);
    }
  }

  /** The form t^2 p - 2 t s q + s^2 r. */
  function Form(t: real, s: real, p: real, q: real, r: real): real {
    t * t * p - 2.0 * t * s * q + s * s * r
  }

  lemma FormStep(t: real, s: real, p: real, q: real, r: real, x: real, y: real)
    requires Form(t, s, p, q, r) >= 0.0
    ensures Form(t, s, p + x * x, q + x * y, r + y * y) >= 0.0
  {
    var d := t * x - s * y;
    Square(d);
    assert Form(t, s, p + x * x, q + x * y, r + y * y) == Form(t, s, p, q, r) + d * d;
  }

  /** The sum of (t*a_i - s*b_i)^2 is never negative. */
  lemma {:induction false} SquaredDifference(a: Vector, b: Vector, t: real, s: real)
    requires |a| == |b|
    ensures Form(t, s, Dot(a, a), Dot(a, b), Dot(b, b)) >= 0.0
    decreases |a|
  {
    if a != [] {
      var n := |a| - 1;
      SquaredDifference(a[..n], b[..n], t, s);
      FormStep(t, s, Dot(a[..n], a[..n]), Dot(a[..n], b[..n]), Dot(b[..n], b[..n]), a[n], b[n]);
    }
  }

  /** A form that is never negative although its last coefficient is 0 has no middle term. */
  lemma NoMiddleTerm(a: Vector, b: Vector)
    requires |a| == |b| && Dot(b, b) == 0.0
    ensures Dot(a, b) == 0.0
  {
    var dot, na := Dot(a, b), Dot(a, a);
    if dot != 0.0 {
      var s := (na + 1.0) / (2.0 * dot);
      assert 2.0 * s * dot == na + 1.0;
      SquaredDifference(a, b, 1.0, s);
    }
  }

  /** The Cauchy-Schwarz inequality. */
  lemma CauchySchwarz(a: Vector, b: Vector)
    requires |a| == |b|
    ensures Dot(a, b) * Dot(a, b) <= Dot(a, a) * Dot(b, b)
  {
    var dot, na, nb := Dot(a, b), Dot(a, a), Dot(b, b);
    NormNonNegative(b);
    if nb == 0.0 { NoMiddleTerm(a, b); }
    assert Form(nb, dot, na, dot, nb) >= 0.0 by { SquaredDifference(a, b, nb, dot); }
    Discriminant(dot, na, nb);
  }

  lemma Discriminant(dot: real, na: real, nb: real)
    requires nb >= 0.0 && Form(nb, dot, na, dot, nb) >= 0.0 && (nb == 0.0 ==> dot == 0.0)
    ensures dot * dot <= na * nb
  {
    var gap := na * nb - dot * dot;
    assert Form(nb, dot, na, dot, nb) == nb * gap;
    if nb > 0.0 { SignOfFactor(nb, gap); }
  }

  lemma SignOfFactor(x: real, y: real)
    requires x > 0.0 && x * y >= 0.0
    ensures y >= 0.0
  {
  }

  /** `Math.sqrt` on non-negative numbers. */
  ghost predicate IsSqrt(sqrt: real -> real) {
    sqrt(0.0) == 0.0 && forall x {:trigger sqrt(x)} :: x >= 0.0 ==> sqrt(x) >= 0.0 && sqrt(x) * sqrt(x) == x
  }

  function Cosine(a: Vector, b: Vector, sqrt: real -> real): real {
    if a == [] || |a| != |b| then 0.0
    else Quotient(Dot(a, b), sqrt(Dot(a, a)), sqrt(Dot(b, b)))
  }

  function Quotient(dot: real, ra: real, rb: real): real {
    var denom := ra * rb;
    if denom == 0.0 then 0.0 else dot / denom
  }

  method CosineSimilarity(a: Vector, b: Vector, sqrt: real -> real) returns (score: real)
    requires IsSqrt(sqrt)
    ensures score == Cosine(a, b, sqrt)
    ensures -1.0 <= score <= 1.0
  {
    CosineInRange(a, b, sqrt);
    if |a| == 0 || |a| != |b| { return 0.0; }
    var dot, na, nb := Sums(a, b);
    return Quotient(dot, sqrt(na), sqrt(nb));
  }

  method Sums(a: Vector, b: Vector) returns (dot: real, na: real, nb: real)
    requires |a| == |b|
    ensures dot == Dot(a, b) && na == Dot(a, a) && nb == Dot(b, b)
  {
    dot, na, nb := 0.0, 0.0, 0.0;
    for i := 0 to |a|
      invariant dot == Dot(a[..i], b[..i]) && na == Dot(a[..i], a[..i]) && nb == Dot(b[..i], b[..i])
    {
      DotNext(a, b, i);
      DotNext(a, a, i);
      DotNext(b, b, i);
      dot := dot + a[i] * b[i];
      na := na + a[i] * a[i];
      nb := nb + b[i] * b[i];
    }
    assert a[..|a|] == a && b[..|b|] == b;
  }

  lemma CosineInRange(a: Vector, b: Vector, sqrt: real -> real)
    requires IsSqrt(sqrt)
    ensures -1.0 <= Cosine(a, b, sqrt) <= 1.0
  {
    if a != [] && |a| == |b| {
      CauchySchwarz(a, b);
      NormNonNegative(a);
      NormNonNegative(b);
      var ra, rb := sqrt(Dot(a, a)), sqrt(Dot(b, b));
      if ra * rb != 0.0 { Ratio(Dot(a, b), Dot(a, a), Dot(b, b), ra, rb); }
    }
  }

  lemma Ratio(dot: real, na: real, nb: real, ra: real, rb: real)
    requires ra >= 0.0 && rb >= 0.0 && ra * ra == na && rb * rb == nb && ra * rb != 0.0 && dot * dot <= na * nb
    ensures -1.0 <= dot / (ra * rb) <= 1.0
  {
    var denom := ra * rb;
    assert denom * denom == na * nb by { assert denom * denom == (ra * ra) * (rb * rb); }
    assert denom > 0.0;
    Root(dot, denom);
    var q := dot / denom;
    assert q * denom == dot;
    SignOfFactor(denom, 1.0 - q);
    SignOfFactor(denom, q + 1.0);
  }

  lemma Root(x: real, d: real)
    requires d > 0.0 && x * x <= d * d
    ensures -d <= x <= d
  {
    if x > d { Larger(x, d); }
    if -x > d { Larger(-x, d); }
  }

  lemma Larger(x: real, d: real)
    requires x > d > 0.0
    ensures x * x > d * d
  {
    assert x * x > x * d;
  }

  /** Symmetric, and 0 on a length mismatch, on empty vectors and on a zero vector. */
  lemma CosineSymmetric(a: Vector, b: Vector, sqrt: real -> real)
    requires IsSqrt(sqrt)
    ensures Cosine(a, b, sqrt) == Cosine(b, a, sqrt)
    ensures |a| != |b| ==> Cosine(a, b, sqrt) == 0.0
    ensures |a| == |b| && (Dot(a, a) == 0.0 || Dot(b, b) == 0.0) ==> Cosine(a, b, sqrt) == 0.0
  {
    if a != [] && |a| == |b| {
      DotSymmetric(a, b);
      var ra, rb := sqrt(Dot(a, a)), sqrt(Dot(b, b));
      assert ra * rb == rb * ra;
    }
  }

  // ── Recall ───────────────────────────────────────────────────────────────────

  datatype Recalled = Recalled(id: string, text: string, score: real)

  function ByScore(): (Recalled, Recalled) -> bool {
    (a: Recalled, b: Recalled) => b.score <= a.score
  }

  function Positive(items: seq<Recalled>): seq<Recalled> {
    if items == [] then [] else (if items[0].score > 0.0 then [items[0]] else []) + Positive(items[1..])
  }

  lemma {:induction false} PositiveKeeps(items: seq<Recalled>, x: Recalled)
    ensures multiset(Positive(items))[x] == if x.score > 0.0 then multiset(items)[x] else 0
    decreases |items|
  {
    if items != [] {
      PositiveKeeps(items[1..], x);
      assert items == [items[0]] + items[1..];
      assert multiset(items)[x] == (if items[0] == x then 1 else 0) + multiset(items[1..])[x];
    }
  }

  /** `recallSemantic` on scored items: positive scores, best first, at most `k`. */
  function Recall(scored: seq<Recalled>, k: int): seq<Recalled> {
    var sorted := Sorting.Sort(Positive(scored), ByScore());
    if k <= 0 then [] else if k < |sorted| then sorted[..k] else sorted
  }

  /** At most k positive scores, best first, all taken from the scored items. */
  lemma RecallIsSound(scored: seq<Recalled>, k: int)
    ensures var r := Recall(scored, k);
            && |r| <= (if k < 0 then 0 else k)
            && (forall i, j :: 0 <= i < j < |r| ==> r[j].score <= r[i].score)
            && (forall i :: 0 <= i < |r| ==> r[i].score > 0.0)
            && multiset(r) <= multiset(scored)
  {
    var sorted := Sorting.Sort(Positive(scored), ByScore());
    SortedByScore(Positive(scored));
    var r := Recall(scored, k);
    Cut(sorted, |r|);
    assert r == sorted[..|r|];
    AllPositive(scored, r, sorted);
    forall i, j | 0 <= i < j < |r| ensures r[j].score <= r[i].score { assert ByScore()(sorted[i], sorted[j]); }
  }

  /** An item is omitted only when k are returned, and then nothing returned scores below it. */
  lemma RecallIsBest(scored: seq<Recalled>, k: int, x: Recalled)
    requires x.score > 0.0 && multiset(Recall(scored, k))[x] < multiset(scored)[x]
    ensures k > 0 ==> |Recall(scored, k)| == k
    ensures forall i :: 0 <= i < |Recall(scored, k)| ==> x.score <= Recall(scored, k)[i].score
  {
    var sorted := Sorting.Sort(Positive(scored), ByScore());
    SortedByScore(Positive(scored));
    var r := Recall(scored, k);
    assert r == sorted[..|r|];
    PositiveKeeps(scored, x);
    CutBest(sorted, |r|, x);
  }

  /** A remembered text with its vector; a payload without one has the empty vector. */
  datatype Memory = Memory(id: string, text: string, vector: Vector)

  function Score(query: Vector, m: Memory, sqrt: real -> real): Recalled {
    Recalled(m.id, m.text, Cosine(query, m.vector, sqrt))
  }

  function Scored(query: Vector, memories: seq<Memory>, sqrt: real -> real): (scored: seq<Recalled>)
    ensures |scored| == |memories|
    ensures forall i :: 0 <= i < |memories| ==> scored[i] == Score(query, memories[i], sqrt)
  {
    seq(|memories|, i requires 0 <= i < |memories| => Score(query, memories[i], sqrt))
  }

  /** `recallSemantic`: nothing without a query vector, else the best memories by cosine. */
  function RecallSemantic(query: Option<Vector>, memories: seq<Memory>, k: int, sqrt: real -> real): seq<Recalled> {
    if query.None? then [] else Recall(Scored(query.value, memories, sqrt), k)
  }

  /**
   * Recall by the cosine itself: what is returned are memories within (0, 1], best first, and a memory with a positive
   * cosine is left out only for k others that are no less similar.
   */
  lemma RecallsTheMostSimilar(query: Vector, memories: seq<Memory>, k: int, sqrt: real -> real)
    requires IsSqrt(sqrt)
    ensures var r := RecallSemantic(Some(query), memories, k, sqrt);
            && |r| <= (if k < 0 then 0 else k) && (forall i, j :: 0 <= i < j < |r| ==> r[j].score <= r[i].score)
            && (forall i :: 0 <= i < |r| ==> 0.0 < r[i].score <= 1.0 && IsOneOf(r[i], query, memories, sqrt))
            && (forall m :: m in memories && Cosine(query, m.vector, sqrt) > 0.0 && Score(query, m, sqrt) !in r
                            && k > 0 ==>
                  |r| == k && forall i :: 0 <= i < |r| ==> Cosine(query, m.vector, sqrt) <= r[i].score)
  {
    var r := RecallSemantic(Some(query), memories, k, sqrt);
    RecallsOnly(query, memories, k, sqrt);
    forall m | m in memories && Cosine(query, m.vector, sqrt) > 0.0 && Score(query, m, sqrt) !in r && k > 0
      ensures |r| == k && forall i :: 0 <= i < |r| ==> Cosine(query, m.vector, sqrt) <= r[i].score
    {
      RecallLeavesOut(query, memories, m, k, sqrt);
    }
  }

  ghost predicate IsOneOf(r: Recalled, query: Vector, memories: seq<Memory>, sqrt: real -> real) {
    exists m :: m in memories && r.id == m.id && r.text == m.text && r.score == Cosine(query, m.vector, sqrt)
  }

  lemma RecallsOnly(query: Vector, memories: seq<Memory>, k: int, sqrt: real -> real)
    requires IsSqrt(sqrt)
    ensures var r := RecallSemantic(Some(query), memories, k, sqrt);
            && |r| <= (if k < 0 then 0 else k) && (forall i, j :: 0 <= i < j < |r| ==> r[j].score <= r[i].score)
            && (forall i :: 0 <= i < |r| ==> 0.0 < r[i].score <= 1.0 && IsOneOf(r[i], query, memories, sqrt))
  {
    var scored := Scored(query, memories, sqrt);
    var r := Recall(scored, k);
    RecallIsSound(scored, k);
    forall i | 0 <= i < |r| ensures 0.0 < r[i].score <= 1.0 && IsOneOf(r[i], query, memories, sqrt) {
      assert multiset(r)[r[i]] > 0 && r[i] in multiset(scored);
      var j :| 0 <= j < |scored| && scored[j] == r[i];
      CosineInRange(query, memories[j].vector, sqrt);
    }
  }

  lemma RecallLeavesOut(query: Vector, memories: seq<Memory>, m: Memory, k: int, sqrt: real -> real)
    requires m in memories && Cosine(query, m.vector, sqrt) > 0.0 && k > 0
             && Score(query, m, sqrt) !in RecallSemantic(Some(query), memories, k, sqrt)
    ensures var r := RecallSemantic(Some(query), memories, k, sqrt);
            |r| == k && forall i :: 0 <= i < |r| ==> Cosine(query, m.vector, sqrt) <= r[i].score
  {
    var scored := Scored(query, memories, sqrt);
    var j :| 0 <= j < |memories| && memories[j] == m;
    assert scored[j] == Score(query, m, sqrt) && scored[j] in multiset(scored);
    RecallIsBest(scored, k, Score(query, m, sqrt));
  }

  lemma SelfQuotient(dot: real, root: real)
    requires root * root == dot && dot != 0.0
    ensures Quotient(dot, root, root) == 1.0
  {
    var denom := root * root;
    assert denom == dot && dot / denom == 1.0;
  }

  /** A memory with the query's own non-zero vector has cosine 1, so what is recalled first has it too. */
  lemma {:induction false} RecallsItself(query: Vector, memories: seq<Memory>, m: Memory, k: int, sqrt: real -> real)
    requires IsSqrt(sqrt) && m in memories && m.vector == query && Dot(query, query) != 0.0 && k > 0
    ensures Cosine(query, m.vector, sqrt) == 1.0
    ensures var r := RecallSemantic(Some(query), memories, k, sqrt);
            r != [] && r[0].score == 1.0
  {
    assert query != [];
    NormNonNegative(query);
    SelfQuotient(Dot(query, query), sqrt(Dot(query, query)));
    FirstIsBest(query, memories, m, k, sqrt);
  }

  lemma FirstIsBest(query: Vector, memories: seq<Memory>, m: Memory, k: int, sqrt: real -> real)
    requires IsSqrt(sqrt) && m in memories && Cosine(query, m.vector, sqrt) == 1.0 && k > 0
    ensures var r := RecallSemantic(Some(query), memories, k, sqrt);
            r != [] && r[0].score == 1.0
  {
    var r := RecallSemantic(Some(query), memories, k, sqrt);
    RecallsOnly(query, memories, k, sqrt);
    if Score(query, m, sqrt) in r {
      var i :| 0 <= i < |r| && r[i] == Score(query, m, sqrt);
      assert r[i].score <= r[0].score;
    } else {
      RecallLeavesOut(query, memories, m, k, sqrt);
    }
  }

  lemma SortedByScore(s: seq<Recalled>)
    ensures Sorting.Sorted(Sorting.Sort(s, ByScore()), ByScore())
  {
    Sorting.SortSorted(s, ByScore());
  }

  lemma AllPositive(scored: seq<Recalled>, r: seq<Recalled>, sorted: seq<Recalled>)
    requires multiset(sorted) == multiset(Positive(scored)) && forall x :: multiset(r)[x] <= multiset(sorted)[x]
    ensures forall x: Recalled :: multiset(sorted)[x] == if x.score > 0.0 then multiset(scored)[x] else 0
    ensures forall i :: 0 <= i < |r| ==> r[i].score > 0.0
    ensures multiset(r) <= multiset(scored)
  {
    forall x: Recalled ensures multiset(sorted)[x] == if x.score > 0.0 then multiset(scored)[x] else 0 {
      PositiveKeeps(scored, x);
    }
    forall i | 0 <= i < |r| ensures r[i].score > 0.0 { assert multiset(r)[r[i]] > 0; }
  }

  lemma Cut(sorted: seq<Recalled>, n: nat)
    requires n <= |sorted|
    ensures forall x :: multiset(sorted[..n])[x] <= multiset(sorted)[x]
  {
    assert sorted == sorted[..n] + sorted[n..];
  }

  /** What a cut leaves out of a sorted list scores no more than what it keeps. */
  lemma CutBest(sorted: seq<Recalled>, n: nat, x: Recalled)
    requires n <= |sorted| && Sorting.Sorted(sorted, ByScore())
    requires multiset(sorted[..n])[x] < multiset(sorted)[x]
    ensures n < |sorted| && forall i :: 0 <= i < n ==> x.score <= sorted[i].score
  {
    var r := sorted[n..];
    assert sorted == sorted[..n] + r;
    assert multiset(sorted)[x] == multiset(sorted[..n])[x] + multiset(r)[x];
    assert x in multiset(r);
    var j :| 0 <= j < |r| && r[j] == x;
    assert sorted[n + j] == x;
    forall i | 0 <= i < n ensures x.score <= sorted[i].score { assert ByScore()(sorted[i], sorted[n + j]); }
  }
}
