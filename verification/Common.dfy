/** Small shared vocabulary: optional values, JavaScript string order and trimming. */
module Common {

  datatype Option<+T> = None | Some(value: T)

  /** Decimal digits of a number, as `String(n)` prints an integer. */
  function Decimal(n: nat): (s: string)
    ensures s != []
    ensures forall i :: 0 <= i < |s| ==> '0' <= s[i] <= '9'
  {
    if n < 10 then [Digit(n)] else Decimal(n / 10) + [Digit(n % 10)]
  }

  /** The number that decimal digits read as. */
  function ReadDecimal(s: string): (n: nat)
    requires forall i :: 0 <= i < |s| ==> '0' <= s[i] <= '9'
  {
    if s == [] then 0 else 10 * ReadDecimal(s[..|s| - 1]) + (s[|s| - 1] as int - '0' as int)
  }

  /** The digits of a number read as the number, and only zero starts with a zero. */
  lemma {:induction false} DecimalReads(n: nat)
    ensures ReadDecimal(Decimal(n)) == n
    ensures n > 0 ==> Decimal(n)[0] != '0'
  {
    if n >= 10 {
      DecimalReads(n / 10);
      var s := Decimal(n / 10) + [Digit(n % 10)];
      assert s[..|s| - 1] == Decimal(n / 10);
    }
  }

  function Digit(d: nat): (c: char)
    requires d < 10
    ensures '0' <= c <= '9' && c as int == '0' as int + d
  {
    '0' + d as char
  }

  function Pow10(k: nat): (p: nat)
    ensures p > 0
  {
    if k == 0 then 1 else 10 * Pow10(k - 1)
  }

  /** A number prints in at most `k` digits exactly when it is below 10^k. */
  lemma {:induction false} DecimalLength(n: nat, k: nat)
    requires k >= 1
    ensures |Decimal(n)| <= k <==> n < Pow10(k)
  {
    assert Pow10(1) == 10 * Pow10(0);
    if n < 10 {
      Pow10Grows(k);
    } else if k > 1 {
      DecimalLength(n / 10, k - 1);
      assert n / 10 < Pow10(k - 1) <==> n < 10 * Pow10(k - 1);
    }
  }

  lemma {:induction false} Pow10Grows(k: nat)
    requires k >= 1
    ensures Pow10(k) >= 10
  {
    if k > 1 { Pow10Grows(k - 1); }
  }

  /** JavaScript `a < b` on strings: order by the first differing code unit, a proper prefix first. */
  predicate Less(a: string, b: string) {
    if b == [] then false
    else if a == [] then true
    else if a[0] != b[0] then a[0] < b[0]
    else Less(a[1..], b[1..])
  }

  /** The first code unit that differs decides. */
  lemma {:induction false} LessByFirstDifference(p: string, x: char, u: string, y: char, v: string)
    requires x != y
    ensures Less(p + [x] + u, p + [y] + v) <==> x < y
    decreases |p|
  {
    var a, b := p + [x] + u, p + [y] + v;
    if p == [] {
      assert a == [x] + u && b == [y] + v;
    } else {
      LessByFirstDifference(p[1..], x, u, y, v);
      assert a[1..] == p[1..] + [x] + u && b[1..] == p[1..] + [y] + v;
    }
  }

  /** A text stands before its continuations. */
  lemma {:induction false} LessByLength(p: string, w: string)
    ensures Less(p, p + w) <==> w != ""
    decreases |p|
  {
    if p == [] {
      assert p + w == w;
    } else {
      LessByLength(p[1..], w);
      assert (p + w)[1..] == p[1..] + w;
    }
  }

  predicate AtMost(a: string, b: string) {
    !Less(b, a)
  }

  lemma {:induction false} LessTotal(a: string, b: string)
    ensures a == b || Less(a, b) || Less(b, a)
    ensures !(Less(a, b) && Less(b, a))
    ensures a == b ==> !Less(a, b)
  {
    if a != [] && b != [] && a[0] == b[0] {
      LessTotal(a[1..], b[1..]);
      assert a == [a[0]] + a[1..] && b == [b[0]] + b[1..];
    }
  }

  lemma {:induction false} LessTransitive(a: string, b: string, c: string)
    requires Less(a, b) && Less(b, c)
    ensures Less(a, c)
  {
    if a != [] && a[0] == b[0] && b[0] == c[0] {
      LessTransitive(a[1..], b[1..], c[1..]);
    }
  }

  /** The white space that `String.prototype.trim` strips. */
  predicate IsSpace(c: char) {
    var u := c as int;
    9 <= u <= 13 || u == 0x20 || u == 0xa0 || u == 0x1680 || 0x2000 <= u <= 0x200a
    || u == 0x2028 || u == 0x2029 || u == 0x202f || u == 0x205f || u == 0x3000 || u == 0xfeff
  }

  function TrimStart(s: string): (r: string)
    ensures |r| <= |s|
    ensures r != [] ==> !IsSpace(r[0])
    ensures s != [] && !IsSpace(s[0]) ==> r == s
  {
    if s != [] && IsSpace(s[0]) then TrimStart(s[1..]) else s
  }

  function TrimEnd(s: string): (r: string)
    ensures r <= s
    ensures r != [] ==> !IsSpace(r[|r| - 1])
    ensures s != [] && !IsSpace(s[|s| - 1]) ==> r == s
  {
    if s != [] && IsSpace(s[|s| - 1]) then TrimEnd(s[..|s| - 1]) else s
  }

  function Trim(s: string): (r: string)
    ensures |r| <= |s|
    ensures r != [] ==> !IsSpace(r[0]) && !IsSpace(r[|r| - 1])
  {
    TrimEnd(TrimStart(s))
  }

  /** Trimming takes off the white space at both ends and nothing else. */
  lemma TrimTakesSpace(left: string, core: string, right: string)
    requires (forall i :: 0 <= i < |left| ==> IsSpace(left[i])) && (forall i :: 0 <= i < |right| ==> IsSpace(right[i]))
    requires core != [] ==> !IsSpace(core[0]) && !IsSpace(core[|core| - 1])
    ensures Trim(left + core + right) == core
  {
    if core == [] {
      StartTrimmed(left + right, "");
      assert left + core + right == left + right + "";
    } else {
      StartTrimmed(left, core + right);
      assert left + core + right == left + (core + right);
      EndTrimmed(core, right);
    }
  }

  lemma {:induction false} StartTrimmed(left: string, s: string)
    requires (forall i :: 0 <= i < |left| ==> IsSpace(left[i])) && (s != [] ==> !IsSpace(s[0]))
    ensures TrimStart(left + s) == s
  {
    if left == [] {
      assert left + s == s;
    } else {
      StartTrimmed(left[1..], s);
      assert (left + s)[1..] == left[1..] + s;
    }
  }

  lemma {:induction false} EndTrimmed(s: string, right: string)
    requires (forall i :: 0 <= i < |right| ==> IsSpace(right[i])) && s != [] && !IsSpace(s[|s| - 1])
    ensures TrimEnd(s + right) == s
    decreases |right|
  {
    if right == [] {
      assert s + right == s;
    } else {
      var n := |right| - 1;
      EndTrimmed(s, right[..n]);
      assert (s + right)[..|s + right| - 1] == s + right[..n];
    }
  }

  /** Trimming is idempotent: a text that neither starts nor ends with white space is left alone. */
  lemma TrimFixed(s: string)
    requires s != [] ==> !IsSpace(s[0]) && !IsSpace(s[|s| - 1])
    ensures Trim(s) == s
  {
  }
}

/** Sorting as `Array.prototype.sort` promises it: a stable, ordered permutation. */
module Sorting {

  predicate Sorted<T>(s: seq<T>, leq: (T, T) -> bool) {
    forall i, j :: 0 <= i < j < |s| ==> leq(s[i], s[j])
  }

  /** `leq` is a total preorder on the elements of `s`. */
  ghost predicate OrdersAll<T>(s: multiset<T>, leq: (T, T) -> bool) {
    && (forall x, y :: x in s && y in s ==> leq(x, y) || leq(y, x))
    && (forall x, y, z :: x in s && y in s && z in s && leq(x, y) && leq(y, z) ==> leq(x, z))
  }

  function Insert<T>(x: T, s: seq<T>, leq: (T, T) -> bool): (r: seq<T>)
    ensures multiset(r) == multiset{x} + multiset(s)
    ensures |r| == |s| + 1
  {
    if s == [] || leq(x, s[0]) then [x] + s
    else
      assert s == [s[0]] + s[1..];
      [s[0]] + Insert(x, s[1..], leq)
  }

  function Sort<T>(s: seq<T>, leq: (T, T) -> bool): (r: seq<T>)
    ensures multiset(r) == multiset(s)
    ensures |r| == |s|
  {
    if s == [] then []
    else
      assert s == [s[0]] + s[1..];
      Insert(s[0], Sort(s[1..], leq), leq)
  }

  lemma Tail<T>(s: seq<T>, leq: (T, T) -> bool)
    requires s != []
    ensures multiset(s) == multiset{s[0]} + multiset(s[1..])
    ensures Sorted(s, leq) ==> Sorted(s[1..], leq)
    ensures Sorted(s, leq) <== Sorted(s[1..], leq) && forall y :: y in multiset(s[1..]) ==> leq(s[0], y)
  {
    assert s == [s[0]] + s[1..];
    if Sorted(s[1..], leq) && forall y :: y in multiset(s[1..]) ==> leq(s[0], y) {
      forall i, j | 0 <= i < j < |s| ensures leq(s[i], s[j]) {
        assert s[j] == s[1..][j - 1] && s[j] in multiset(s[1..]);
        if i > 0 { assert s[i] == s[1..][i - 1]; }
      }
    }
  }

  lemma FirstIsLeast<T>(s: seq<T>, leq: (T, T) -> bool, y: T)
    requires s != [] && Sorted(s, leq) && y in multiset(s)
    ensures leq(s[0], y) || y == s[0]
  {
    var i :| 0 <= i < |s| && s[i] == y;
  }

  lemma {:induction false} InsertSorted<T>(x: T, s: seq<T>, leq: (T, T) -> bool)
    requires OrdersAll(multiset{x} + multiset(s), leq) && Sorted(s, leq)
    ensures Sorted(Insert(x, s, leq), leq)
  {
    var all := multiset{x} + multiset(s);
    var r := Insert(x, s, leq);
    assert x in all && leq(x, x);
    if s == [] {
    } else if leq(x, s[0]) {
      assert r == [x] + s && r[1..] == s && s[0] in all;
      forall y | y in multiset(s) ensures leq(x, y) { FirstIsLeast(s, leq, y); }
      Tail(r, leq);
    } else {
      Tail(s, leq);
      assert s[0] in all && leq(s[0], x);
      OrdersFewer(multiset{x} + multiset(s[1..]), all, leq);
      InsertSorted(x, s[1..], leq);
      assert r[1..] == Insert(x, s[1..], leq);
      forall y | y in multiset(r[1..]) ensures leq(s[0], y) {
        if y in multiset(s[1..]) { assert y in all; FirstIsLeast(s, leq, y); }
      }
      Tail(r, leq);
    }
  }

  lemma {:induction false} SortSorted<T>(s: seq<T>, leq: (T, T) -> bool)
    requires OrdersAll(multiset(s), leq)
    ensures Sorted(Sort(s, leq), leq)
  {
    if s != [] {
      var rest := s[1..];
      Tail(s, leq);
      OrdersFewer(multiset(rest), multiset(s), leq);
      SortSorted(rest, leq);
      var sorted := Sort(rest, leq);
      InsertSorted(s[0], sorted, leq);
    }
  }

  lemma OrdersFewer<T>(part: multiset<T>, all: multiset<T>, leq: (T, T) -> bool)
    requires part <= all && OrdersAll(all, leq)
    ensures OrdersAll(part, leq)
  {
    assert forall x :: x in part ==> x in all;
  }

  ghost predicate NoTies<T>(all: multiset<T>, leq: (T, T) -> bool) {
    forall x, y :: x in all && y in all && leq(x, y) && leq(y, x) ==> x == y
  }

  lemma NoTiesFewer<T>(part: multiset<T>, all: multiset<T>, leq: (T, T) -> bool)
    requires part <= all && NoTies(all, leq)
    ensures NoTies(part, leq)
  {
    assert forall x :: x in part ==> x in all;
  }

  lemma SameLength<T>(a: seq<T>, b: seq<T>)
    requires multiset(a) == multiset(b)
    ensures |a| == |b|
  {
    assert |multiset(a)| == |a| && |multiset(b)| == |b|;
  }

  lemma TailsMatch<T>(a: seq<T>, b: seq<T>, leq: (T, T) -> bool)
    requires multiset(a) == multiset(b) && a != [] && b != []
    requires Sorted(a, leq) && Sorted(b, leq) && NoTies(multiset(a), leq)
    ensures a[0] == b[0] && multiset(a[1..]) == multiset(b[1..])
    ensures Sorted(a[1..], leq) && Sorted(b[1..], leq) && NoTies(multiset(a[1..]), leq)
  {
    FirstAgrees(a, b, leq);
    Tail(a, leq);
    Tail(b, leq);
    TailsAgree(multiset(a[1..]), multiset(b[1..]), a[0]);
    NoTiesFewer(multiset(a[1..]), multiset(a), leq);
  }

  /** Two sorted arrangements of the same elements coincide when no two different elements tie. */
  lemma {:induction false} SortedUnique<T>(a: seq<T>, b: seq<T>, leq: (T, T) -> bool)
    requires multiset(a) == multiset(b)
    requires Sorted(a, leq) && Sorted(b, leq) && NoTies(multiset(a), leq)
    ensures a == b
    decreases |a|
  {
    SameLength(a, b);
    if a != [] {
      TailsMatch(a, b, leq);
      SortedUnique(a[1..], b[1..], leq);
      assert a == [a[0]] + a[1..] && b == [b[0]] + b[1..];
    }
  }

  lemma TailsAgree<T>(a: multiset<T>, b: multiset<T>, x: T)
    requires multiset{x} + a == multiset{x} + b
    ensures a == b
  {
    assert a == (multiset{x} + a) - multiset{x};
    assert b == (multiset{x} + b) - multiset{x};
  }

  lemma FirstAgrees<T>(a: seq<T>, b: seq<T>, leq: (T, T) -> bool)
    requires multiset(a) == multiset(b) && a != [] && b != []
    requires Sorted(a, leq) && Sorted(b, leq)
    requires NoTies(multiset(a), leq)
    ensures a[0] == b[0]
  {
    assert a[0] in multiset(b) && b[0] in multiset(a) && a[0] in multiset(a);
    var i :| 0 <= i < |b| && b[i] == a[0];
    var j :| 0 <= j < |a| && a[j] == b[0];
  }
}
