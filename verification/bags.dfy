/** Item counts. A Go `map[string]int` reads as zero where a key is absent. */
module Bags {

  type Item = string
  type Bag = map<Item, int>

  function Count(b: Bag, i: Item): int {
    if i in b then b[i] else 0
  }

  /** What the transfer loops move of `i`: they skip entries that are not positive. */
  function Amount(items: Bag, i: Item): nat {
    if i in items && items[i] > 0 then items[i] else 0
  }

  predicate Positive(b: Bag) {
    forall i :: i in b ==> b[i] > 0
  }

  ghost predicate NonNegative(b: Bag) {
    forall i :: i in b ==> b[i] >= 0
  }

  /** `b[i] += n` for each positive entry. */
  function Fill(b: Bag, items: Bag): Bag {
    map i | i in b.Keys + items.Keys && (i in b || items[i] > 0) :: Count(b, i) + Amount(items, i)
  }

  /** `b[i] -= n` for each positive entry, keeping the key whatever is left. */
  function Take(b: Bag, items: Bag): Bag {
    map i | i in b.Keys + items.Keys && (i in b || items[i] > 0) :: Count(b, i) - Amount(items, i)
  }

  /** `b[i] -= n; if b[i] <= 0 { delete(b, i) }` for each positive entry. */
  function Drain(b: Bag, items: Bag): Bag {
    map i | i in b && (Amount(items, i) == 0 || b[i] > Amount(items, i)) :: b[i] - Amount(items, i)
  }

  predicate Covers(b: Bag, items: Bag) {
    forall i :: i in items ==> items[i] <= Count(b, i)
  }

  /** Draining loses exactly what was asked for if and only if the bag held it: a short bag hands out
      items it never had. */
  lemma DrainIsExactIffCovered(b: Bag, items: Bag, i: Item)
    requires NonNegative(b)
    ensures Count(Drain(b, items), i) == Count(b, i) - Amount(items, i) <==> Amount(items, i) <= Count(b, i)
    ensures Amount(items, i) > Count(b, i) ==> Count(Drain(b, items), i) == 0
  {
  }

  // ----- sums over finite maps

  ghost function SumMap<K(!new)>(m: map<K, int>): int {
    if m == map[] then 0
    else
      var k :| k in m;
      m[k] + SumMap(m - {k})
  }

  lemma {:induction false} SumRemove<K(!new)>(m: map<K, int>, k: K)
    requires k in m
    ensures SumMap(m) == m[k] + SumMap(m - {k})
    decreases |m|
  {
    var j :| j in m && SumMap(m) == m[j] + SumMap(m - {j});
    if j != k {
      SumRemove(m - {j}, k);
      SumRemove(m - {k}, j);
      assert m - {j} - {k} == m - {k} - {j};
    }
  }

  lemma SumSet<K(!new)>(m: map<K, int>, k: K, v: int)
    ensures SumMap(m[k := v]) == SumMap(m) - (if k in m then m[k] else 0) + v
  {
    SumRemove(m[k := v], k);
    assert m[k := v] - {k} == m - {k};
    if k in m {
      SumRemove(m, k);
    } else {
      assert m - {k} == m;
    }
  }

  lemma {:induction false} SumNonNegative<K(!new)>(m: map<K, int>)
    requires forall k :: k in m ==> m[k] >= 0
    ensures SumMap(m) >= 0
    ensures forall k :: k in m ==> m[k] <= SumMap(m)
    decreases |m|
  {
    forall k | k in m ensures SumMap(m - {k}) >= 0 && SumMap(m) == m[k] + SumMap(m - {k}) {
      SumRemove(m, k);
      SumNonNegative(m - {k});
    }
    if m != map[] {
      var k :| k in m;
      assert SumMap(m - {k}) >= 0;
    }
  }

  lemma {:induction false} SumZero<K(!new)>(m: map<K, int>)
    requires forall k :: k in m ==> m[k] == 0
    ensures SumMap(m) == 0
    decreases |m|
  {
    if m != map[] {
      var k :| k in m;
      SumRemove(m, k);
      SumZero(m - {k});
    }
  }

  // ----- string order, as sort.Strings and slices.Sort use it

  predicate Leq(a: string, b: string) {
    if a == [] then true
    else if b == [] then false
    else a[0] < b[0] || (a[0] == b[0] && Leq(a[1..], b[1..]))
  }

  lemma LeqTotal(a: string, b: string)
    ensures Leq(a, b) || Leq(b, a)
  {
  }

  lemma LeqTransitive(a: string, b: string, c: string)
    requires Leq(a, b) && Leq(b, c)
    ensures Leq(a, c)
  {
  }

  lemma {:induction false} LeqAntisymmetric(a: string, b: string)
    requires Leq(a, b) && Leq(b, a)
    ensures a == b
  {
    if a != [] {
      LeqAntisymmetric(a[1..], b[1..]);
      assert a == [a[0]] + a[1..] && b == [b[0]] + b[1..];
    }
  }

  ghost predicate IsLeast(m: string, s: set<string>) {
    m in s && forall x :: x in s ==> Leq(m, x)
  }

  /** The first element of the sorted members. */
  method LeastOf(s: set<string>) returns (m: string)
    requires s != {}
    ensures IsLeast(m, s)
  {
    m :| m in s;
    var rest := s - {m};
    LeqTotal(m, m);
    while rest != {}
      invariant rest <= s && m in s
      invariant forall x :: x in s - rest ==> Leq(m, x)
      decreases rest
    {
      var x :| x in rest;
      LeqTotal(x, m);
      if Leq(x, m) {
        LeqTotal(x, x);
        forall y | y in s - rest ensures Leq(x, y) {
          LeqTransitive(x, m, y);
        }
        m := x;
      }
      rest := rest - {x};
    }
  }

  lemma {:induction false} LeastExists(s: set<string>)
    requires s != {}
    ensures exists m :: IsLeast(m, s)
    decreases s
  {
    var m :| m in s;
    LeqTotal(m, m);
    if s == {m} {
      assert IsLeast(m, s);
    } else {
      LeastExists(s - {m});
      var n :| IsLeast(n, s - {m});
      LeqTotal(m, n);
      if Leq(n, m) {
        assert IsLeast(n, s);
      } else {
        forall x | x in s - {m} ensures Leq(m, x) {
          LeqTransitive(m, n, x);
        }
        assert IsLeast(m, s);
      }
    }
  }

  ghost function Least(s: set<string>): (m: string)
    requires s != {}
    ensures IsLeast(m, s)
  {
    LeastExists(s);
    var m :| IsLeast(m, s);
    m
  }

  lemma LeastUnique(s: set<string>, a: string, b: string)
    requires IsLeast(a, s) && IsLeast(b, s)
    ensures a == b
  {
    LeqAntisymmetric(a, b);
  }
}
