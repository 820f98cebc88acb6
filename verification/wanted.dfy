/** Which chunks an observer wants: those near an agent, nearest first, up to a limit. */
module WantedChunks {
  import opened Common
  import opened Coords
  import opened Observer

  function Radius(radius: int): nat {
    if radius <= 0 then 1 else radius
  }

  function Limit(maxChunks: int): nat {
    if maxChunks <= 0 then 1024 else maxChunks
  }

  // ----- what is wanted, without a search

  predicate InSquare(a: Key, r: nat, k: Key) {
    Abs(k.cx - a.cx) <= r && Abs(k.cz - a.cz) <= r
  }

  function Steps(a: Key, k: Key): nat {
    Abs(k.cx - a.cx) + Abs(k.cz - a.cz)
  }

  function Nearer(d: Option<nat>, e: Option<nat>): Option<nat> {
    if d.None? then e else if e.None? || d.value <= e.value then d else e
  }

  /** The distance of a chunk from the nearest agent whose square it lies in. */
  function Nearest(agents: seq<Key>, r: nat, k: Key): Option<nat> {
    if agents == [] then None
    else
      var a := agents[|agents| - 1];
      Nearer(Nearest(agents[..|agents| - 1], r, k), if InSquare(a, r, k) then Some(Steps(a, k)) else None)
  }

  predicate Near(agents: seq<Key>, r: nat, k: Key) {
    Nearest(agents, r, k).Some?
  }

  /** The distance is attained, and no agent whose square holds the chunk is nearer. */
  lemma {:induction false} NearestIsLeast(agents: seq<Key>, r: nat, k: Key)
    ensures Near(agents, r, k) <==> exists a :: a in agents && InSquare(a, r, k)
    ensures forall a :: a in agents && InSquare(a, r, k) ==>
              Near(agents, r, k) && Nearest(agents, r, k).value <= Steps(a, k)
    ensures Near(agents, r, k) ==>
              exists a :: a in agents && InSquare(a, r, k) && Nearest(agents, r, k).value == Steps(a, k)
  {
    if agents != [] {
      var n := |agents| - 1;
      NearestIsLeast(agents[..n], r, k);
      assert agents == agents[..n] + [agents[n]];
      assert agents[n] in agents;
    }
  }

  /** The order of the list: distance, then east-west, then north-south. */
  predicate Before(d: nat, k: Key, e: nat, l: Key) {
    d < e || (d == e && (k.cx < l.cx || (k.cx == l.cx && k.cz < l.cz)))
  }

  predicate Ahead(agents: seq<Key>, r: nat, k: Key, l: Key) {
    var d, e := Nearest(agents, r, k), Nearest(agents, r, l);
    d.Some? && e.Some? && Before(d.value, k, e.value, l)
  }

  ghost predicate InOrder(out: seq<Key>, agents: seq<Key>, r: nat) {
    && (forall k :: k in out ==> Near(agents, r, k))
    && forall i, j :: 0 <= i < j < |out| ==> Ahead(agents, r, out[i], out[j])
  }

  /** Near chunks without repeats, nearest first, no more than the limit; and whatever near chunk is left out
      comes after a full list. */
  ghost predicate IsWanted(out: seq<Key>, agents: seq<Key>, r: nat, limit: nat) {
    && |out| <= limit && InOrder(out, agents, r)
    && forall k :: Near(agents, r, k) && k !in out ==>
         |out| == limit && forall j :: 0 <= j < |out| ==> Ahead(agents, r, out[j], k)
  }

  // ----- the rank of a chunk

  function Square(a: Key, r: nat): set<Key> {
    set x, z | a.cx - r <= x <= a.cx + r && a.cz - r <= z <= a.cz + r :: Key(x, z)
  }

  ghost function NearSet(agents: seq<Key>, r: nat): set<Key> {
    if agents == [] then {} else NearSet(agents[..|agents| - 1], r) + Square(agents[|agents| - 1], r)
  }

  lemma {:induction false} NearSetIsNear(agents: seq<Key>, r: nat, k: Key)
    ensures k in NearSet(agents, r) <==> Near(agents, r, k)
  {
    if agents != [] {
      var n := |agents| - 1;
      NearSetIsNear(agents[..n], r, k);
      assert k in Square(agents[n], r) <==> InSquare(agents[n], r, k) by {
        assert k == Key(k.cx, k.cz);
      }
    }
  }

  /** The near chunks that come ahead of `k`. */
  ghost function AheadOf(agents: seq<Key>, r: nat, k: Key): set<Key> {
    set l | l in NearSet(agents, r) && Ahead(agents, r, l, k)
  }

  ghost function Front(out: seq<Key>, n: nat): set<Key>
    requires n <= |out|
  {
    set i | 0 <= i < n :: out[i]
  }

  lemma {:induction false} FrontSize(out: seq<Key>, n: nat)
    requires n <= |out| && forall i, j :: 0 <= i < j < |out| ==> out[i] != out[j]
    ensures |Front(out, n)| == n
  {
    if n > 0 {
      FrontSize(out, n - 1);
      assert out[n - 1] !in Front(out, n - 1);
      assert Front(out, n) == Front(out, n - 1) + {out[n - 1]};
    }
  }

  lemma DistinctInOrder(out: seq<Key>, agents: seq<Key>, r: nat)
    requires InOrder(out, agents, r)
    ensures forall i, j :: 0 <= i < j < |out| ==> out[i] != out[j]
  {
    forall i, j | 0 <= i < j < |out| ensures out[i] != out[j] {
      assert Ahead(agents, r, out[i], out[j]);
    }
  }

  lemma AheadStandsBefore(out: seq<Key>, agents: seq<Key>, r: nat, limit: nat, n: nat, l: Key)
    requires IsWanted(out, agents, r, limit) && n < |out|
    ensures l in Front(out, n) <==> Near(agents, r, l) && Ahead(agents, r, l, out[n])
  {
    if l in out {
      var i :| 0 <= i < |out| && out[i] == l;
      if i < n {
        assert Ahead(agents, r, out[i], out[n]);
      } else if n < i {
        assert Ahead(agents, r, out[n], out[i]);
        DistinctInOrder(out, agents, r);
      } else {
        DistinctInOrder(out, agents, r);
      }
    }
  }

  /** Exactly the chunks ahead of a listed one stand before it. */
  lemma RankOfListed(out: seq<Key>, agents: seq<Key>, r: nat, limit: nat, n: nat)
    requires IsWanted(out, agents, r, limit) && n < |out|
    ensures |AheadOf(agents, r, out[n])| == n
  {
    DistinctInOrder(out, agents, r);
    FrontSize(out, n);
    forall l ensures l in AheadOf(agents, r, out[n]) <==> l in Front(out, n) {
      NearSetIsNear(agents, r, l);
      AheadStandsBefore(out, agents, r, limit, n, l);
    }
    assert AheadOf(agents, r, out[n]) == Front(out, n);
  }

  /** A near chunk is wanted if and only if fewer near chunks than the limit come ahead of it, and then that
      number is its place in the list. */
  lemma WantedIffRanked(out: seq<Key>, agents: seq<Key>, r: nat, limit: nat, k: Key)
    requires IsWanted(out, agents, r, limit) && Near(agents, r, k)
    ensures k in out <==> |AheadOf(agents, r, k)| < limit
    ensures k in out ==> |AheadOf(agents, r, k)| < |out| && out[|AheadOf(agents, r, k)|] == k
  {
    if k in out {
      var n :| 0 <= n < |out| && out[n] == k;
      RankOfListed(out, agents, r, limit, n);
    } else {
      DistinctInOrder(out, agents, r);
      FrontSize(out, |out|);
      forall l | l in Front(out, |out|) ensures l in AheadOf(agents, r, k) {
        NearSetIsNear(agents, r, l);
        var i :| 0 <= i < |out| && out[i] == l;
        assert Ahead(agents, r, out[i], k);
      }
      SubsetIsNoLarger(Front(out, |out|), AheadOf(agents, r, k));
    }
  }

  lemma SamePlace(a: seq<Key>, b: seq<Key>, agents: seq<Key>, r: nat, limit: nat, n: nat)
    requires IsWanted(a, agents, r, limit) && IsWanted(b, agents, r, limit) && n < |a|
    ensures n < |b| && b[n] == a[n]
  {
    RankOfListed(a, agents, r, limit, n);
    WantedIffRanked(b, agents, r, limit, a[n]);
  }

  /** So there is only one such list. */
  lemma WantedIsUnique(a: seq<Key>, b: seq<Key>, agents: seq<Key>, r: nat, limit: nat)
    requires IsWanted(a, agents, r, limit) && IsWanted(b, agents, r, limit)
    ensures a == b
  {
    if |a| < |b| {
      SamePlace(b, a, agents, r, limit, |a|);
    } else if |b| < |a| {
      SamePlace(a, b, agents, r, limit, |b|);
    } else {
      forall n | 0 <= n < |a| ensures b[n] == a[n] {
        SamePlace(a, b, agents, r, limit, n);
      }
    }
  }

  // ----- the computation

  function Lookup(m: map<Key, nat>, k: Key): Option<nat> {
    if k in m then Some(m[k]) else None
  }

  /** The cells of the square that the scan has passed when it stands at (dx, dz). */
  predicate Passed(a: Key, r: nat, dx: int, dz: int, k: Key) {
    InSquare(a, r, k) && (k.cz - a.cz < dz || (k.cz - a.cz == dz && k.cx - a.cx < dx))
  }

  ghost predicate Scanned(m: map<Key, nat>, m0: map<Key, nat>, a: Key, r: nat, dx: int, dz: int) {
    forall k :: Lookup(m, k) == Nearer(Lookup(m0, k), if Passed(a, r, dx, dz, k) then Some(Steps(a, k)) else None)
  }

  lemma ScanOneMore(m: map<Key, nat>, m0: map<Key, nat>, a: Key, r: nat, dx: int, dz: int, m': map<Key, nat>)
    requires Abs(dx) <= r && Abs(dz) <= r && Scanned(m, m0, a, r, dx, dz)
    requires var k, d := Key(a.cx + dx, a.cz + dz), Abs(dx) + Abs(dz);
             m' == if k !in m || d < m[k] then m[k := d] else m
    ensures Scanned(m', m0, a, r, dx + 1, dz)
  {
    var k := Key(a.cx + dx, a.cz + dz);
    forall l
      ensures Lookup(m', l) == Nearer(Lookup(m0, l), if Passed(a, r, dx + 1, dz, l) then Some(Steps(a, l)) else None)
    {
      assert Passed(a, r, dx + 1, dz, l) <==> l == k || Passed(a, r, dx, dz, l);
      assert Lookup(m, l) == Nearer(Lookup(m0, l), if Passed(a, r, dx, dz, l) then Some(Steps(a, l)) else None);
    }
  }

  lemma ScanNextRow(m: map<Key, nat>, m0: map<Key, nat>, a: Key, r: nat, dz: int)
    requires Scanned(m, m0, a, r, r + 1, dz)
    ensures Scanned(m, m0, a, r, 0 - r, dz + 1)
  {
    forall l
      ensures Lookup(m, l) == Nearer(Lookup(m0, l), if Passed(a, r, 0 - r, dz + 1, l) then Some(Steps(a, l)) else None)
    {
      assert Passed(a, r, 0 - r, dz + 1, l) <==> Passed(a, r, r + 1, dz, l);
    }
  }

  method ScanSquare(m0: map<Key, nat>, a: Key, r: nat) returns (m: map<Key, nat>)
    ensures forall k :: Lookup(m, k) == Nearer(Lookup(m0, k), if InSquare(a, r, k) then Some(Steps(a, k)) else None)
  {
    m := m0;
    for dz := 0 - r to r + 1
      invariant Scanned(m, m0, a, r, 0 - r, dz)
    {
      for dx := 0 - r to r + 1
        invariant Scanned(m, m0, a, r, dx, dz)
      {
        var k := Key(a.cx + dx, a.cz + dz);
        var d := Abs(dx) + Abs(dz);
        ghost var before := m;
        if k !in m || d < m[k] {
          m := m[k := d];
        }
        ScanOneMore(before, m0, a, r, dx, dz, m);
      }
      ScanNextRow(m, m0, a, r, dz);
    }
  }

  method DistByKey(agents: seq<Key>, r: nat) returns (m: map<Key, nat>)
    ensures forall k :: Lookup(m, k) == Nearest(agents, r, k)
  {
    m := map[];
    for n := 0 to |agents|
      invariant forall k :: Lookup(m, k) == Nearest(agents[..n], r, k)
    {
      assert agents[..n + 1][..n] == agents[..n];
      m := ScanSquare(m, agents[n], r);
    }
    assert agents[..|agents|] == agents;
  }

  ghost predicate Sorted(out: seq<Key>, m: map<Key, nat>) {
    && (forall k :: k in out ==> k in m)
    && forall i, j :: 0 <= i < j < |out| ==> out[i] in m && out[j] in m && Before(m[out[i]], out[i], m[out[j]], out[j])
  }

  lemma InsertKeepsSorted(out0: seq<Key>, m: map<Key, nat>, k: Key, at: nat)
    requires Sorted(out0, m) && k in m && k !in out0 && at <= |out0|
    requires forall j :: 0 <= j < at ==> Before(m[out0[j]], out0[j], m[k], k)
    requires at < |out0| ==> !Before(m[out0[at]], out0[at], m[k], k)
    ensures Sorted(out0[..at] + [k] + out0[at..], m)
  {
    var out := out0[..at] + [k] + out0[at..];
    forall j | at <= j < |out0| ensures Before(m[k], k, m[out0[j]], out0[j]) {
      assert out0[at] in out0;
      assert j > at ==> Before(m[out0[at]], out0[at], m[out0[j]], out0[j]);
    }
    forall i, j | 0 <= i < j < |out| ensures Before(m[out[i]], out[i], m[out[j]], out[j]) {
      assert out[i] == if i < at then out0[i] else if i == at then k else out0[i - 1];
      assert out[j] == if j < at then out0[j] else if j == at then k else out0[j - 1];
    }
  }

  method Insert(out0: seq<Key>, m: map<Key, nat>, k: Key) returns (out: seq<Key>)
    requires Sorted(out0, m) && k in m && k !in out0
    ensures Sorted(out, m) && forall l :: l in out <==> l in out0 || l == k
  {
    var at := 0;
    while at < |out0| && Before(m[out0[at]], out0[at], m[k], k)
      invariant at <= |out0| && forall j :: 0 <= j < at ==> Before(m[out0[j]], out0[j], m[k], k)
    {
      at := at + 1;
    }
    InsertKeepsSorted(out0, m, k, at);
    out := out0[..at] + [k] + out0[at..];
    assert out0 == out0[..at] + out0[at..];
  }

  /** All keys, sorted, from whatever order the map yields them in. */
  method SortKeys(m: map<Key, nat>) returns (out: seq<Key>)
    ensures Sorted(out, m) && forall k :: k in out <==> k in m
  {
    out := [];
    var todo := m.Keys;
    while todo != {}
      invariant todo <= m.Keys && Sorted(out, m)
      invariant forall k :: k in out <==> k in m && k !in todo
      decreases todo
    {
      var k :| k in todo;
      out := Insert(out, m, k);
      todo := todo - {k};
    }
  }

  lemma NotCut(all: seq<Key>, limit: nat, n: nat, out: seq<Key>)
    requires n < |all| && out == if |all| > limit then all[..limit] else all
    ensures all[n] in out || (|out| == limit && limit <= n)
  {
    if n < |out| {
      assert out[n] == all[n];
    }
  }

  lemma CutIsWanted(all: seq<Key>, m: map<Key, nat>, agents: seq<Key>, r: nat, limit: nat, out: seq<Key>)
    requires Sorted(all, m) && (forall k :: k in all <==> k in m)
    requires forall k :: Lookup(m, k) == Nearest(agents, r, k)
    requires out == if |all| > limit then all[..limit] else all
    ensures IsWanted(out, agents, r, limit)
  {
    forall k | k in out ensures Near(agents, r, k) {
      assert Lookup(m, k) == Nearest(agents, r, k);
    }
    forall i, j | 0 <= i < j < |all| ensures Ahead(agents, r, all[i], all[j]) {
      assert Lookup(m, all[i]) == Nearest(agents, r, all[i]) && Lookup(m, all[j]) == Nearest(agents, r, all[j]);
    }
    forall k | Near(agents, r, k) && k !in out
      ensures |out| == limit && forall j :: 0 <= j < |out| ==> Ahead(agents, r, out[j], k)
    {
      assert Lookup(m, k) == Nearest(agents, r, k);
      var n :| 0 <= n < |all| && all[n] == k;
      NotCut(all, limit, n, out);
    }
  }

  method ComputeWantedChunks(agents: seq<Key>, radius: int, maxChunks: int) returns (out: seq<Key>)
    ensures IsWanted(out, agents, if radius >= 1 then radius else 1, if maxChunks >= 1 then maxChunks else 1024)
  {
    var m := DistByKey(agents, Radius(radius));
    var all := SortKeys(m);
    out := if |all| > Limit(maxChunks) then all[..Limit(maxChunks)] else all;
    CutIsWanted(all, m, agents, Radius(radius), Limit(maxChunks), out);
  }

  // ----- what the observer is shown

  /** With an accepting channel, one step shows the client the present surface of every chunk near an agent
      that has fewer near chunks ahead of it than the limit and the budget of fulls allow. */
  lemma NearestChunksShown(t0: Terrain, t: Terrain, s: Stream, input: Input, link: Link,
                           agents: seq<Key>, r: nat, limit: nat, k: Key)
    requires Coherent(t0, s) && ChangesAudited(t0, t, input.audits)
    requires forall j :: link.full(j) && link.patch(j)
    requires IsWanted(input.wanted, agents, r, limit) && Near(agents, r, k)
    requires |AheadOf(agents, r, k)| < limit
    requires |AheadOf(agents, r, k)| < if input.maxFull > 0 then input.maxFull else 32
    ensures var s' := StepChunks(t, s, input, link); k in s'.client && s'.client[k] == SurfaceOf(t, k)
  {
    WantedIffRanked(input.wanted, agents, r, limit, k);
    WantedChunksDelivered(t0, t, s, input, link, |AheadOf(agents, r, k)|);
  }
}
