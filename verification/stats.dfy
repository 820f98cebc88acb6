/** Rolling world statistics: a ring of time buckets that stands for the plain list of recorded events. */
module RollingStats {
  import opened Common
  import opened Coords

  datatype Kind = Trade | Denied | ChunkDiscovered | BlueprintComplete
  datatype Bucket = Bucket(trades: nat, denied: nat, chunks: nat, blueprints: nat)
  datatype Event = Event(tick: nat, kind: Kind)

  const EMPTY := Bucket(0, 0, 0, 0)

  function Of(b: Bucket, k: Kind): nat {
    match k
    case Trade => b.trades
    case Denied => b.denied
    case ChunkDiscovered => b.chunks
    case BlueprintComplete => b.blueprints
  }

  function Bumped(b: Bucket, k: Kind): Bucket {
    match k
    case Trade => b.(trades := b.trades + 1)
    case Denied => b.(denied := b.denied + 1)
    case ChunkDiscovered => b.(chunks := b.chunks + 1)
    case BlueprintComplete => b.(blueprints := b.blueprints + 1)
  }

  function Plus(a: Bucket, b: Bucket): Bucket {
    Bucket(a.trades + b.trades, a.denied + b.denied, a.chunks + b.chunks, a.blueprints + b.blueprints)
  }

  // ----- the plain list

  /** An event with its bucket number. */
  datatype Mark = Mark(number: int, kind: Kind)

  function Marks(log: seq<Event>, b: nat): (m: seq<Mark>)
    requires b > 0
    ensures |m| == |log| && forall j :: 0 <= j < |log| ==> m[j] == Mark(log[j].tick / b, log[j].kind)
  {
    seq(|log|, j requires 0 <= j < |log| => Mark(log[j].tick / b, log[j].kind))
  }

  /** How many marks of a kind are numbered lo..hi. */
  function Tally(marks: seq<Mark>, k: Kind, lo: int, hi: int): nat {
    if marks == [] then 0
    else
      var last := marks[|marks| - 1];
      Tally(marks[..|marks| - 1], k, lo, hi) + if last.kind == k && lo <= last.number <= hi then 1 else 0
  }

  /** The events of one kind in the last `n` buckets as seen at `now`. */
  function Recent(log: seq<Event>, b: nat, n: nat, now: nat, k: Kind): nat
    requires b > 0
  {
    Tally(Marks(log, b), k, now / b - n + 1, now / b)
  }

  ghost function MarksIn(marks: seq<Mark>, k: Kind, lo: int, hi: int): set<nat> {
    set j: nat | j < |marks| && marks[j].kind == k && lo <= marks[j].number <= hi
  }

  lemma MarksMore(marks: seq<Mark>, m: Mark, k: Kind, lo: int, hi: int)
    ensures |MarksIn(marks + [m], k, lo, hi)|
         == |MarksIn(marks, k, lo, hi)| + if m.kind == k && lo <= m.number <= hi then 1 else 0
  {
    if m.kind == k && lo <= m.number <= hi {
      assert MarksIn(marks + [m], k, lo, hi) == MarksIn(marks, k, lo, hi) + {|marks|};
    } else {
      assert MarksIn(marks + [m], k, lo, hi) == MarksIn(marks, k, lo, hi);
    }
  }

  lemma {:induction false} TallyCounts(marks: seq<Mark>, k: Kind, lo: int, hi: int)
    ensures Tally(marks, k, lo, hi) == |MarksIn(marks, k, lo, hi)|
  {
    if marks == [] {
      assert MarksIn(marks, k, lo, hi) == {};
    } else {
      var n := |marks| - 1;
      TallyCounts(marks[..n], k, lo, hi);
      assert marks == marks[..n] + [marks[n]];
      MarksMore(marks[..n], marks[n], k, lo, hi);
    }
  }

  /** The recent events are those whose bucket is that of `now` or one of the n - 1 before it. */
  lemma RecentCounts(log: seq<Event>, b: nat, n: nat, now: nat, k: Kind)
    requires b > 0
    ensures Recent(log, b, n, now, k)
         == |set j: nat | j < |log| && log[j].kind == k && now / b - n < log[j].tick / b <= now / b|
  {
    var marks := Marks(log, b);
    TallyCounts(marks, k, now / b - n + 1, now / b);
    assert MarksIn(marks, k, now / b - n + 1, now / b)
        == set j: nat | j < |log| && log[j].kind == k && now / b - n < log[j].tick / b <= now / b;
  }

  lemma {:induction false} TallySplits(marks: seq<Mark>, k: Kind, lo: int, mid: int, hi: int)
    requires lo <= mid + 1 && mid <= hi
    ensures Tally(marks, k, lo, hi) == Tally(marks, k, lo, mid) + Tally(marks, k, mid + 1, hi)
  {
    if marks != [] {
      TallySplits(marks[..|marks| - 1], k, lo, mid, hi);
    }
  }

  lemma {:induction false} TallyNothing(marks: seq<Mark>, k: Kind, lo: int, hi: int)
    requires forall m :: m in marks ==> !(lo <= m.number <= hi)
    ensures Tally(marks, k, lo, hi) == 0
  {
    if marks != [] {
      assert marks[|marks| - 1] in marks;
      TallyNothing(marks[..|marks| - 1], k, lo, hi);
    }
  }

  lemma TallyAppend(marks: seq<Mark>, m: Mark, k: Kind, lo: int, hi: int)
    ensures Tally(marks + [m], k, lo, hi)
         == Tally(marks, k, lo, hi) + if m.kind == k && lo <= m.number <= hi then 1 else 0
  {
    assert (marks + [m])[..|marks|] == marks;
  }

  // ----- the ring

  /** The bucket number that ring place `j` stands for when `idx` holds number `cur`. */
  function NumberAt(cur: int, idx: nat, n: nat, j: nat): int {
    if j <= idx then cur - (idx - j) else cur - (idx - j) - n
  }

  ghost predicate HoldsNumber(b: Bucket, marks: seq<Mark>, number: int) {
    forall k :: Of(b, k) == Tally(marks, k, number, number)
  }

  ghost predicate Refines(ring: seq<Bucket>, marks: seq<Mark>, cur: nat, idx: nat) {
    && idx < |ring|
    && (forall j :: 0 <= j < |ring| ==> HoldsNumber(ring[j], marks, NumberAt(cur, idx, |ring|, j)))
    && (forall m :: m in marks ==> m.number <= cur)
  }

  function Next(idx: nat, n: nat): nat
    requires idx < n
  {
    if idx + 1 == n then 0 else idx + 1
  }

  lemma NextIsMod(idx: nat, n: nat)
    requires idx < n
    ensures (idx + 1) % n == Next(idx, n)
  {
  }

  lemma RotateRefines(ring: seq<Bucket>, marks: seq<Mark>, cur: nat, idx: nat)
    requires Refines(ring, marks, cur, idx)
    ensures Refines(ring[Next(idx, |ring|) := EMPTY], marks, cur + 1, Next(idx, |ring|))
  {
    var n, next := |ring|, Next(idx, |ring|);
    forall k ensures Of(EMPTY, k) == Tally(marks, k, cur + 1, cur + 1) {
      TallyNothing(marks, k, cur + 1, cur + 1);
    }
    forall j | 0 <= j < n && j != next ensures NumberAt(cur + 1, next, n, j) == NumberAt(cur, idx, n, j) {
    }
  }

  lemma RecordRefines(ring: seq<Bucket>, marks: seq<Mark>, cur: nat, idx: nat, m: Mark)
    requires Refines(ring, marks, cur, idx) && m.number == cur
    ensures Refines(ring[idx := Bumped(ring[idx], m.kind)], marks + [m], cur, idx)
  {
    var ring' := ring[idx := Bumped(ring[idx], m.kind)];
    forall j | 0 <= j < |ring| ensures HoldsNumber(ring'[j], marks + [m], NumberAt(cur, idx, |ring|, j)) {
      var number := NumberAt(cur, idx, |ring|, j);
      assert number == cur <==> j == idx;
      assert HoldsNumber(ring[j], marks, number);
      forall k ensures Of(ring'[j], k) == Tally(marks + [m], k, number, number) {
        TallyAppend(marks, m, k, number, number);
      }
    }
  }

  function SumRing(ring: seq<Bucket>, k: Kind): nat {
    if ring == [] then 0 else SumRing(ring[..|ring| - 1], k) + Of(ring[|ring| - 1], k)
  }

  /** The places up to the current one hold consecutive bucket numbers ending at `cur`. */
  lemma {:induction false} SumOldPlaces(ring: seq<Bucket>, marks: seq<Mark>, cur: nat, idx: nat, n: nat, k: Kind)
    requires Refines(ring, marks, cur, idx) && n <= idx + 1
    ensures SumRing(ring[..n], k) == Tally(marks, k, cur - idx, cur - idx + n - 1)
  {
    if n == 0 {
      TallyNothing(marks, k, cur - idx, cur - idx - 1);
    } else {
      assert ring[..n][..n - 1] == ring[..n - 1];
      SumOldPlaces(ring, marks, cur, idx, n - 1, k);
      assert HoldsNumber(ring[n - 1], marks, cur - idx + n - 1);
      TallySplits(marks, k, cur - idx, cur - idx + n - 2, cur - idx + n - 1);
    }
  }

  /** The places after it hold the numbers just before those. */
  lemma {:induction false} SumAllPlaces(ring: seq<Bucket>, marks: seq<Mark>, cur: nat, idx: nat, n: nat, k: Kind)
    requires Refines(ring, marks, cur, idx) && idx + 1 <= n <= |ring|
    ensures SumRing(ring[..n], k)
              == Tally(marks, k, cur - idx, cur) + Tally(marks, k, cur - |ring| + 1, cur - |ring| + n - idx - 1)
  {
    if n == idx + 1 {
      SumOldPlaces(ring, marks, cur, idx, n, k);
      TallyNothing(marks, k, cur - |ring| + 1, cur - |ring|);
    } else {
      assert ring[..n][..n - 1] == ring[..n - 1];
      SumAllPlaces(ring, marks, cur, idx, n - 1, k);
      assert HoldsNumber(ring[n - 1], marks, cur - |ring| + n - idx - 1);
      TallySplits(marks, k, cur - |ring| + 1, cur - |ring| + n - idx - 2, cur - |ring| + n - idx - 1);
    }
  }

  lemma RingTotal(ring: seq<Bucket>, marks: seq<Mark>, cur: nat, idx: nat, k: Kind)
    requires Refines(ring, marks, cur, idx)
    ensures SumRing(ring, k) == Tally(marks, k, cur - |ring| + 1, cur)
  {
    SumAllPlaces(ring, marks, cur, idx, |ring|, k);
    assert ring[..|ring|] == ring;
    TallySplits(marks, k, cur - |ring| + 1, cur - idx - 1, cur);
  }

  lemma MulMonotone(x: nat, y: nat, b: nat)
    ensures x <= y ==> x * b <= y * b
  {
  }

  lemma BucketOf(now: nat, b: nat, cur: nat)
    requires b > 0 && cur * b <= now < cur * b + b
    ensures now / b == cur
  {
    var q := now / b;
    assert q * b <= now < q * b + b;
    MulMonotone(q + 1, cur, b);
    MulMonotone(cur + 1, q, b);
  }

  class WorldStats {
    const bucketTicks: nat
    const buckets: array<Bucket>
    var curIdx: nat
    var curBase: nat
    var seenChunks: set<Key>

    /** Every event recorded so far, the number of the current bucket, and the latest tick seen. */
    ghost var log: seq<Event>
    ghost var cur: nat
    ghost var latest: nat

    ghost predicate Valid()
      reads this, buckets
    {
      && bucketTicks > 0 && Refines(buckets[..], Marks(log, bucketTicks), cur, curIdx)
      && curBase == cur * bucketTicks && curBase <= latest
    }

    constructor (bucketTicks0: nat, windowTicks: nat)
      ensures Valid() && fresh(buckets) && log == [] && seenChunks == {} && latest == 0
      ensures bucketTicks == if bucketTicks0 == 0 then 300 else bucketTicks0
      ensures buckets.Length == Max(1, windowTicks / bucketTicks)
    {
      var b := if bucketTicks0 == 0 then 300 else bucketTicks0;
      var window := if windowTicks < b then b else windowTicks;
      var n := window / b;
      if n < 1 {
        n := 1;
      }
      bucketTicks := b;
      buckets := new Bucket[n](_ => EMPTY);
      curIdx, curBase, seenChunks := 0, 0, {};
      log, cur, latest := [], 0, 0;
      new;
      if windowTicks < b {
        BucketOf(windowTicks, b, 0);
        BucketOf(window, b, 1);
      }
    }

    /** Move on by one bucket, emptying the one that is taken over. */
    method Advance()
      requires Valid() && curBase + bucketTicks <= latest
      modifies this`curIdx, this`curBase, this`cur, buckets
      ensures Valid() && curBase == old(curBase) + bucketTicks
    {
      NextIsMod(curIdx, buckets.Length);
      RotateRefines(buckets[..], Marks(log, bucketTicks), cur, curIdx);
      ghost var ring := buckets[..];
      curIdx := (curIdx + 1) % buckets.Length;
      buckets[curIdx] := EMPTY;
      assert buckets[..] == ring[curIdx := EMPTY];
      curBase := curBase + bucketTicks;
      cur := cur + 1;
    }

    /** Afterwards the current bucket covers `now`, unless time ran backwards. */
    method Rotate(now: nat)
      requires Valid()
      modifies this, buckets
      ensures Valid() && log == old(log) && seenChunks == old(seenChunks)
      ensures latest == Max(old(latest), now)
      ensures cur == Max(now, old(curBase)) / bucketTicks
      ensures curBase <= Max(now, old(curBase)) < curBase + bucketTicks
    {
      latest := Max(latest, now);
      ghost var reached := Max(now, curBase);
      while now >= curBase + bucketTicks
        invariant Valid() && log == old(log) && seenChunks == old(seenChunks) && latest == Max(old(latest), now)
        invariant curBase <= reached && (now < curBase ==> curBase == reached == old(curBase))
        decreases now - curBase
      {
        Advance();
      }
      BucketOf(reached, bucketTicks, cur);
    }

    /** RecordTrade, RecordDenied and RecordBlueprintComplete: one more event, counted at `now`, or at the
        start of the current bucket when `now` lies before it. */
    method Record(now: nat, kind: Kind)
      requires Valid()
      modifies this, buckets
      ensures Valid() && seenChunks == old(seenChunks) && latest == Max(old(latest), now)
      ensures log == old(log) + [Event(Max(now, old(curBase)), kind)]
      ensures now >= old(latest) ==> Max(now, old(curBase)) == now
    {
      ghost var reached := Max(now, curBase);
      Rotate(now);
      RecordRefines(buckets[..], Marks(log, bucketTicks), cur, curIdx, Mark(cur, kind));
      assert Marks(log + [Event(reached, kind)], bucketTicks) == Marks(log, bucketTicks) + [Mark(cur, kind)];
      ghost var ring := buckets[..];
      buckets[curIdx] := Bumped(buckets[curIdx], kind);
      assert buckets[..] == ring[curIdx := Bumped(ring[curIdx], kind)];
      log := log + [Event(reached, kind)];
    }

    /** A chunk is discovered once. */
    method ObservePos(now: nat, x: int, z: int)
      requires Valid()
      modifies this, buckets
      ensures Valid() && latest == Max(old(latest), now)
      ensures seenChunks == old(seenChunks) + {KeyOf(x, z)}
      ensures log == if KeyOf(x, z) in old(seenChunks) then old(log)
                else old(log) + [Event(Max(now, old(curBase)), ChunkDiscovered)]
    {
      var k := KeyOf(x, z);
      if k in seenChunks {
        Rotate(now);
      } else {
        Record(now, ChunkDiscovered);
        seenChunks := seenChunks + {k};
      }
    }

    /** The totals are those of the plain list over the last buckets, through any gaps and wrap-around. */
    method Summarize(now: nat) returns (out: Bucket)
      requires Valid()
      modifies this, buckets
      ensures Valid() && log == old(log) && seenChunks == old(seenChunks) && latest == Max(old(latest), now)
      ensures forall k :: Of(out, k) == Recent(log, bucketTicks, buckets.Length, Max(now, old(curBase)), k)
      ensures now >= old(latest) ==>
                && out.trades == Recent(log, bucketTicks, buckets.Length, now, Trade)
                && out.denied == Recent(log, bucketTicks, buckets.Length, now, Denied)
                && out.chunks == Recent(log, bucketTicks, buckets.Length, now, ChunkDiscovered)
                && out.blueprints == Recent(log, bucketTicks, buckets.Length, now, BlueprintComplete)
    {
      Rotate(now);
      out := EMPTY;
      for k := 0 to buckets.Length
        invariant forall kind :: Of(out, kind) == SumRing(buckets[..k], kind)
      {
        assert buckets[..k + 1][..k] == buckets[..k];
        out := Plus(out, buckets[k]);
      }
      assert buckets[..buckets.Length] == buckets[..];
      forall kind ensures Of(out, kind) == Tally(Marks(log, bucketTicks), kind, cur - buckets.Length + 1, cur) {
        RingTotal(buckets[..], Marks(log, bucketTicks), cur, curIdx, kind);
      }
    }
  }
}
