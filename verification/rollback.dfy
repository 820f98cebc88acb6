/** The admin rollback: select audit entries, sort them newest first, write back what each one replaced. */
module Rollback {
  import opened Common
  import opened Coords

  datatype Entry = Entry(tick: nat, setBlock: bool, pos: Pos, from: nat, to: nat)
  datatype Rec = Rec(seqNo: nat, entry: Entry)
  datatype Chunk = Chunk(key: Key, height: int, blocks: seq<nat>)
  datatype Box = Box(min: Pos, max: Pos)

  predicate Within(p: Pos, box: Box) {
    box.min.x <= p.x <= box.max.x && box.min.y <= p.y <= box.max.y && box.min.z <= p.z <= box.max.z
  }

  predicate Between(a: int, n: int, b: int) {
    a <= n <= b || b <= n <= a
  }

  predicate InCorners(a: Pos, p: Pos, b: Pos) {
    Between(a.x, p.x, b.x) && Between(a.y, p.y, b.y) && Between(a.z, p.z, b.z)
  }

  /** The box between two corners, given in either order on each axis. */
  function BoxOf(a: Pos, b: Pos): (box: Box)
    ensures forall p :: Within(p, box) <==> InCorners(a, p, b)
  {
    Box(Pos(if a.x <= b.x then a.x else b.x, if a.y <= b.y then a.y else b.y, if a.z <= b.z then a.z else b.z),
        Pos(if a.x <= b.x then b.x else a.x, if a.y <= b.y then b.y else a.y, if a.z <= b.z then b.z else a.z))
  }

  predicate Selected(e: Entry, since: nat, to: nat, box: Box) {
    e.setBlock && since <= e.tick <= to && Within(e.pos, box)
  }

  // ----- reading: filter, then newest first

  predicate Newer(a: Rec, b: Rec) {
    if a.entry.tick != b.entry.tick then a.entry.tick > b.entry.tick else a.seqNo > b.seqNo
  }

  ghost predicate NewestFirst(recs: seq<Rec>) {
    forall j, k :: 0 <= j < k < |recs| ==> Newer(recs[j], recs[k])
  }

  /** The records are the selected log lines, each with its line number. */
  ghost predicate AreSelected(recs: seq<Rec>, log: seq<Entry>, since: nat, to: nat, box: Box) {
    forall r :: r in recs <==> 1 <= r.seqNo <= |log| && r.entry == log[r.seqNo - 1] && Selected(r.entry, since, to, box)
  }

  method FilterAudit(log: seq<Entry>, since: nat, to: nat, box: Box) returns (out: seq<Rec>)
    ensures AreSelected(out, log, since, to, box)
    ensures forall j, k :: 0 <= j < k < |out| ==> out[j].seqNo != out[k].seqNo
  {
    out := [];
    for n := 0 to |log|
      invariant forall r :: r in out <==>
                  1 <= r.seqNo <= n && r.entry == log[r.seqNo - 1] && Selected(r.entry, since, to, box)
      invariant forall j, k :: 0 <= j < k < |out| ==> out[j].seqNo != out[k].seqNo
    {
      if Selected(log[n], since, to, box) {
        assert forall j :: 0 <= j < |out| ==> out[j] in out;
        out := out + [Rec(n + 1, log[n])];
      }
    }
  }

  lemma InsertKeepsOrder(s: seq<Rec>, at: nat, r: Rec, t: seq<Rec>)
    requires at <= |s| && NewestFirst(s) && t == s[..at] + [r] + s[at..]
    requires forall j :: 0 <= j < at ==> Newer(s[j], r)
    requires forall j :: at <= j < |s| ==> Newer(r, s[j])
    ensures NewestFirst(t)
  {
    assert t[..at] == s[..at] && t[at] == r && t[at + 1..] == s[at..];
    forall i, j | 0 <= i < j < |t| ensures Newer(t[i], t[j]) {
      assert t[i] == if i < at then s[i] else if i == at then r else s[i - 1];
      assert t[j] == if j < at then s[j] else if j == at then r else s[j - 1];
    }
  }

  lemma InsertKeeps(s: seq<Rec>, at: nat, r: Rec)
    requires at <= |s| && NewestFirst(s)
    requires forall j :: 0 <= j < at ==> Newer(s[j], r)
    requires forall j :: at <= j < |s| ==> Newer(r, s[j])
    ensures NewestFirst(s[..at] + [r] + s[at..])
    ensures forall x :: x in s[..at] + [r] + s[at..] <==> x in s || x == r
  {
    InsertKeepsOrder(s, at, r, s[..at] + [r] + s[at..]);
    assert s == s[..at] + s[at..];
  }

  method SortNewestFirst(recs: seq<Rec>) returns (out: seq<Rec>)
    requires forall j, k :: 0 <= j < k < |recs| ==> recs[j].seqNo != recs[k].seqNo
    ensures NewestFirst(out)
    ensures forall r :: r in out <==> r in recs
    ensures |out| == |recs|
  {
    out := [];
    for n := 0 to |recs|
      invariant |out| == n && NewestFirst(out)
      invariant forall r :: r in out <==> r in recs[..n]
    {
      var r := recs[n];
      var at := 0;
      while at < n && Newer(out[at], r)
        invariant at <= n && forall j :: 0 <= j < at ==> Newer(out[j], r)
      {
        at := at + 1;
      }
      forall j | at <= j < n ensures Newer(r, out[j]) {
        assert out[j] in recs[..n];
        assert out[at] in recs[..n];
      }
      ghost var before := out;
      out := out[..at] + [r] + out[at..];
      InsertKeeps(before, at, r);
      assert recs[..n + 1] == recs[..n] + [r];
    }
    assert recs[..|recs|] == recs;
  }

  method ReadAudit(log: seq<Entry>, since: nat, to: nat, box: Box) returns (recs: seq<Rec>)
    ensures AreSelected(recs, log, since, to, box) && NewestFirst(recs)
    ensures forall r :: r in recs <==>
              && 1 <= r.seqNo <= |log| && r.entry == log[r.seqNo - 1]
              && r.entry.setBlock && since <= r.entry.tick <= to && Within(r.entry.pos, box)
    ensures forall j, k :: 0 <= j < k < |recs| ==>
              || recs[j].entry.tick > recs[k].entry.tick
              || (recs[j].entry.tick == recs[k].entry.tick && recs[j].seqNo > recs[k].seqNo)
  {
    var picked := FilterAudit(log, since, to, box);
    recs := SortNewestFirst(picked);
  }

  // ----- the snapshot as blocks by position

  /** Later duplicates of a chunk key win, as in the program's index. */
  function ChunkAt(chunks: seq<Chunk>, k: Key): Option<nat> {
    if chunks == [] then None
    else if chunks[|chunks| - 1].key == k then Some(|chunks| - 1)
    else ChunkAt(chunks[..|chunks| - 1], k)
  }

  lemma {:induction false} ChunkAtFound(chunks: seq<Chunk>, k: Key)
    ensures var n := ChunkAt(chunks, k); n.Some? ==> n.value < |chunks| && chunks[n.value].key == k
  {
    if chunks != [] && chunks[|chunks| - 1].key != k {
      ChunkAtFound(chunks[..|chunks| - 1], k);
    }
  }

  /** The index depends on the keys only. */
  lemma {:induction false} ChunkAtKeys(a: seq<Chunk>, b: seq<Chunk>, k: Key)
    requires |a| == |b| && forall j :: 0 <= j < |a| ==> a[j].key == b[j].key
    ensures ChunkAt(a, k) == ChunkAt(b, k)
  {
    if a != [] && a[|a| - 1].key != k {
      ChunkAtKeys(a[..|a| - 1], b[..|b| - 1], k);
    }
  }

  function Offset(p: Pos): int {
    Mod(p.x, 16) + Mod(p.z, 16) * 16 + p.y * 16 * 16
  }

  /** Where a position lives in the snapshot: chunk number and block index. */
  function Slot(chunks: seq<Chunk>, p: Pos): Option<(nat, nat)> {
    var n := ChunkAt(chunks, KeyOf(p.x, p.z));
    ChunkAtFound(chunks, KeyOf(p.x, p.z));
    if n.None? || p.y < 0 || p.y >= chunks[n.value].height || !(0 <= Offset(p) < |chunks[n.value].blocks|) then None
    else Some((n.value, Offset(p)))
  }

  function BlockAt(chunks: seq<Chunk>, p: Pos): Option<nat> {
    var at := Slot(chunks, p);
    if at.None? then None
    else
      ChunkAtFound(chunks, KeyOf(p.x, p.z));
      Some(chunks[at.value.0].blocks[at.value.1])
  }

  lemma {:induction false} LastChunkAt(chunks: seq<Chunk>, j: nat)
    requires j < |chunks| && forall l :: j < l < |chunks| ==> chunks[l].key != chunks[j].key
    ensures ChunkAt(chunks, chunks[j].key) == Some(j)
  {
    if j < |chunks| - 1 {
      LastChunkAt(chunks[..|chunks| - 1], j);
    }
  }

  /** The cell of a position, told from the last chunk stored for its key: y by y, then z by z, then x by x. */
  lemma BlockAtMeans(chunks: seq<Chunk>, j: nat, dx: nat, y: int, dz: nat)
    requires j < |chunks| && dx < 16 && dz < 16
    requires forall l :: j < l < |chunks| ==> chunks[l].key != chunks[j].key
    ensures var ch := chunks[j];
            BlockAt(chunks, Pos(16 * ch.key.cx + dx, y, 16 * ch.key.cz + dz))
            == if 0 <= y < ch.height && 256 * y + 16 * dz + dx < |ch.blocks|
               then Some(ch.blocks[256 * y + 16 * dz + dx]) else None
  {
    FloorAndModUnique(16 * chunks[j].key.cx + dx, 16, chunks[j].key.cx, dx);
    FloorAndModUnique(16 * chunks[j].key.cz + dz, 16, chunks[j].key.cz, dz);
    LastChunkAt(chunks, j);
  }

  lemma {:induction false} NoChunkNoBlock(chunks: seq<Chunk>, p: Pos)
    requires forall l :: 0 <= l < |chunks| ==> chunks[l].key != KeyOf(p.x, p.z)
    ensures BlockAt(chunks, p).None?
  {
    ChunkAtFound(chunks, KeyOf(p.x, p.z));
  }

  lemma DigitsInjective(x: int, z: int, y: int, x': int, z': int, y': int)
    requires 0 <= x < 16 && 0 <= z < 16 && 0 <= x' < 16 && 0 <= z' < 16
    requires x + z * 16 + y * 256 == x' + z' * 16 + y' * 256
    ensures x == x' && z == z' && y == y'
  {
  }

  lemma OffsetInjective(p: Pos, q: Pos)
    requires p.y >= 0 && q.y >= 0 && KeyOf(p.x, p.z) == KeyOf(q.x, q.z) && Offset(p) == Offset(q)
    ensures p == q
  {
    FloorOf16(p.x);
    FloorOf16(p.z);
    FloorOf16(q.x);
    FloorOf16(q.z);
    DigitsInjective(Mod(p.x, 16), Mod(p.z, 16), p.y, Mod(q.x, 16), Mod(q.z, 16), q.y);
  }

  function Write(chunks: seq<Chunk>, p: Pos, b: nat): seq<Chunk> {
    var at := Slot(chunks, p);
    if at.None? then chunks
    else
      ChunkAtFound(chunks, KeyOf(p.x, p.z));
      var ch := chunks[at.value.0];
      chunks[at.value.0 := ch.(blocks := ch.blocks[at.value.1 := b])]
  }

  /** Writing changes the block at one position and nothing else, negative coordinates included. */
  lemma WriteOne(chunks: seq<Chunk>, p: Pos, b: nat, q: Pos)
    ensures BlockAt(Write(chunks, p, b), q)
         == if q == p && BlockAt(chunks, q).Some? then Some(b) else BlockAt(chunks, q)
  {
    var at := Slot(chunks, p);
    if at.Some? {
      ChunkAtFound(chunks, KeyOf(p.x, p.z));
      ChunkAtFound(chunks, KeyOf(q.x, q.z));
      ChunkAtKeys(chunks, Write(chunks, p, b), KeyOf(q.x, q.z));
      if Slot(chunks, q) == at {
        OffsetInjective(p, q);
      }
    }
  }

  // ----- applying

  /** What writing back the records in order leaves at one position holding `b`. */
  function Undone(recs: seq<Rec>, p: Pos, b: nat): nat {
    if recs == [] then b
    else
      var last := recs[|recs| - 1].entry;
      if last.pos == p then last.from else Undone(recs[..|recs| - 1], p, b)
  }

  /** How many records name a cell that the snapshot does not have. */
  function Missing(recs: seq<Rec>, chunks: seq<Chunk>): nat {
    if recs == [] then 0
    else Missing(recs[..|recs| - 1], chunks) + if BlockAt(chunks, recs[|recs| - 1].entry.pos).None? then 1 else 0
  }

  ghost function LostRecords(recs: seq<Rec>, chunks: seq<Chunk>): set<nat> {
    set j: nat | j < |recs| && BlockAt(chunks, recs[j].entry.pos).None?
  }

  lemma {:induction false} MissingCounts(recs: seq<Rec>, chunks: seq<Chunk>)
    ensures Missing(recs, chunks) == |LostRecords(recs, chunks)|
  {
    if recs == [] {
      assert LostRecords(recs, chunks) == {};
    } else {
      var n := |recs| - 1;
      MissingCounts(recs[..n], chunks);
      assert LostRecords(recs, chunks)
          == LostRecords(recs[..n], chunks) + if BlockAt(chunks, recs[n].entry.pos).None? then {n} else {};
    }
  }

  /** The first `n` records have been written back. */
  ghost predicate UndoneTo(chunks0: seq<Chunk>, recs: seq<Rec>, n: nat, chunks: seq<Chunk>)
    requires n <= |recs|
  {
    forall p :: BlockAt(chunks, p)
             == if BlockAt(chunks0, p).None? then None else Some(Undone(recs[..n], p, BlockAt(chunks0, p).value))
  }

  lemma UndoneMore(chunks0: seq<Chunk>, recs: seq<Rec>, n: nat, chunks: seq<Chunk>)
    requires n < |recs| && UndoneTo(chunks0, recs, n, chunks)
    ensures UndoneTo(chunks0, recs, n + 1, Write(chunks, recs[n].entry.pos, recs[n].entry.from))
    ensures BlockAt(chunks, recs[n].entry.pos).None? <==> BlockAt(chunks0, recs[n].entry.pos).None?
  {
    var e := recs[n].entry;
    assert recs[..n + 1][..n] == recs[..n];
    forall p
      ensures BlockAt(Write(chunks, e.pos, e.from), p)
           == if p == e.pos && BlockAt(chunks, p).Some? then Some(e.from) else BlockAt(chunks, p)
    {
      WriteOne(chunks, e.pos, e.from, p);
    }
  }

  /** One record: written if the snapshot has the cell. */
  method WriteBack(chunks0: seq<Chunk>, p: Pos, b: nat) returns (chunks: seq<Chunk>, wrote: bool)
    ensures chunks == Write(chunks0, p, b) && (wrote <==> BlockAt(chunks0, p).Some?)
  {
    chunks := chunks0;
    var at := ChunkAt(chunks, KeyOf(p.x, p.z));
    ChunkAtFound(chunks, KeyOf(p.x, p.z));
    if at.None? || p.y < 0 || p.y >= chunks[at.value].height {
      return chunks, false;
    }
    if Offset(p) < 0 || Offset(p) >= |chunks[at.value].blocks| {
      return chunks, false;
    }
    var ch := chunks[at.value];
    chunks := chunks[at.value := ch.(blocks := ch.blocks[Offset(p) := b])];
    return chunks, true;
  }

  /** Written in order wherever the snapshot has the cell, skipped exactly where it has not. */
  method ApplyRollback(chunks0: seq<Chunk>, recs: seq<Rec>) returns (chunks: seq<Chunk>, applied: nat, skipped: nat)
    ensures forall p :: BlockAt(chunks, p)
                     == if BlockAt(chunks0, p).None? then None else Some(Undone(recs, p, BlockAt(chunks0, p).value))
    ensures skipped == |LostRecords(recs, chunks0)| && applied + skipped == |recs|
  {
    chunks, applied, skipped := chunks0, 0, 0;
    for n := 0 to |recs|
      invariant UndoneTo(chunks0, recs, n, chunks)
      invariant skipped == Missing(recs[..n], chunks0) && applied + skipped == n
    {
      assert recs[..n + 1][..n] == recs[..n];
      UndoneMore(chunks0, recs, n, chunks);
      var wrote;
      chunks, wrote := WriteBack(chunks, recs[n].entry.pos, recs[n].entry.from);
      if wrote {
        applied := applied + 1;
      } else {
        skipped := skipped + 1;
      }
    }
    assert recs[..|recs|] == recs;
    MissingCounts(recs, chunks0);
  }

  // ----- the log as history

  /** The block at `p` after the log's changes, starting from `b`. */
  function Replay(log: seq<Entry>, p: Pos, b: nat): nat {
    if log == [] then b
    else
      var last := log[|log| - 1];
      if last.setBlock && last.pos == p then last.to else Replay(log[..|log| - 1], p, b)
  }

  /** It is what the last change there wrote, and `b` if there was none. */
  lemma {:induction false} ReplayMeans(log: seq<Entry>, p: Pos, b: nat, n: nat)
    requires n <= |log|
    requires forall j :: n <= j < |log| ==> !(log[j].setBlock && log[j].pos == p)
    ensures n == 0 ==> Replay(log, p, b) == b
    ensures n > 0 && log[n - 1].setBlock && log[n - 1].pos == p ==> Replay(log, p, b) == log[n - 1].to
  {
    if n < |log| {
      ReplayMeans(log[..|log| - 1], p, b, n);
    }
  }

  /** Each entry recorded the block it replaced. */
  ghost predicate Faithful(log: seq<Entry>, origin: Pos -> nat) {
    forall n :: 0 <= n < |log| && log[n].setBlock ==> log[n].from == Replay(log[..n], log[n].pos, origin(log[n].pos))
  }

  ghost predicate Chronological(log: seq<Entry>) {
    forall j, k :: 0 <= j < k < |log| ==> log[j].tick <= log[k].tick
  }

  /** The part of a chronological log before a tick. */
  function Before(log: seq<Entry>, tick: nat): (n: nat)
    ensures n <= |log|
    ensures forall j :: 0 <= j < n && Chronological(log) ==> log[j].tick < tick
    ensures n < |log| ==> log[n].tick >= tick
  {
    if log == [] then 0
    else
      var n := Before(log[..|log| - 1], tick);
      assert Chronological(log) ==> Chronological(log[..|log| - 1]);
      if n == |log| - 1 && log[n].tick < tick then |log| else n
  }

  lemma {:induction false} ReplayUntouched(log: seq<Entry>, m: nat, n: nat, p: Pos, b: nat)
    requires m <= n <= |log|
    requires forall j :: m <= j < n && log[j].setBlock ==> log[j].pos != p
    ensures Replay(log[..n], p, b) == Replay(log[..m], p, b)
  {
    if m < n {
      assert log[..n][..n - 1] == log[..n - 1];
      ReplayUntouched(log, m, n - 1, p, b);
    }
  }

  lemma {:induction false} UndoneUntouched(recs: seq<Rec>, p: Pos, b: nat)
    requires forall r :: r in recs ==> r.entry.pos != p
    ensures Undone(recs, p, b) == b
  {
    if recs != [] {
      assert recs[|recs| - 1] in recs;
      UndoneUntouched(recs[..|recs| - 1], p, b);
    }
  }

  /** Newest first, the last record written at a position is the oldest one there. */
  lemma {:induction false} UndoneByOldest(recs: seq<Rec>, p: Pos, b: nat, k: nat)
    requires NewestFirst(recs) && k < |recs| && recs[k].entry.pos == p
    requires forall j :: k < j < |recs| ==> recs[j].entry.pos != p
    ensures Undone(recs, p, b) == recs[k].entry.from
  {
    if k < |recs| - 1 {
      UndoneByOldest(recs[..|recs| - 1], p, b, k);
    }
  }

  ghost predicate TouchedIn(log: seq<Entry>, since: nat, to: nat, p: Pos) {
    exists n :: 0 <= n < |log| && log[n].setBlock && since <= log[n].tick <= to && log[n].pos == p
  }

  lemma FirstTouch(log: seq<Entry>, since: nat, to: nat, p: Pos) returns (n: nat)
    requires TouchedIn(log, since, to, p)
    ensures n < |log| && log[n].setBlock && since <= log[n].tick <= to && log[n].pos == p
    ensures forall j :: 0 <= j < n && log[j].setBlock && since <= log[j].tick <= to ==> log[j].pos != p
  {
    n := 0;
    while !(log[n].setBlock && since <= log[n].tick <= to && log[n].pos == p)
      invariant n < |log|
      invariant forall j :: 0 <= j < n && log[j].setBlock && since <= log[j].tick <= to ==> log[j].pos != p
      invariant exists j :: n <= j < |log| && log[j].setBlock && since <= log[j].tick <= to && log[j].pos == p
      decreases |log| - n
    {
      n := n + 1;
    }
  }

  lemma OldestRecord(recs: seq<Rec>, p: Pos, r: Rec) returns (k: nat)
    requires NewestFirst(recs) && r in recs && r.entry.pos == p
    requires forall x :: x in recs && x.entry.pos == p && x != r ==> Newer(x, r)
    ensures k < |recs| && recs[k] == r && forall j :: k < j < |recs| ==> recs[j].entry.pos != p
  {
    k :| 0 <= k < |recs| && recs[k] == r;
    forall j | k < j < |recs| ensures recs[j].entry.pos != p {
      assert Newer(r, recs[j]) && recs[j] in recs;
    }
  }

  /** For any window and box: a position changed inside both gets back the block it had before the window;
      every other position keeps its snapshot block. */
  lemma RollbackRestores(log: seq<Entry>, origin: Pos -> nat, recs: seq<Rec>, since: nat, to: nat, box: Box, p: Pos,
                         b: nat)
    requires Faithful(log, origin) && Chronological(log)
    requires AreSelected(recs, log, since, to, box) && NewestFirst(recs)
    ensures Within(p, box) && TouchedIn(log, since, to, p) ==>
              Undone(recs, p, b) == Replay(log[..Before(log, since)], p, origin(p))
    ensures !(Within(p, box) && TouchedIn(log, since, to, p)) ==> Undone(recs, p, b) == b
  {
    if Within(p, box) && TouchedIn(log, since, to, p) {
      var n := FirstTouch(log, since, to, p);
      var r := Rec(n + 1, log[n]);
      forall x | x in recs && x.entry.pos == p && x != r ensures Newer(x, r) {
        assert x.seqNo - 1 != n;
        assert x.seqNo - 1 > n;
      }
      assert r in recs;
      var k := OldestRecord(recs, p, r);
      UndoneByOldest(recs, p, b, k);
      var m := Before(log, since);
      assert m <= n;
      ReplayUntouched(log, m, n, p, origin(p));
    } else {
      forall r | r in recs ensures r.entry.pos != p {
        assert log[r.seqNo - 1] == r.entry;
      }
      UndoneUntouched(recs, p, b);
    }
  }

  /** The snapshot holds, where it holds anything, the log's changes up to its tick. */
  ghost predicate SnapshotOf(chunks: seq<Chunk>, tick: nat, log: seq<Entry>, origin: Pos -> nat) {
    forall p :: BlockAt(chunks, p).Some? ==>
      BlockAt(chunks, p).value == Replay(log[..Before(log, tick + 1)], p, origin(p))
  }

  /** `to` of zero, or past the snapshot, means up to the snapshot's tick. */
  function EndTick(to: nat, snapTick: nat): nat {
    if to == 0 || to > snapTick then snapTick else to
  }

  /** The log changes the position inside the window and between the corners. */
  ghost predicate Rewound(log: seq<Entry>, since: nat, end: nat, a: Pos, b: Pos, p: Pos) {
    && InCorners(a, p, b)
    && exists n :: 0 <= n < |log| && log[n].setBlock && since <= log[n].tick <= end && log[n].pos == p
  }

  lemma QuietWindow(log: seq<Entry>, since: nat, tick: nat, p: Pos, b: nat)
    requires Chronological(log) && since <= tick + 1 && !TouchedIn(log, since, tick, p)
    ensures Replay(log[..Before(log, tick + 1)], p, b) == Replay(log[..Before(log, since)], p, b)
  {
    var m, n := Before(log, since), Before(log, tick + 1);
    assert m <= n;
    ReplayUntouched(log, m, n, p, b);
  }

  /** What is asked of a rollback whose window ends at `end`: every stored cell that the log changes in the window and
      the box gets the block from before `since`, every other stored cell keeps its own. */
  ghost predicate RolledBack(chunks0: seq<Chunk>, chunks: seq<Chunk>, log: seq<Entry>, since: nat, end: nat, a: Pos,
                             b: Pos, origin: Pos -> nat)
  {
    forall p :: BlockAt(chunks, p)
             == if BlockAt(chunks0, p).Some? && Rewound(log, since, end, a, b, p)
                then Some(Replay(log[..Before(log, since)], p, origin(p))) else BlockAt(chunks0, p)
  }

  /** Rolling back between two corners. The window ends at `to`, or at the snapshot's tick when `to` is zero or later;
      when it reaches the snapshot the rollback is a true undo of everything since. */
  method RollBack(chunks0: seq<Chunk>, snapTick: nat, log: seq<Entry>, since: nat, to: nat, a: Pos, b: Pos,
                  ghost origin: Pos -> nat)
    returns (chunks: seq<Chunk>)
    requires Faithful(log, origin) && Chronological(log) && SnapshotOf(chunks0, snapTick, log, origin)
    ensures 0 < to <= snapTick ==> RolledBack(chunks0, chunks, log, since, to, a, b, origin)
    ensures to == 0 || to > snapTick ==> RolledBack(chunks0, chunks, log, since, snapTick, a, b, origin)
    ensures (to == 0 || to >= snapTick) && since <= snapTick + 1 ==>
              forall p :: BlockAt(chunks0, p).Some? && InCorners(a, p, b) ==>
                BlockAt(chunks, p) == Some(Replay(log[..Before(log, since)], p, origin(p)))
  {
    var end, box := EndTick(to, snapTick), BoxOf(a, b);
    var recs := ReadAudit(log, since, end, box);
    var applied, skipped;
    chunks, applied, skipped := ApplyRollback(chunks0, recs);
    forall p | BlockAt(chunks0, p).Some?
      ensures Undone(recs, p, BlockAt(chunks0, p).value)
           == if Rewound(log, since, end, a, b, p) then Replay(log[..Before(log, since)], p, origin(p))
              else BlockAt(chunks0, p).value
      ensures since <= snapTick + 1 && !TouchedIn(log, since, snapTick, p) ==>
                BlockAt(chunks0, p).value == Replay(log[..Before(log, since)], p, origin(p))
    {
      RollbackRestores(log, origin, recs, since, end, box, p, BlockAt(chunks0, p).value);
      assert Rewound(log, since, end, a, b, p) <==> Within(p, box) && TouchedIn(log, since, end, p);
      if since <= snapTick + 1 && !TouchedIn(log, since, snapTick, p) {
        QuietWindow(log, since, snapTick, p, origin(p));
      }
    }
  }
}
