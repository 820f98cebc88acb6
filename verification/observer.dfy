/** The observer's chunk surface stream: full, patch and evict messages over a channel that may refuse any
    of them, kept in step with the world by the cached surfaces. */
module Observer {
  import opened Common
  import opened Coords

  datatype Cell = Cell(block: nat, y: nat)
  type Surface = seq<Cell>
  datatype Terrain = Terrain(blocks: Key -> seq<nat>, air: nat, boundaryR: int)

  predicate Outside(t: Terrain, x: int, z: int) {
    t.boundaryR > 0 && (x < -t.boundaryR || x > t.boundaryR || z < -t.boundaryR || z > t.boundaryR)
  }

  function CellIn(t: Terrain, blocks: seq<nat>, x: int, z: int, i: int): Cell {
    if Outside(t, x, z) then Cell(t.air, 0)
    else if 0 <= i < |blocks| && blocks[i] != t.air then Cell(blocks[i], 0)
    else Cell(t.air, 0)
  }

  function SurfaceCellAt(t: Terrain, x: int, z: int): Cell {
    CellIn(t, t.blocks(KeyOf(x, z)), x, z, Mod(x, 16) + Mod(z, 16) * 16)
  }

  /** The current surface of a chunk, column by column. */
  function SurfaceOf(t: Terrain, k: Key): (s: Surface)
    ensures |s| == 256
    ensures forall i :: 0 <= i < 256 ==> s[i] == SurfaceCellAt(t, ColumnX(k, i), ColumnZ(k, i))
  {
    seq(256, i requires 0 <= i < 256 => SurfaceCellAt(t, ColumnX(k, i), ColumnZ(k, i)))
  }

  /** What a surface shows of a chunk's blocks: each block in its own column, air in place of it past the boundary. */
  lemma SurfaceShowsBlocks(t: Terrain, k: Key, i: nat)
    requires i < 256 && |t.blocks(k)| == 256
    ensures var x, z := 16 * k.cx + i % 16, 16 * k.cz + i / 16;
            SurfaceOf(t, k)[i]
            == if t.boundaryR <= 0 || (Abs(x) <= t.boundaryR && Abs(z) <= t.boundaryR) then Cell(t.blocks(k)[i], 0)
               else Cell(t.air, 0)
  {
    IndexRoundTrip(k, i);
  }

  /** The per-chunk pass agrees with the per-column lookup. */
  method ComputeChunkSurface(t: Terrain, k: Key) returns (s: Surface)
    ensures s == SurfaceOf(t, k)
  {
    var blocks := t.blocks(k);
    var out := new Cell[256](_ => Cell(0, 0));
    for z := 0 to 16
      invariant forall i :: 0 <= i < z * 16 ==> out[i] == SurfaceCellAt(t, ColumnX(k, i), ColumnZ(k, i))
    {
      for x := 0 to 16
        invariant forall i :: 0 <= i < z * 16 + x ==> out[i] == SurfaceCellAt(t, ColumnX(k, i), ColumnZ(k, i))
      {
        var i := z * 16 + x;
        IndexRoundTrip(k, i);
        assert ColumnX(k, i) == k.cx * 16 + x && ColumnZ(k, i) == k.cz * 16 + z;
        out[i] := CellIn(t, blocks, k.cx * 16 + x, k.cz * 16 + z, x + z * 16);
      }
    }
    s := out[..];
  }

  // ----- one step

  datatype ChunkState = ChunkState(lastWanted: nat, sentFull: bool, needsFull: bool, surface: Option<Surface>)
  datatype Audit = Audit(setBlock: bool, x: int, y: int, z: int)

  /** Which sends the channel takes this step. */
  datatype Link = Link(full: Key -> bool, patch: Key -> bool, evict: Key -> bool)
  datatype Input = Input(now: nat, wanted: seq<Key>, maxFull: int, evictAfter: nat, audits: seq<Audit>)

  /** Server side and, at the far end, the surfaces the client holds. */
  datatype Stream = Stream(states: map<Key, ChunkState>, client: map<Key, Surface>)

  datatype Fulls = Fulls(s: Stream, budget: int, canSend: bool)

  function WantedState(s: Stream, k: Key, now: nat): ChunkState {
    if k in s.states then s.states[k].(lastWanted := now) else ChunkState(now, false, true, None)
  }

  function SendFull(t: Terrain, now: nat, link: Link, f: Fulls, k: Key): Fulls {
    var st := WantedState(f.s, k, now);
    if f.canSend && st.needsFull && f.budget > 0 then
      var surface := if st.surface.Some? then st.surface.value else SurfaceOf(t, k);
      if link.full(k) then
        Fulls(Stream(f.s.states[k := ChunkState(now, true, false, Some(surface))], f.s.client[k := surface]),
          f.budget - 1, true)
      else
        Fulls(f.s.(states := f.s.states[k := st.(surface := Some(surface))]), f.budget, false)
    else
      f.(s := f.s.(states := f.s.states[k := st]))
  }

  function SendFulls(t: Terrain, now: nat, link: Link, f: Fulls, wanted: seq<Key>): Fulls
    decreases |wanted|
  {
    if wanted == [] then f else SendFulls(t, now, link, SendFull(t, now, link, f, wanted[0]), wanted[1..])
  }

  type Patch = map<int, Cell>
  datatype Audited = Audited(states: map<Key, ChunkState>, patches: map<Key, Patch>)

  function PatchFor(patches: map<Key, Patch>, k: Key): Patch {
    if k in patches then patches[k] else map[]
  }

  function ApplyAudit(t: Terrain, a: Audited, e: Audit): Audited {
    var k, i := KeyOf(e.x, e.z), IndexOf(e.x, e.z);
    if !e.setBlock || k !in a.states || a.states[k].surface.None? then a
    else
      var st := a.states[k];
      var cell := SurfaceCellAt(t, e.x, e.z);
      if !(0 <= i < |st.surface.value|) || st.surface.value[i] == cell then a
      else
        Audited(a.states[k := st.(surface := Some(st.surface.value[i := cell]))],
                if st.needsFull then a.patches else a.patches[k := PatchFor(a.patches, k)[i := cell]])
  }

  function ApplyAudits(t: Terrain, a: Audited, es: seq<Audit>): Audited
    decreases |es|
  {
    if es == [] then a else ApplyAudits(t, ApplyAudit(t, a, es[0]), es[1..])
  }

  predicate PatchDue(a: Audited, k: Key) {
    k in a.patches && k in a.states && !a.states[k].needsFull
  }

  function StateAfterPatch(a: Audited, link: Link, k: Key): ChunkState
    requires k in a.states
  {
    if PatchDue(a, k) && !link.patch(k) then a.states[k].(needsFull := true) else a.states[k]
  }

  function SurfaceAfterPatch(a: Audited, client: map<Key, Surface>, link: Link, k: Key): Surface
    requires k in client
  {
    if PatchDue(a, k) && link.patch(k) then Overwritten(client[k], a.patches[k]) else client[k]
  }

  function SendPatches(a: Audited, client: map<Key, Surface>, link: Link): Stream {
    Stream(map k | k in a.states :: StateAfterPatch(a, link, k),
           map k | k in client :: SurfaceAfterPatch(a, client, link, k))
  }

  function EvictAfter(input: Input): nat {
    if input.evictAfter == 0 then 50 else input.evictAfter
  }

  /** Unwanted for long enough (ticks subtract as 64-bit words), and the client lacks it or hears of it. */
  predicate Droppable(input: Input, link: Link, k: Key, lastWanted: nat, sentFull: bool) {
    (input.now - lastWanted) % UINT64 >= EvictAfter(input) && (sentFull ==> link.evict(k))
  }

  predicate Evictable(s: Stream, input: Input, link: Link, k: Key) {
    k in s.states && k !in input.wanted && Droppable(input, link, k, s.states[k].lastWanted, s.states[k].sentFull)
  }

  function MaxFull(input: Input): int {
    if input.maxFull <= 0 then 32 else input.maxFull
  }

  function Evict(s: Stream, input: Input, link: Link): Stream {
    Stream(map k | k in s.states && !Evictable(s, input, link, k) :: s.states[k],
           map k | k in s.client && !(Evictable(s, input, link, k) && s.states[k].sentFull) :: s.client[k])
  }

  function StepChunks(t: Terrain, s: Stream, input: Input, link: Link): Stream {
    var f := SendFulls(t, input.now, link, Fulls(s, MaxFull(input), true), input.wanted);
    var a := ApplyAudits(t, Audited(f.s.states, map[]), input.audits);
    Evict(SendPatches(a, f.s.client, link), input, link)
  }

  // ----- coherence

  ghost predicate Held(s: Stream) {
    forall k :: k in s.client <==> k in s.states && s.states[k].sentFull
  }

  ghost predicate Touched(es: seq<Audit>, x: int, z: int) {
    exists j :: 0 <= j < |es| && es[j].setBlock && es[j].x == x && es[j].z == z
  }

  ghost predicate FreshExcept(t: Terrain, k: Key, s: Surface, es: seq<Audit>) {
    && |s| == 256
    && forall i :: 0 <= i < 256 ==>
         s[i] == SurfaceCellAt(t, ColumnX(k, i), ColumnZ(k, i)) || Touched(es, ColumnX(k, i), ColumnZ(k, i))
  }

  /** Cached surfaces are right except in columns an unprocessed audit names. */
  ghost predicate CachedExcept(t: Terrain, states: map<Key, ChunkState>, es: seq<Audit>) {
    forall k :: k in states && states[k].surface.Some? ==> FreshExcept(t, k, states[k].surface.value, es)
  }

  ghost predicate SyncedAt(st: ChunkState, client: map<Key, Surface>, patches: map<Key, Patch>, k: Key) {
    !st.needsFull ==>
      && st.sentFull && st.surface.Some? && k in client
      && Overwritten(client[k], PatchFor(patches, k)) == st.surface.value
  }

  /** Where no full is due, the client plus its pending patch is the cache. */
  ghost predicate Synced(states: map<Key, ChunkState>, client: map<Key, Surface>, patches: map<Key, Patch>) {
    forall k :: k in states ==> SyncedAt(states[k], client, patches, k)
  }

  /** The client holds exactly the chunks marked sent; every cached surface is the world's; where no full
      is due the client's surface is the cached one. */
  ghost predicate Coherent(t: Terrain, s: Stream) {
    Held(s) && CachedExcept(t, s.states, []) && Synced(s.states, s.client, map[])
  }

  /** The same without the working predicates: a chunk in step shows the client the world as it is. */
  lemma CoherentMeans(t: Terrain, s: Stream, k: Key)
    requires Coherent(t, s) && k in s.states
    ensures k in s.client <==> s.states[k].sentFull
    ensures s.states[k].surface.Some? ==> s.states[k].surface.value == SurfaceOf(t, k)
    ensures !s.states[k].needsFull ==> k in s.client && s.client[k] == SurfaceOf(t, k)
  {
    if s.states[k].surface.Some? {
      var surface := s.states[k].surface.value;
      assert FreshExcept(t, k, surface, []);
      assert surface == SurfaceOf(t, k);
    }
    if !s.states[k].needsFull {
      assert SyncedAt(s.states[k], s.client, map[], k);
      assert Overwritten(s.client[k], map[]) == s.client[k];
    }
  }

  /** Every column that changed since the last step is named by a SET_BLOCK audit. */
  ghost predicate ChangesAudited(t0: Terrain, t: Terrain, es: seq<Audit>) {
    forall x, z :: SurfaceCellAt(t0, x, z) != SurfaceCellAt(t, x, z) ==> Touched(es, x, z)
  }

  lemma NewWorld(t0: Terrain, t: Terrain, s: Stream, es: seq<Audit>)
    requires CachedExcept(t0, s.states, []) && ChangesAudited(t0, t, es)
    ensures CachedExcept(t, s.states, es)
  {
    forall k | k in s.states && s.states[k].surface.Some? ensures FreshExcept(t, k, s.states[k].surface.value, es) {
      assert FreshExcept(t0, k, s.states[k].surface.value, []);
    }
  }

  lemma SendFullKeeps(t: Terrain, now: nat, link: Link, f: Fulls, k: Key, es: seq<Audit>)
    requires Held(f.s) && CachedExcept(t, f.s.states, es) && Synced(f.s.states, f.s.client, map[])
    ensures var f' := SendFull(t, now, link, f, k);
            Held(f'.s) && CachedExcept(t, f'.s.states, es) && Synced(f'.s.states, f'.s.client, map[])
  {
    var f' := SendFull(t, now, link, f, k);
    assert FreshExcept(t, k, SurfaceOf(t, k), es);
    forall j | j in f'.s.states ensures SyncedAt(f'.s.states[j], f'.s.client, map[], j) {
      assert j in f.s.states ==> SyncedAt(f.s.states[j], f.s.client, map[], j);
      if j == k && k in f'.s.client {
        assert Overwritten(f'.s.client[k], map[]) == f'.s.client[k];
      }
    }
  }

  lemma {:induction false} SendFullsKeep(t: Terrain, now: nat, link: Link, f: Fulls, wanted: seq<Key>, es: seq<Audit>)
    requires Held(f.s) && CachedExcept(t, f.s.states, es) && Synced(f.s.states, f.s.client, map[])
    ensures var f' := SendFulls(t, now, link, f, wanted);
            Held(f'.s) && CachedExcept(t, f'.s.states, es) && Synced(f'.s.states, f'.s.client, map[])
    decreases |wanted|
  {
    if wanted != [] {
      SendFullKeeps(t, now, link, f, wanted[0], es);
      SendFullsKeep(t, now, link, SendFull(t, now, link, f, wanted[0]), wanted[1..], es);
    }
  }

  ghost predicate SameSent(a: map<Key, ChunkState>, b: map<Key, ChunkState>) {
    && a.Keys == b.Keys
    && forall k :: k in a ==>
         && a[k].sentFull == b[k].sentFull && a[k].needsFull == b[k].needsFull
         && a[k].lastWanted == b[k].lastWanted
  }

  lemma TouchedHere(es: seq<Audit>, x: int, z: int)
    requires es != [] && Touched(es, x, z)
    ensures (es[0].setBlock && es[0].x == x && es[0].z == z) || Touched(es[1..], x, z)
  {
    var j :| 0 <= j < |es| && es[j].setBlock && es[j].x == x && es[j].z == z;
    if j > 0 {
      assert es[1..][j - 1] == es[j];
    }
  }

  lemma FreshAfterAudit(t: Terrain, k: Key, s: Surface, es: seq<Audit>)
    requires es != [] && FreshExcept(t, k, s, es)
    ensures es[0].setBlock && KeyOf(es[0].x, es[0].z) == k ==>
              && 0 <= IndexOf(es[0].x, es[0].z) < 256
              && FreshExcept(t, k, s[IndexOf(es[0].x, es[0].z) := SurfaceCellAt(t, es[0].x, es[0].z)], es[1..])
    ensures !(es[0].setBlock && KeyOf(es[0].x, es[0].z) == k) ==> FreshExcept(t, k, s, es[1..])
  {
    var e := es[0];
    var at := IndexOf(e.x, e.z);
    ColumnRoundTrip(e.x, e.z);
    forall i | 0 <= i < 256
      ensures s[i] == SurfaceCellAt(t, ColumnX(k, i), ColumnZ(k, i)) || Touched(es[1..], ColumnX(k, i), ColumnZ(k, i))
           || (e.setBlock && KeyOf(e.x, e.z) == k && i == at)
    {
      IndexRoundTrip(k, i);
      if Touched(es, ColumnX(k, i), ColumnZ(k, i)) {
        TouchedHere(es, ColumnX(k, i), ColumnZ(k, i));
      }
    }
  }

  lemma AuditKeeps(t: Terrain, a: Audited, client: map<Key, Surface>, es: seq<Audit>)
    requires es != [] && CachedExcept(t, a.states, es) && Synced(a.states, client, a.patches)
    ensures var a' := ApplyAudit(t, a, es[0]);
            CachedExcept(t, a'.states, es[1..]) && Synced(a'.states, client, a'.patches)
              && SameSent(a.states, a'.states)
  {
    var a', e := ApplyAudit(t, a, es[0]), es[0];
    var k, i := KeyOf(e.x, e.z), IndexOf(e.x, e.z);
    forall j | j in a'.states && a'.states[j].surface.Some?
      ensures FreshExcept(t, j, a'.states[j].surface.value, es[1..])
    {
      FreshAfterAudit(t, j, a.states[j].surface.value, es);
      if j == k && e.setBlock {
        assert a'.states[j].surface.value == a.states[j].surface.value[i := SurfaceCellAt(t, e.x, e.z)];
      }
    }
    forall j | j in a'.states ensures SyncedAt(a'.states[j], client, a'.patches, j) {
      assert SyncedAt(a.states[j], client, a.patches, j);
      if a' != a && j == k && !a.states[k].needsFull {
        var cell := SurfaceCellAt(t, e.x, e.z);
        assert Overwritten(client[k], PatchFor(a.patches, k)[i := cell])
          == Overwritten(client[k], PatchFor(a.patches, k))[i := cell];
      }
    }
  }

  lemma {:induction false} AuditsKeep(t: Terrain, a: Audited, client: map<Key, Surface>, es: seq<Audit>)
    requires CachedExcept(t, a.states, es) && Synced(a.states, client, a.patches)
    ensures var a' := ApplyAudits(t, a, es);
            CachedExcept(t, a'.states, []) && Synced(a'.states, client, a'.patches) && SameSent(a.states, a'.states)
    decreases |es|
  {
    if es == [] {
      assert es == [];
    } else {
      AuditKeeps(t, a, client, es);
      AuditsKeep(t, ApplyAudit(t, a, es[0]), client, es[1..]);
    }
  }

  lemma PatchesKeep(t: Terrain, a: Audited, client: map<Key, Surface>, link: Link)
    requires Held(Stream(a.states, client)) && CachedExcept(t, a.states, []) && Synced(a.states, client, a.patches)
    ensures Coherent(t, SendPatches(a, client, link))
  {
    var s := SendPatches(a, client, link);
    forall k | k in s.states ensures SyncedAt(s.states[k], s.client, map[], k) {
      assert SyncedAt(a.states[k], client, a.patches, k);
      if !s.states[k].needsFull {
        assert Overwritten(s.client[k], map[]) == s.client[k];
        assert k !in a.patches ==> Overwritten(client[k], map[]) == client[k];
      }
    }
    forall k ensures k in s.client <==> k in s.states && s.states[k].sentFull {
      assert k in client <==> k in a.states && a.states[k].sentFull;
    }
  }

  lemma EvictKeeps(t: Terrain, s: Stream, input: Input, link: Link)
    requires Coherent(t, s)
    ensures Coherent(t, Evict(s, input, link))
  {
    var s' := Evict(s, input, link);
    forall k | k in s'.states ensures SyncedAt(s'.states[k], s'.client, map[], k) {
      assert SyncedAt(s.states[k], s.client, map[], k);
    }
  }

  lemma HeldCarries(s: Stream, states: map<Key, ChunkState>)
    requires Held(s) && SameSent(s.states, states)
    ensures Held(Stream(states, s.client))
  {
  }

  /** One step restores coherence with the new world, whatever the channel refuses. */
  lemma StepKeepsCoherent(t0: Terrain, t: Terrain, s: Stream, input: Input, link: Link)
    requires Coherent(t0, s) && ChangesAudited(t0, t, input.audits)
    ensures Coherent(t, StepChunks(t, s, input, link))
  {
    var f0 := Fulls(s, MaxFull(input), true);
    NewWorld(t0, t, s, input.audits);
    SendFullsKeep(t, input.now, link, f0, input.wanted, input.audits);
    var f := SendFulls(t, input.now, link, f0, input.wanted);
    AuditsKeep(t, Audited(f.s.states, map[]), f.s.client, input.audits);
    var a := ApplyAudits(t, Audited(f.s.states, map[]), input.audits);
    HeldCarries(f.s, a.states);
    PatchesKeep(t, a, f.s.client, link);
    EvictKeeps(t, SendPatches(a, f.s.client, link), input, link);
  }

  // ----- whole runs

  datatype Tick = Tick(terrain: Terrain, input: Input, link: Link)

  function RunChunks(s: Stream, ticks: seq<Tick>): Stream {
    if ticks == [] then s
    else
      var last := ticks[|ticks| - 1];
      StepChunks(last.terrain, RunChunks(s, ticks[..|ticks| - 1]), last.input, last.link)
  }

  function TerrainAfter(t0: Terrain, ticks: seq<Tick>): Terrain {
    if ticks == [] then t0 else ticks[|ticks| - 1].terrain
  }

  ghost predicate AuditedRun(t0: Terrain, ticks: seq<Tick>) {
    forall j :: 0 <= j < |ticks| ==>
      ChangesAudited(TerrainAfter(t0, ticks[..j]), ticks[j].terrain, ticks[j].input.audits)
  }

  /** From an empty stream, for every history of terrain, requests and send failures, the stream is
      coherent with the world after every step. */
  lemma {:induction false} EveryRunIsCoherent(t0: Terrain, ticks: seq<Tick>)
    requires AuditedRun(t0, ticks)
    ensures Coherent(TerrainAfter(t0, ticks), RunChunks(Stream(map[], map[]), ticks))
  {
    if ticks != [] {
      var n := |ticks| - 1;
      var before := ticks[..n];
      forall j | 0 <= j < n
        ensures ChangesAudited(TerrainAfter(t0, before[..j]), before[j].terrain, before[j].input.audits)
      {
        assert before[..j] == ticks[..j];
      }
      EveryRunIsCoherent(t0, before);
      StepKeepsCoherent(TerrainAfter(t0, before), ticks[n].terrain, RunChunks(Stream(map[], map[]), before),
        ticks[n].input, ticks[n].link);
    }
  }

  function IndexInChunk(x: int, z: int): (i: nat)
    ensures i < 256
  {
    ColumnRoundTrip(x, z);
    IndexOf(x, z)
  }

  /** The blocks change only where an audit says so; air and boundary stay. */
  ghost predicate BlocksAudited(t0: Terrain, t: Terrain, es: seq<Audit>) {
    && t.air == t0.air && t.boundaryR == t0.boundaryR
    && forall x, z :: |t0.blocks(KeyOf(x, z))| == |t.blocks(KeyOf(x, z))| == 256
         && (t0.blocks(KeyOf(x, z))[IndexInChunk(x, z)] != t.blocks(KeyOf(x, z))[IndexInChunk(x, z)] ==>
               exists e :: e in es && e.setBlock && e.x == x && e.z == z)
  }

  lemma BlocksAuditedChanges(t0: Terrain, t: Terrain, es: seq<Audit>)
    requires BlocksAudited(t0, t, es)
    ensures ChangesAudited(t0, t, es)
  {
    forall x, z | SurfaceCellAt(t0, x, z) != SurfaceCellAt(t, x, z) ensures Touched(es, x, z) {
      assert t0.blocks(KeyOf(x, z))[IndexInChunk(x, z)] != t.blocks(KeyOf(x, z))[IndexInChunk(x, z)];
    }
  }

  ghost predicate BlocksAuditedRun(t0: Terrain, ticks: seq<Tick>) {
    forall j :: 0 <= j < |ticks| ==>
      BlocksAudited(TerrainAfter(t0, ticks[..j]), ticks[j].terrain, ticks[j].input.audits)
  }

  /** End to end: after any run in which the audits tell the changes, whatever the channel refused, a chunk that
      awaits no full shows the client the present blocks, each in its column. */
  lemma EveryRunShowsBlocks(t0: Terrain, ticks: seq<Tick>, k: Key, i: nat)
    requires ticks != [] && BlocksAuditedRun(t0, ticks) && i < 256
    ensures var t, s := ticks[|ticks| - 1].terrain, RunChunks(Stream(map[], map[]), ticks);
            k in s.states && !s.states[k].needsFull ==>
              && |t.blocks(k)| == 256 && k in s.client && |s.client[k]| == 256
              && var x, z := 16 * k.cx + i % 16, 16 * k.cz + i / 16;
                 s.client[k][i]
                 == if t.boundaryR <= 0 || (Abs(x) <= t.boundaryR && Abs(z) <= t.boundaryR) then Cell(t.blocks(k)[i], 0)
                    else Cell(t.air, 0)
  {
    forall j | 0 <= j < |ticks|
      ensures ChangesAudited(TerrainAfter(t0, ticks[..j]), ticks[j].terrain, ticks[j].input.audits)
    {
      BlocksAuditedChanges(TerrainAfter(t0, ticks[..j]), ticks[j].terrain, ticks[j].input.audits);
    }
    EveryRunIsCoherent(t0, ticks);
    var n := |ticks| - 1;
    var t, s := ticks[n].terrain, RunChunks(Stream(map[], map[]), ticks);
    if k in s.states && !s.states[k].needsFull {
      CoherentMeans(t, s, k);
      assert BlocksAudited(TerrainAfter(t0, ticks[..n]), t, ticks[n].input.audits);
      IndexRoundTrip(k, 0);
      SurfaceShowsBlocks(t, k, i);
    }
  }

  // ----- what coherence alone does not force: delivery and retention

  ghost predicate Delivered(s: Stream, k: Key) {
    k in s.states && !s.states[k].needsFull
  }

  lemma {:induction false} SendFullsDeliver(t: Terrain, now: nat, link: Link, f: Fulls, wanted: seq<Key>, k: Key)
    requires (forall j :: link.full(j)) && f.canSend
    requires Delivered(f.s, k) || exists n :: 0 <= n < |wanted| && n < f.budget && wanted[n] == k
    ensures Delivered(SendFulls(t, now, link, f, wanted).s, k)
    decreases |wanted|
  {
    if wanted != [] {
      var f1 := SendFull(t, now, link, f, wanted[0]);
      if !Delivered(f.s, k) {
        var n :| 0 <= n < |wanted| && n < f.budget && wanted[n] == k;
        assert n > 0 ==> wanted[1..][n - 1] == k;
      }
      SendFullsDeliver(t, now, link, f1, wanted[1..], k);
    }
  }

  lemma {:induction false} AuditsSameSent(t: Terrain, a: Audited, es: seq<Audit>)
    ensures SameSent(a.states, ApplyAudits(t, a, es).states)
    decreases |es|
  {
    if es != [] {
      AuditsSameSent(t, ApplyAudit(t, a, es[0]), es[1..]);
    }
  }

  lemma DeliveredLasts(t: Terrain, s: Stream, input: Input, link: Link, n: nat)
    requires forall j :: link.full(j) && link.patch(j)
    requires n < |input.wanted| && n < MaxFull(input)
    ensures Delivered(StepChunks(t, s, input, link), input.wanted[n])
  {
    var f0 := Fulls(s, MaxFull(input), true);
    var f := SendFulls(t, input.now, link, f0, input.wanted);
    SendFullsDeliver(t, input.now, link, f0, input.wanted, input.wanted[n]);
    AuditsSameSent(t, Audited(f.s.states, map[]), input.audits);
  }

  /** When the channel takes everything, one step leaves the client with the current surface of each wanted
      chunk within the budget of fulls, counted from the front of the list. */
  lemma WantedChunksDelivered(t0: Terrain, t: Terrain, s: Stream, input: Input, link: Link, n: nat)
    requires Coherent(t0, s) && ChangesAudited(t0, t, input.audits)
    requires forall j :: link.full(j) && link.patch(j)
    requires n < |input.wanted| && n < MaxFull(input)
    ensures var s', k := StepChunks(t, s, input, link), input.wanted[n];
            k in s'.client && s'.client[k] == SurfaceOf(t, k)
  {
    var k := input.wanted[n];
    DeliveredLasts(t, s, input, link, n);
    StepKeepsCoherent(t0, t, s, input, link);
    CoherentMeans(t, StepChunks(t, s, input, link), k);
  }

  lemma {:induction false} SendFullsTouchWanted(t: Terrain, now: nat, link: Link, f: Fulls, wanted: seq<Key>, k: Key)
    ensures var s := SendFulls(t, now, link, f, wanted).s;
            && (k in wanted ==> k in s.states && s.states[k].lastWanted == now)
            && (k !in wanted && k in f.s.states ==> k in s.states && s.states[k] == f.s.states[k])
            && (k !in wanted && k !in f.s.states ==> k !in s.states)
    decreases |wanted|
  {
    if wanted != [] {
      assert wanted == [wanted[0]] + wanted[1..];
      SendFullsTouchWanted(t, now, link, SendFull(t, now, link, f, wanted[0]), wanted[1..], k);
      SendFullsTouchWanted(t, now, link, SendFull(t, now, link, f, wanted[0]), wanted[1..], wanted[0]);
      if wanted[0] !in wanted[1..] {
        assert SendFull(t, now, link, f, wanted[0]).s.states[wanted[0]].lastWanted == now;
      }
    }
  }

  lemma PatchesSameAge(a: Audited, client: map<Key, Surface>, link: Link, k: Key)
    ensures var s := SendPatches(a, client, link);
            && (k in s.states <==> k in a.states)
            && (k in a.states ==>
                  s.states[k].lastWanted == a.states[k].lastWanted && s.states[k].sentFull == a.states[k].sentFull)
  {
  }

  /** A chunk is dropped exactly when it has been unwanted long enough and the channel takes the eviction
      (or the client never had it); wanted chunks are tracked from the first step. */
  lemma DroppedExactlyWhenStale(t: Terrain, s: Stream, input: Input, link: Link, k: Key)
    ensures k in StepChunks(t, s, input, link).states <==>
              || k in input.wanted
              || (k in s.states
                  && ((input.now - s.states[k].lastWanted) % 0x1_0000_0000_0000_0000
                        < (if input.evictAfter == 0 then 50 else input.evictAfter)
                      || (s.states[k].sentFull && !link.evict(k))))
  {
    var f0 := Fulls(s, MaxFull(input), true);
    var f := SendFulls(t, input.now, link, f0, input.wanted);
    SendFullsTouchWanted(t, input.now, link, f0, input.wanted, k);
    AuditsSameSent(t, Audited(f.s.states, map[]), input.audits);
    var a := ApplyAudits(t, Audited(f.s.states, map[]), input.audits);
    PatchesSameAge(a, f.s.client, link, k);
  }

  // ----- the imperative form

  lemma {:induction false} SendFullsLast(t: Terrain, now: nat, link: Link, f: Fulls, wanted: seq<Key>, k: Key)
    ensures SendFulls(t, now, link, f, wanted + [k]) == SendFull(t, now, link, SendFulls(t, now, link, f, wanted), k)
    decreases |wanted|
  {
    if wanted == [] {
      assert (wanted + [k])[1..] == [];
    } else {
      assert (wanted + [k])[1..] == wanted[1..] + [k];
      SendFullsLast(t, now, link, SendFull(t, now, link, f, wanted[0]), wanted[1..], k);
    }
  }

  lemma {:induction false} ApplyAuditsLast(t: Terrain, a: Audited, es: seq<Audit>, e: Audit)
    ensures ApplyAudits(t, a, es + [e]) == ApplyAudit(t, ApplyAudits(t, a, es), e)
    decreases |es|
  {
    if es == [] {
      assert (es + [e])[1..] == [];
    } else {
      assert (es + [e])[1..] == es[1..] + [e];
      ApplyAuditsLast(t, ApplyAudit(t, a, es[0]), es[1..], e);
    }
  }

  function PatchOne(s: Stream, k: Key, m: Patch, link: Link): Stream {
    if k !in s.states || s.states[k].needsFull then s
    else if !link.patch(k) then s.(states := s.states[k := s.states[k].(needsFull := true)])
    else if k in s.client then s.(client := s.client[k := Overwritten(s.client[k], m)])
    else s
  }

  /** The stream with the patches outside `todo` dealt with. */
  function PatchedExcept(a: Audited, client: map<Key, Surface>, link: Link, todo: set<Key>): Stream {
    Stream(map k | k in a.states :: if k in todo then a.states[k] else StateAfterPatch(a, link, k),
           map k | k in client :: if k in todo then client[k] else SurfaceAfterPatch(a, client, link, k))
  }

  lemma PatchEnds(a: Audited, client: map<Key, Surface>, link: Link)
    ensures PatchedExcept(a, client, link, a.patches.Keys) == Stream(a.states, client)
    ensures PatchedExcept(a, client, link, {}) == SendPatches(a, client, link)
  {
    var s, s' := PatchedExcept(a, client, link, a.patches.Keys), PatchedExcept(a, client, link, {});
    assert s.states == a.states && s.client == client;
    assert s'.states == SendPatches(a, client, link).states && s'.client == SendPatches(a, client, link).client;
  }

  lemma PatchOneMore(a: Audited, client: map<Key, Surface>, link: Link, todo: set<Key>, k: Key)
    requires k in todo && todo <= a.patches.Keys
    ensures PatchOne(PatchedExcept(a, client, link, todo), k, a.patches[k], link)
              == PatchedExcept(a, client, link, todo - {k})
  {
    var s, s' := PatchOne(PatchedExcept(a, client, link, todo), k, a.patches[k], link),
      PatchedExcept(a, client, link, todo - {k});
    assert s.states == s'.states;
    assert s.client == s'.client;
  }

  function RemoteExcept(s: Stream, input: Input, link: Link, todo: set<Key>): map<Key, Surface> {
    map k | k in s.client && (k in todo || !(Evictable(s, input, link, k) && s.states[k].sentFull)) :: s.client[k]
  }

  lemma RemoteEnds(s: Stream, input: Input, link: Link)
    ensures RemoteExcept(s, input, link, s.states.Keys) == s.client
    ensures RemoteExcept(s, input, link, {}) == Evict(s, input, link).client
  {
  }

  lemma RemoteOneMore(s: Stream, input: Input, link: Link, todo: set<Key>, k: Key)
    requires k in todo
    ensures RemoteExcept(s, input, link, todo - {k})
         == if Evictable(s, input, link, k) && s.states[k].sentFull then RemoteExcept(s, input, link, todo) - {k}
            else RemoteExcept(s, input, link, todo)
  {
  }

  class ChunkClient {
    var chunks: map<Key, ChunkState>
    /** What the far end holds; written only by sends the channel took. */
    var remote: map<Key, Surface>

    function View(): Stream
      reads this
    {
      Stream(chunks, remote)
    }

    constructor ()
      ensures View() == Stream(map[], map[])
    {
      chunks, remote := map[], map[];
    }

    /** One wanted chunk. */
    method SendFullChunk(t: Terrain, now: nat, link: Link, k: Key, budget0: int, canSend0: bool)
      returns (budget: int, canSend: bool)
      modifies this
      ensures Fulls(View(), budget, canSend) == SendFull(t, now, link, Fulls(old(View()), budget0, canSend0), k)
    {
      budget, canSend := budget0, canSend0;
      var st := if k in chunks then chunks[k].(lastWanted := now) else ChunkState(now, false, true, None);
      if canSend && st.needsFull && budget > 0 {
        if st.surface.None? {
          var surface := ComputeChunkSurface(t, k);
          st := st.(surface := Some(surface));
        }
        if link.full(k) {
          remote := remote[k := st.surface.value];
          st := st.(sentFull := true, needsFull := false);
          budget := budget - 1;
        } else {
          canSend := false;
        }
      }
      chunks := chunks[k := st];
    }

    method SendFullChunks(t: Terrain, input: Input, link: Link)
      modifies this
      ensures View() == SendFulls(t, input.now, link, Fulls(old(View()), MaxFull(input), true), input.wanted).s
    {
      var budget, canSend := MaxFull(input), true;
      ghost var start := Fulls(View(), budget, true);
      for n := 0 to |input.wanted|
        invariant Fulls(View(), budget, canSend) == SendFulls(t, input.now, link, start, input.wanted[..n])
      {
        var k := input.wanted[n];
        SendFullsLast(t, input.now, link, start, input.wanted[..n], k);
        assert input.wanted[..n + 1] == input.wanted[..n] + [k];
        budget, canSend := SendFullChunk(t, input.now, link, k, budget, canSend);
      }
      assert input.wanted[..|input.wanted|] == input.wanted;
    }

    method CollectPatches(t: Terrain, input: Input) returns (patches: map<Key, Patch>)
      modifies this`chunks
      ensures Audited(chunks, patches) == ApplyAudits(t, Audited(old(chunks), map[]), input.audits)
    {
      patches := map[];
      for n := 0 to |input.audits|
        invariant Audited(chunks, patches) == ApplyAudits(t, Audited(old(chunks), map[]), input.audits[..n])
      {
        var e := input.audits[n];
        ApplyAuditsLast(t, Audited(old(chunks), map[]), input.audits[..n], e);
        assert input.audits[..n + 1] == input.audits[..n] + [e];
        var k, i := KeyOf(e.x, e.z), IndexOf(e.x, e.z);
        if e.setBlock && k in chunks && chunks[k].surface.Some? {
          var st := chunks[k];
          var cell := SurfaceCellAt(t, e.x, e.z);
          if 0 <= i < |st.surface.value| && st.surface.value[i] != cell {
            chunks := chunks[k := st.(surface := Some(st.surface.value[i := cell]))];
            if !st.needsFull {
              patches := patches[k := PatchFor(patches, k)[i := cell]];
            }
          }
        }
      }
      assert input.audits[..|input.audits|] == input.audits;
    }

    method SendChunkPatch(k: Key, m: Patch, link: Link)
      modifies this
      ensures View() == PatchOne(old(View()), k, m, link)
    {
      if k !in chunks || chunks[k].needsFull {
        return;
      }
      if !link.patch(k) {
        chunks := chunks[k := chunks[k].(needsFull := true)];
      } else if k in remote {
        remote := remote[k := Overwritten(remote[k], m)];
      }
    }

    method SendChunkPatches(patches: map<Key, Patch>, link: Link)
      modifies this
      ensures View() == SendPatches(Audited(old(chunks), patches), old(remote), link)
    {
      ghost var a := Audited(chunks, patches);
      var todo := patches.Keys;
      PatchEnds(a, remote, link);
      while todo != {}
        invariant todo <= patches.Keys
        invariant View() == PatchedExcept(a, old(remote), link, todo)
        decreases todo
      {
        var k :| k in todo;
        PatchOneMore(a, old(remote), link, todo, k);
        SendChunkPatch(k, patches[k], link);
        todo := todo - {k};
      }
    }

    method EvictChunks(input: Input, link: Link)
      modifies this
      ensures View() == Evict(old(View()), input, link)
    {
      ghost var s := View();
      var evicted: set<Key> := {};
      var todo := chunks.Keys;
      RemoteEnds(s, input, link);
      while todo != {}
        invariant todo <= chunks.Keys && chunks == old(chunks)
        invariant evicted == set k | k in chunks && k !in todo && Evictable(s, input, link, k)
        invariant remote == RemoteExcept(s, input, link, todo)
        decreases todo
      {
        var k :| k in todo;
        var st := chunks[k];
        RemoteOneMore(s, input, link, todo, k);
        if k !in input.wanted && (input.now - st.lastWanted) % UINT64 >= EvictAfter(input) {
          if !st.sentFull {
            evicted := evicted + {k};
          } else if link.evict(k) {
            remote := remote - {k};
            evicted := evicted + {k};
          }
        }
        todo := todo - {k};
      }
      chunks := chunks - evicted;
    }

    /** One step of the stream for one client. */
    method StepChunkRuntime(t: Terrain, input: Input, link: Link)
      modifies this
      ensures View() == StepChunks(t, old(View()), input, link)
    {
      SendFullChunks(t, input, link);
      var patches := CollectPatches(t, input);
      SendChunkPatches(patches, link);
      EvictChunks(input, link);
    }
  }
}
