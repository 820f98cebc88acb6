/** The observer's voxel stream, first for one chunk, then for all of them together. Unlike the surface stream
    it does not keep the client in step with the world; this module says exactly when it does. */
module VoxelStream {
  import opened Common
  import opened Coords

  type Blocks = seq<nat>
  /** `blocks` is None for a nil slice. */
  datatype Chunk = Chunk(lastWanted: nat, sentFull: bool, needsFull: bool, blocks: Option<Blocks>)
  datatype Side = Side(chunk: Option<Chunk>, client: Option<Blocks>)
  /** A ground-level SET_BLOCK audit inside the chunk. */
  datatype Edit = Edit(cell: nat, to: nat)
  /** `turn`: when the chunk comes up there is full budget left and no send has been refused yet. */
  datatype Input = Input(now: nat, enabled: bool, wanted: bool, turn: bool, evictAfter: nat, edits: seq<Edit>)
  datatype Link = Link(full: bool, patch: bool, evict: bool)
  type Patch = map<int, nat>

  // ----- one step of one chunk

  /** make + copy: a nil slice comes back as an empty one. */
  function Copied(c: Chunk): Chunk {
    c.(blocks := Some(if c.blocks.Some? then c.blocks.value else []))
  }

  function CopiedSide(s: Side): Side {
    if s.chunk.Some? then s.(chunk := Some(Copied(s.chunk.value))) else s
  }

  function FullPhase(s: Side, input: Input, link: Link, world: Blocks): Side {
    if !input.wanted then s
    else
      var c := if s.chunk.Some? then s.chunk.value.(lastWanted := input.now) else Chunk(input.now, false, true, None);
      if input.turn && c.needsFull then
        var blocks := if c.blocks.Some? then c.blocks.value else world;
        if link.full then Side(Some(Chunk(input.now, true, false, Some(blocks))), Some(blocks))
        else s.(chunk := Some(c.(blocks := Some(blocks))))
      else s.(chunk := Some(c))
  }

  function ApplyEdits(b: Blocks, m: Patch, es: seq<Edit>): (Blocks, Patch)
    decreases |es|
  {
    if es == [] then (b, m)
    else if es[0].cell >= |b| || b[es[0].cell] == es[0].to then ApplyEdits(b, m, es[1..])
    else ApplyEdits(b[es[0].cell := es[0].to], m[es[0].cell := es[0].to], es[1..])
  }

  function PatchPhase(s: Side, input: Input, link: Link): Side {
    if !input.wanted || s.chunk.None? || s.chunk.value.blocks.None? || s.chunk.value.needsFull then s
    else
      var (blocks, m) := ApplyEdits(s.chunk.value.blocks.value, map[], input.edits);
      var c := s.chunk.value.(blocks := Some(blocks));
      if m == map[] then s.(chunk := Some(c))
      else if !link.patch then s.(chunk := Some(c.(needsFull := true)))
      else Side(Some(c), if s.client.Some? then Some(Overwritten(s.client.value, m)) else None)
  }

  function EvictAfter(input: Input): nat {
    if input.evictAfter == 0 then 10 else input.evictAfter
  }

  /** Unwanted for long enough, and the client lacks it or hears of it. */
  predicate Dropped(c: Chunk, input: Input, link: Link) {
    !input.wanted && (input.now - c.lastWanted) % UINT64 >= EvictAfter(input) && (c.sentFull ==> link.evict)
  }

  function EvictPhase(s: Side, input: Input, link: Link): Side {
    if s.chunk.Some? && Dropped(s.chunk.value, input, link)
    then Side(None, if s.chunk.value.sentFull then None else s.client)
    else s
  }

  function StepRuntime(s: Side, input: Input, link: Link, world: Blocks): Side {
    if !input.enabled then
      if s.chunk.None? then s else Side(None, if s.chunk.value.sentFull && link.evict then None else s.client)
    else EvictPhase(PatchPhase(FullPhase(s, input, link, world), input, link), input, link)
  }

  function StepVoxels(s: Side, input: Input, link: Link, world: Blocks): Side {
    CopiedSide(StepRuntime(CopiedSide(s), input, link, world))
  }

  // ----- what a faithful stream would keep

  /** The world's own effect of the edits. */
  function Replay(b: Blocks, es: seq<Edit>): (r: Blocks)
    ensures |r| == |b|
    decreases |es|
  {
    if es == [] then b
    else if es[0].cell >= |b| then Replay(b, es[1..])
    else Replay(b[es[0].cell := es[0].to], es[1..])
  }

  /** The cache is the world, the client holds the chunk just when it is marked sent, and unless a full is
      due it holds the world. */
  ghost predicate InStep(s: Side, world: Blocks) {
    if s.chunk.None? then s.client.None?
    else
      var c := s.chunk.value;
      && c.blocks == Some(world)
      && (c.sentFull <==> s.client.Some?)
      && (!c.needsFull ==> s.client == Some(world))
  }

  /** The steps that break it: switching off with the eviction refused; wanting a chunk whose turn does not
      come; and an edit while a full is overdue or the chunk is kept though unwanted. */
  predicate Misses(s: Side, input: Input, link: Link, world: Blocks, world': Blocks) {
    if !input.enabled then s.chunk.Some? && s.chunk.value.sentFull && !link.evict
    else if s.chunk.None? then input.wanted && !input.turn
    else
      var c := s.chunk.value;
      world != world' && (if input.wanted then c.needsFull && !(input.turn && link.full) else !Dropped(c, input, link))
  }

  lemma {:induction false} EditsAreReplayed(b: Blocks, m: Patch, es: seq<Edit>, b0: Blocks)
    requires |b0| == |b| && Overwritten(b0, m) == b
    ensures var (r, m') := ApplyEdits(b, m, es); r == Replay(b, es) && Overwritten(b0, m') == r
    decreases |es|
  {
    if es != [] {
      var e := es[0];
      if e.cell < |b| {
        assert Overwritten(b0, m[e.cell := e.to]) == b[e.cell := e.to];
        if b[e.cell] == e.to {
          assert b[e.cell := e.to] == b;
          EditsAreReplayed(b, m, es[1..], b0);
        } else {
          EditsAreReplayed(b[e.cell := e.to], m[e.cell := e.to], es[1..], b0);
        }
      } else {
        EditsAreReplayed(b, m, es[1..], b0);
      }
    }
  }

  /** Where the two start alike or some edit writes, replaying ends alike. */
  lemma {:induction false} ReplayForgets(a: Blocks, b: Blocks, es: seq<Edit>, i: nat)
    requires |a| == |b| && i < |a| && (a[i] == b[i] || exists e :: e in es && e.cell == i)
    ensures Replay(a, es)[i] == Replay(b, es)[i]
    decreases |es|
  {
    if es != [] {
      var e := es[0];
      var a', b' := if e.cell < |a| then a[e.cell := e.to] else a, if e.cell < |b| then b[e.cell := e.to] else b;
      assert es == [e] + es[1..];
      ReplayForgets(a', b', es[1..], i);
    }
  }

  lemma {:induction false} ReplayLeaves(b: Blocks, es: seq<Edit>, i: nat)
    requires i < |b| && forall e :: e in es ==> e.cell != i
    ensures Replay(b, es)[i] == b[i]
    decreases |es|
  {
    if es != [] {
      var b' := if es[0].cell < |b| then b[es[0].cell := es[0].to] else b;
      assert es == [es[0]] + es[1..];
      ReplayLeaves(b', es[1..], i);
    }
  }

  /** Auditing a world that already shows the edits changes nothing. */
  lemma ReplayTwice(b: Blocks, es: seq<Edit>)
    ensures Replay(Replay(b, es), es) == Replay(b, es)
  {
    var r := Replay(b, es);
    forall i | 0 <= i < |b| ensures Replay(r, es)[i] == r[i] {
      if exists e :: e in es && e.cell == i {
        ReplayForgets(r, b, es, i);
      } else {
        ReplayLeaves(b, es, i);
        ReplayForgets(r, b, es, i);
      }
    }
  }

  lemma PatchPhaseInStep(s: Side, input: Input, link: Link, world': Blocks)
    requires s.chunk.Some? && s.chunk.value.blocks.Some? && !s.chunk.value.needsFull && s.chunk.value.sentFull
               && input.wanted
    requires s.client == s.chunk.value.blocks && Replay(s.chunk.value.blocks.value, input.edits) == world'
    ensures InStep(PatchPhase(s, input, link), world')
    ensures PatchPhase(s, input, link).chunk.Some?
  {
    var b := s.chunk.value.blocks.value;
    assert Overwritten(b, map[]) == b;
    EditsAreReplayed(b, map[], input.edits, b);
    var (r, m) := ApplyEdits(b, map[], input.edits);
    if m == map[] {
      assert r == b;
    }
  }

  /** From a chunk in step, one step leaves it in step if and only if it does not miss. */
  lemma InStepIffNotMissed(s: Side, input: Input, link: Link, world: Blocks, world': Blocks)
    requires |world| == 256 && InStep(s, world) && Replay(world, input.edits) == world'
    ensures InStep(StepVoxels(s, input, link, world'), world') <==> !Misses(s, input, link, world, world')
  {
    assert CopiedSide(s) == s;
    if input.enabled && input.wanted {
      var f := FullPhase(s, input, link, world');
      if f.chunk.value.blocks.Some? && !f.chunk.value.needsFull {
        ReplayTwice(world, input.edits);
        PatchPhaseInStep(f, input, link, world');
      } else {
        assert PatchPhase(f, input, link) == f;
      }
    }
  }

  // ----- all chunks of a client

  datatype Voxels = Voxels(chunks: map<Key, Chunk>, client: map<Key, Blocks>)

  /** One step's input: the wanted chunks in order, the budget of fulls, and each chunk's ground-level edits. */
  datatype Frame = Frame(now: nat, enabled: bool, wanted: seq<Key>, maxFull: int, evictAfter: nat,
                         edits: Key -> seq<Edit>)
  datatype Channel = Channel(full: Key -> bool, patch: Key -> bool, evict: Key -> bool)
  type World = Key -> Blocks

  function SideOf(v: Voxels, k: Key): Side {
    Side(if k in v.chunks then Some(v.chunks[k]) else None, if k in v.client then Some(v.client[k]) else None)
  }

  function LinkOf(ch: Channel, k: Key): Link {
    Link(ch.full(k), ch.patch(k), ch.evict(k))
  }

  datatype Fulls = Fulls(v: Voxels, budget: int, canSend: bool)

  function SendFull(world: World, now: nat, ch: Channel, f: Fulls, k: Key): Fulls {
    var c := if k in f.v.chunks then f.v.chunks[k].(lastWanted := now) else Chunk(now, false, true, None);
    if f.canSend && c.needsFull && f.budget > 0 then
      var blocks := if c.blocks.Some? then c.blocks.value else world(k);
      if ch.full(k) then
        Fulls(Voxels(f.v.chunks[k := Chunk(now, true, false, Some(blocks))], f.v.client[k := blocks]),
              f.budget - 1, true)
      else
        Fulls(f.v.(chunks := f.v.chunks[k := c.(blocks := Some(blocks))]), f.budget, false)
    else
      f.(v := f.v.(chunks := f.v.chunks[k := c]))
  }

  function SendFulls(world: World, now: nat, ch: Channel, f: Fulls, wanted: seq<Key>): Fulls
    decreases |wanted|
  {
    if wanted == [] then f else SendFulls(world, now, ch, SendFull(world, now, ch, f, wanted[0]), wanted[1..])
  }

  function MaxFull(fr: Frame): int {
    if fr.maxFull <= 0 then 8 else fr.maxFull
  }

  /** Whether there is budget left and nothing was refused yet when the list comes to `k`. */
  function Turn(world: World, now: nat, ch: Channel, f: Fulls, wanted: seq<Key>, k: Key): bool
    decreases |wanted|
  {
    if wanted == [] then false
    else if wanted[0] == k then f.canSend && f.budget > 0
    else Turn(world, now, ch, SendFull(world, now, ch, f, wanted[0]), wanted[1..], k)
  }

  function CopiedAll(v: Voxels): Voxels {
    v.(chunks := map k | k in v.chunks :: Copied(v.chunks[k]))
  }

  function Start(fr: Frame, v: Voxels): Fulls {
    Fulls(CopiedAll(v), MaxFull(fr), true)
  }

  function InputOf(fr: Frame, ch: Channel, v: Voxels, world: World, k: Key): Input {
    Input(fr.now, fr.enabled, k in fr.wanted, Turn(world, fr.now, ch, Start(fr, v), fr.wanted, k), fr.evictAfter,
          fr.edits(k))
  }

  /** What the audit, patch and evict phases leave of one chunk. */
  function Finished(v: Voxels, input: Input, link: Link, k: Key): Side {
    EvictPhase(PatchPhase(SideOf(v, k), input, link), input, link)
  }

  function StepAll(v: Voxels, fr: Frame, ch: Channel, world: World): Voxels {
    if !fr.enabled then
      Voxels(map[], map k | k in v.client && !(k in v.chunks && v.chunks[k].sentFull && ch.evict(k)) :: v.client[k])
    else
      var w := SendFulls(world, fr.now, ch, Start(fr, v), fr.wanted).v;
      CopiedAll(Voxels(
        map k | k in w.chunks && Finished(w, InputOf(fr, ch, v, world, k), LinkOf(ch, k), k).chunk.Some? ::
          Finished(w, InputOf(fr, ch, v, world, k), LinkOf(ch, k), k).chunk.value,
        map k | k in w.client && Finished(w, InputOf(fr, ch, v, world, k), LinkOf(ch, k), k).client.Some? ::
          Finished(w, InputOf(fr, ch, v, world, k), LinkOf(ch, k), k).client.value))
  }

  ghost predicate Distinct(wanted: seq<Key>) {
    forall i, j :: 0 <= i < j < |wanted| ==> wanted[i] != wanted[j]
  }

  lemma {:induction false} FullsLeaveOthers(world: World, now: nat, ch: Channel, f: Fulls, wanted: seq<Key>, k: Key)
    requires k !in wanted
    ensures SideOf(SendFulls(world, now, ch, f, wanted).v, k) == SideOf(f.v, k)
    decreases |wanted|
  {
    if wanted != [] {
      FullsLeaveOthers(world, now, ch, SendFull(world, now, ch, f, wanted[0]), wanted[1..], k);
    }
  }

  lemma FullProjects(world: World, now: nat, ch: Channel, f: Fulls, k: Key, input: Input)
    requires input.now == now && input.wanted && input.turn == (f.canSend && f.budget > 0)
    ensures SideOf(SendFull(world, now, ch, f, k).v, k) == FullPhase(SideOf(f.v, k), input, LinkOf(ch, k), world(k))
  {
  }

  /** The loop over the wanted chunks treats each as if it came alone, with its turn. */
  lemma {:induction false} FullsProject(world: World, now: nat, ch: Channel, f: Fulls, wanted: seq<Key>, k: Key,
                                        input: Input)
    requires Distinct(wanted) && input.now == now && input.wanted == (k in wanted)
    requires input.turn == Turn(world, now, ch, f, wanted, k)
    ensures SideOf(SendFulls(world, now, ch, f, wanted).v, k)
              == FullPhase(SideOf(f.v, k), input, LinkOf(ch, k), world(k))
    decreases |wanted|
  {
    if wanted == [] {
      assert !input.wanted;
    } else if wanted[0] == k {
      assert k !in wanted[1..];
      FullsLeaveOthers(world, now, ch, SendFull(world, now, ch, f, k), wanted[1..], k);
      FullProjects(world, now, ch, f, k, input);
    } else {
      assert k in wanted <==> k in wanted[1..];
      FullsProject(world, now, ch, SendFull(world, now, ch, f, wanted[0]), wanted[1..], k, input);
    }
  }

  lemma CopyProjects(v: Voxels, k: Key)
    ensures SideOf(CopiedAll(v), k) == CopiedSide(SideOf(v, k))
  {
  }

  lemma FinishedInside(w: Voxels, input: Input, link: Link, k: Key)
    ensures Finished(w, input, link, k).chunk.Some? ==> k in w.chunks
    ensures Finished(w, input, link, k).client.Some? ==> k in w.client
  {
  }

  /** A step of all chunks is, chunk by chunk, the step of one with the turn that the list, the budget and the
      channel give it. */
  lemma StepProjects(v: Voxels, fr: Frame, ch: Channel, world: World, k: Key)
    requires Distinct(fr.wanted)
    ensures SideOf(StepAll(v, fr, ch, world), k)
         == StepVoxels(SideOf(v, k), InputOf(fr, ch, v, world, k), LinkOf(ch, k), world(k))
  {
    var input := InputOf(fr, ch, v, world, k);
    CopyProjects(v, k);
    if fr.enabled {
      var w := SendFulls(world, fr.now, ch, Start(fr, v), fr.wanted).v;
      FullsProject(world, fr.now, ch, Start(fr, v), fr.wanted, k, input);
      FinishedInside(w, input, LinkOf(ch, k), k);
    }
  }

  /** Every chunk is in step. */
  ghost predicate AllInStep(v: Voxels, world: World) {
    forall k :: InStep(SideOf(v, k), world(k))
  }

  predicate MissesFor(v: Voxels, fr: Frame, ch: Channel, world: World, world': World, k: Key) {
    Misses(SideOf(v, k), InputOf(fr, ch, v, world', k), LinkOf(ch, k), world(k), world'(k))
  }

  /** Some chunk misses; all it takes to tell is known before the step. */
  ghost predicate SomeMisses(v: Voxels, fr: Frame, ch: Channel, world: World, world': World) {
    exists k :: MissesFor(v, fr, ch, world, world', k)
  }

  ghost predicate Replays(world: World, fr: Frame, world': World) {
    forall k :: |world(k)| == 256 && Replay(world(k), fr.edits(k)) == world'(k)
  }

  /** From a client in step, one step leaves every chunk in step if and only if none misses. */
  lemma AllInStepIffNoneMisses(v: Voxels, fr: Frame, ch: Channel, world: World, world': World)
    requires AllInStep(v, world) && Distinct(fr.wanted) && Replays(world, fr, world')
    ensures AllInStep(StepAll(v, fr, ch, world'), world') <==> !SomeMisses(v, fr, ch, world, world')
  {
    forall k
      ensures InStep(SideOf(StepAll(v, fr, ch, world'), k), world'(k)) <==> !MissesFor(v, fr, ch, world, world', k)
    {
      assert InStep(SideOf(v, k), world(k)) && |world(k)| == 256 && Replay(world(k), fr.edits(k)) == world'(k);
      StepProjects(v, fr, ch, world', k);
      InStepIffNotMissed(SideOf(v, k), InputOf(fr, ch, v, world', k), LinkOf(ch, k), world(k), world'(k));
    }
  }

  // ----- whole runs

  datatype Tick = Tick(frame: Frame, channel: Channel)

  /** Voxels before and after each tick, and the worlds they are held against. */
  datatype History = History(vs: seq<Voxels>, worlds: seq<World>, ticks: seq<Tick>)

  ghost predicate Shaped(h: History) {
    |h.vs| == |h.worlds| == |h.ticks| + 1
  }

  ghost predicate TicksAt(h: History, n: nat)
    requires Shaped(h) && n < |h.ticks|
  {
    && Distinct(h.ticks[n].frame.wanted) && Replays(h.worlds[n], h.ticks[n].frame, h.worlds[n + 1])
    && h.vs[n + 1] == StepAll(h.vs[n], h.ticks[n].frame, h.ticks[n].channel, h.worlds[n + 1])
  }

  /** A run from nothing sent, in which the audits tell every edit of the world. */
  ghost predicate IsRun(h: History) {
    Shaped(h) && h.vs[0] == Voxels(map[], map[]) && forall n: nat :: n < |h.ticks| ==> TicksAt(h, n)
  }

  ghost predicate InStepAt(h: History, n: nat)
    requires Shaped(h) && n < |h.vs|
  {
    AllInStep(h.vs[n], h.worlds[n])
  }

  ghost predicate MissesAt(h: History, n: nat)
    requires Shaped(h) && n < |h.ticks|
  {
    SomeMisses(h.vs[n], h.ticks[n].frame, h.ticks[n].channel, h.worlds[n], h.worlds[n + 1])
  }

  lemma OneMoreTick(h: History, n: nat)
    requires IsRun(h) && n < |h.ticks| && InStepAt(h, n)
    ensures InStepAt(h, n + 1) <==> !MissesAt(h, n)
  {
    assert TicksAt(h, n);
    AllInStepIffNoneMisses(h.vs[n], h.ticks[n].frame, h.ticks[n].channel, h.worlds[n], h.worlds[n + 1]);
  }

  lemma StartsInStep(h: History)
    requires IsRun(h)
    ensures InStepAt(h, 0)
  {
  }

  /** Over a run from nothing sent, every chunk is in step after every tick if and only if no tick misses. */
  lemma {:induction false} RunsInStepIffNothingMissed(h: History, n: nat)
    requires IsRun(h) && n <= |h.ticks|
    ensures (forall j: nat :: j <= n ==> InStepAt(h, j)) <==> (forall j: nat :: j < n ==> !MissesAt(h, j))
  {
    if n == 0 {
      StartsInStep(h);
    } else {
      RunsInStepIffNothingMissed(h, n - 1);
      if InStepAt(h, n - 1) {
        OneMoreTick(h, n - 1);
      }
    }
  }
}
