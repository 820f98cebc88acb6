/** Chunks that have to wait for their turn in the voxel stream: which do, and that they are never shown. */
module WaitingChunks {
  import opened Common
  import opened Coords
  import opened VoxelStream
  import opened WantedChunks

  // ----- whose turn comes

  /** A full is still to be sent, or the chunk is new. */
  predicate Due(v: Voxels, k: Key) {
    k in v.chunks ==> v.chunks[k].needsFull
  }

  function DueIn(v: Voxels, ks: seq<Key>): nat {
    if ks == [] then 0 else (if Due(v, ks[0]) then 1 else 0) + DueIn(v, ks[1..])
  }

  ghost predicate AcceptsFulls(ch: Channel) {
    forall k :: ch.full(k)
  }

  lemma {:induction false} SameDues(v: Voxels, v': Voxels, ks: seq<Key>)
    requires forall k :: k in ks ==> (Due(v, k) <==> Due(v', k))
    ensures DueIn(v, ks) == DueIn(v', ks)
  {
    if ks != [] {
      assert ks[0] in ks;
      SameDues(v, v', ks[1..]);
    }
  }

  /** Over any channel a chunk's turn comes only while fewer chunks than the budget are due before it, and over an
      accepting channel it does come then. */
  lemma {:induction false} TurnByBudget(world: World, now: nat, ch: Channel, f: Fulls, wanted: seq<Key>, n: nat)
    requires Distinct(wanted) && n < |wanted|
    ensures Turn(world, now, ch, f, wanted, wanted[n]) ==> f.canSend && DueIn(f.v, wanted[..n]) < f.budget
    ensures AcceptsFulls(ch) && f.canSend && DueIn(f.v, wanted[..n]) < f.budget ==>
              Turn(world, now, ch, f, wanted, wanted[n])
    decreases n
  {
    if n > 0 {
      var f' := SendFull(world, now, ch, f, wanted[0]);
      assert wanted[..n][0] == wanted[0] && wanted[..n][1..] == wanted[1..][..n - 1];
      assert wanted[1..][n - 1] == wanted[n];
      TurnByBudget(world, now, ch, f', wanted[1..], n - 1);
      SameDues(f.v, f'.v, wanted[1..][..n - 1]);
    }
  }

  // ----- a chunk without blocks

  ghost predicate Hollow(s: Side) {
    && s.chunk.Some? && s.chunk.value.blocks == Some([])
    && (s.client.Some? ==> s.client.value == [])
  }

  lemma {:induction false} HollowEdits(es: seq<Edit>)
    ensures ApplyEdits([], map[], es) == ([], map[])
    decreases |es|
  {
    if es != [] {
      HollowEdits(es[1..]);
    }
  }

  lemma HollowStep(s: Side, input: Input, link: Link, world: Blocks)
    requires Hollow(s)
    ensures var s' := StepVoxels(s, input, link, world);
            Hollow(s') || (s'.chunk.None? && (s'.client.Some? ==> s'.client.value == []))
  {
    HollowEdits(input.edits);
  }

  lemma HollowTick(h: History, n: nat, k: Key)
    requires IsRun(h) && n < |h.ticks| && Hollow(SideOf(h.vs[n], k)) && k in h.vs[n + 1].chunks
    ensures Hollow(SideOf(h.vs[n + 1], k))
  {
    assert TicksAt(h, n);
    var tick := h.ticks[n];
    StepProjects(h.vs[n], tick.frame, tick.channel, h.worlds[n + 1], k);
    HollowStep(SideOf(h.vs[n], k), InputOf(tick.frame, tick.channel, h.vs[n], h.worlds[n + 1], k),
               LinkOf(tick.channel, k), h.worlds[n + 1](k));
  }

  /** It never recovers by itself: for as long as the chunk stays tracked, the client is shown nothing of it,
      whatever is sent and whatever changes. */
  lemma {:induction false} HollowUntilDropped(h: History, m: nat, n: nat, k: Key)
    requires IsRun(h) && m <= n < |h.vs| && Hollow(SideOf(h.vs[m], k))
    requires forall j: nat :: m <= j <= n ==> k in h.vs[j].chunks
    ensures Hollow(SideOf(h.vs[n], k))
    decreases n
  {
    if m < n {
      HollowUntilDropped(h, m, n - 1, k);
      HollowTick(h, n - 1, k);
    }
  }

  /** Whether the list came to `k` with budget left and nothing refused. */
  function TurnAt(h: History, m: nat, k: Key): bool
    requires m < |h.ticks| && m < |h.vs| && m + 1 < |h.worlds|
  {
    Turn(h.worlds[m + 1], h.ticks[m].frame.now, h.ticks[m].channel, Start(h.ticks[m].frame, h.vs[m]),
         h.ticks[m].frame.wanted, k)
  }

  /** When its turn does come it is sent like that, and then counts as complete. */
  lemma HollowIsSentEmpty(h: History, m: nat, k: Key)
    requires IsRun(h) && m < |h.ticks| && h.ticks[m].frame.enabled && k in h.ticks[m].frame.wanted
    requires Hollow(SideOf(h.vs[m], k)) && h.vs[m].chunks[k].needsFull
    requires TurnAt(h, m, k) && h.ticks[m].channel.full(k)
    ensures SideOf(h.vs[m + 1], k) == Side(Some(Chunk(h.ticks[m].frame.now, true, false, Some([]))), Some([]))
  {
    assert TicksAt(h, m);
    var tick := h.ticks[m];
    StepProjects(h.vs[m], tick.frame, tick.channel, h.worlds[m + 1], k);
    HollowEdits(tick.frame.edits(k));
  }

  // ----- which chunks are kept

  /** Unwanted for the eviction time, ten ticks unless another one is given, on 64-bit ticks. */
  predicate Overdue(now: nat, lastWanted: nat, evictAfter: nat) {
    (now - lastWanted) % 0x1_0000_0000_0000_0000 >= if evictAfter == 0 then 10 else evictAfter
  }

  predicate KeptHere(c: Chunk, now: nat, evictAfter: nat, evicts: bool) {
    !Overdue(now, c.lastWanted, evictAfter) || (c.sentFull && !evicts)
  }

  lemma StepKeeps(s: Side, input: Input, link: Link, world: Blocks)
    ensures StepVoxels(s, input, link, world).chunk.Some? <==>
              && input.enabled
              && (input.wanted
                  || (s.chunk.Some? && KeptHere(s.chunk.value, input.now, input.evictAfter, link.evict)))
  {
  }

  lemma HeldOnSide(v: Voxels, k: Key)
    ensures k in v.chunks <==> SideOf(v, k).chunk.Some?
    ensures k in v.chunks ==> SideOf(v, k).chunk.value == v.chunks[k]
  {
  }

  /** Switched off, nothing is kept. Otherwise exactly the wanted chunks are, and those not yet overdue or that the
      client has and the channel will not evict. */
  lemma KeptExactly(v: Voxels, fr: Frame, ch: Channel, world: World, k: Key)
    requires Distinct(fr.wanted)
    ensures k in StepAll(v, fr, ch, world).chunks <==>
              && fr.enabled
              && (k in fr.wanted || (k in v.chunks && KeptHere(v.chunks[k], fr.now, fr.evictAfter, ch.evict(k))))
  {
    StepProjects(v, fr, ch, world, k);
    StepKeeps(SideOf(v, k), InputOf(fr, ch, v, world, k), LinkOf(ch, k), world(k));
    HeldOnSide(v, k);
    HeldOnSide(StepAll(v, fr, ch, world), k);
  }

  // ----- a new chunk that has to wait

  /** The room for fulls in a tick: eight unless another one is given. */
  function Room(fr: Frame): nat {
    if fr.maxFull >= 1 then fr.maxFull else 8
  }

  /** After any tick of any run, over any channel: a chunk that was not there before is hollow if and only if its
      turn did not come. */
  lemma NewIsHollowIffNoTurn(h: History, m: nat, k: Key)
    requires IsRun(h) && m < |h.ticks| && h.ticks[m].frame.enabled && k in h.ticks[m].frame.wanted
    requires k !in h.vs[m].chunks && k !in h.vs[m].client
    ensures Hollow(SideOf(h.vs[m + 1], k)) <==> !TurnAt(h, m, k)
  {
    assert TicksAt(h, m);
    var tick, world := h.ticks[m], h.worlds[m + 1];
    var input, link := InputOf(tick.frame, tick.channel, h.vs[m], world, k), LinkOf(tick.channel, k);
    assert SideOf(h.vs[m], k) == Side(None, None);
    StepProjects(h.vs[m], tick.frame, tick.channel, world, k);
    assert |h.worlds[m](k)| == 256 && Replay(h.worlds[m](k), tick.frame.edits(k)) == world(k);
    InStepIffNotMissed(Side(None, None), input, link, h.worlds[m](k), world(k));
  }

  lemma TurnAtByBudget(h: History, m: nat, n: nat)
    requires IsRun(h) && m < |h.ticks| && n < |h.ticks[m].frame.wanted|
    ensures var fr := h.ticks[m].frame;
            && (TurnAt(h, m, fr.wanted[n]) ==> DueIn(h.vs[m], fr.wanted[..n]) < Room(fr))
            && (AcceptsFulls(h.ticks[m].channel) && DueIn(h.vs[m], fr.wanted[..n]) < Room(fr) ==>
                  TurnAt(h, m, fr.wanted[n]))
  {
    assert TicksAt(h, m);
    var fr, ch := h.ticks[m].frame, h.ticks[m].channel;
    TurnByBudget(h.worlds[m + 1], fr.now, ch, Start(fr, h.vs[m]), fr.wanted, n);
    SameDues(h.vs[m], Start(fr, h.vs[m]).v, fr.wanted[..n]);
  }

  /** At any tick of any run, over any channel, a new chunk is hollow when at least as many chunks as the budget are
      due before it; and over an accepting channel only then. */
  lemma LateChunksAreHollow(h: History, m: nat, n: nat)
    requires IsRun(h) && m < |h.ticks| && h.ticks[m].frame.enabled && n < |h.ticks[m].frame.wanted|
    requires h.ticks[m].frame.wanted[n] !in h.vs[m].chunks && h.ticks[m].frame.wanted[n] !in h.vs[m].client
    ensures var fr := h.ticks[m].frame;
            && (Room(fr) <= DueIn(h.vs[m], fr.wanted[..n]) ==> Hollow(SideOf(h.vs[m + 1], fr.wanted[n])))
            && (AcceptsFulls(h.ticks[m].channel) && Hollow(SideOf(h.vs[m + 1], fr.wanted[n])) ==>
                  Room(fr) <= DueIn(h.vs[m], fr.wanted[..n]))
  {
    TurnAtByBudget(h, m, n);
    NewIsHollowIffNoTurn(h, m, h.ticks[m].frame.wanted[n]);
  }

  // ----- an observer whose focus stands still

  ghost predicate SameFrame(fr: Frame, wanted: seq<Key>, room: nat) {
    fr.enabled && fr.wanted == wanted && Room(fr) == room
  }

  /** Every tick wants the same list, with the same room for fulls. */
  ghost predicate StandsStill(h: History, wanted: seq<Key>, room: nat) {
    forall j :: 0 <= j < |h.ticks| ==> SameFrame(h.ticks[j].frame, wanted, room)
  }

  lemma WantedStaysTracked(h: History, m: nat, k: Key)
    requires IsRun(h) && m < |h.ticks| && h.ticks[m].frame.enabled && k in h.ticks[m].frame.wanted
    ensures k in h.vs[m + 1].chunks
  {
    assert TicksAt(h, m);
    StepProjects(h.vs[m], h.ticks[m].frame, h.ticks[m].channel, h.worlds[m + 1], k);
    var tick := h.ticks[m];
    var input := InputOf(tick.frame, tick.channel, h.vs[m], h.worlds[m + 1], k);
    assert StepVoxels(SideOf(h.vs[m], k), input, LinkOf(tick.channel, k), h.worlds[m + 1](k)).chunk.Some?;
  }

  lemma {:induction false} NothingSentAllDue(v: Voxels, ks: seq<Key>)
    requires v.chunks == map[]
    ensures DueIn(v, ks) == |ks|
  {
    if ks != [] {
      NothingSentAllDue(v, ks[1..]);
    }
  }

  /** Over any channel and through any edits: of the chunks wanted at first sight, none past the room for fulls is
      ever shown a block of. */
  lemma {:induction false} PastTheRoomIsNeverShown(h: History, wanted: seq<Key>, room: nat, n: nat, j: nat)
    requires IsRun(h) && StandsStill(h, wanted, room) && room <= n < |wanted| && 1 <= j <= |h.ticks|
    ensures Hollow(SideOf(h.vs[j], wanted[n]))
  {
    assert SameFrame(h.ticks[j - 1].frame, wanted, room);
    if j == 1 {
      NothingSentAllDue(h.vs[0], wanted[..n]);
      LateChunksAreHollow(h, 0, n);
    } else {
      PastTheRoomIsNeverShown(h, wanted, room, n, j - 1);
      WantedStaysTracked(h, j - 1, wanted[n]);
      HollowTick(h, j - 1, wanted[n]);
    }
  }

  // ----- over a channel that takes everything

  ghost predicate TakesAll(ch: Channel) {
    AcceptsFulls(ch) && forall k :: ch.patch(k)
  }

  ghost predicate TakesEverything(h: History) {
    forall j :: 0 <= j < |h.ticks| ==> TakesAll(h.ticks[j].channel)
  }

  lemma StepClearsDue(s: Side, input: Input, link: Link, world: Blocks)
    requires input.enabled && input.wanted && link.full && link.patch
    requires s.client.Some? <==> s.chunk.Some? && !s.chunk.value.needsFull
    ensures var s' := StepVoxels(s, input, link, world);
            && s'.chunk.Some? && (s'.client.Some? <==> !s'.chunk.value.needsFull)
            && (s'.chunk.value.needsFull <==> s.client.None? && !input.turn)
  {
  }

  lemma {:induction false} DuesFrom(v: Voxels, ks: seq<Key>, lo: nat)
    requires forall i :: 0 <= i < |ks| ==> (Due(v, ks[i]) <==> lo <= i)
    ensures DueIn(v, ks) == if |ks| <= lo then 0 else |ks| - lo
  {
    if ks != [] {
      forall i | 0 <= i < |ks[1..]| ensures Due(v, ks[1..][i]) <==> lo - 1 <= i {
        assert ks[1..][i] == ks[i + 1];
      }
      DuesFrom(v, ks[1..], if lo == 0 then 0 else lo - 1);
    }
  }

  ghost predicate SentIff(v: Voxels, k: Key, sent: bool) {
    (Due(v, k) <==> !sent) && (k in v.client <==> sent)
  }

  /** All up to the n-th chunk of the list: sent if before `sent`, else due. */
  ghost predicate SentUpTo(v: Voxels, wanted: seq<Key>, n: nat, sent: nat)
    requires n < |wanted|
  {
    forall i :: 0 <= i <= n ==> SentIff(v, wanted[i], i < sent)
  }

  lemma SentNext(h: History, m: nat, k: Key, sent: bool)
    requires IsRun(h) && m < |h.ticks| && h.ticks[m].frame.enabled && k in h.ticks[m].frame.wanted
    requires TakesAll(h.ticks[m].channel) && SentIff(h.vs[m], k, sent)
    ensures SentIff(h.vs[m + 1], k, sent || TurnAt(h, m, k))
  {
    assert TicksAt(h, m);
    var tick := h.ticks[m];
    StepProjects(h.vs[m], tick.frame, tick.channel, h.worlds[m + 1], k);
    StepClearsDue(SideOf(h.vs[m], k), InputOf(tick.frame, tick.channel, h.vs[m], h.worlds[m + 1], k),
                  LinkOf(tick.channel, k), h.worlds[m + 1](k));
    assert SideOf(h.vs[m + 1], k).chunk.Some?;
  }

  /** One tick sends the next `room` chunks. */
  lemma RoomMoreSent(h: History, wanted: seq<Key>, room: nat, n: nat, m: nat, sent: nat)
    requires IsRun(h) && m < |h.ticks| && SameFrame(h.ticks[m].frame, wanted, room) && TakesAll(h.ticks[m].channel)
    requires n < |wanted| && SentUpTo(h.vs[m], wanted, n, sent)
    ensures SentIff(h.vs[m + 1], wanted[n], n < sent + room)
  {
    forall i | 0 <= i < n ensures Due(h.vs[m], wanted[..n][i]) <==> sent <= i {
      assert SentIff(h.vs[m], wanted[i], i < sent);
    }
    DuesFrom(h.vs[m], wanted[..n], sent);
    TurnAtByBudget(h, m, n);
    assert SentIff(h.vs[m], wanted[n], n < sent);
    SentNext(h, m, wanted[n], n < sent);
  }

  /** After `j` ticks the fulls of the first `room * j` chunks have been sent, and no others. */
  lemma {:induction false} SentInOrder(h: History, wanted: seq<Key>, room: nat, n: nat, j: nat)
    requires IsRun(h) && StandsStill(h, wanted, room) && TakesEverything(h) && n < |wanted| && j <= |h.ticks|
    ensures SentIff(h.vs[j], wanted[n], n < room * j)
    decreases j
  {
    if j > 0 {
      forall i | 0 <= i <= n ensures SentIff(h.vs[j - 1], wanted[i], i < room * (j - 1)) {
        SentInOrder(h, wanted, room, i, j - 1);
      }
      assert SameFrame(h.ticks[j - 1].frame, wanted, room) && TakesAll(h.ticks[j - 1].channel);
      RoomMoreSent(h, wanted, room, n, j - 1, room * (j - 1));
      assert room * j == room * (j - 1) + room;
    }
  }

  /** A chunk in step stays so through a tick that wants it, unless it is new and its turn does not come. */
  lemma StaysInStep(h: History, m: nat, k: Key)
    requires IsRun(h) && m < |h.ticks| && h.ticks[m].frame.enabled && k in h.ticks[m].frame.wanted
    requires InStep(SideOf(h.vs[m], k), h.worlds[m](k))
    requires if k in h.vs[m].chunks then !h.vs[m].chunks[k].needsFull else TurnAt(h, m, k)
    ensures InStep(SideOf(h.vs[m + 1], k), h.worlds[m + 1](k))
  {
    assert TicksAt(h, m);
    var tick, world' := h.ticks[m], h.worlds[m + 1];
    StepProjects(h.vs[m], tick.frame, tick.channel, world', k);
    assert |h.worlds[m](k)| == 256 && Replay(h.worlds[m](k), tick.frame.edits(k)) == world'(k);
    InStepIffNotMissed(SideOf(h.vs[m], k), InputOf(tick.frame, tick.channel, h.vs[m], world', k),
                       LinkOf(tick.channel, k), h.worlds[m](k), world'(k));
  }

  lemma AtLeastOnce(room: nat, j: nat)
    requires j >= 1
    ensures room <= room * j
  {
  }

  /** Those sent in the first tick stay in step with the world. */
  lemma {:induction false} FirstOnesStayInStep(h: History, wanted: seq<Key>, room: nat, n: nat, j: nat)
    requires IsRun(h) && StandsStill(h, wanted, room) && TakesEverything(h) && n < |wanted| && j <= |h.ticks|
    requires n < room
    ensures InStep(SideOf(h.vs[j], wanted[n]), h.worlds[j](wanted[n]))
    decreases j
  {
    if j > 0 {
      FirstOnesStayInStep(h, wanted, room, n, j - 1);
      assert SameFrame(h.ticks[j - 1].frame, wanted, room) && TakesAll(h.ticks[j - 1].channel);
      if j == 1 {
        NothingSentAllDue(h.vs[0], wanted[..n]);
        TurnAtByBudget(h, 0, n);
      } else {
        SentInOrder(h, wanted, room, n, j - 1);
        AtLeastOnce(room, j - 1);
      }
      StaysInStep(h, j - 1, wanted[n]);
    }
  }

  /** Though nothing is refused, the client ends with the blocks of the first `room` chunks only; one after the other
      the rest are sent without blocks. */
  lemma OnlyTheFirstAreShown(h: History, wanted: seq<Key>, room: nat, n: nat, j: nat)
    requires IsRun(h) && StandsStill(h, wanted, room) && TakesEverything(h) && n < |wanted| && 1 <= j <= |h.ticks|
    ensures SideOf(h.vs[j], wanted[n]).client
              == if room * j <= n then None else if n < room then Some(h.worlds[j](wanted[n])) else Some([])
  {
    SentInOrder(h, wanted, room, n, j);
    if n < room {
      FirstOnesStayInStep(h, wanted, room, n, j);
      AtLeastOnce(room, j);
    } else {
      PastTheRoomIsNeverShown(h, wanted, room, n, j);
    }
  }

  // ----- with the numbers of the program

  const ROOM := 8

  function Nine(c: Key): seq<Key> {
    [Key(c.cx, c.cz), Key(c.cx + 1, c.cz), Key(c.cx - 1, c.cz), Key(c.cx, c.cz + 1), Key(c.cx + 1, c.cz + 1),
     Key(c.cx - 1, c.cz + 1), Key(c.cx, c.cz - 1), Key(c.cx + 1, c.cz - 1), Key(c.cx - 1, c.cz - 1)]
  }

  lemma NineAreNear(c: Key, r: nat, n: nat)
    requires r >= 1 && n < 9
    ensures Near([c], r, Nine(c)[n])
  {
    NearestIsLeast([c], r, Nine(c)[n]);
    assert c in [c] && InSquare(c, r, Nine(c)[n]);
  }

  lemma AtLeastNineWanted(wanted: seq<Key>, c: Key, r: nat, limit: nat)
    requires IsWanted(wanted, [c], r, limit) && r >= 1 && limit >= 9
    ensures |wanted| >= 9
  {
    if |wanted| < 9 {
      DistinctInOrder(wanted, [c], r);
      FrontSize(wanted, |wanted|);
      FrontSize(Nine(c), 9);
      forall k | k in Front(Nine(c), 9) ensures k in Front(wanted, |wanted|) {
        var n :| 0 <= n < 9 && Nine(c)[n] == k;
        NineAreNear(c, r, n);
        assert k in wanted;
      }
      SubsetIsNoLarger(Front(Nine(c), 9), Front(wanted, |wanted|));
    }
  }

  ghost predicate FrameAt(fr: Frame, c: Key, r: nat, limit: nat) {
    fr.enabled && IsWanted(fr.wanted, [c], r, limit) && Room(fr) == ROOM
  }

  /** The focus stays in chunk `c`, and every tick asks for what is near it. */
  ghost predicate StaysAt(h: History, c: Key, r: nat, limit: nat) {
    forall j :: 0 <= j < |h.ticks| ==> FrameAt(h.ticks[j].frame, c, r, limit)
  }

  lemma StayingIsStandingStill(h: History, c: Key, r: nat, limit: nat, wanted: seq<Key>)
    requires StaysAt(h, c, r, limit) && IsWanted(wanted, [c], r, limit)
    ensures StandsStill(h, wanted, ROOM)
  {
    forall j | 0 <= j < |h.ticks| ensures SameFrame(h.ticks[j].frame, wanted, ROOM) {
      assert FrameAt(h.ticks[j].frame, c, r, limit);
      WantedIsUnique(h.ticks[j].frame.wanted, wanted, [c], r, limit);
    }
  }

  /** With any radius and a limit of nine chunks or more, over any channel and through any edits: from the first tick
      on, the client is shown nothing of the ninth nearest chunk or any later one. */
  lemma NinthChunkIsNeverShown(h: History, c: Key, r: nat, limit: nat, wanted: seq<Key>, n: nat, j: nat)
    requires IsRun(h) && StaysAt(h, c, r, limit) && IsWanted(wanted, [c], r, limit)
    requires r >= 1 && limit >= 9 && 1 <= j <= |h.ticks|
    ensures |wanted| >= 9
    ensures ROOM <= n < |wanted| ==> Hollow(SideOf(h.vs[j], wanted[n]))
  {
    AtLeastNineWanted(wanted, c, r, limit);
    StayingIsStandingStill(h, c, r, limit, wanted);
    if ROOM <= n < |wanted| {
      PastTheRoomIsNeverShown(h, wanted, ROOM, n, j);
    }
  }

  // ----- there are such runs

  function After(ticks: seq<Tick>, worlds: seq<World>): (vs: seq<Voxels>)
    requires |worlds| == |ticks| + 1
    ensures |vs| == |worlds|
  {
    if ticks == [] then [Voxels(map[], map[])]
    else
      var n := |ticks| - 1;
      var vs := After(ticks[..n], worlds[..n + 1]);
      vs + [StepAll(vs[n], ticks[n].frame, ticks[n].channel, worlds[n + 1])]
  }

  lemma OneMoreInRun(g: History, tick: Tick, world: World, h: History)
    requires IsRun(g) && Distinct(tick.frame.wanted) && Replays(g.worlds[|g.ticks|], tick.frame, world)
    requires h.ticks == g.ticks + [tick] && h.worlds == g.worlds + [world]
    requires h.vs == g.vs + [StepAll(g.vs[|g.ticks|], tick.frame, tick.channel, world)]
    ensures IsRun(h)
  {
    forall m: nat | m < |h.ticks| ensures TicksAt(h, m) {
      if m < |g.ticks| {
        assert TicksAt(g, m);
        assert h.ticks[m] == g.ticks[m] && h.vs[m] == g.vs[m] && h.vs[m + 1] == g.vs[m + 1];
      }
    }
  }

  /** Every sequence of requests, channels and audited worlds has its run. */
  lemma {:induction false} EveryScriptHasARun(ticks: seq<Tick>, worlds: seq<World>)
    requires |worlds| == |ticks| + 1
    requires forall n :: 0 <= n < |ticks| ==>
               Distinct(ticks[n].frame.wanted) && Replays(worlds[n], ticks[n].frame, worlds[n + 1])
    ensures IsRun(History(After(ticks, worlds), worlds, ticks))
  {
    if ticks == [] {
      assert After(ticks, worlds) == [Voxels(map[], map[])];
    } else {
      var n := |ticks| - 1;
      EveryScriptHasARun(ticks[..n], worlds[..n + 1]);
      assert ticks == ticks[..n] + [ticks[n]] && worlds == worlds[..n + 1] + [worlds[n + 1]];
      OneMoreInRun(History(After(ticks[..n], worlds[..n + 1]), worlds[..n + 1], ticks[..n]), ticks[n], worlds[n + 1],
                   History(After(ticks, worlds), worlds, ticks));
    }
  }
}
