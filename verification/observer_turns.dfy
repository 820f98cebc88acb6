/** Which chunks a step of the surface stream sends in full, and which it leaves waiting for one. */
module ObserverTurns {
  import opened Common
  import opened Coords
  import opened Observer

  /** A full is still to be sent, or the chunk is new. */
  predicate Due(s: Stream, k: Key) {
    k in s.states ==> s.states[k].needsFull
  }

  function DueIn(s: Stream, ks: seq<Key>): nat {
    if ks == [] then 0 else (if Due(s, ks[0]) then 1 else 0) + DueIn(s, ks[1..])
  }

  ghost predicate Distinct(wanted: seq<Key>) {
    forall i, j :: 0 <= i < j < |wanted| ==> wanted[i] != wanted[j]
  }

  /** No due chunk among these is refused. */
  ghost predicate NoneRefused(s: Stream, link: Link, ks: seq<Key>) {
    forall k :: k in ks && Due(s, k) ==> link.full(k)
  }

  /** The chunk at place `n` of the list is sent: it is due, fewer than `budget` due ones come before it, and neither
      it nor any of those is refused. */
  ghost predicate Sent(s: Stream, link: Link, wanted: seq<Key>, n: nat, budget: int)
    requires n < |wanted|
  {
    Due(s, wanted[n]) && DueIn(s, wanted[..n]) < budget && NoneRefused(s, link, wanted[..n + 1])
  }

  lemma {:induction false} SameDues(s: Stream, s': Stream, ks: seq<Key>)
    requires forall k :: k in ks ==> (Due(s, k) <==> Due(s', k))
    ensures DueIn(s, ks) == DueIn(s', ks)
  {
    if ks != [] {
      assert ks[0] in ks;
      SameDues(s, s', ks[1..]);
    }
  }

  lemma {:induction false} FullsLeaveOthers(t: Terrain, now: nat, link: Link, f: Fulls, wanted: seq<Key>, k: Key)
    requires k !in wanted
    ensures var s' := SendFulls(t, now, link, f, wanted).s;
            && (k in s'.states <==> k in f.s.states) && (k in s'.states ==> s'.states[k] == f.s.states[k])
            && (k in s'.client <==> k in f.s.client) && (k in s'.client ==> s'.client[k] == f.s.client[k])
    decreases |wanted|
  {
    if wanted != [] {
      FullsLeaveOthers(t, now, link, SendFull(t, now, link, f, wanted[0]), wanted[1..], k);
    }
  }

  lemma {:induction false} NothingMoreSent(t: Terrain, now: nat, link: Link, f: Fulls, wanted: seq<Key>, k: Key)
    requires !f.canSend && k in wanted
    ensures var s' := SendFulls(t, now, link, f, wanted).s; k in s'.states && (Due(s', k) <==> Due(f.s, k))
    decreases |wanted|
  {
    var f' := SendFull(t, now, link, f, wanted[0]);
    assert Due(f'.s, k) <==> Due(f.s, k);
    if k in wanted[1..] {
      NothingMoreSent(t, now, link, f', wanted[1..], k);
    } else {
      FullsLeaveOthers(t, now, link, f', wanted[1..], k);
    }
  }

  lemma RefusedAlike(s: Stream, s': Stream, link: Link, ks: seq<Key>)
    requires forall k :: k in ks ==> (Due(s, k) <==> Due(s', k))
    ensures NoneRefused(s, link, ks) <==> NoneRefused(s', link, ks)
  {
  }

  lemma SentFirst(s: Stream, link: Link, wanted: seq<Key>, budget: int)
    requires wanted != []
    ensures Sent(s, link, wanted, 0, budget) <==> Due(s, wanted[0]) && 0 < budget && link.full(wanted[0])
  {
    assert wanted[..1] == [wanted[0]] && wanted[..0] == [];
  }

  /** One chunk of the list is behind us: it was not due, or it was sent. */
  lemma SentLater(s: Stream, s': Stream, link: Link, wanted: seq<Key>, n: nat, budget: int)
    requires 0 < n < |wanted| && forall k :: k in wanted[1..] ==> (Due(s, k) <==> Due(s', k))
    requires Due(s, wanted[0]) && budget > 0 ==> link.full(wanted[0])
    ensures Sent(s, link, wanted, n, budget)
       <==> Sent(s', link, wanted[1..], n - 1, if Due(s, wanted[0]) && budget > 0 then budget - 1 else budget)
  {
    assert wanted[..n][0] == wanted[0] && wanted[..n][1..] == wanted[1..][..n - 1];
    assert wanted[..n + 1] == [wanted[0]] + wanted[1..][..n];
    assert wanted[1..][n - 1] == wanted[n] && wanted[n] in wanted[1..];
    SameDues(s, s', wanted[1..][..n - 1]);
    RefusedAlike(s, s', link, wanted[1..][..n]);
  }

  lemma SentNeverAfterRefusal(s: Stream, link: Link, wanted: seq<Key>, n: nat, budget: int)
    requires 0 < n < |wanted| && Due(s, wanted[0]) && !link.full(wanted[0])
    ensures !Sent(s, link, wanted, n, budget)
  {
    assert wanted[0] == wanted[..n + 1][0];
  }

  /** Exactly the sent chunks stop waiting for a full. */
  lemma {:induction false} FullsSentExactly(t: Terrain, now: nat, link: Link, f: Fulls, wanted: seq<Key>, n: nat)
    requires Distinct(wanted) && n < |wanted| && f.canSend
    ensures var s', k := SendFulls(t, now, link, f, wanted).s, wanted[n];
            k in s'.states && (Due(s', k) <==> Due(f.s, k) && !Sent(f.s, link, wanted, n, f.budget))
    decreases |wanted|
  {
    var f', k := SendFull(t, now, link, f, wanted[0]), wanted[n];
    if n == 0 {
      SentFirst(f.s, link, wanted, f.budget);
      FullsLeaveOthers(t, now, link, f', wanted[1..], k);
    } else {
      assert wanted[1..][n - 1] == k && k in wanted[1..];
      if f'.canSend {
        FullsSentExactly(t, now, link, f', wanted[1..], n - 1);
        SentLater(f.s, f'.s, link, wanted, n, f.budget);
      } else {
        SentNeverAfterRefusal(f.s, link, wanted, n, f.budget);
        NothingMoreSent(t, now, link, f', wanted[1..], k);
      }
    }
  }

  /** What is cached stays cached; what is cached anew is the present surface, and a chunk awaiting no full is. */
  lemma {:induction false} FullsCache(t: Terrain, now: nat, link: Link, f: Fulls, wanted: seq<Key>, k: Key)
    requires k in f.s.states && !f.s.states[k].needsFull ==> f.s.states[k].surface.Some?
    ensures var s' := SendFulls(t, now, link, f, wanted).s;
            k in s'.states ==>
              && (!s'.states[k].needsFull ==> s'.states[k].surface.Some?)
              && (s'.states[k].surface.Some? ==>
                    s'.states[k].surface.value
                    == if k in f.s.states && f.s.states[k].surface.Some? then f.s.states[k].surface.value
                       else SurfaceOf(t, k))
    decreases |wanted|
  {
    if wanted != [] {
      FullsCache(t, now, link, SendFull(t, now, link, f, wanted[0]), wanted[1..], k);
    }
  }

  // ----- patches

  ghost predicate NamesStale(t: Terrain, surface: Surface, k: Key, e: Audit) {
    && e.setBlock && KeyOf(e.x, e.z) == k && 0 <= IndexOf(e.x, e.z) < |surface|
    && surface[IndexOf(e.x, e.z)] != SurfaceCellAt(t, e.x, e.z)
  }

  /** Some audit names a column of the chunk that its cached surface shows otherwise than the world has it. */
  ghost predicate Outdated(t: Terrain, surface: Surface, k: Key, es: seq<Audit>) {
    exists j :: 0 <= j < |es| && NamesStale(t, surface, k, es[j])
  }

  ghost predicate HasPatch(a: Audited, k: Key) {
    k in a.patches
  }

  lemma {:induction false} PatchedStays(t: Terrain, a: Audited, es: seq<Audit>, k: Key)
    requires HasPatch(a, k)
    ensures HasPatch(ApplyAudits(t, a, es), k)
    decreases |es|
  {
    if es != [] {
      PatchedStays(t, ApplyAudit(t, a, es[0]), es[1..], k);
    }
  }

  lemma {:induction false} UncachedGetsNone(t: Terrain, a: Audited, es: seq<Audit>, k: Key)
    requires k in a.states && !HasPatch(a, k) && (a.states[k].surface.None? || a.states[k].needsFull)
    ensures !HasPatch(ApplyAudits(t, a, es), k)
    decreases |es|
  {
    if es != [] {
      UncachedGetsNone(t, ApplyAudit(t, a, es[0]), es[1..], k);
    }
  }

  lemma {:induction false} PatchedIffOutdated(t: Terrain, a: Audited, es: seq<Audit>, k: Key)
    requires k in a.states && !HasPatch(a, k) && !a.states[k].needsFull && a.states[k].surface.Some?
    ensures HasPatch(ApplyAudits(t, a, es), k) <==> Outdated(t, a.states[k].surface.value, k, es)
    decreases |es|
  {
    if es != [] {
      var a' := ApplyAudit(t, a, es[0]);
      var surface := a.states[k].surface.value;
      if NamesStale(t, surface, k, es[0]) {
        PatchedStays(t, a', es[1..], k);
      } else {
        PatchedIffOutdated(t, a', es[1..], k);
        assert forall j :: 1 <= j < |es| ==> es[j] == es[1..][j - 1];
        if Outdated(t, surface, k, es) {
          var j :| 0 <= j < |es| && NamesStale(t, surface, k, es[j]);
          assert es[1..][j - 1] == es[j];
        }
      }
    }
  }

  // ----- a whole step

  /** The budget of fulls of a step: 32 unless another one is given. */
  function Budget(input: Input): nat {
    if input.maxFull > 0 then input.maxFull else 32
  }

  /** After the fulls, the rest of a step makes a chunk that needs none wait for one exactly when it is outdated and
      its patch is refused. */
  lemma RestOfStep(t: Terrain, f: Stream, input: Input, link: Link, k: Key)
    requires k in f.states && (!f.states[k].needsFull ==> f.states[k].surface.Some?)
    ensures var s' := Evict(SendPatches(ApplyAudits(t, Audited(f.states, map[]), input.audits), f.client, link),
                            input, link);
            k in s'.states ==>
              (s'.states[k].needsFull <==>
                 || f.states[k].needsFull
                 || (Outdated(t, f.states[k].surface.value, k, input.audits) && !link.patch(k)))
  {
    var a0 := Audited(f.states, map[]);
    AuditsSameSent(t, a0, input.audits);
    if f.states[k].needsFull {
      UncachedGetsNone(t, a0, input.audits, k);
    } else {
      PatchedIffOutdated(t, a0, input.audits, k);
    }
  }

  lemma PresentIsNotOutdated(t: Terrain, k: Key, es: seq<Audit>)
    ensures !Outdated(t, SurfaceOf(t, k), k, es)
  {
    forall j | 0 <= j < |es| ensures !NamesStale(t, SurfaceOf(t, k), k, es[j]) {
      ColumnRoundTrip(es[j].x, es[j].z);
    }
  }

  /** The chunk has a cached surface in which some audited column is stale. */
  ghost predicate OutdatedIn(t: Terrain, s: Stream, k: Key, es: seq<Audit>) {
    k in s.states && s.states[k].surface.Some? && Outdated(t, s.states[k].surface.value, k, es)
  }

  /** A wanted chunk waits for a full after a step exactly when it was due and was not sent one, or when a patch it
      needed was refused. */
  lemma WaitsExactly(t0: Terrain, t: Terrain, s: Stream, input: Input, link: Link, n: nat)
    requires Coherent(t0, s) && Distinct(input.wanted) && n < |input.wanted|
    ensures var k, s' := input.wanted[n], StepChunks(t, s, input, link);
            var waits := Due(s, k) && !Sent(s, link, input.wanted, n, Budget(input));
            && k in s'.states
            && (s'.states[k].needsFull <==> waits || (OutdatedIn(t, s, k, input.audits) && !link.patch(k)))
  {
    var k, f0 := input.wanted[n], Fulls(s, MaxFull(input), true);
    var f := SendFulls(t, input.now, link, f0, input.wanted).s;
    FullsSentExactly(t, input.now, link, f0, input.wanted, n);
    DroppedExactlyWhenStale(t, s, input, link, k);
    if k in s.states {
      CoherentMeans(t0, s, k);
      assert SyncedAt(s.states[k], s.client, map[], k);
    }
    FullsCache(t, input.now, link, f0, input.wanted, k);
    RestOfStep(t, f, input, link, k);
    PresentIsNotOutdated(t, k, input.audits);
  }
}
