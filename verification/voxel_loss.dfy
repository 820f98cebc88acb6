/** The voxel array of an agent's observations when observations can be lost on the way. */
module VoxelLoss {
  import opened Common
  import opened VoxelCodec

  /** One observation: the array, the message made of it, and whether it arrived. */
  datatype Sent = Sent(curr: seq<nat>, message: Voxels, arrived: bool)

  ghost predicate SentAt(r: nat, run: seq<Sent>, n: nat)
    requires n < |run|
  {
    Tells(run[n].message, run[n].curr, if n == 0 then None else Some(run[n - 1].curr), r)
  }

  /** The sender remembers each array it has sent, arrived or not. */
  ghost predicate IsStream(r: nat, run: seq<Sent>) {
    && (forall n :: 0 <= n < |run| ==> |run[n].curr| == Volume(r))
    && forall n :: 0 <= n < |run| ==> SentAt(r, run, n)
  }

  /** The array the receiver holds after `n` observations. */
  ghost function Held(r: nat, run: seq<Sent>, n: nat): Option<seq<nat>>
    requires n <= |run|
  {
    if n == 0 then None
    else if !run[n - 1].arrived then Held(r, run, n - 1)
    else Rebuild(run[n - 1].message, Held(r, run, n - 1), r)
  }

  ghost predicate Current(r: nat, run: seq<Sent>, n: nat)
    requires 0 < n <= |run|
  {
    Held(r, run, n) == Some(run[n - 1].curr)
  }

  predicate ChangedAt(run: seq<Sent>, n: nat, i: nat)
    requires 0 < n < |run| && i < |run[n - 1].curr| && i < |run[n].curr|
  {
    run[n - 1].curr[i] != run[n].curr[i]
  }

  /** Operations write current values; whatever they do not name stays. */
  lemma {:induction false} AppliedCell(held: seq<nat>, ops: seq<Op>, at: Layout, curr: seq<nat>, i: nat)
    requires |held| == |curr| && i < |curr|
    requires forall j :: 0 <= j < |ops| ==> 0 <= at(ops[j]) < |curr| && curr[at(ops[j])] == ops[j].b
    ensures ApplyOps(held, ops, at)[i]
         == if exists j :: 0 <= j < |ops| && at(ops[j]) == i then curr[i] else held[i]
  {
    if ops != [] {
      var n := |ops| - 1;
      AppliedCell(held, ops[..n], at, curr, i);
      assert forall j :: 0 <= j < n ==> ops[..n][j] == ops[j];
    }
  }

  /** An arriving delta puts right the cells that changed, on whatever array it is applied to, and no others. */
  lemma DeltaCell(held: seq<nat>, ops: seq<Op>, prev: seq<nat>, curr: seq<nat>, at: Layout, i: nat)
    requires TellsChanges(ops, prev, curr, at) && |held| == |curr| && i < |curr|
    ensures ApplyOps(held, ops, at)[i] == if prev[i] != curr[i] then curr[i] else held[i]
  {
    forall j | 0 <= j < |ops| ensures 0 <= at(ops[j]) < |curr| && curr[at(ops[j])] == ops[j].b {
      assert Changed(prev, curr, ops[j], at);
    }
    AppliedCell(held, ops, at, curr, i);
    AppliedCell(prev, ops, at, curr, i);
    if j :| 0 <= j < |ops| && at(ops[j]) == i {
      assert Changed(prev, curr, ops[j], at);
    }
  }

  /** The value cell `i` had when the receiver was last told of it: by an array that arrived whole, or by a delta
      that arrived after one and in which the cell changed. */
  ghost function LastTold(run: seq<Sent>, n: nat, i: nat): Option<nat>
    requires n <= |run| && forall m :: 0 <= m < |run| ==> i < |run[m].curr|
  {
    if n == 0 then None
    else
      var before := LastTold(run, n - 1, i);
      if !run[n - 1].arrived then before
      else if run[n - 1].message.Rle? then Some(run[n - 1].curr[i])
      else if before.Some? && n > 1 && ChangedAt(run, n - 1, i) then Some(run[n - 1].curr[i])
      else before
  }

  /** Whatever is lost: cell by cell, the receiver holds what it was last told. */
  lemma {:induction false} HeldIsLastTold(r: nat, run: seq<Sent>, n: nat, i: nat)
    requires IsStream(r, run) && n <= |run| && i < Volume(r)
    ensures Held(r, run, n).Some? <==> LastTold(run, n, i).Some?
    ensures Held(r, run, n).Some? ==>
              |Held(r, run, n).value| == Volume(r) && Held(r, run, n).value[i] == LastTold(run, n, i).value
  {
    if n > 0 {
      HeldIsLastTold(r, run, n - 1, i);
      assert SentAt(r, run, n - 1);
      var s, held := run[n - 1], Held(r, run, n - 1);
      if s.arrived && s.message.Delta? && held.Some? {
        DeltaCell(held.value, s.message.ops, run[n - 2].curr, s.curr, ScanLayout(r), i);
      }
    }
  }

  ghost predicate ToldOfAll(r: nat, run: seq<Sent>, n: nat)
    requires IsStream(r, run) && 0 < n <= |run|
  {
    forall i :: 0 <= i < Volume(r) ==> LastTold(run, n, i) == Some(run[n - 1].curr[i])
  }

  lemma SomeCell(r: nat)
    ensures Volume(r) > 0
  {
    PlaceInside(r, 0, 0, 0);
  }

  lemma CurrentIsTold(r: nat, run: seq<Sent>, n: nat)
    requires IsStream(r, run) && 0 < n <= |run| && Current(r, run, n)
    ensures ToldOfAll(r, run, n)
  {
    forall i | 0 <= i < Volume(r) ensures LastTold(run, n, i) == Some(run[n - 1].curr[i]) {
      HeldIsLastTold(r, run, n, i);
    }
  }

  lemma ToldIsCurrent(r: nat, run: seq<Sent>, n: nat)
    requires IsStream(r, run) && 0 < n <= |run| && ToldOfAll(r, run, n) && Volume(r) > 0
    ensures Current(r, run, n)
  {
    assert LastTold(run, n, 0) == Some(run[n - 1].curr[0]);
    HeldIsLastTold(r, run, n, 0);
    var held := Held(r, run, n).value;
    forall i | 0 <= i < |held| ensures held[i] == run[n - 1].curr[i] {
      assert LastTold(run, n, i) == Some(run[n - 1].curr[i]);
      HeldIsLastTold(r, run, n, i);
    }
    assert held == run[n - 1].curr;
  }

  /** The receiver's array is current exactly when what it was last told of each cell is still so. */
  lemma CurrentIffToldOfAll(r: nat, run: seq<Sent>, n: nat)
    requires IsStream(r, run) && 0 < n <= |run|
    ensures Current(r, run, n) <==> ToldOfAll(r, run, n)
  {
    SomeCell(r);
    if Current(r, run, n) {
      CurrentIsTold(r, run, n);
    }
    if ToldOfAll(r, run, n) {
      ToldIsCurrent(r, run, n);
    }
  }

  /** Every whole array that arrives repairs the receiver, and so does any message that arrives at a tick without
      change. */
  lemma WholeArrayRepairs(r: nat, run: seq<Sent>, n: nat)
    requires IsStream(r, run) && 0 < n <= |run| && run[n - 1].arrived
    requires run[n - 1].message.Rle? || (n > 1 && run[n - 2].curr == run[n - 1].curr)
    ensures Current(r, run, n)
  {
    assert SentAt(r, run, n - 1);
  }

  /** From a current array on, as long as nothing is lost, it stays current. */
  lemma {:induction false} UnbrokenStaysCurrent(r: nat, run: seq<Sent>, m: nat, n: nat)
    requires IsStream(r, run) && 0 < m <= n <= |run| && Current(r, run, m)
    requires forall k :: m <= k < n ==> run[k].arrived
    ensures Current(r, run, n)
    decreases n
  {
    if m < n {
      UnbrokenStaysCurrent(r, run, m, n - 1);
      assert SentAt(r, run, n - 1);
    }
  }

  /** A change whose message is lost stays wrong until the cell changes again or a whole array arrives: deltas that
      arrive in between do not help. */
  lemma {:induction false} LostChangeLingers(r: nat, run: seq<Sent>, m: nat, n: nat, i: nat)
    requires IsStream(r, run) && 0 < m < n <= |run| && i < Volume(r)
    requires Current(r, run, m) && !run[m].arrived && ChangedAt(run, m, i)
    requires forall k :: m < k < n ==> !ChangedAt(run, k, i) && (run[k].arrived ==> run[k].message.Delta?)
    ensures !Current(r, run, n) && LastTold(run, n, i) == Some(run[m - 1].curr[i])
    ensures run[n - 1].curr[i] == run[m].curr[i]
    decreases n
  {
    if n == m + 1 {
      HeldIsLastTold(r, run, m, i);
    } else {
      LostChangeLingers(r, run, m, n - 1, i);
    }
    HeldIsLastTold(r, run, n, i);
  }
}
