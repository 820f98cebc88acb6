/** The voxel codec of observations: run lengths as base-128 varints, or the cells that changed. */
module VoxelCodec {
  import opened Common

  /** A byte is a number below 256, a block id one below 65536. */
  type Bytes = seq<nat>

  // ----- varints, as encoding/binary writes and reads them

  function PutUvarint(x: nat): (r: Bytes)
    ensures r != []
  {
    if x < 128 then [x] else [128 + x % 128] + PutUvarint(x / 128)
  }

  lemma {:induction false} VarintBytes(x: nat, j: nat)
    requires j < |PutUvarint(x)|
    ensures PutUvarint(x)[j] < 256
  {
    if x >= 128 && j > 0 {
      VarintBytes(x / 128, j - 1);
    }
  }

  /** Value and length; None stands for both failure returns, truncated and too long. `i` counts the bytes
      already read: at most ten, the tenth at most 1. */
  function Uvarint(buf: Bytes, i: nat): Option<(nat, nat)> {
    if buf == [] || i >= 10 then None
    else if buf[0] < 128 then (if i == 9 && buf[0] > 1 then None else Some((buf[0], 1)))
    else
      match Uvarint(buf[1..], i + 1)
      case None => None
      case Some((v, n)) => Some((buf[0] % 128 + 128 * v, n + 1))
  }

  lemma {:induction false} UvarintFits(buf: Bytes, i: nat)
    ensures Uvarint(buf, i).Some? ==> 0 < Uvarint(buf, i).value.1 <= |buf|
  {
    if buf != [] && i < 10 && buf[0] >= 128 {
      UvarintFits(buf[1..], i + 1);
    }
  }

  /** 2 * 128^(9 - i): what is left to read after `i` bytes of a 64-bit value. */
  function Room(i: nat): nat
    requires i <= 9
    decreases 9 - i
  {
    if i == 9 then 2 else 128 * Room(i + 1)
  }

  lemma UvarintStep(d: nat, tail: Bytes, i: nat, v: nat, n: nat)
    requires d < 128 && i < 10 && Uvarint(tail, i + 1) == Some((v, n))
    ensures Uvarint([128 + d] + tail, i) == Some((d + 128 * v, n + 1))
  {
    assert ([128 + d] + tail)[1..] == tail;
  }

  lemma {:induction false} VarintRoundTrip(x: nat, i: nat, rest: Bytes)
    requires i <= 9 && x < Room(i)
    ensures Uvarint(PutUvarint(x) + rest, i) == Some((x, |PutUvarint(x)|))
    decreases x
  {
    if x >= 128 {
      VarintRoundTrip(x / 128, i + 1, rest);
      UvarintStep(x % 128, PutUvarint(x / 128) + rest, i, x / 128, |PutUvarint(x / 128)|);
      assert PutUvarint(x) + rest == [128 + x % 128] + (PutUvarint(x / 128) + rest);
    }
  }

  lemma Uint64Room()
    ensures Room(0) == 0x1_0000_0000_0000_0000
  {
    assert Room(7) == 0x8000;
    assert Room(5) == 0x2000_0000;
    assert Room(3) == 0x800_0000_0000;
    assert Room(1) == 0x200_0000_0000_0000;
  }

  // ----- any code that can be read back

  /** A way to write one number and to read one off the front of a buffer, with its length. */
  datatype Code = Code(put: nat -> Bytes, get: Bytes -> Option<(nat, nat)>)

  ghost predicate ReadsBack(c: Code, x: nat, rest: Bytes) {
    c.put(x) != [] && c.get(c.put(x) + rest) == Some((x, |c.put(x)|))
  }

  ghost predicate Fits(c: Code, raw: Bytes) {
    c.get(raw).Some? ==> 0 < c.get(raw).value.1 <= |raw|
  }

  /** 64-bit numbers read back whatever follows them, and reading never runs over the buffer. */
  ghost predicate Sound(c: Code) {
    && (forall x: nat, rest: Bytes :: x < UINT64 ==> ReadsBack(c, x, rest))
    && (forall raw: Bytes :: Fits(c, raw))
  }

  function GetUvarint(raw: Bytes): Option<(nat, nat)> {
    Uvarint(raw, 0)
  }

  const VARINT := Code(PutUvarint, GetUvarint)

  ghost predicate IsByteString(b: Bytes) {
    forall j :: 0 <= j < |b| ==> b[j] < 256
  }

  lemma VarintIsByteString(x: nat)
    ensures IsByteString(PutUvarint(x))
  {
    forall j | 0 <= j < |PutUvarint(x)| ensures PutUvarint(x)[j] < 256 {
      VarintBytes(x, j);
    }
  }

  lemma VarintSound()
    ensures Sound(VARINT)
  {
    forall x: nat, rest: Bytes | x < UINT64 ensures ReadsBack(VARINT, x, rest) {
      Uint64Room();
      VarintRoundTrip(x, 0, rest);
    }
    forall raw: Bytes ensures Fits(VARINT, raw) {
      UvarintFits(raw, 0);
    }
  }

  // ----- run lengths

  const MAX_RUN: nat := 0x8000_0000

  predicate IsId(v: nat) {
    v <= 0xFFFF
  }

  ghost predicate Ids(ids: seq<nat>) {
    forall j :: 0 <= j < |ids| ==> IsId(ids[j])
  }

  /** The leading run, cut at 2^31. */
  function RunLength(ids: seq<nat>, cap: nat): (n: nat)
    requires ids != [] && cap >= 1
    ensures 1 <= n <= |ids| && n <= cap && forall j :: 0 <= j < n ==> ids[j] == ids[0]
    ensures n < |ids| && n < cap ==> ids[n] != ids[0]
  {
    if |ids| == 1 || ids[1] != ids[0] || cap == 1 then 1 else 1 + RunLength(ids[1..], cap - 1)
  }

  function PutPair(c: Code, b: nat, run: nat): Bytes {
    c.put(b) + c.put(run)
  }

  function Encode(c: Code, ids: seq<nat>): Bytes {
    if ids == [] then []
    else
      var run := RunLength(ids, MAX_RUN);
      PutPair(c, ids[0], run) + Encode(c, ids[run..])
  }

  function Repeat(b: nat, n: nat): (r: seq<nat>)
    ensures |r| == n && forall j :: 0 <= j < n ==> r[j] == b
  {
    seq(n, _ => b)
  }

  /** Converting a 64-bit count to a signed int makes the upper half negative: no iterations. */
  function Iterations(run: nat): nat {
    if run < 0x8000_0000_0000_0000 then run else 0
  }

  /** An id, its run and the length of both, or None on a bad number or an id above 65535. */
  ghost function ReadPair(c: Code, raw: Bytes): (p: Option<(nat, nat, nat)>)
    requires Sound(c)
    ensures p.Some? ==> 0 < p.value.2 <= |raw|
  {
    assert Fits(c, raw);
    var first := c.get(raw);
    if first.None? then None
    else
      assert Fits(c, raw[first.value.1..]);
      var second := c.get(raw[first.value.1..]);
      if second.None? || !IsId(first.value.0) then None
      else Some((first.value.0, second.value.0, first.value.1 + second.value.1))
  }

  function Onto(out: seq<nat>, rest: Option<seq<nat>>): Option<seq<nat>> {
    if rest.None? then None else Some(out + rest.value)
  }

  ghost function Decode(c: Code, raw: Bytes): Option<seq<nat>>
    requires Sound(c)
    decreases |raw|
  {
    if raw == [] then Some([])
    else
      var p := ReadPair(c, raw);
      if p.None? then None else Onto(Repeat(p.value.0, Iterations(p.value.1)), Decode(c, raw[p.value.2..]))
  }

  lemma PairRoundTrip(c: Code, b: nat, run: nat, rest: Bytes)
    requires Sound(c) && IsId(b) && run < UINT64
    ensures PutPair(c, b, run) != []
    ensures ReadPair(c, PutPair(c, b, run) + rest) == Some((b, run, |PutPair(c, b, run)|))
  {
    var p, q := c.put(b), c.put(run);
    assert ReadsBack(c, b, q + rest) && ReadsBack(c, run, rest);
    assert p + q + rest == p + (q + rest);
    assert (p + (q + rest))[|p|..] == q + rest;
  }

  lemma DecodePair(c: Code, head: Bytes, rest: Bytes, b: nat, run: nat, ids: seq<nat>)
    requires Sound(c) && head != [] && ReadPair(c, head + rest) == Some((b, run, |head|)) && run < 0x8000_0000_0000_0000
    requires Decode(c, rest) == Some(ids)
    ensures Decode(c, head + rest) == Some(Repeat(b, run) + ids)
  {
    assert (head + rest)[|head|..] == rest;
  }

  lemma RunSplits(ids: seq<nat>, run: nat)
    requires ids != [] && Ids(ids) && run == RunLength(ids, MAX_RUN)
    ensures ids == Repeat(ids[0], run) + ids[run..] && IsId(ids[0]) && Ids(ids[run..])
  {
  }

  lemma RunRoundTrip(c: Code, b: nat, run: nat, rest: Bytes, ids: seq<nat>)
    requires Sound(c) && IsId(b) && run <= MAX_RUN && Decode(c, rest) == Some(ids)
    ensures Decode(c, PutPair(c, b, run) + rest) == Some(Repeat(b, run) + ids)
  {
    PairRoundTrip(c, b, run, rest);
    DecodePair(c, PutPair(c, b, run), rest, b, run, ids);
  }

  lemma {:induction false} RunsRoundTrip(c: Code, ids: seq<nat>)
    requires Sound(c) && Ids(ids)
    ensures Decode(c, Encode(c, ids)) == Some(ids)
    decreases |ids|
  {
    if ids == [] {
      assert Encode(c, ids) == [];
    } else {
      var run := RunLength(ids, MAX_RUN);
      RunSplits(ids, run);
      RunsRoundTrip(c, ids[run..]);
      RunRoundTrip(c, ids[0], run, Encode(c, ids[run..]), ids[run..]);
    }
  }

  /** What a message stands for, if it is well formed. */
  ghost function Decoded(raw: Bytes): Option<seq<nat>> {
    VarintSound();
    Decode(VARINT, raw)
  }

  /** Decoding undoes encoding for every sequence of block ids. */
  lemma RleRoundTrip(ids: seq<nat>)
    requires Ids(ids)
    ensures Decoded(Encode(VARINT, ids)) == Some(ids)
  {
    VarintSound();
    RunsRoundTrip(VARINT, ids);
  }

  lemma BytesConcat(a: Bytes, b: Bytes, c: Bytes)
    requires IsByteString(a) && IsByteString(b) && IsByteString(c)
    ensures IsByteString(a + b + c)
  {
  }

  lemma {:induction false} EncodedBytes(ids: seq<nat>)
    ensures IsByteString(Encode(VARINT, ids))
    decreases |ids|
  {
    if ids == [] {
      assert Encode(VARINT, ids) == [];
    } else {
      var run := RunLength(ids, MAX_RUN);
      EncodedBytes(ids[run..]);
      VarintIsByteString(ids[0]);
      VarintIsByteString(run);
      BytesConcat(PutUvarint(ids[0]), PutUvarint(run), Encode(VARINT, ids[run..]));
    }
  }

  lemma {:induction false} RunIs(ids: seq<nat>, cap: nat, n: nat)
    requires ids != [] && 1 <= n <= |ids| && n <= cap && forall j :: 0 <= j < n ==> ids[j] == ids[0]
    requires n < |ids| && n < cap ==> ids[n] != ids[0]
    ensures n == RunLength(ids, cap)
  {
    if n > 1 {
      RunIs(ids[1..], cap - 1, n - 1);
    }
  }

  method CountRun(ids: seq<nat>, i: nat) returns (run: nat)
    requires i < |ids|
    ensures run == RunLength(ids[i..], MAX_RUN)
  {
    var b := ids[i];
    run := 1;
    var j := i + 1;
    ghost var rest := ids[i..];
    while j < |ids| && ids[j] == b && run < MAX_RUN
      invariant j == i + run && 1 <= run <= MAX_RUN && j <= |ids|
      invariant forall k :: 0 <= k < run ==> rest[k] == b
    {
      run := run + 1;
      j := j + 1;
    }
    RunIs(rest, MAX_RUN, run);
  }

  ghost predicate EncodedTo(c: Code, buf: Bytes, ids: seq<nat>, i: nat)
    requires i <= |ids|
  {
    buf + Encode(c, ids[i..]) == Encode(c, ids)
  }

  lemma EncodedEnds(c: Code, buf: Bytes, ids: seq<nat>)
    ensures EncodedTo(c, [], ids, 0)
    ensures EncodedTo(c, buf, ids, |ids|) ==> buf == Encode(c, ids)
  {
    assert ids[0..] == ids && [] + Encode(c, ids) == Encode(c, ids);
    assert ids[|ids|..] == [] && buf + [] == buf;
  }

  lemma Reassociate(a: Bytes, b: Bytes, c: Bytes)
    ensures a + (b + c) == a + b + c
  {
  }

  lemma EncodedStep(c: Code, buf: Bytes, ids: seq<nat>, i: nat, run: nat)
    requires i < |ids| && EncodedTo(c, buf, ids, i) && run == RunLength(ids[i..], MAX_RUN)
    ensures EncodedTo(c, buf + PutPair(c, ids[i], run), ids, i + run)
  {
    assert ids[i..][run..] == ids[i + run..];
    Reassociate(buf, PutPair(c, ids[i], run), Encode(c, ids[i + run..]));
  }

  method EncodeRun(c: Code, buf: Bytes, ids: seq<nat>, i: nat) returns (out: Bytes, next: nat)
    requires i < |ids| && EncodedTo(c, buf, ids, i)
    ensures i < next <= |ids| && EncodedTo(c, out, ids, next)
  {
    var run := CountRun(ids, i);
    EncodedStep(c, buf, ids, i, run);
    out, next := buf + PutPair(c, ids[i], run), i + run;
  }

  method EncodeRuns(c: Code, ids: seq<nat>) returns (buf: Bytes)
    ensures buf == Encode(c, ids)
  {
    buf := [];
    var i := 0;
    EncodedEnds(c, buf, ids);
    while i < |ids|
      invariant i <= |ids| && EncodedTo(c, buf, ids, i)
    {
      buf, i := EncodeRun(c, buf, ids, i);
    }
    EncodedEnds(c, buf, ids);
  }

  /** What is written decodes to what was given. */
  method EncodeRLE(ids: seq<nat>) returns (buf: Bytes)
    ensures buf == Encode(VARINT, ids) && IsByteString(buf)
    ensures Ids(ids) ==> Decoded(buf) == Some(ids)
  {
    buf := EncodeRuns(VARINT, ids);
    EncodedBytes(ids);
    if Ids(ids) {
      RleRoundTrip(ids);
    }
  }

  method GetPair(c: Code, raw: Bytes) returns (p: Option<(nat, nat, nat)>)
    requires Sound(c)
    ensures p == ReadPair(c, raw)
  {
    var first := c.get(raw);
    if first.None? {
      return None;
    }
    assert Fits(c, raw);
    var second := c.get(raw[first.value.1..]);
    if second.None? || first.value.0 > 0xFFFF {
      return None;
    }
    return Some((first.value.0, second.value.0, first.value.1 + second.value.1));
  }

  ghost predicate DecodedTo(c: Code, out: seq<nat>, raw: Bytes, i: nat)
    requires Sound(c) && i <= |raw|
  {
    Decode(c, raw) == Onto(out, Decode(c, raw[i..]))
  }

  lemma OntoTwice(a: seq<nat>, b: seq<nat>, rest: Option<seq<nat>>)
    ensures Onto(a, Onto(b, rest)) == Onto(a + b, rest)
  {
    assert rest.Some? ==> a + (b + rest.value) == a + b + rest.value;
  }

  lemma DecodedStep(c: Code, out: seq<nat>, raw: Bytes, i: nat, p: Option<(nat, nat, nat)>)
    requires Sound(c) && i < |raw| && DecodedTo(c, out, raw, i) && p == ReadPair(c, raw[i..])
    ensures p.None? ==> Decode(c, raw) == None
    ensures p.Some? ==> DecodedTo(c, out + Repeat(p.value.0, Iterations(p.value.1)), raw, i + p.value.2)
  {
    if p.Some? {
      assert raw[i..][p.value.2..] == raw[i + p.value.2..];
      OntoTwice(out, Repeat(p.value.0, Iterations(p.value.1)), Decode(c, raw[i + p.value.2..]));
    }
  }

  lemma OntoNothing(rest: Option<seq<nat>>)
    ensures Onto([], rest) == rest
  {
    assert rest.Some? ==> [] + rest.value == rest.value;
  }

  lemma DecodedEnds(c: Code, out: seq<nat>, raw: Bytes)
    requires Sound(c)
    ensures DecodedTo(c, [], raw, 0)
    ensures DecodedTo(c, out, raw, |raw|) ==> Decode(c, raw) == Some(out)
  {
    assert raw[0..] == raw && raw[|raw|..] == [] && out + [] == out;
    OntoNothing(Decode(c, raw));
  }

  method DecodeRuns(c: Code, raw: Bytes) returns (r: Option<seq<nat>>)
    requires Sound(c)
    ensures r == Decode(c, raw)
  {
    var out: seq<nat> := [];
    var i := 0;
    DecodedEnds(c, out, raw);
    while i < |raw|
      invariant i <= |raw| && DecodedTo(c, out, raw, i)
    {
      var p := GetPair(c, raw[i..]);
      DecodedStep(c, out, raw, i, p);
      if p.None? {
        return None;
      }
      ghost var before := out;
      for k := 0 to Iterations(p.value.1)
        invariant out == before + Repeat(p.value.0, k)
      {
        out := out + [p.value.0];
      }
      i := i + p.value.2;
    }
    DecodedEnds(c, out, raw);
    return Some(out);
  }

  method DecodeRLE(raw: Bytes) returns (r: Option<seq<nat>>)
    ensures r == Decoded(raw)
  {
    VarintSound();
    r := DecodeRuns(VARINT, raw);
  }

  // ----- deltas

  datatype Op = Op(dx: int, dy: int, dz: int, b: nat)

  function Dim(r: nat): nat {
    2 * r + 1
  }

  /** `a * d` for natural `a`, by addition: keeps products out of the scan's proofs. */
  function Times(a: int, d: nat): nat {
    if a <= 0 then 0 else Times(a - 1, d) + d
  }

  function Flat(d: nat, a: int, b: int, c: int): int {
    Times(Times(a, d) + b, d) + c
  }

  /** Place of an offset in the y-z-x scan. */
  function Place(r: nat, dx: int, dy: int, dz: int): int {
    Flat(Dim(r), dy + r, dz + r, dx + r)
  }

  function Volume(r: nat): nat {
    Times(Times(Dim(r), Dim(r)), Dim(r))
  }

  lemma {:induction false} TimesIsProduct(a: nat, d: nat)
    ensures Times(a, d) == a * d
  {
    if a > 0 {
      TimesIsProduct(a - 1, d);
      assert (a - 1) * d + d == a * d;
    }
  }

  lemma VolumeIsCube(r: nat)
    ensures Volume(r) == Dim(r) * Dim(r) * Dim(r)
  {
    TimesIsProduct(Dim(r), Dim(r));
    TimesIsProduct(Dim(r) * Dim(r), Dim(r));
  }

  /** Where an operation writes. */
  type Layout = Op -> int

  function ScanLayout(r: nat): Layout {
    (op: Op) => Place(r, op.dx, op.dy, op.dz)
  }

  /** The receiver: overwrite the named cells of the array it holds. */
  function ApplyOps(prev: seq<nat>, ops: seq<Op>, at: Layout): (s: seq<nat>)
    ensures |s| == |prev|
  {
    if ops == [] then prev
    else
      var last := ops[|ops| - 1];
      var s := ApplyOps(prev, ops[..|ops| - 1], at);
      if 0 <= at(last) < |s| then s[at(last) := last.b] else s
  }

  lemma ApplyOneMore(prev: seq<nat>, ops: seq<Op>, op: Op, at: Layout)
    requires 0 <= at(op) < |prev|
    ensures ApplyOps(prev, ops + [op], at) == ApplyOps(prev, ops, at)[at(op) := op.b]
  {
    assert (ops + [op])[..|ops|] == ops;
  }

  lemma {:induction false} TimesMonotone(x: nat, y: nat, d: nat)
    requires x <= y
    ensures Times(x, d) <= Times(y, d)
    decreases y
  {
    if x < y {
      TimesMonotone(x, y - 1, d);
    }
  }

  lemma PlaceInside(r: nat, dx: int, dy: int, dz: int)
    requires Abs(dx) <= r && Abs(dy) <= r && Abs(dz) <= r
    ensures 0 <= Place(r, dx, dy, dz) < Volume(r)
  {
    var d := Dim(r);
    TimesMonotone(dy + r + 1, d, d);
    TimesMonotone(Times(dy + r, d) + dz + r + 1, Times(d, d), d);
  }

  function Least(r: nat): int {
    0 - r
  }

  lemma RowEnds(r: nat, dy: int, dz: int)
    requires Abs(dy) <= r && Abs(dz) <= r
    ensures Place(r, r + 1, dy, dz) == Place(r, Least(r), dy, dz + 1)
  {
  }

  lemma LayerEnds(r: nat, dy: int)
    requires Abs(dy) <= r
    ensures Place(r, Least(r), dy, r + 1) == Place(r, Least(r), dy + 1, Least(r))
  {
  }

  lemma ScanEnds(r: nat)
    ensures Place(r, Least(r), Least(r), Least(r)) == 0
    ensures Place(r, Least(r), r + 1, Least(r)) == Volume(r)
  {
  }

  ghost predicate Changed(prev: seq<nat>, curr: seq<nat>, op: Op, at: Layout) {
    0 <= at(op) < |curr| == |prev| && curr[at(op)] == op.b && prev[at(op)] != op.b
  }

  ghost predicate AllChanged(prev: seq<nat>, curr: seq<nat>, ops: seq<Op>, at: Layout, i: int) {
    forall j :: 0 <= j < |ops| ==> Changed(prev, curr, ops[j], at) && at(ops[j]) < i
  }

  ghost predicate InOrder(ops: seq<Op>, at: Layout) {
    forall j, k :: 0 <= j < k < |ops| ==> at(ops[j]) < at(ops[k])
  }

  /** Current before `i`, previous from there on. */
  ghost predicate Halfway(s: seq<nat>, prev: seq<nat>, curr: seq<nat>, i: int) {
    && 0 <= i <= |curr| == |prev| == |s|
    && forall j :: 0 <= j < |s| ==> s[j] == if j < i then curr[j] else prev[j]
  }

  ghost predicate Agree(prev: seq<nat>, curr: seq<nat>, i: int)
    requires 0 <= i <= |curr| == |prev|
  {
    forall j :: 0 <= j < i ==> prev[j] == curr[j]
  }

  /** Scanned up to `i`: applying the operations so far turns the first `i` cells current, and they name
      the cells that changed there, once each and in order. */
  ghost predicate DeltaTo(prev: seq<nat>, curr: seq<nat>, ops: seq<Op>, at: Layout, i: int) {
    && Halfway(ApplyOps(prev, ops, at), prev, curr, i)
    && (ops == [] <==> Agree(prev, curr, i))
    && AllChanged(prev, curr, ops, at, i)
    && InOrder(ops, at)
  }

  lemma HalfwayStep(s: seq<nat>, prev: seq<nat>, curr: seq<nat>, i: nat)
    requires Halfway(s, prev, curr, i) && i < |curr|
    ensures Halfway(s[i := curr[i]], prev, curr, i + 1)
    ensures curr[i] == prev[i] ==> Halfway(s, prev, curr, i + 1)
    ensures Agree(prev, curr, i + 1) <==> Agree(prev, curr, i) && curr[i] == prev[i]
  {
  }

  lemma NamesStep(prev: seq<nat>, curr: seq<nat>, ops: seq<Op>, at: Layout, op: Op, i: nat)
    requires AllChanged(prev, curr, ops, at, i) && InOrder(ops, at) && i == at(op) && Changed(prev, curr, op, at)
    ensures AllChanged(prev, curr, ops + [op], at, i + 1) && InOrder(ops + [op], at)
  {
  }

  lemma DeltaStep(prev: seq<nat>, curr: seq<nat>, ops: seq<Op>, at: Layout, op: Op, i: nat)
    requires i == at(op) && i < |curr| && op.b == curr[i] && DeltaTo(prev, curr, ops, at, i)
    ensures DeltaTo(prev, curr, if curr[i] != prev[i] then ops + [op] else ops, at, i + 1)
  {
    HalfwayStep(ApplyOps(prev, ops, at), prev, curr, i);
    if curr[i] != prev[i] {
      ApplyOneMore(prev, ops, op, at);
      NamesStep(prev, curr, ops, at, op, i);
    }
  }

  lemma ScanCell(prev: seq<nat>, curr: seq<nat>, r: nat, dx: int, dy: int, dz: int, i: nat)
    requires |prev| == |curr| == Volume(r) && Abs(dx) <= r && Abs(dy) <= r && Abs(dz) <= r
    requires i == Place(r, dx, dy, dz)
    ensures i < |curr| && i + 1 == Place(r, dx + 1, dy, dz) && ScanLayout(r)(Op(dx, dy, dz, curr[i])) == i
  {
    PlaceInside(r, dx, dy, dz);
  }

  lemma Finished(prev: seq<nat>, curr: seq<nat>, ops: seq<Op>, at: Layout)
    requires DeltaTo(prev, curr, ops, at, |curr|)
    ensures ApplyOps(prev, ops, at) == curr && (ops == [] <==> prev == curr)
  {
  }

  method ScanRow(prev: seq<nat>, curr: seq<nat>, ops0: seq<Op>, i0: nat, r: nat, dy: int, dz: int, ghost at: Layout)
    returns (ops: seq<Op>, i: nat)
    requires |prev| == |curr| == Volume(r) && Abs(dy) <= r && Abs(dz) <= r && at == ScanLayout(r)
    requires i0 == Place(r, Least(r), dy, dz) && DeltaTo(prev, curr, ops0, at, i0)
    ensures i == Place(r, Least(r), dy, dz + 1) && DeltaTo(prev, curr, ops, at, i)
  {
    ops, i := ops0, i0;
    for dx := Least(r) to r + 1
      invariant i == Place(r, dx, dy, dz) && DeltaTo(prev, curr, ops, at, i)
    {
      ScanCell(prev, curr, r, dx, dy, dz, i);
      DeltaStep(prev, curr, ops, at, Op(dx, dy, dz, curr[i]), i);
      if curr[i] != prev[i] {
        ops := ops + [Op(dx, dy, dz, curr[i])];
      }
      i := i + 1;
    }
    RowEnds(r, dy, dz);
  }

  method ScanLayer(prev: seq<nat>, curr: seq<nat>, ops0: seq<Op>, i0: nat, r: nat, dy: int, ghost at: Layout)
    returns (ops: seq<Op>, i: nat)
    requires |prev| == |curr| == Volume(r) && Abs(dy) <= r && at == ScanLayout(r)
    requires i0 == Place(r, Least(r), dy, Least(r)) && DeltaTo(prev, curr, ops0, at, i0)
    ensures i == Place(r, Least(r), dy + 1, Least(r)) && DeltaTo(prev, curr, ops, at, i)
  {
    ops, i := ops0, i0;
    for dz := Least(r) to r + 1
      invariant i == Place(r, Least(r), dy, dz) && DeltaTo(prev, curr, ops, at, i)
    {
      ops, i := ScanRow(prev, curr, ops, i, r, dy, dz, at);
    }
    LayerEnds(r, dy);
  }

  /** The operations turn the previous array into the current one; they name exactly the cells that differ,
      once each, in scan order. */
  method BuildDeltaOps(prev: seq<nat>, curr: seq<nat>, radius: nat) returns (ops: seq<Op>)
    requires |curr| == Volume(radius)
    ensures |prev| != |curr| ==> ops == []
    ensures |prev| == |curr| ==> ApplyOps(prev, ops, ScanLayout(radius)) == curr && (ops == [] <==> prev == curr)
    ensures forall j :: 0 <= j < |ops| ==> Changed(prev, curr, ops[j], ScanLayout(radius))
    ensures InOrder(ops, ScanLayout(radius))
  {
    if |prev| != |curr| || |curr| == 0 {
      return [];
    }
    ops := [];
    var i := 0;
    ScanEnds(radius);
    for dy := Least(radius) to radius + 1
      invariant i == Place(radius, Least(radius), dy, Least(radius)) && DeltaTo(prev, curr, ops, ScanLayout(radius), i)
    {
      ops, i := ScanLayer(prev, curr, ops, i, radius, dy, ScanLayout(radius));
    }
    Finished(prev, curr, ops, ScanLayout(radius));
  }

  // ----- the choice

  datatype Voxels = Rle(data: Bytes) | Delta(ops: seq<Op>)

  /** What a receiver makes of a message, from the array it holds if it has one. */
  ghost function Rebuild(v: Voxels, held: Option<seq<nat>>, r: nat): Option<seq<nat>> {
    match v
    case Rle(data) => Decoded(data)
    case Delta(ops) => if held.None? then None else Some(ApplyOps(held.value, ops, ScanLayout(r)))
  }

  ghost predicate TellsChanges(ops: seq<Op>, prev: seq<nat>, curr: seq<nat>, at: Layout) {
    && |prev| == |curr| && ApplyOps(prev, ops, at) == curr
    && forall j :: 0 <= j < |ops| ==> Changed(prev, curr, ops[j], at)
  }

  /** The message tells the current array: by itself, or as the cells that changed since the previous one. */
  ghost predicate Tells(v: Voxels, curr: seq<nat>, last: Option<seq<nat>>, r: nat) {
    match v
    case Rle(data) => Decoded(data) == Some(curr)
    case Delta(ops) => last.Some? && last.value != curr && TellsChanges(ops, last.value, curr, ScanLayout(r))
  }

  /** Whichever encoding is chosen, a receiver holding the previous array rebuilds the current one; with no
      previous array the message stands alone. */
  method ChooseEncoding(curr: seq<nat>, last: Option<seq<nat>>, deltaEnabled: bool, r: nat) returns (v: Voxels)
    requires Ids(curr) && |curr| == Dim(r) * Dim(r) * Dim(r)
    ensures Rebuild(v, last, r) == Some(curr) && Tells(v, curr, last, r)
    ensures last.None? ==> v.Rle?
    ensures v.Delta? ==> deltaEnabled && |v.ops| < |curr| / 2
  {
    VolumeIsCube(r);
    if deltaEnabled && last.Some? && |last.value| == |curr| {
      var ops := BuildDeltaOps(last.value, curr, r);
      if |ops| > 0 && |ops| < |curr| / 2 {
        return Delta(ops);
      }
    }
    var data := EncodeRLE(curr);
    return Rle(data);
  }
}
