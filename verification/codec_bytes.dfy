/** The bytes of the voxel codec one by one: which byte strings stand for which numbers and runs. */
module CodecBytes {
  import opened Common
  import opened VoxelCodec

  // ----- numbers

  /** The number that base-128 digits stand for, lowest first. */
  function Value(b: Bytes): nat {
    if b == [] then 0 else b[0] % 128 + 128 * Value(b[1..])
  }

  /** The first `n` bytes make up one number: all but the last have the high bit. */
  ghost predicate IsNumber(b: Bytes, n: nat) {
    1 <= n <= |b| && (forall j :: 0 <= j < n - 1 ==> b[j] >= 128) && b[n - 1] < 128
  }

  lemma IsNumberNext(b: Bytes, n: nat)
    requires b != [] && b[0] >= 128 && n > 0
    ensures IsNumber(b, n) <==> n > 1 && IsNumber(b[1..], n - 1)
  {
    if n > 1 && IsNumber(b[1..], n - 1) {
      forall j | 0 <= j < n - 1 ensures b[j] >= 128 {
        assert j > 0 ==> b[j] == b[1..][j - 1];
      }
      assert b[n - 1] == b[1..][n - 2];
    }
    if IsNumber(b, n) && n > 1 {
      assert forall j :: 0 <= j < n - 2 ==> b[1..][j] == b[j + 1];
    }
  }

  lemma ValueNext(b: Bytes, n: nat)
    requires 1 < n <= |b|
    ensures Value(b[..n]) == b[0] % 128 + 128 * Value(b[1..][..n - 1])
  {
    assert b[..n][1..] == b[1..][..n - 1];
  }

  /** After `i` bytes of a number: it is read exactly when it ends within ten bytes, the tenth being 0 or 1. */
  lemma {:induction false} UvarintFrom(b: Bytes, i: nat, n: nat)
    requires n > 0
    ensures Uvarint(b, i).Some? && Uvarint(b, i).value.1 == n <==>
              IsNumber(b, n) && i + n <= 10 && (i + n == 10 ==> b[n - 1] <= 1)
    ensures Uvarint(b, i).Some? && Uvarint(b, i).value.1 == n ==> Uvarint(b, i).value.0 == Value(b[..n])
    decreases n
  {
    if b != [] && b[0] >= 128 {
      IsNumberNext(b, n);
      UvarintFits(b[1..], i + 1);
      if n > 1 {
        UvarintFrom(b[1..], i + 1, n - 1);
        if n <= |b| {
          ValueNext(b, n);
        }
      }
    } else if b != [] && n == 1 {
      assert b[..1] == [b[0]];
    }
  }

  /** Which bytes a number is read from, with its value: its own digits, ten at most, below 2^64. */
  lemma ReadsExactly(b: Bytes, n: nat)
    requires n > 0
    ensures GetUvarint(b).Some? && GetUvarint(b).value.1 == n <==>
              IsNumber(b, n) && n <= 10 && (n == 10 ==> b[9] <= 1)
    ensures GetUvarint(b).Some? && GetUvarint(b).value.1 == n ==> GetUvarint(b).value.0 == Value(b[..n])
  {
    UvarintFrom(b, 0, n);
  }

  lemma LowDigit(x: nat)
    ensures (128 + x % 128) % 128 + 128 * (x / 128) == x
  {
  }

  lemma ValueOfMore(d: nat, rest: Bytes)
    ensures Value([d] + rest) == d % 128 + 128 * Value(rest)
  {
    assert ([d] + rest)[1..] == rest;
  }

  lemma LastOfMore(d: nat, rest: Bytes, x: nat)
    requires rest == PutUvarint(x) && x > 0 && (|rest| > 1 ==> rest[|rest| - 1] != 0)
    ensures ([d] + rest)[|rest|] != 0
  {
  }

  lemma NumberOfMore(d: nat, rest: Bytes)
    requires d >= 128 && IsNumber(rest, |rest|)
    ensures IsNumber([d] + rest, |rest| + 1)
  {
    assert ([d] + rest)[1..] == rest;
    IsNumberNext([d] + rest, |rest| + 1);
  }

  /** A number is written in its own digits and no more of them than it needs. */
  lemma {:induction false} WritesExactly(x: nat)
    ensures var b := PutUvarint(x);
            IsNumber(b, |b|) && Value(b) == x && (|b| > 1 ==> b[|b| - 1] != 0)
    decreases x
  {
    if x < 128 {
      ValueOfMore(x, []);
    } else {
      var rest := PutUvarint(x / 128);
      WritesExactly(x / 128);
      NumberOfMore(128 + x % 128, rest);
      ValueOfMore(128 + x % 128, rest);
      LowDigit(x);
      LastOfMore(128 + x % 128, rest, x / 128);
    }
  }

  // ----- runs

  /** The first `run` ids are equal, and the run is whole: the next id differs, or it is 2^31 long. */
  ghost predicate IsRun(ids: seq<nat>, run: nat) {
    && 1 <= run <= |ids| && run <= 0x8000_0000
    && (forall j :: 0 <= j < run ==> ids[j] == ids[0])
    && (run < |ids| && run < 0x8000_0000 ==> ids[run] != ids[0])
  }

  /** An encoding begins with the first id, the length of its run, and goes on with the rest. */
  lemma EncodeMeans(ids: seq<nat>)
    requires ids != []
    ensures exists run: nat :: IsRun(ids, run)
              && Encode(VARINT, ids) == PutUvarint(ids[0]) + PutUvarint(run) + Encode(VARINT, ids[run..])
  {
    assert IsRun(ids, RunLength(ids, MAX_RUN));
  }

  /** What bytes beginning with an id and a run of `n` bytes together stand for: that many of the id, none when the
      run is 2^63 or more, then whatever the rest stands for. */
  lemma DecodeMeans(raw: Bytes, id: nat, n: nat, run: nat, m: nat)
    requires 0 < n && n + m <= |raw| && 0 < m
    requires GetUvarint(raw) == Some((id, n)) && GetUvarint(raw[n..]) == Some((run, m))
    ensures id > 0xFFFF || Decoded(raw[n + m..]).None? ==> Decoded(raw).None?
    ensures id <= 0xFFFF && Decoded(raw[n + m..]).Some? ==>
              Decoded(raw) == Some(seq(if run < 0x8000_0000_0000_0000 then run else 0, _ => id)
                                   + Decoded(raw[n + m..]).value)
  {
    VarintSound();
    assert Fits(VARINT, raw) && Fits(VARINT, raw[n..]);
    assert raw[n..][m..] == raw[n + m..];
    if id <= 0xFFFF {
      assert ReadPair(VARINT, raw) == Some((id, run, n + m));
      assert Repeat(id, Iterations(run)) == seq(if run < 0x8000_0000_0000_0000 then run else 0, _ => id);
    }
  }

  /** A byte string that does not begin with two numbers stands for nothing. */
  lemma DecodeFails(raw: Bytes)
    requires raw != []
    requires GetUvarint(raw).None? || GetUvarint(raw[Min(GetUvarint(raw).value.1, |raw|)..]).None?
    ensures Decoded(raw).None?
  {
    VarintSound();
    assert Fits(VARINT, raw);
  }
}
