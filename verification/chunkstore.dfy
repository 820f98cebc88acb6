/** The lazily generated chunk store: seen from outside, one fixed function from positions to blocks that only
    SetBlock changes. */
module ChunkStores {
  import opened Common
  import opened Coords

  type Digest = nat
  const NO_HASH: Digest := 0

  /** The generator is any function of the chunk key; the hash is any function of the blocks. */
  datatype WorldGen = WorldGen(air: nat, boundaryR: int, generate: Key -> seq<nat>, hash: seq<nat> -> Digest)
  datatype Chunk = Chunk(blocks: seq<nat>, dirty: bool, hash: Digest)
  datatype SnapChunk = SnapChunk(key: Key, height: int, blocks: seq<nat>)
  type Chunks = map<Key, Chunk>

  predicate InBounds(g: WorldGen, x: int, y: int, z: int) {
    && y == 0
    && (g.boundaryR > 0 ==> -g.boundaryR <= x <= g.boundaryR && -g.boundaryR <= z <= g.boundaryR)
  }

  ghost predicate GeneratesChunks(g: WorldGen) {
    forall k :: |g.generate(k)| == 256
  }

  /** A clean chunk with a hash carries the hash of its present blocks. */
  ghost predicate ChunkOk(g: WorldGen, c: Chunk) {
    |c.blocks| == 256 && (!c.dirty && c.hash != NO_HASH ==> c.hash == g.hash(c.blocks))
  }

  ghost predicate StoreOk(g: WorldGen, chunks: Chunks) {
    GeneratesChunks(g) && forall k :: k in chunks ==> ChunkOk(g, chunks[k])
  }

  function BlocksOf(g: WorldGen, chunks: Chunks, k: Key): seq<nat> {
    if k in chunks then chunks[k].blocks else g.generate(k)
  }

  /** What an observer sees: the stored block, or what generation would put there. */
  ghost function Block(g: WorldGen, chunks: Chunks, x: int, y: int, z: int): nat
    requires StoreOk(g, chunks)
  {
    if !InBounds(g, x, y, z) then g.air
    else
      ColumnRoundTrip(x, z);
      BlocksOf(g, chunks, KeyOf(x, z))[IndexOf(x, z)]
  }

  /** The block of a column of a chunk, told from the chunk's blocks or its generation: row by row on the ground, air
      above, below and past the boundary. */
  lemma BlockMeans(g: WorldGen, chunks: Chunks, k: Key, dx: nat, y: int, dz: nat)
    requires StoreOk(g, chunks) && dx < 16 && dz < 16
    ensures var x, z := 16 * k.cx + dx, 16 * k.cz + dz;
            Block(g, chunks, x, y, z)
            == if y == 0 && (g.boundaryR <= 0 || (Abs(x) <= g.boundaryR && Abs(z) <= g.boundaryR))
               then (if k in chunks then chunks[k].blocks else g.generate(k))[16 * dz + dx]
               else g.air
  {
    FloorAndModUnique(16 * k.cx + dx, 16, k.cx, dx);
    FloorAndModUnique(16 * k.cz + dz, 16, k.cz, dz);
  }

  ghost predicate SameView(g: WorldGen, a: Chunks, b: Chunks)
    requires StoreOk(g, a) && StoreOk(g, b)
  {
    forall x, y, z :: Block(g, a, x, y, z) == Block(g, b, x, y, z)
  }

  lemma SameBlocksSameView(g: WorldGen, a: Chunks, b: Chunks)
    requires StoreOk(g, a) && StoreOk(g, b) && forall k :: BlocksOf(g, a, k) == BlocksOf(g, b, k)
    ensures SameView(g, a, b)
  {
    forall x, y, z ensures Block(g, a, x, y, z) == Block(g, b, x, y, z) {
      assert BlocksOf(g, a, KeyOf(x, z)) == BlocksOf(g, b, KeyOf(x, z));
    }
  }

  /** Writing one slot of one chunk changes exactly the column that owns the slot. */
  lemma WriteChangesOneColumn(g: WorldGen, a: Chunks, b: Chunks, x: int, z: int, v: nat)
    requires StoreOk(g, a) && StoreOk(g, b) && InBounds(g, x, 0, z)
    requires 0 <= IndexOf(x, z) < 256
    requires BlocksOf(g, b, KeyOf(x, z)) == BlocksOf(g, a, KeyOf(x, z))[IndexOf(x, z) := v]
    requires forall k :: k != KeyOf(x, z) ==> BlocksOf(g, b, k) == BlocksOf(g, a, k)
    ensures forall x', y', z' :: Block(g, b, x', y', z')
              == if x' == x && y' == 0 && z' == z then v else Block(g, a, x', y', z')
  {
    forall x', y', z'
      ensures Block(g, b, x', y', z') == if x' == x && y' == 0 && z' == z then v else Block(g, a, x', y', z')
    {
      ColumnRoundTrip(x, z);
      ColumnRoundTrip(x', z');
      if KeyOf(x', z') != KeyOf(x, z) {
        assert BlocksOf(g, b, KeyOf(x', z')) == BlocksOf(g, a, KeyOf(x', z'));
      }
    }
  }

  class ChunkStore {
    const gen: WorldGen
    var chunks: Chunks

    ghost predicate Valid()
      reads this
    {
      StoreOk(gen, chunks)
    }

    constructor (g: WorldGen)
      requires GeneratesChunks(g)
      ensures Valid() && gen == g && chunks == map[]
    {
      gen, chunks := g, map[];
    }

    /** Chunk.Digest: cached unless dirty or unset, and always the hash of the present blocks. */
    method ChunkDigest(k: Key) returns (d: Digest)
      requires Valid() && k in chunks
      modifies this
      ensures Valid() && chunks.Keys == old(chunks).Keys && forall j ::
                j in chunks ==> chunks[j].blocks == old(chunks)[j].blocks
      ensures d == gen.hash(chunks[k].blocks)
      ensures SameView(gen, old(chunks), chunks)
    {
      var c := chunks[k];
      if c.dirty || c.hash == NO_HASH {
        c := c.(hash := gen.hash(c.blocks), dirty := false);
        chunks := chunks[k := c];
      }
      d := c.hash;
      SameBlocksSameView(gen, old(chunks), chunks);
    }

    /** Loading a chunk never shows. */
    method GetOrGenChunk(k: Key)
      requires Valid()
      modifies this
      ensures Valid() && k in chunks && chunks.Keys == old(chunks).Keys + {k}
      ensures forall j :: BlocksOf(gen, chunks, j) == BlocksOf(gen, old(chunks), j)
      ensures SameView(gen, old(chunks), chunks)
    {
      if k in chunks {
        return;
      }
      chunks := chunks[k := Chunk(gen.generate(k), true, NO_HASH)];
      var _ := ChunkDigest(k);
      SameBlocksSameView(gen, old(chunks), chunks);
    }

    method GetBlock(x: int, y: int, z: int) returns (b: nat)
      requires Valid()
      modifies this
      ensures Valid() && b == Block(gen, old(chunks), x, y, z)
      ensures SameView(gen, old(chunks), chunks)
    {
      if !InBounds(gen, x, y, z) {
        return gen.air;
      }
      GetOrGenChunk(KeyOf(x, z));
      ColumnRoundTrip(x, z);
      b := chunks[KeyOf(x, z)].blocks[Mod(x, 16) + Mod(z, 16) * 16];
      assert BlocksOf(gen, chunks, KeyOf(x, z)) == BlocksOf(gen, old(chunks), KeyOf(x, z));
    }

    /** Changes exactly the addressed cell, and nothing when it is out of bounds. */
    method SetBlock(x: int, y: int, z: int, b: nat)
      requires Valid()
      modifies this
      ensures Valid()
      ensures forall x', y', z' :: Block(gen, chunks, x', y', z')
                == if x' == x && y' == y && z' == z && y == 0
                      && (gen.boundaryR <= 0 || (Abs(x) <= gen.boundaryR && Abs(z) <= gen.boundaryR)) then b
                   else Block(gen, old(chunks), x', y', z')
    {
      if !InBounds(gen, x, y, z) {
        return;
      }
      var k := KeyOf(x, z);
      GetOrGenChunk(k);
      ghost var loaded := chunks;
      ColumnRoundTrip(x, z);
      var i := Mod(x, 16) + Mod(z, 16) * 16;
      var c := chunks[k];
      if c.blocks[i] != b {
        chunks := chunks[k := c.(blocks := c.blocks[i := b], dirty := true)];
      }
      WriteChangesOneColumn(gen, loaded, chunks, x, z, b);
    }
  }

  // ----- snapshots

  ghost predicate Exports(out: seq<SnapChunk>, chunks: Chunks, keys: seq<Key>) {
    && (forall s :: s in out ==> s.key in chunks && s.key in keys && s.height == 1 && s.blocks == chunks[s.key].blocks)
    && (forall k :: k in keys && k in chunks ==> SnapChunk(k, 1, chunks[k].blocks) in out)
  }

  method ExportLoadedChunks(chunks: Chunks, keys: seq<Key>) returns (out: seq<SnapChunk>)
    ensures Exports(out, chunks, keys)
  {
    out := [];
    for n := 0 to |keys|
      invariant forall s :: s in out ==>
                  s.key in chunks && s.key in keys && s.height == 1 && s.blocks == chunks[s.key].blocks
      invariant forall j :: 0 <= j < n && keys[j] in chunks ==> SnapChunk(keys[j], 1, chunks[keys[j]].blocks) in out
    {
      if keys[n] in chunks {
        out := out + [SnapChunk(keys[n], 1, chunks[keys[n]].blocks)];
      }
    }
  }

  predicate Importable(s: SnapChunk) {
    s.height == 1 && |s.blocks| == 256
  }

  /** The blocks a snapshot gives a chunk; a later entry for the same key replaces an earlier one. */
  function LastBlocks(snap: seq<SnapChunk>, k: Key): Option<seq<nat>> {
    if snap == [] then None
    else
      var last := snap[|snap| - 1];
      if last.key == k then Some(last.blocks) else LastBlocks(snap[..|snap| - 1], k)
  }

  /** The first `n` entries are loaded. */
  ghost predicate ImportedTo(g: WorldGen, snap: seq<SnapChunk>, n: nat, chunks: Chunks)
    requires n <= |snap|
  {
    && StoreOk(g, chunks)
    && (forall j :: 0 <= j < n ==> Importable(snap[j]) && snap[j].key in chunks)
    && (forall k :: k in chunks ==>
          SnapChunk(k, 1, chunks[k].blocks) in snap && chunks[k].hash == g.hash(chunks[k].blocks))
    && (forall k :: LastBlocks(snap[..n], k) == if k in chunks then Some(chunks[k].blocks) else None)
  }

  lemma LastBlocksMore(snap: seq<SnapChunk>, n: nat, k: Key)
    requires n < |snap|
    ensures LastBlocks(snap[..n + 1], k) == if k == snap[n].key then Some(snap[n].blocks) else LastBlocks(snap[..n], k)
  {
    assert snap[..n + 1][..n] == snap[..n];
  }

  lemma ImportedMore(g: WorldGen, snap: seq<SnapChunk>, n: nat, chunks: Chunks)
    requires n < |snap| && ImportedTo(g, snap, n, chunks) && Importable(snap[n])
    ensures ImportedTo(g, snap, n + 1, chunks[snap[n].key := Chunk(snap[n].blocks, false, g.hash(snap[n].blocks))])
  {
    assert snap[n] == SnapChunk(snap[n].key, 1, snap[n].blocks);
    forall k
      ensures LastBlocks(snap[..n + 1], k)
           == if k == snap[n].key then Some(snap[n].blocks) else LastBlocks(snap[..n], k)
    {
      LastBlocksMore(snap, n, k);
    }
  }

  /** Succeeds exactly on well-shaped chunks, and then loads for each key the blocks of its last entry, digest
      in place. */
  method ImportChunks(g: WorldGen, snap: seq<SnapChunk>) returns (r: Option<Chunks>)
    requires GeneratesChunks(g)
    ensures r.Some? <==> forall s :: s in snap ==> Importable(s)
    ensures r.Some? ==> StoreOk(g, r.value) && forall k :: k in r.value <==> exists s :: s in snap && s.key == k
    ensures r.Some? ==> forall k :: k in r.value ==>
              SnapChunk(k, 1, r.value[k].blocks) in snap && r.value[k].hash == g.hash(r.value[k].blocks)
    ensures r.Some? ==> forall k :: LastBlocks(snap, k) == if k in r.value then Some(r.value[k].blocks) else None
  {
    var chunks: Chunks := map[];
    for n := 0 to |snap|
      invariant ImportedTo(g, snap, n, chunks)
    {
      var s := snap[n];
      if s.height != 1 || |s.blocks| != 256 {
        assert s in snap && !Importable(s);
        return None;
      }
      ImportedMore(g, snap, n, chunks);
      chunks := chunks[s.key := Chunk(s.blocks, false, g.hash(s.blocks))];
    }
    assert snap[..|snap|] == snap;
    return Some(chunks);
  }

  /** Export then import keeps the block function wherever the key was exported or the chunk never loaded;
      exporting every loaded key keeps all of it. */
  method SnapshotRoundTrip(g: WorldGen, chunks: Chunks, keys: seq<Key>) returns (r: Option<Chunks>)
    requires StoreOk(g, chunks)
    ensures r.Some? && StoreOk(g, r.value)
    ensures forall x, y, z :: KeyOf(x, z) in keys || KeyOf(x, z) !in chunks ==>
              Block(g, r.value, x, y, z) == Block(g, chunks, x, y, z)
    ensures (forall k :: k in chunks ==> k in keys) ==> SameView(g, chunks, r.value)
  {
    var snap := ExportLoadedChunks(chunks, keys);
    forall s | s in snap ensures Importable(s) {
      assert ChunkOk(g, chunks[s.key]);
    }
    r := ImportChunks(g, snap);
    forall k | k in keys || k !in chunks ensures BlocksOf(g, r.value, k) == BlocksOf(g, chunks, k) {
      if k in keys && k in chunks {
        assert SnapChunk(k, 1, chunks[k].blocks) in snap;
      }
    }
  }
}
