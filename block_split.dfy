/**
 * How `play` (libtone.py) cuts a buffer into blocks: the split points come
 * from `np.arange(BUFFER_SIZE, n, BUFFER_SIZE)` and the blocks from
 * `np.array_split(samples, indices)`. Both numpy routines are modelled on
 * the integer arguments `play` gives them; `Chunks` is an independent
 * reference definition of "consecutive blocks of a fixed size", and the
 * lemmas prove that the split is exactly that partition.
 */
module BlockSplit {

  /** Size of an output block in frames. */
  const BufferSize: nat := 2048

  /** `np.arange(start, stop, step)` for a positive step: start, start + step, ... below stop. */
  function Arange(start: nat, stop: nat, step: nat): (r: seq<nat>)
    requires step > 0
    ensures forall i :: 0 <= i < |r| ==> r[i] == start + i * step && r[i] < stop
    ensures start + |r| * step >= stop
    decreases stop - start
  {
    if start < stop then [start] + Arange(start + step, stop, step) else []
  }

  /** Python slicing `s[lo:hi]` for non-negative bounds: both are clamped to the length. */
  function PySlice<T>(s: seq<T>, lo: nat, hi: nat): (r: seq<T>)
    ensures lo <= hi <= |s| ==> r == s[lo..hi]
  {
    var a := if lo < |s| then lo else |s|;
    var b := if hi < |s| then hi else |s|;
    if a <= b then s[a..b] else []
  }

  /** The sub-sequences between consecutive division points `lo`, `indices...`, `|s|`. */
  function Pieces<T>(s: seq<T>, lo: nat, indices: seq<nat>): (r: seq<seq<T>>)
    ensures |r| == |indices| + 1
    decreases |indices|
  {
    if indices == [] then [PySlice(s, lo, |s|)]
    else [PySlice(s, lo, indices[0])] + Pieces(s, indices[0], indices[1..])
  }

  /** `np.array_split(s, indices)` with a list of split indices. */
  function ArraySplit<T>(s: seq<T>, indices: seq<nat>): (r: seq<seq<T>>)
    ensures |r| == |indices| + 1
  {
    Pieces(s, 0, indices)
  }

  /** The blocks `play` writes: the frames split at BufferSize, 2 * BufferSize, ... below the length. */
  function Partition<T>(s: seq<T>): (r: seq<seq<T>>)
    ensures r == Chunks(s, BufferSize)
  {
    PiecesAreChunks(s, 0, BufferSize);
    assert s[0..] == s;
    ArraySplit(s, Arange(BufferSize, |s|, BufferSize))
  }

  /** Reference definition: consecutive blocks of `size` elements, the last one possibly shorter. */
  function Chunks<T>(s: seq<T>, size: nat): (r: seq<seq<T>>)
    requires size > 0
    ensures |r| >= 1
    ensures forall i :: 0 <= i < |r| ==> |r[i]| <= size
    ensures forall i :: 0 <= i < |r| - 1 ==> |r[i]| == size
    decreases |s|
  {
    if |s| <= size then [s] else [s[..size]] + Chunks(s[size..], size)
  }

  /** Concatenation of a sequence of blocks. */
  function Flatten<T>(blocks: seq<seq<T>>): seq<T> {
    if blocks == [] then [] else blocks[0] + Flatten(blocks[1..])
  }

  lemma {:induction false} PiecesAreChunks<T>(s: seq<T>, lo: nat, size: nat)
    requires size > 0 && lo <= |s|
    ensures Pieces(s, lo, Arange(lo + size, |s|, size)) == Chunks(s[lo..], size)
    decreases |s| - lo
  {
    if lo + size < |s| {
      var rest := Arange(lo + 2 * size, |s|, size);
      assert Arange(lo + size, |s|, size) == [lo + size] + rest;
      PiecesAreChunks(s, lo + size, size);
      assert s[lo..][size..] == s[lo + size..];
      assert s[lo..][..size] == s[lo..lo + size];
      assert ([lo + size] + rest)[1..] == rest;
    } else {
      assert Arange(lo + size, |s|, size) == [];
      assert PySlice(s, lo, |s|) == s[lo..];
    }
  }

  /** Concatenating the blocks gives back the sequence, in order. */
  lemma {:induction false} ChunksFlatten<T>(s: seq<T>, size: nat)
    requires size > 0
    ensures Flatten(Chunks(s, size)) == s
    decreases |s|
  {
    if |s| > size {
      var c := Chunks(s, size);
      assert c[1..] == Chunks(s[size..], size);
      ChunksFlatten(s[size..], size);
      assert s[..size] + s[size..] == s;
    } else {
      assert Flatten([s]) == s + Flatten<T>([]);
    }
  }

  /**
   * Every block but the last has exactly `size` elements; the last has
   * between 1 and `size`, or is the single empty block of an empty input.
   * Their number `k` satisfies (k - 1) * size < |s| <= k * size, so it is
   * the ceiling of |s| / size.
   */
  lemma {:induction false} ChunksSizes<T>(s: seq<T>, size: nat)
    requires size > 0
    ensures var c := Chunks(s, size);
      && |c| >= 1
      && (forall i :: 0 <= i < |c| - 1 ==> |c[i]| == size)
      && (|s| == 0 ==> c == [[]])
      && (|s| > 0 ==> 1 <= |c[|c| - 1]| <= size)
      && (|s| > 0 ==> (|c| - 1) * size < |s| <= |c| * size)
    decreases |s|
  {
    var c := Chunks(s, size);
    if |s| > size {
      var rest := Chunks(s[size..], size);
      ChunksSizes(s[size..], size);
      assert c == [s[..size]] + rest;
      assert (|c| - 1) * size == (|rest| - 1) * size + size;
      assert |c| * size == |rest| * size + size;
    }
  }

  /** The block count of `play`: ceil(n / 2048) for a non-empty buffer, one empty block otherwise. */
  lemma PartitionCount<T>(s: seq<T>)
    ensures |Partition(s)| == if |s| == 0 then 1 else (|s| + BufferSize - 1) / BufferSize
  {
    ChunksSizes(s, BufferSize);
  }

  /** The blocks of `play` reproduce the buffer and have the fixed size except the last. */
  lemma PartitionShape<T>(s: seq<T>)
    ensures Flatten(Partition(s)) == s
    ensures |Partition(s)| >= 1
    ensures forall i :: 0 <= i < |Partition(s)| - 1 ==> |Partition(s)[i]| == BufferSize
    ensures |s| > 0 ==> 1 <= |Partition(s)[|Partition(s)| - 1]| <= BufferSize
    ensures |s| == 0 ==> Partition(s) == [[]]
  {
    ChunksSizes(s, BufferSize);
    ChunksFlatten(s, BufferSize);
  }

  /** Flattening distributes over a split of the block sequence. */
  lemma {:induction false} FlattenSplit<T>(blocks: seq<seq<T>>, k: nat)
    requires k <= |blocks|
    ensures Flatten(blocks[..k]) + Flatten(blocks[k..]) == Flatten(blocks)
    decreases k
  {
    if k > 0 {
      FlattenSplit(blocks[1..], k - 1);
      assert blocks[..k][1..] == blocks[1..][..k - 1];
      assert blocks[1..][k - 1..] == blocks[k..];
    } else {
      assert blocks[..0] == [];
      assert blocks[0..] == blocks;
    }
  }

  /** Any leading run of the blocks concatenates to a prefix of the buffer. */
  lemma PartitionPrefix<T>(s: seq<T>, k: nat)
    requires k <= |Partition(s)|
    ensures Flatten(Partition(s)[..k]) <= s
    ensures k == |Partition(s)| ==> Flatten(Partition(s)[..k]) == s
  {
    PartitionShape(s);
    FlattenSplit(Partition(s), k);
    assert Partition(s)[..|Partition(s)|] == Partition(s);
  }
}
