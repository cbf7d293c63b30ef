/** Statistics.chunk_by_time: which chunk (time window) a start time falls in. */
module Indexing {
  import opened Records

  /** The base time after a record with start time t has been seen: the first
      start time ever seen is kept for good. */
  function LatchBase(baseTime: Option<int>, t: int): int
  {
    if baseTime.None? then t else baseTime.value
  }

  /** floor((t - baseTime) / msPerChunk). Python 2 divides longs by flooring and
      Dafny's division by a positive divisor floors too. */
  function ChunkIndex(baseTime: int, t: int, msPerChunk: int): int
    requires msPerChunk > 0
  {
    (t - baseTime) / msPerChunk
  }

  /** The index is the window that contains t: t lies in
      [baseTime + i * msPerChunk, baseTime + (i + 1) * msPerChunk). */
  lemma ChunkIndexBounds(baseTime: int, t: int, msPerChunk: int)
    requires msPerChunk > 0
    ensures ChunkIndex(baseTime, t, msPerChunk) * msPerChunk <= t - baseTime
    ensures t - baseTime < (ChunkIndex(baseTime, t, msPerChunk) + 1) * msPerChunk
  {
    var q := ChunkIndex(baseTime, t, msPerChunk);
    assert t - baseTime == q * msPerChunk + (t - baseTime) % msPerChunk;
  }

  /** The index is the only integer whose window contains t. */
  lemma ChunkIndexUnique(baseTime: int, t: int, msPerChunk: int, i: int)
    requires msPerChunk > 0
    requires i * msPerChunk <= t - baseTime < (i + 1) * msPerChunk
    ensures ChunkIndex(baseTime, t, msPerChunk) == i
  {
    var j := ChunkIndex(baseTime, t, msPerChunk);
    ChunkIndexBounds(baseTime, t, msPerChunk);
    if j < i {
      assert (j + 1) * msPerChunk <= i * msPerChunk by {
        MulMonotone(j + 1, i, msPerChunk);
      }
    } else if j > i {
      assert (i + 1) * msPerChunk <= j * msPerChunk by {
        MulMonotone(i + 1, j, msPerChunk);
      }
    }
  }

  /** Later start times never land in an earlier chunk. */
  lemma ChunkIndexMonotone(baseTime: int, t1: int, t2: int, msPerChunk: int)
    requires msPerChunk > 0
    requires t1 <= t2
    ensures ChunkIndex(baseTime, t1, msPerChunk) <= ChunkIndex(baseTime, t2, msPerChunk)
  {
    var i1 := ChunkIndex(baseTime, t1, msPerChunk);
    var i2 := ChunkIndex(baseTime, t2, msPerChunk);
    ChunkIndexBounds(baseTime, t1, msPerChunk);
    ChunkIndexBounds(baseTime, t2, msPerChunk);
    if i2 < i1 {
      MulMonotone(i2 + 1, i1, msPerChunk);
    }
  }

  lemma MulMonotone(a: int, b: int, m: int)
    requires a <= b && m > 0
    ensures a * m <= b * m
  {
    assert b * m - a * m == (b - a) * m;
  }
}
