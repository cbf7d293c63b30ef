/** Statistics: the chunk store. It latches the base time, maps each record's
    start time to a chunk index, creates chunks on first reference and keeps
    the running current_index. */
module Store {
  import opened Records
  import opened PerChunk
  import opened Indexing
  import opened Chunks

  /** ms_per_chunk as Statistics.__init__ sets it. */
  const MsPerChunk := 1000

  /** The store as a value. order is the iteration order of the chunks dict,
      taken to be creation order. */
  datatype StoreValue = StoreValue(
    baseTime: Option<int>,
    chunks: map<int, ChunkValue>,
    order: seq<int>,
    currentIndex: int)

  /** A new Statistics object: no base time, no chunks, current_index 0. */
  const Empty := StoreValue(None, map[], [], 0)

  /** order lists each chunk index once, there are no chunks before a base time
      is latched, and every chunk lists each of its test ids once. */
  ghost predicate StoreInv(s: StoreValue)
  {
    OrderCovers(s.order, s.chunks) &&
    (s.baseTime.None? ==> s.chunks == map[]) &&
    (forall i :: i in s.chunks ==> WellFormed(s.chunks[i]))
  }

  /** The index chunk_by_time gives a start time t in store s. */
  function IndexFor(s: StoreValue, t: int): int
  {
    ChunkIndex(LatchBase(s.baseTime, t), t, MsPerChunk)
  }

  /** The store after get_a_chunk(t). */
  function AfterGetAChunk(s: StoreValue, t: int): (d: StoreValue)
    requires StoreInv(s)
    ensures StoreInv(d)
  {
    var i := IndexFor(s, t);
    if i in s.chunks then
      StoreValue(Some(LatchBase(s.baseTime, t)), s.chunks, s.order,
                 if s.currentIndex <= i then i else s.currentIndex)
    else
      StoreValue(Some(LatchBase(s.baseTime, t)), s.chunks[i := NewChunk(t)], s.order + [i],
                 if s.currentIndex <= i then i else s.currentIndex)
  }

  /** The store after get_a_chunk(t) followed by add_a_data on the chunk it
      returned: one main-loop iteration up to the emission test. */
  function AddRecord(s: StoreValue, r: Record): (d: StoreValue)
    requires StoreInv(s)
    ensures StoreInv(d)
  {
    var g := AfterGetAChunk(s, r.startTime);
    var i := IndexFor(s, r.startTime);
    assert g.chunks[i := WithRecord(g.chunks[i], r)].Keys == g.chunks.Keys;
    g.(chunks := g.chunks[i := WithRecord(g.chunks[i], r)])
  }

  /** The key last_chunk reads: the second-to-last key of chunks. */
  function LastKey(s: StoreValue): int
    requires |s.order| >= 2
  {
    s.order[|s.order| - 2]
  }

  /** get_a_chunk latches the base time once, then returns the one chunk of the
      record's window: an existing chunk is kept as it is, a missing one is
      created with the record's start time as timestamp; no other chunk appears
      or changes, and current_index becomes the larger of itself and the index. */
  lemma GetAChunkCreatesAtMostOne(s: StoreValue, t: int)
    requires StoreInv(s)
    ensures AfterGetAChunk(s, t).baseTime == Some(if s.baseTime.Some? then s.baseTime.value else t)
    ensures AfterGetAChunk(s, t).chunks.Keys == s.chunks.Keys + {IndexFor(s, t)}
    ensures forall j :: j in s.chunks ==> AfterGetAChunk(s, t).chunks[j] == s.chunks[j]
    ensures IndexFor(s, t) !in s.chunks ==> AfterGetAChunk(s, t).chunks[IndexFor(s, t)] == NewChunk(t)
    ensures |AfterGetAChunk(s, t).chunks| == |s.chunks| + (if IndexFor(s, t) in s.chunks then 0 else 1)
    ensures AfterGetAChunk(s, t).currentIndex >= s.currentIndex
    ensures AfterGetAChunk(s, t).currentIndex >= IndexFor(s, t)
    ensures AfterGetAChunk(s, t).currentIndex in {s.currentIndex, IndexFor(s, t)}
  {
  }

  /** One record changes exactly one chunk, the one of its window, and in it
      exactly the aggregate of its test id. */
  lemma AddRecordTouchesOneChunk(s: StoreValue, r: Record)
    requires StoreInv(s)
    ensures AddRecord(s, r).chunks.Keys == s.chunks.Keys + {IndexFor(s, r.startTime)}
    ensures forall j :: j in s.chunks && j != IndexFor(s, r.startTime) ==> AddRecord(s, r).chunks[j] == s.chunks[j]
    ensures AddRecord(s, r).chunks[IndexFor(s, r.startTime)]
            == WithRecord(AfterGetAChunk(s, r.startTime).chunks[IndexFor(s, r.startTime)], r)
  {
  }

  /** get_a_chunk as its three steps: latch the base time and index, set the
      default chunk, raise current_index. */
  lemma GetAChunkInSteps(s0: StoreValue, t: int, index: int, s1: StoreValue, s2: StoreValue, s3: StoreValue)
    requires StoreInv(s0)
    requires index == IndexFor(s0, t)
    requires s1 == s0.(baseTime := Some(LatchBase(s0.baseTime, t)))
    requires index in s1.chunks ==> s2 == s1
    requires index !in s1.chunks ==> s2 == s1.(chunks := s1.chunks[index := NewChunk(t)], order := s1.order + [index])
    requires s3 == s2.(currentIndex := if s2.currentIndex <= index then index else s2.currentIndex)
    ensures s3 == AfterGetAChunk(s0, t)
  {
  }

  /** Two distinct keys of a map make it hold at least two entries. */
  lemma TwoKeys<V>(m: map<int, V>, a: int, b: int)
    requires a in m && b in m && a != b
    ensures |m| >= 2
  {
    var rest := m.Keys - {a, b};
    assert m.Keys == {a, b} + rest;
    assert |{a, b}| == 2;
    assert |m.Keys| == |{a, b}| + |rest|;
  }

  /** Replacing the value of a key in a store whose chunks are distinct. */
  lemma ReplaceChunk(before: StoreValue, after: StoreValue, i: int, c: ChunkValue)
    requires i in before.chunks
    requires after.baseTime == before.baseTime && after.order == before.order
    requires after.currentIndex == before.currentIndex
    requires after.chunks.Keys == before.chunks.Keys
    requires after.chunks[i] == c
    requires forall j :: j in after.chunks && j != i ==> after.chunks[j] == before.chunks[j]
    ensures after == before.(chunks := before.chunks[i := c])
  {
    assert after.chunks == before.chunks[i := c];
  }

  /** Two stores whose chunk maps agree key by key have the same chunks. */
  lemma SameChunks(before: StoreValue, after: StoreValue)
    requires after.chunks.Keys == before.chunks.Keys
    requires forall j :: j in after.chunks ==> after.chunks[j] == before.chunks[j]
    ensures after == before.(baseTime := after.baseTime, order := after.order, currentIndex := after.currentIndex)
  {
    assert after.chunks.Keys == before.chunks.Keys;
    forall j | j in before.chunks
      ensures after.chunks[j] == before.chunks[j]
    {
    }
    assert after.chunks == before.chunks;
  }

  /** Statistics: the chunks dict and the fields get_a_chunk updates in place. */
  class Statistics {
    var chunks: map<int, Chunk>
    var order: seq<int>
    const msPerChunk: int
    var baseTime: Option<int>
    var currentIndex: int

    /** Each chunk is valid and tagged with its own index, order lists each
        index once, and there are no chunks before the base time is latched. */
    ghost predicate Valid()
      reads this, chunks.Values
    {
      msPerChunk == MsPerChunk &&
      (forall i :: i in chunks ==> chunks[i].index == i && chunks[i].Valid()) &&
      OrderCovers(order, chunks) &&
      (baseTime.None? ==> chunks == map[])
    }

    /** The statistics objects of all chunks. */
    ghost function Counters(): set<PerChunkStatistics>
      reads this, chunks.Values
    {
      set i, id | i in chunks && id in chunks[i].tests :: chunks[i].tests[id]
    }

    /** The store as a value. */
    ghost function Model(): (s: StoreValue)
      reads this, chunks.Values, Counters()
      requires Valid()
      ensures StoreInv(s)
      ensures s.baseTime == baseTime && s.order == order && s.currentIndex == currentIndex
      ensures s.chunks.Keys == chunks.Keys
    {
      var m := map i | i in chunks :: chunks[i].Model();
      assert m.Keys == chunks.Keys;
      assert |m| == |m.Keys| == |chunks.Keys| == |chunks|;
      StoreValue(baseTime, m, order, currentIndex)
    }

    /** Different indices hold different chunk objects. */
    lemma ChunksDistinct(i: int, j: int)
      requires Valid() && i in chunks && j in chunks && i != j
      ensures chunks[i] != chunks[j]
    {
    }

    /** The statistics objects of chunk i are among those of the store. */
    lemma CountersOf(i: int)
      requires i in chunks
      ensures chunks[i].tests.Values <= Counters()
    {
      forall s | s in chunks[i].tests.Values
        ensures s in Counters()
      {
        var id :| id in chunks[i].tests && chunks[i].tests[id] == s;
      }
    }

    constructor ()
      ensures Valid() && Model() == Empty
    {
      chunks := map[];
      order := [];
      msPerChunk := MsPerChunk;
      baseTime := None;
      currentIndex := 0;
    }

    /** chunk_by_time: latches base_time on the first call and returns the
        window index of time. */
    method ChunkByTime(time: int) returns (index: int)
      requires Valid()
      modifies this
      ensures Valid() && chunks == old(chunks) && Counters() == old(Counters())
      ensures Model() == old(Model()).(baseTime := Some(LatchBase(old(baseTime), time)))
      ensures index == IndexFor(old(Model()), time)
    {
      if baseTime == None {
        baseTime := Some(time);
        OnlyOwnFieldsChanged();
      }
      var normalizedTime := time - baseTime.value;
      index := normalizedTime / msPerChunk;
    }

    /** chunks.setdefault(index, Chunk(start_time)): the chunk at index, created
        with start_time as its timestamp when the index is new. */
    method SetDefault(index: int, startTime: int) returns (c: Chunk)
      requires Valid() && baseTime.Some?
      modifies this
      ensures Valid() && index in chunks && c == chunks[index] && Counters() == old(Counters())
      ensures index in old(chunks) ==> chunks == old(chunks) && Model() == old(Model())
      ensures index !in old(chunks) ==>
        fresh(c) && chunks == old(chunks)[index := c] &&
        Model() == old(Model()).(chunks := old(Model()).chunks[index := NewChunk(startTime)],
                                 order := old(order) + [index])
    {
      if index !in chunks {
        var created := new Chunk(startTime, index);
        OrderCoversAdd(order, chunks, index, created);
        chunks := chunks[index := created];
        order := order + [index];
        ChunkAdded(index, created);
      }
      c := chunks[index];
    }

    /** current_index becomes index when index is at least as large. */
    method RaiseCurrentIndex(index: int)
      requires Valid()
      modifies this
      ensures Valid() && chunks == old(chunks) && Counters() == old(Counters())
      ensures Model() == old(Model()).(currentIndex := if old(currentIndex) <= index then index else old(currentIndex))
    {
      if currentIndex <= index {
        currentIndex := index;
        OnlyOwnFieldsChanged();
      }
    }

    /** get_a_chunk: the chunk of start_time's window, created on first use. */
    method GetAChunk(startTime: int) returns (c: Chunk)
      requires Valid()
      modifies this
      ensures Valid()
      ensures Model() == AfterGetAChunk(old(Model()), startTime)
      ensures IndexFor(old(Model()), startTime) in chunks && c == chunks[IndexFor(old(Model()), startTime)]
      ensures IndexFor(old(Model()), startTime) in old(chunks) ==> chunks == old(chunks)
      ensures IndexFor(old(Model()), startTime) !in old(chunks) ==>
        fresh(c) && chunks == old(chunks)[IndexFor(old(Model()), startTime) := c]
      ensures Counters() == old(Counters()) && fresh(chunks.Values - old(chunks.Values))
    {
      ghost var s0 := Model();
      var index := ChunkByTime(startTime);
      ghost var s1 := Model();
      c := SetDefault(index, startTime);
      ghost var s2 := Model();
      RaiseCurrentIndex(index);
      GetAChunkInSteps(s0, startTime, index, s1, s2, Model());
    }

    /** last_chunk: the chunk at the second-to-last key, that is, the chunk
        created just before the newest one. */
    function LastChunk(): (c: Chunk)
      reads this, chunks.Values
      requires Valid() && |order| >= 2
      ensures order[|order| - 2] in chunks && c == chunks[order[|order| - 2]]
      ensures c.Valid() && c.index == order[|order| - 2]
    {
      var k := order[|order| - 2];
      assert k in chunks && chunks[k].index == k && chunks[k].Valid();
      chunks[k]
    }

    /** Changing the store's own fields, and not which chunks it holds, leaves
        every chunk as it was. */
    twostate lemma OnlyOwnFieldsChanged()
      requires old(Valid())
      requires chunks == old(chunks) && order == old(order)
      requires old(baseTime).Some? ==> baseTime.Some?
      requires forall i :: i in chunks ==> unchanged(chunks[i]) && unchanged(chunks[i].tests.Values)
      ensures Valid()
      ensures Model() == old(Model()).(baseTime := baseTime, currentIndex := currentIndex)
    {
      assert Valid();
      forall i | i in chunks
        ensures Model().chunks[i] == old(Model()).chunks[i]
      {
      }
      SameChunks(old(Model()), Model());
    }

    /** Adding a freshly built chunk under a new index leaves the other chunks
        as they were. */
    twostate lemma ChunkAdded(index: int, new c: Chunk)
      requires old(Valid()) && index !in old(chunks)
      requires c.Valid() && c.index == index && c.tests == map[]
      requires chunks == old(chunks)[index := c] && OrderCovers(order, chunks) && order == old(order) + [index]
      requires baseTime == old(baseTime) && baseTime.Some? && currentIndex == old(currentIndex)
      requires forall i :: i in old(chunks) ==> unchanged(chunks[i]) && unchanged(chunks[i].tests.Values)
      ensures Valid()
      ensures Model() == old(Model()).(chunks := old(Model()).chunks[index := c.Model()], order := order)
      ensures Counters() == old(Counters())
    {
      assert Valid();
      forall x | x in Counters() ensures x in old(Counters()) {
        var j, id :| j in chunks && id in chunks[j].tests && x == chunks[j].tests[id];
        assert j in old(chunks) && old(chunks[j].tests[id]) == x;
      }
      forall x | x in old(Counters()) ensures x in Counters() {
        var j, id :| j in old(chunks) && id in old(chunks[j].tests) && x == old(chunks[j].tests[id]);
        assert j in chunks && chunks[j].tests[id] == x;
      }
      forall i | i in old(chunks)
        ensures Model().chunks[i] == old(Model()).chunks[i]
      {
      }
      ReplaceChunk(old(Model()).(chunks := old(Model()).chunks[index := c.Model()], order := order),
                   Model(), index, c.Model());
    }

    /** After add_a_data has run on the chunk at index i, the store is valid
        again and differs from before only in that chunk. */
    twostate lemma ChunkUpdated(i: int, new r: Record)
      requires old(Valid()) && i in old(chunks)
      requires chunks == old(chunks) && order == old(order) && baseTime == old(baseTime)
      requires currentIndex == old(currentIndex)
      requires chunks[i].Valid() && chunks[i].Model() == WithRecord(old(chunks[i].Model()), r)
      requires forall j :: j in chunks && j != i ==> unchanged(chunks[j]) && unchanged(chunks[j].tests.Values)
      requires fresh(chunks[i].tests.Values - old(chunks[i].tests.Values))
      ensures Valid()
      ensures Model() == old(Model()).(chunks := old(Model()).chunks[i := WithRecord(old(Model()).chunks[i], r)])
      ensures fresh(Counters() - old(Counters()))
    {
      forall x | x in Counters() ensures x in old(Counters()) || fresh(x) {
        var j, id :| j in chunks && id in chunks[j].tests && x == chunks[j].tests[id];
        assert x in chunks[j].tests.Values;
        if j != i {
          assert old(chunks[j].tests[id]) == x;
        } else if x in old(chunks[i].tests.Values) {
          var id' :| id' in old(chunks[i].tests) && old(chunks[i].tests[id']) == x;
        }
      }
      assert Valid();
      forall j | j in chunks && j != i
        ensures Model().chunks[j] == old(Model()).chunks[j]
      {
      }
      ReplaceChunk(old(Model()), Model(), i, WithRecord(old(Model()).chunks[i], r));
    }
  }
}
