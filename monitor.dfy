/** The main loop of the analyzer: for each record it fetches the record's chunk,
    applies the record to it, and when the chunk differs from the one the
    previous record touched, appends a line to tps.csv and to response_time.csv
    describing the chunk at the second-to-last key of the store. */
module MainLoop {
  import opened Records
  import opened PerChunk
  import opened Indexing
  import opened Chunks
  import opened Store

  /** The loop's state as a value: the store, the index of the chunk the
      previous record touched (prev_chunk), the lines appended to the two CSV
      files, and the indices of the chunks those lines describe. */
  datatype MonitorValue = MonitorValue(
    store: StoreValue,
    prev: Option<int>,
    tpsRows: seq<TpsRow>,
    responseTimeRows: seq<ResponseTimeRow>,
    emitted: seq<int>)

  /** Before the first record: an empty store and no previous chunk. */
  const Start := MonitorValue(Empty, None, [], [], [])

  /** Every chunk holds at least one test (it received a record right after it
      was created), the previous chunk is in the store, and each emission
      appended one line to each file. */
  ghost predicate MonitorInv(m: MonitorValue)
  {
    StoreInv(m.store) &&
    (forall i :: i in m.store.chunks ==> |m.store.chunks[i].testOrder| > 0) &&
    (m.prev.Some? ==> m.prev.value in m.store.chunks) &&
    |m.tpsRows| == |m.emitted| && |m.responseTimeRows| == |m.emitted|
  }

  /** The emission test: there is a previous chunk and it is another chunk. */
  predicate Fires(m: MonitorValue, r: Record)
  {
    m.prev.Some? && m.prev.value != IndexFor(m.store, r.startTime)
  }

  /** One iteration of the main loop for record r. */
  function Ingest(m: MonitorValue, r: Record): (d: MonitorValue)
    requires MonitorInv(m)
    ensures MonitorInv(d)
  {
    var i := IndexFor(m.store, r.startTime);
    AddRecordTouchesOneChunk(m.store, r);
    var s := AddRecord(m.store, r);
    if Fires(m, r) then
      TwoKeys(s.chunks, m.prev.value, i);
      var k := LastKey(s);
      MonitorValue(s, Some(i),
                   m.tpsRows + [TpsRowOf(s.chunks[k], s.baseTime.value, MsPerChunk)],
                   m.responseTimeRows + [ResponseTimeRowOf(s.chunks[k], s.baseTime.value)],
                   m.emitted + [k])
    else
      MonitorValue(s, Some(i), m.tpsRows, m.responseTimeRows, m.emitted)
  }

  /** The loop's state after the records rs, starting from m. */
  function Feed(m: MonitorValue, rs: seq<Record>): (d: MonitorValue)
    requires MonitorInv(m)
    ensures MonitorInv(d)
  {
    if rs == [] then m else Ingest(Feed(m, rs[..|rs| - 1]), rs[|rs| - 1])
  }

  /** Feeding one more record of rs. */
  lemma FeedPrefix(m: MonitorValue, rs: seq<Record>, k: int)
    requires MonitorInv(m) && 0 <= k < |rs|
    ensures Feed(m, rs[..k + 1]) == Ingest(Feed(m, rs[..k]), rs[k])
  {
    assert rs[..k + 1][..k] == rs[..k];
  }

  /** Feeding all of rs through its prefixes. */
  lemma FeedWhole(m: MonitorValue, rs: seq<Record>)
    requires MonitorInv(m)
    ensures Feed(m, rs[..|rs|]) == Feed(m, rs)
  {
    assert rs[..|rs|] == rs;
  }

  /** The loop's state after the records rs, from the start. */
  function Run(rs: seq<Record>): MonitorValue
  {
    Feed(Start, rs)
  }

  /** The window of record r for base time base. */
  function WindowOf(base: int, r: Record): int
  {
    ChunkIndex(base, r.startTime, MsPerChunk)
  }

  /** The windows of the records rs. */
  function WindowsSeen(base: int, rs: seq<Record>): set<int>
  {
    set k | 0 <= k < |rs| :: WindowOf(base, rs[k])
  }

  /** The largest of 0 and the windows of rs. */
  function MaxWindow(base: int, rs: seq<Record>): int
  {
    if rs == [] then 0
    else
      var w := WindowOf(base, rs[|rs| - 1]);
      var m := MaxWindow(base, rs[..|rs| - 1]);
      if m <= w then w else m
  }

  /** How many records lie in another window than the record before them. */
  function WindowChanges(base: int, rs: seq<Record>): nat
  {
    if |rs| <= 1 then 0
    else WindowChanges(base, rs[..|rs| - 1])
         + (if WindowOf(base, rs[|rs| - 1]) != WindowOf(base, rs[|rs| - 2]) then 1 else 0)
  }

  /** Start times never decrease along rs. */
  predicate Sorted(rs: seq<Record>)
  {
    forall a, b :: 0 <= a < b < |rs| ==> rs[a].startTime <= rs[b].startTime
  }

  predicate StrictlyIncreasing(s: seq<int>)
  {
    forall a, b :: 0 <= a < b < |s| ==> s[a] < s[b]
  }

  /** One iteration's effect on the store and on prev_chunk: the base time is
      latched once, prev_chunk becomes the record's window, the record's chunk
      is created when missing (with the record's start time as timestamp) and
      no other chunk changes, and current_index becomes the larger of itself
      and the window. */
  lemma IngestStoreEffect(m: MonitorValue, r: Record)
    requires MonitorInv(m)
    ensures var d := Ingest(m, r); var i := IndexFor(m.store, r.startTime);
      d.store.baseTime == Some(LatchBase(m.store.baseTime, r.startTime)) &&
      d.prev == Some(i) &&
      d.store.currentIndex == (if m.store.currentIndex <= i then i else m.store.currentIndex) &&
      d.store.chunks.Keys == m.store.chunks.Keys + {i} &&
      (forall j :: j in m.store.chunks && j != i ==> d.store.chunks[j] == m.store.chunks[j]) &&
      d.store.chunks[i].timestamp == (if i in m.store.chunks then m.store.chunks[i].timestamp else r.startTime) &&
      d.store.order == (if i in m.store.chunks then m.store.order else m.store.order + [i])
  {
    var i := IndexFor(m.store, r.startTime);
    AddRecordTouchesOneChunk(m.store, r);
    GetAChunkCreatesAtMostOne(m.store, r.startTime);
    WithRecordTouchesOneAggregate(AfterGetAChunk(m.store, r.startTime).chunks[i], r);
  }

  /** One iteration's store and prev_chunk, as Ingest builds them. */
  lemma IngestState(m: MonitorValue, r: Record)
    requires MonitorInv(m)
    ensures Ingest(m, r).store == AddRecord(m.store, r)
    ensures Ingest(m, r).prev == Some(IndexFor(m.store, r.startTime))
  {
  }

  /** One iteration's effect on the two files: one line is appended to each
      exactly when the emission test holds, describing the chunk at the
      second-to-last key of the updated store. */
  lemma IngestEmits(m: MonitorValue, r: Record)
    requires MonitorInv(m)
    ensures var d := Ingest(m, r);
      (!Fires(m, r) ==> d.emitted == m.emitted && d.tpsRows == m.tpsRows && d.responseTimeRows == m.responseTimeRows) &&
      (Fires(m, r) ==>
        |d.store.order| >= 2 &&
        d.emitted == m.emitted + [LastKey(d.store)] &&
        d.tpsRows == m.tpsRows + [TpsRowOf(d.store.chunks[LastKey(d.store)], d.store.baseTime.value, MsPerChunk)] &&
        d.responseTimeRows == m.responseTimeRows + [ResponseTimeRowOf(d.store.chunks[LastKey(d.store)], d.store.baseTime.value)])
  {
    if Fires(m, r) {
      AddRecordTouchesOneChunk(m.store, r);
      TwoKeys(Ingest(m, r).store.chunks, m.prev.value, IndexFor(m.store, r.startTime));
    }
  }

  /** The first start time is latched as the base time and never changes; the
      previous chunk is the window of the last record. */
  lemma {:induction false} BaseLatchedOnce(rs: seq<Record>)
    requires rs != []
    ensures Run(rs).store.baseTime == Some(rs[0].startTime)
    ensures Run(rs).prev == Some(WindowOf(rs[0].startTime, rs[|rs| - 1]))
  {
    var init := rs[..|rs| - 1];
    IngestStoreEffect(Run(init), rs[|rs| - 1]);
    if init != [] {
      BaseLatchedOnce(init);
      assert init[0] == rs[0];
    }
  }

  /** The first record lands in window 0. */
  lemma FirstRecordInWindowZero(rs: seq<Record>)
    requires rs != []
    ensures WindowOf(rs[0].startTime, rs[0]) == 0
    ensures 0 in Run(rs).store.chunks
  {
    ChunkKeysAreWindowsSeen(rs);
    assert WindowOf(rs[0].startTime, rs[0]) in WindowsSeen(rs[0].startTime, rs);
  }

  /** Prefixes of rs see the same base time and windows. */
  lemma WindowsSeenSnoc(base: int, rs: seq<Record>)
    requires rs != []
    ensures WindowsSeen(base, rs) == WindowsSeen(base, rs[..|rs| - 1]) + {WindowOf(base, rs[|rs| - 1])}
  {
    var init := rs[..|rs| - 1];
    forall w | w in WindowsSeen(base, rs)
      ensures w in WindowsSeen(base, init) + {WindowOf(base, rs[|rs| - 1])}
    {
      var k :| 0 <= k < |rs| && w == WindowOf(base, rs[k]);
      if k < |init| {
        assert rs[k] == init[k];
      }
    }
    forall w | w in WindowsSeen(base, init)
      ensures w in WindowsSeen(base, rs)
    {
      var k :| 0 <= k < |init| && w == WindowOf(base, init[k]);
      assert init[k] == rs[k];
    }
  }

  /** The last iteration of a run of rs, with the base time and window it uses. */
  lemma LastStep(rs: seq<Record>)
    requires rs != []
    ensures Run(rs) == Ingest(Run(rs[..|rs| - 1]), rs[|rs| - 1])
    ensures IndexFor(Run(rs[..|rs| - 1]).store, rs[|rs| - 1].startTime) == WindowOf(rs[0].startTime, rs[|rs| - 1])
    ensures rs[..|rs| - 1] != [] ==> rs[..|rs| - 1][0] == rs[0]
  {
    var init := rs[..|rs| - 1];
    if init != [] {
      BaseLatchedOnce(init);
      assert init[0] == rs[0];
    }
  }

  /** The last iteration of a run in terms of the records' windows. */
  lemma RunStep(rs: seq<Record>)
    requires rs != []
    ensures var d := Run(rs); var m := Run(rs[..|rs| - 1]);
      var r := rs[|rs| - 1]; var w := WindowOf(rs[0].startTime, r);
      d.store.chunks.Keys == m.store.chunks.Keys + {w} &&
      (forall j :: j in m.store.chunks ==> d.store.chunks[j].timestamp == m.store.chunks[j].timestamp) &&
      (w !in m.store.chunks ==> d.store.chunks[w].timestamp == r.startTime) &&
      d.store.currentIndex == (if m.store.currentIndex <= w then w else m.store.currentIndex) &&
      |d.emitted| == |m.emitted| + (if m.prev.Some? && m.prev.value != w then 1 else 0)
  {
    var init := rs[..|rs| - 1];
    LastStep(rs);
    IngestStoreEffect(Run(init), rs[|rs| - 1]);
    IngestEmits(Run(init), rs[|rs| - 1]);
  }

  /** The last iteration of a run appends a line exactly when the previous
      chunk is set and is not the last record's window. */
  lemma EmittedStep(rs: seq<Record>)
    requires rs != []
    ensures var m := Run(rs[..|rs| - 1]);
      |Run(rs).emitted| == |m.emitted| + (if m.prev.Some? && m.prev.value != WindowOf(rs[0].startTime, rs[|rs| - 1]) then 1 else 0)
  {
    LastStep(rs);
    IngestEmits(Run(rs[..|rs| - 1]), rs[|rs| - 1]);
  }

  /** The store holds exactly one chunk per window seen. */
  lemma {:induction false} ChunkKeysAreWindowsSeen(rs: seq<Record>)
    ensures rs != [] ==> Run(rs).store.chunks.Keys == WindowsSeen(rs[0].startTime, rs)
    ensures rs == [] ==> Run(rs).store.chunks == map[]
  {
    if rs != [] {
      var init := rs[..|rs| - 1];
      ChunkKeysAreWindowsSeen(init);
      RunStep(rs);
      if init != [] {
        assert init[0] == rs[0];
      }
      WindowsSeenSnoc(rs[0].startTime, rs);
    }
  }

  /** A window no record before rs[j] lies in is not among the windows seen
      before it. */
  lemma NewWindow(rs: seq<Record>, j: int)
    requires 0 <= j < |rs|
    requires forall k :: 0 <= k < j ==> WindowOf(rs[0].startTime, rs[k]) != WindowOf(rs[0].startTime, rs[j])
    ensures WindowOf(rs[0].startTime, rs[j]) !in WindowsSeen(rs[0].startTime, rs[..j])
  {
    forall k | 0 <= k < j
      ensures WindowOf(rs[0].startTime, rs[..j][k]) != WindowOf(rs[0].startTime, rs[j])
    {
      assert rs[..j][k] == rs[k];
    }
  }

  /** A chunk's timestamp is the start time of the first record in its window. */
  lemma {:induction false} ChunkTimestampIsFirstRecord(rs: seq<Record>, j: int)
    requires 0 <= j < |rs|
    requires forall k :: 0 <= k < j ==> WindowOf(rs[0].startTime, rs[k]) != WindowOf(rs[0].startTime, rs[j])
    ensures WindowOf(rs[0].startTime, rs[j]) in Run(rs).store.chunks
    ensures Run(rs).store.chunks[WindowOf(rs[0].startTime, rs[j])].timestamp == rs[j].startTime
  {
    var init := rs[..|rs| - 1];
    var w := WindowOf(rs[0].startTime, rs[j]);
    RunStep(rs);
    if j < |init| {
      assert w in Run(init).store.chunks && Run(init).store.chunks[w].timestamp == rs[j].startTime by {
        assert init[0] == rs[0] && init[j] == rs[j];
        forall k | 0 <= k < j
          ensures WindowOf(init[0].startTime, init[k]) != WindowOf(init[0].startTime, init[j])
        {
          assert init[k] == rs[k];
        }
        ChunkTimestampIsFirstRecord(init, j);
      }
    } else {
      assert j == |rs| - 1;
      assert w !in Run(init).store.chunks by {
        ChunkKeysAreWindowsSeen(init);
        NewWindow(rs, j);
        if init != [] {
          assert init[0] == rs[0];
        }
      }
    }
  }

  /** current_index is the largest of 0 and all windows seen. */
  lemma {:induction false} CurrentIndexIsMaxWindow(rs: seq<Record>)
    requires rs != []
    ensures Run(rs).store.currentIndex == MaxWindow(rs[0].startTime, rs)
  {
    var init := rs[..|rs| - 1];
    RunStep(rs);
    if init != [] {
      CurrentIndexIsMaxWindow(init);
      assert init[0] == rs[0];
    }
  }

  /** A line is appended to each file exactly once per change of window: never
      for the first record, never for a record in the same window as the one
      before it. */
  lemma {:induction false} EmissionsCountWindowChanges(rs: seq<Record>)
    ensures |Run(rs).emitted| == WindowChanges(if rs == [] then 0 else rs[0].startTime, rs)
  {
    if rs != [] {
      var init := rs[..|rs| - 1];
      var base := rs[0].startTime;
      var m := Run(init);
      EmittedStep(rs);
      if init == [] {
        assert m == Start;
      } else {
        assert m.prev == Some(WindowOf(base, rs[|rs| - 2])) by {
          BaseLatchedOnce(init);
          assert init[0] == rs[0] && init[|init| - 1] == rs[|rs| - 2];
        }
        assert |m.emitted| == WindowChanges(base, init) by {
          EmissionsCountWindowChanges(init);
          assert init[0] == rs[0];
        }
      }
    }
  }

  /** What a run over records sorted by start time maintains: the chunk
      indices in creation order increase strictly, prev_chunk is the newest
      chunk, the lines written so far describe every other chunk once and in
      order, and each line equals what the chunk it describes gives now. */
  ghost predicate ReportsCompleted(m: MonitorValue, base: int)
    requires MonitorInv(m)
  {
    var o := m.store.order;
    m.store.baseTime == Some(base) &&
    |o| >= 1 && StrictlyIncreasing(o) &&
    m.prev == Some(o[|o| - 1]) &&
    m.emitted == o[..|o| - 1] &&
    forall e :: 0 <= e < |m.emitted| ==>
      m.tpsRows[e] == TpsRowOf(m.store.chunks[m.emitted[e]], base, MsPerChunk) &&
      m.responseTimeRows[e] == ResponseTimeRowOf(m.store.chunks[m.emitted[e]], base)
  }

  /** The first record starts a run that reports completed chunks. */
  lemma FirstIngestReports(r: Record)
    ensures ReportsCompleted(Ingest(Start, r), r.startTime)
  {
    IngestStoreEffect(Start, r);
    IngestEmits(Start, r);
    assert IndexFor(Empty, r.startTime) == 0;
  }

  /** A record of the newest window writes nothing and changes only the newest
      chunk, which no line describes yet. */
  lemma SameWindowKeepsReports(m: MonitorValue, d: MonitorValue, base: int)
    requires MonitorInv(m) && ReportsCompleted(m, base) && MonitorInv(d)
    requires d.store.baseTime == m.store.baseTime && d.prev == m.prev
    requires d.store.order == m.store.order
    requires forall j :: j in m.store.chunks && j != m.prev.value ==> j in d.store.chunks && d.store.chunks[j] == m.store.chunks[j]
    requires d.emitted == m.emitted && d.tpsRows == m.tpsRows && d.responseTimeRows == m.responseTimeRows
    ensures ReportsCompleted(d, base)
  {
    var o := m.store.order;
    forall e | 0 <= e < |d.emitted|
      ensures d.store.chunks[d.emitted[e]] == m.store.chunks[m.emitted[e]]
    {
      assert m.emitted[e] == o[e] && o[e] < o[|o| - 1];
    }
  }

  /** A record of a later window creates its chunk and writes the lines of the
      chunk that was newest. */
  lemma LaterWindowReportsNewest(m: MonitorValue, d: MonitorValue, w: int, base: int)
    requires MonitorInv(m) && ReportsCompleted(m, base) && MonitorInv(d)
    requires m.prev.value < w && d.prev == Some(w)
    requires d.store.baseTime == m.store.baseTime
    requires w !in m.store.chunks ==> d.store.order == m.store.order + [w]
    requires forall j :: j in m.store.chunks && j != w ==> j in d.store.chunks && d.store.chunks[j] == m.store.chunks[j]
    requires |d.store.order| >= 2
    requires d.emitted == m.emitted + [LastKey(d.store)]
    requires d.tpsRows == m.tpsRows + [TpsRowOf(d.store.chunks[LastKey(d.store)], base, MsPerChunk)]
    requires d.responseTimeRows == m.responseTimeRows + [ResponseTimeRowOf(d.store.chunks[LastKey(d.store)], base)]
    ensures ReportsCompleted(d, base)
  {
    var o := m.store.order;
    assert w !in m.store.chunks by {
      if w in m.store.chunks {
        EveryKeyListed(o, m.store.chunks, w);
      }
    }
    var o2 := d.store.order;
    assert LastKey(d.store) == o[|o| - 1];
    assert o2[..|o2| - 1] == o;
    assert d.emitted == o by {
      assert o[..|o| - 1] + [o[|o| - 1]] == o;
    }
    forall e | 0 <= e < |m.emitted|
      ensures d.store.chunks[d.emitted[e]] == m.store.chunks[m.emitted[e]]
    {
      assert m.emitted[e] == o[e] && o[e] < w;
    }
  }

  /** A record whose window is not older than the newest chunk keeps the run
      reporting completed chunks. */
  lemma SortedIngestReports(m: MonitorValue, r: Record, base: int)
    requires MonitorInv(m) && ReportsCompleted(m, base)
    requires m.prev.value <= IndexFor(m.store, r.startTime)
    ensures ReportsCompleted(Ingest(m, r), base)
  {
    var w := IndexFor(m.store, r.startTime);
    IngestStoreEffect(m, r);
    IngestEmits(m, r);
    if w == m.prev.value {
      SameWindowKeepsReports(m, Ingest(m, r), base);
    } else {
      LaterWindowReportsNewest(m, Ingest(m, r), w, base);
    }
  }

  /** For records sorted by start time, with the chunk keys listed in creation
      order, the main loop writes one line to each file per window except the
      newest, in window order, and every line equals what its chunk gives at
      the end of the run: a window is reported only once it is complete. */
  lemma {:induction false} SortedRunReportsCompletedChunks(rs: seq<Record>)
    requires rs != [] && Sorted(rs)
    ensures ReportsCompleted(Run(rs), rs[0].startTime)
  {
    var init := rs[..|rs| - 1];
    LastStep(rs);
    if init == [] {
      FirstIngestReports(rs[0]);
    } else {
      assert Sorted(init) by {
        forall a, b | 0 <= a < b < |init|
          ensures init[a].startTime <= init[b].startTime
        {
          assert init[a] == rs[a] && init[b] == rs[b];
        }
      }
      SortedRunReportsCompletedChunks(init);
      BaseLatchedOnce(init);
      assert init[|init| - 1] == rs[|rs| - 2];
      ChunkIndexMonotone(rs[0].startTime, rs[|rs| - 2].startTime, rs[|rs| - 1].startTime, MsPerChunk);
      SortedIngestReports(Run(init), rs[|rs| - 1], rs[0].startTime);
    }
  }

  /** chunk.add_a_data on a chunk of the store: the store's value changes in
      that chunk alone, as the record prescribes. */
  method AddAData(statistics: Statistics, chunk: Chunk, ghost i: int, r: Record)
    requires statistics.Valid() && i in statistics.chunks && chunk == statistics.chunks[i]
    modifies chunk, chunk.tests.Values
    ensures statistics.Valid()
    ensures statistics.Model()
            == old(statistics.Model()).(chunks := old(statistics.Model()).chunks[i := WithRecord(old(statistics.Model()).chunks[i], r)])
    ensures statistics.chunks == old(statistics.chunks)
    ensures fresh(statistics.Counters() - old(statistics.Counters()))
  {
    chunk.AddAData(r);
    statistics.ChunkUpdated(i, r);
  }

  /** "get(create) and update a chunk": get_a_chunk followed by add_a_data on
      the chunk it returns. The store's value becomes AddRecord of the old one;
      the chunks already there stay in place and the returned chunk is the one
      of r's window. */
  method GetAndUpdateChunk(statistics: Statistics, r: Record) returns (chunk: Chunk, ghost i: int)
    requires statistics.Valid()
    modifies statistics, statistics.chunks.Values, statistics.Counters()
    ensures statistics.Valid()
    ensures i == IndexFor(old(statistics.Model()), r.startTime)
    ensures statistics.Model() == AddRecord(old(statistics.Model()), r)
    ensures i in statistics.chunks && chunk == statistics.chunks[i]
    ensures statistics.chunks == old(statistics.chunks)[i := chunk]
    ensures i in old(statistics.chunks) ==> chunk == old(statistics.chunks[i])
    ensures fresh(Footprint(statistics) - old(Footprint(statistics)))
  {
    i := IndexFor(statistics.Model(), r.startTime);
    ghost var before := statistics.Model();
    ghost var counters := statistics.Counters();
    chunk := statistics.GetAChunk(r.startTime);
    ghost var chunks := statistics.chunks;
    assert chunks == old(statistics.chunks)[i := chunk];
    assert fresh(chunks.Values - old(statistics.chunks.Values));
    assert statistics.Counters() == counters;
    statistics.CountersOf(i);
    label Got:
    AddAData(statistics, chunk, i, r);
    assert statistics.chunks == chunks;
    assert statistics.Model() == AddRecord(before, r);
    assert fresh(Footprint(statistics) - old(Footprint(statistics))) by {
      forall x | x in Footprint(statistics) ensures x in old(Footprint(statistics)) || fresh(x) {
        if x in statistics.Counters() {
          assert x in old@Got(statistics.Counters()) || fresh@Got(x);
        } else if x in chunks.Values && x !in old(statistics.chunks.Values) {
          assert fresh(x);
        }
      }
    }
  }

  /** The objects the main loop may change: the store, its chunks and their
      statistics. */
  ghost function Footprint(statistics: Statistics): set<object>
    reads statistics, statistics.chunks.Values
  {
    {statistics} + statistics.chunks.Values + statistics.Counters()
  }

  /** The footprint is read from the store and its chunks only. */
  twostate lemma FootprintUnchanged(statistics: Statistics)
    requires unchanged(statistics) && unchanged(old(statistics.chunks.Values))
    ensures Footprint(statistics) == old(Footprint(statistics))
  {
  }

  /** The main loop's variables agree with the state value m: the store holds
      m.store, prev_chunk is the chunk of m.prev, and the lines written so far
      are m's. */
  ghost predicate Tracks(statistics: Statistics, prevChunk: Chunk?, tpsRows: seq<TpsRow>,
                         responseTimeRows: seq<ResponseTimeRow>, m: MonitorValue)
    reads statistics, statistics.chunks.Values, statistics.Counters()
  {
    statistics.Valid() && MonitorInv(m) && m.store == statistics.Model() &&
    tpsRows == m.tpsRows && responseTimeRows == m.responseTimeRows &&
    (m.prev.None? <==> prevChunk == null) &&
    (m.prev.Some? ==> m.prev.value in statistics.chunks && prevChunk == statistics.chunks[m.prev.value])
  }

  /** CsvAppender.append_tps: the tps.csv line for the chunk last_chunk
      returns, computed without changing the store. */
  method AppendTps(statistics: Statistics, ghost s: StoreValue) returns (row: TpsRow)
    requires statistics.Valid() && s == statistics.Model()
    requires |s.order| >= 2 && s.baseTime.Some? && |s.chunks[LastKey(s)].testOrder| > 0
    ensures row == TpsRowOf(s.chunks[LastKey(s)], s.baseTime.value, MsPerChunk)
    ensures statistics.Valid() && statistics.Model() == s
  {
    var chunk := statistics.LastChunk();
    row := chunk.ToTpsCsv(statistics.baseTime.value, statistics.msPerChunk);
  }

  /** CsvAppender.append_response_time: the response_time.csv line for the
      chunk last_chunk returns, computed without changing the store. */
  method AppendResponseTime(statistics: Statistics, ghost s: StoreValue) returns (row: ResponseTimeRow)
    requires statistics.Valid() && s == statistics.Model()
    requires |s.order| >= 2 && s.baseTime.Some? && |s.chunks[LastKey(s)].testOrder| > 0
    ensures row == ResponseTimeRowOf(s.chunks[LastKey(s)], s.baseTime.value)
    ensures statistics.Valid() && statistics.Model() == s
  {
    var chunk := statistics.LastChunk();
    row := chunk.ToResponseTimeCsv(statistics.baseTime.value);
  }

  /** The emission test of the main loop, run after the record r has been
      applied: when prev_chunk is set and is not the chunk r went to, one line
      is appended to each file, describing last_chunk; otherwise the files are
      left as they are. The lines written are those of Ingest(m, r). */
  method Emit(statistics: Statistics, prevChunk: Chunk?, chunk: Chunk, ghost i: int,
              tpsRows: seq<TpsRow>, responseTimeRows: seq<ResponseTimeRow>,
              ghost m: MonitorValue, r: Record, ghost footprint: set<object>)
    returns (tpsRows': seq<TpsRow>, responseTimeRows': seq<ResponseTimeRow>)
    requires statistics.Valid() && MonitorInv(m)
    requires statistics.Model() == AddRecord(m.store, r) && i == IndexFor(m.store, r.startTime)
    requires i in statistics.chunks && chunk == statistics.chunks[i]
    requires tpsRows == m.tpsRows && responseTimeRows == m.responseTimeRows
    requires m.prev.None? <==> prevChunk == null
    requires m.prev.Some? ==> m.prev.value in statistics.chunks && prevChunk == statistics.chunks[m.prev.value]
    requires footprint == Footprint(statistics)
    ensures tpsRows' == Ingest(m, r).tpsRows && responseTimeRows' == Ingest(m, r).responseTimeRows
    ensures Tracks(statistics, chunk, tpsRows', responseTimeRows', Ingest(m, r))
    ensures Footprint(statistics) == footprint
  {
    label Entry:
    IngestState(m, r);
    ghost var s := statistics.Model();
    if m.prev.Some? && m.prev.value != i {
      statistics.ChunksDistinct(m.prev.value, i);
    }
    tpsRows', responseTimeRows' := tpsRows, responseTimeRows;
    var changed := prevChunk != null && prevChunk != chunk;
    assert changed == Fires(m, r);
    IngestEmits(m, r);
    if changed {
      var tps := AppendTps(statistics, s);
      var responseTime := AppendResponseTime(statistics, s);
      tpsRows' := tpsRows + [tps];
      responseTimeRows' := responseTimeRows + [responseTime];
    }
    FootprintUnchanged@Entry(statistics);
  }

  /** One iteration of the main loop for a parsed record r, with prev_chunk
      and the lines written so far in the loop's variables and m the state as
      a value: get the chunk of r's window, add r to it, run the emission test
      and make that chunk prev_chunk. The variables then agree with
      Ingest(m, r). */
  method Process(statistics: Statistics, prevChunk: Chunk?, tpsRows: seq<TpsRow>,
                 responseTimeRows: seq<ResponseTimeRow>, ghost m: MonitorValue, r: Record)
    returns (chunk: Chunk, tpsRows': seq<TpsRow>, responseTimeRows': seq<ResponseTimeRow>)
    requires Tracks(statistics, prevChunk, tpsRows, responseTimeRows, m)
    modifies Footprint(statistics)
    ensures MonitorInv(m) && Tracks(statistics, chunk, tpsRows', responseTimeRows', Ingest(m, r))
    ensures fresh(Footprint(statistics) - old(Footprint(statistics)))
  {
    ghost var i;
    chunk, i := GetAndUpdateChunk(statistics, r);
    ghost var footprint := Footprint(statistics);
    tpsRows', responseTimeRows' := Emit(statistics, prevChunk, chunk, i, tpsRows, responseTimeRows, m, r, footprint);
  }

  /** The main loop over a sequence of parsed records, starting from the
      global statistics = Statistics() and prev_chunk = None: the store and the
      lines written agree with Run(rs). */
  method Loop(rs: seq<Record>)
    returns (statistics: Statistics, tpsRows: seq<TpsRow>, responseTimeRows: seq<ResponseTimeRow>)
    ensures statistics.Valid() && statistics.Model() == Run(rs).store
    ensures tpsRows == Run(rs).tpsRows && responseTimeRows == Run(rs).responseTimeRows
  {
    statistics := new Statistics();
    var prevChunk: Chunk? := null;
    tpsRows, responseTimeRows := [], [];
    ghost var m := Start;
    var k := 0;
    while k < |rs|
      invariant 0 <= k <= |rs|
      invariant m == Feed(Start, rs[..k])
      invariant Tracks(statistics, prevChunk, tpsRows, responseTimeRows, m)
      invariant fresh(Footprint(statistics))
    {
      FeedPrefix(Start, rs, k);
      ghost var footprint := Footprint(statistics);
      label Before:
      prevChunk, tpsRows, responseTimeRows := Process(statistics, prevChunk, tpsRows, responseTimeRows, m, rs[k]);
      m := Ingest(m, rs[k]);
      assert fresh(Footprint(statistics)) by {
        ghost var footprint' := Footprint(statistics);
        forall x | x in footprint' ensures fresh(x) {
          if x !in footprint {
            assert fresh@Before(x);
          }
        }
      }
      k := k + 1;
    }
    FeedWhole(Start, rs);
  }
}
