/** Concrete runs of the main loop. */
module Scenarios {
  import opened Records
  import opened PerChunk
  import opened Chunks
  import opened Store
  import opened MainLoop

  /** A passed transaction of test "1" starting at t and taking 200 ms. */
  function Passing(t: int): Record
  {
    Record("1", t, "0", 200, 1000, 0, 0, 0)
  }

  /** The chunk one passed record of test "1" at 1000 ms creates. */
  lemma OnePassingRecordChunk()
    ensures WithRecord(NewChunk(1000), Passing(1000))
            == ChunkValue(1000, map["1" := Zero.(pass := 1, receivedBytes := 1000, responseTime := 200)], ["1"])
  {
    var d := WithRecord(NewChunk(1000), Passing(1000));
    assert d.testOrder == ["1"];
    assert d.tests.Keys == {"1"};
  }

  /** Its lines when the base time is its own start time. */
  lemma OnePassingRecordRows(c: ChunkValue)
    requires c == ChunkValue(1000, map["1" := Zero.(pass := 1, receivedBytes := 1000, responseTime := 200)], ["1"])
    ensures TpsRowOf(c, 1000, 1000) == TpsRow(0, 1)
    ensures ResponseTimeRowOf(c, 1000) == ResponseTimeRow(0, 0.2)
  {
    assert TpsSum(["1"], c.tests, 1000) == 1.0;
    assert MeanResponseTimeSum(["1"], c.tests) == 0.2;
  }

  /** The first record latches its start time, lands in window 0 and writes
      nothing. */
  lemma FirstPassingRecord(rs: seq<Record>)
    requires rs == [Passing(1000)]
    ensures var m := Run(rs);
      m.store.baseTime == Some(1000) && m.prev == Some(0) && m.store.order == [0] && m.emitted == [] &&
      0 in m.store.chunks &&
      m.store.chunks[0] == ChunkValue(1000, map["1" := Zero.(pass := 1, receivedBytes := 1000, responseTime := 200)], ["1"])
  {
    LastStep(rs);
    assert rs[..0] == [];
    IngestStoreEffect(Start, rs[0]);
    IngestEmits(Start, rs[0]);
    assert IndexFor(Empty, 1000) == 0;
    AddRecordTouchesOneChunk(Empty, rs[0]);
    OnePassingRecordChunk();
  }

  /** A record of a later window reports the window before it: two records a
      window apart write one line per file, for window 0, at 0 seconds, with 1
      passed transaction per second and a mean response time of 0.2 seconds. */
  lemma LaterWindowWritesRows(rs: seq<Record>)
    requires rs == [Passing(1000), Passing(3000)]
    ensures Run(rs).emitted == [0]
    ensures Run(rs).tpsRows == [TpsRow(0, 1)]
    ensures Run(rs).responseTimeRows == [ResponseTimeRow(0, 0.2)]
  {
    LastStep(rs);
    assert rs[..1] == [Passing(1000)];
    var m1 := Run(rs[..1]);
    FirstPassingRecord(rs[..1]);
    IngestStoreEffect(m1, rs[1]);
    IngestEmits(m1, rs[1]);
    assert IndexFor(m1.store, 3000) == 2;
    OnePassingRecordRows(Run(rs).store.chunks[0]);
  }

  /** Any single record: base time latched, one chunk at index 0, nothing
      written. */
  lemma OneRecordRun(rs: seq<Record>)
    requires |rs| == 1
    ensures var m := Run(rs);
      m.store.baseTime == Some(rs[0].startTime) && m.prev == Some(0) && m.store.order == [0] &&
      m.store.chunks.Keys == {0} && m.emitted == []
  {
    assert rs[..0] == [];
    LastStep(rs);
    IngestStoreEffect(Start, rs[0]);
    IngestEmits(Start, rs[0]);
    assert IndexFor(Empty, rs[0].startTime) == 0;
  }

  /** The first two records of the out-of-order run: window 0, then window 2,
      which reports chunk 0. */
  lemma OutOfOrderFirstTwo(rs: seq<Record>)
    requires |rs| == 2 && rs[0] == Passing(0) && rs[1] == Passing(2000)
    ensures var m := Run(rs);
      m.store.baseTime == Some(0) && m.prev == Some(2) && m.store.order == [0, 2] &&
      0 in m.store.chunks && 2 in m.store.chunks && 1 !in m.store.chunks && m.emitted == [0]
  {
    var p1 := rs[..1];
    LastStep(rs);
    OneRecordRun(p1);
    var m1 := Run(p1);
    IngestStoreEffect(m1, rs[1]);
    IngestEmits(m1, rs[1]);
    assert IndexFor(m1.store, 2000) == 2;
  }

  /** The third record, at 1500 ms, creates chunk 1; with the keys listed in
      creation order, [0, 2, 1], it reports chunk 2. */
  lemma OutOfOrderFirstThree(rs: seq<Record>)
    requires |rs| == 3 && rs[0] == Passing(0) && rs[1] == Passing(2000) && rs[2] == Passing(1500)
    ensures var m := Run(rs);
      m.store.baseTime == Some(0) && m.prev == Some(1) && m.store.order == [0, 2, 1] &&
      2 in m.store.chunks && 1 in m.store.chunks && m.emitted == [0, 2]
  {
    var p2 := rs[..2];
    var m2 := Run(p2);
    var r := rs[2];
    assert Run(rs) == Ingest(m2, r) by {
      LastStep(rs);
    }
    OutOfOrderFirstTwo(p2);
    assert IndexFor(m2.store, r.startTime) == 1;
    var d := Ingest(m2, r);
    assert d.store.baseTime == Some(0) && d.prev == Some(1) && d.store.order == [0, 2, 1] &&
      2 in d.store.chunks && 1 in d.store.chunks by {
      IngestStoreEffect(m2, r);
    }
    assert d.emitted == [0, 2] by {
      assert Fires(m2, r);
      assert LastKey(d.store) == 2;
      IngestEmits(m2, r);
      assert m2.emitted + [2] == [0, 2];
    }
  }

  /** Out of order, a record of an older window writes the lines of the newest
      chunk, and so does the next record of the newest window: with records at
      0, 2000, 1500 and 2500 ms and the keys listed in creation order, the model
      reports chunk 2 twice and chunk 1 never. */
  lemma OutOfOrderRepeatsNewestChunk(rs: seq<Record>)
    requires |rs| == 4 && rs[0] == Passing(0) && rs[1] == Passing(2000) && rs[2] == Passing(1500)
    requires rs[3] == Passing(2500)
    ensures Run(rs).emitted == [0, 2, 2]
    ensures 1 in Run(rs).store.chunks
  {
    var p3 := rs[..3];
    LastStep(rs);
    OutOfOrderFirstThree(p3);
    var m3 := Run(p3);
    IngestStoreEffect(m3, rs[3]);
    IngestEmits(m3, rs[3]);
    assert IndexFor(m3.store, 2500) == 2;
  }
}
