/** A chunk: the per-test totals of one time window, and the two CSV rows the
    analyzer derives from it (Chunk.to_tps_csv and Chunk.to_response_time_csv). */
module Chunks {
  import opened Records
  import opened PerChunk
  import opened Calculator

  /** A chunk as a value: the start time of the record that created it, the
      totals per test id, and the order in which the test ids are iterated
      (first-insertion order). */
  datatype ChunkValue = ChunkValue(timestamp: int, tests: map<TestId, Totals>, testOrder: seq<TestId>)

  /** testOrder lists every test id of the chunk exactly once (see EveryTestListed). */
  ghost predicate WellFormed(c: ChunkValue)
  {
    OrderCovers(c.testOrder, c.tests)
  }

  /** order holds distinct keys of m, as many as m has. */
  ghost predicate OrderCovers<K, V>(order: seq<K>, m: map<K, V>)
  {
    Distinct(order) && |order| == |m| && forall k :: 0 <= k < |order| ==> order[k] in m
  }

  lemma {:induction false} DistinctElements<T>(s: seq<T>)
    requires Distinct(s)
    ensures |set k | 0 <= k < |s| :: s[k]| == |s|
  {
    if s != [] {
      var init := s[..|s| - 1];
      DistinctElements(init);
      var a := set k | 0 <= k < |init| :: init[k];
      var b := set k | 0 <= k < |s| :: s[k];
      assert b == a + {s[|s| - 1]};
      assert s[|s| - 1] !in a;
    }
  }

  /** An order that covers a map lists every key of the map. */
  lemma EveryKeyListed<K, V>(order: seq<K>, m: map<K, V>, x: K)
    requires OrderCovers(order, m) && x in m
    ensures x in order
  {
    var listed := set k | 0 <= k < |order| :: order[k];
    DistinctElements(order);
    var rest := m.Keys - listed;
    assert listed + rest == m.Keys;
    assert |rest| == 0;
    assert x in listed;
  }

  /** Every test id of a well-formed chunk is listed in its iteration order, so
      the rows average over all of the chunk's tests. */
  lemma EveryTestListed(c: ChunkValue, id: TestId)
    requires WellFormed(c) && id in c.tests
    ensures id in c.testOrder
  {
    EveryKeyListed(c.testOrder, c.tests, id);
  }

  /** Chunk(start_time): no tests yet. */
  function NewChunk(startTime: int): ChunkValue
  {
    ChunkValue(startTime, map[], [])
  }

  /** The totals kept for a test id; a test id not seen yet has fresh totals. */
  function TestTotals(c: ChunkValue, id: TestId): Totals
  {
    if id in c.tests then c.tests[id] else Zero
  }

  /** The chunk after add_a_data has applied record r. */
  function WithRecord(c: ChunkValue, r: Record): (d: ChunkValue)
    requires WellFormed(c)
    ensures WellFormed(d)
  {
    ChunkValue(
      c.timestamp,
      c.tests[r.testNo := Accumulate(TestTotals(c, r.testNo), r)],
      if r.testNo in c.tests then c.testOrder else c.testOrder + [r.testNo])
  }

  /** add_a_data changes exactly one aggregate, the one of the record's test id,
      creating it zeroed on first use; the chunk's timestamp, the other test ids
      and their totals stay as they were, and the chunk is never left empty. */
  lemma WithRecordTouchesOneAggregate(c: ChunkValue, r: Record)
    requires WellFormed(c)
    ensures WithRecord(c, r).timestamp == c.timestamp
    ensures WithRecord(c, r).tests.Keys == c.tests.Keys + {r.testNo}
    ensures WithRecord(c, r).tests[r.testNo] == Accumulate(TestTotals(c, r.testNo), r)
    ensures r.testNo !in c.tests ==> WithRecord(c, r).tests[r.testNo] == Accumulate(Zero, r)
    ensures forall id :: id in c.tests && id != r.testNo ==> WithRecord(c, r).tests[id] == c.tests[id]
    ensures |WithRecord(c, r).testOrder| > 0
  {
  }

  /** Python's %d applied to a float: truncation toward zero. */
  function TruncToInt(x: real): int
  {
    if x >= 0.0 then x.Floor else -((-x).Floor)
  }

  /** %d keeps the integer part: the largest integer not above a non-negative
      value, the smallest not below a negative one. */
  lemma TruncToIntBounds(x: real)
    ensures 0.0 <= x ==> TruncToInt(x) as real <= x < TruncToInt(x) as real + 1.0
    ensures x < 0.0 ==> TruncToInt(x) as real - 1.0 < x <= TruncToInt(x) as real
  {
  }

  /** A line of tps.csv: whole seconds since the base time, whole TPS. */
  datatype TpsRow = TpsRow(time: int, tps: int)

  /** A line of response_time.csv: whole seconds since the base time, mean
      response time in seconds (printed with %f, whose rounding is not modelled). */
  datatype ResponseTimeRow = ResponseTimeRow(time: int, responseTime: real)

  /** The time column: (timestamp - base_time) / 1000.0 printed with %d. */
  function ElapsedSeconds(c: ChunkValue, baseTime: int): int
  {
    TruncToInt((c.timestamp - baseTime) as real / 1000.0)
  }

  predicate Covers(ids: seq<TestId>, tests: map<TestId, Totals>)
  {
    forall k :: 0 <= k < |ids| ==> ids[k] in tests
  }

  /** Sum of passed_tx_per_sec over the given test ids. */
  function TpsSum(ids: seq<TestId>, tests: map<TestId, Totals>, msPerChunk: int): real
    requires Covers(ids, tests) && msPerChunk > 0
  {
    if ids == [] then 0.0
    else TpsSum(ids[..|ids| - 1], tests, msPerChunk) + PassedTxPerSec(tests[ids[|ids| - 1]], msPerChunk)
  }

  /** Sum of mean_response_time over the given test ids. */
  function MeanResponseTimeSum(ids: seq<TestId>, tests: map<TestId, Totals>): real
    requires Covers(ids, tests)
  {
    if ids == [] then 0.0
    else MeanResponseTimeSum(ids[..|ids| - 1], tests) + MeanResponseTime(tests[ids[|ids| - 1]])
  }

  /** Total passed transactions over the given test ids. */
  function PassSum(ids: seq<TestId>, tests: map<TestId, Totals>): int
    requires Covers(ids, tests)
  {
    if ids == [] then 0 else PassSum(ids[..|ids| - 1], tests) + tests[ids[|ids| - 1]].pass
  }

  /** The chunk's TPS before %d: the per-test TPS averaged over the test ids. */
  function MeanTps(c: ChunkValue, msPerChunk: int): real
    requires WellFormed(c) && |c.testOrder| > 0 && msPerChunk > 0
  {
    TpsSum(c.testOrder, c.tests, msPerChunk) / |c.testOrder| as real
  }

  /** The row to_tps_csv writes. */
  function TpsRowOf(c: ChunkValue, baseTime: int, msPerChunk: int): TpsRow
    requires WellFormed(c) && |c.testOrder| > 0 && msPerChunk > 0
  {
    TpsRow(ElapsedSeconds(c, baseTime), TruncToInt(MeanTps(c, msPerChunk)))
  }

  /** The row to_response_time_csv writes: the per-test mean response time
      averaged over the test ids. */
  function ResponseTimeRowOf(c: ChunkValue, baseTime: int): ResponseTimeRow
    requires WellFormed(c) && |c.testOrder| > 0
  {
    ResponseTimeRow(ElapsedSeconds(c, baseTime),
                    MeanResponseTimeSum(c.testOrder, c.tests) / |c.testOrder| as real)
  }

  /** Summing the per-test rates is summing the passes and dividing once. */
  lemma {:induction false} TpsSumIsPassesPerSecond(ids: seq<TestId>, tests: map<TestId, Totals>, msPerChunk: int)
    requires Covers(ids, tests) && msPerChunk > 0
    ensures TpsSum(ids, tests, msPerChunk) * Seconds(msPerChunk) == PassSum(ids, tests) as real
  {
    if ids != [] {
      var init := ids[..|ids| - 1];
      var s := Seconds(msPerChunk);
      TpsSumIsPassesPerSecond(init, tests, msPerChunk);
      var last := tests[ids[|ids| - 1]];
      assert PassedTxPerSec(last, msPerChunk) * s == last.pass as real;
      assert (TpsSum(init, tests, msPerChunk) + PassedTxPerSec(last, msPerChunk)) * s
          == TpsSum(init, tests, msPerChunk) * s + PassedTxPerSec(last, msPerChunk) * s;
    }
  }

  /** The TPS column is the chunk's passes divided by the number of distinct test
      ids and by the chunk length: a mean over test ids, not over transactions. */
  lemma TpsRowIsMeanOverTests(c: ChunkValue, msPerChunk: int)
    requires WellFormed(c) && |c.testOrder| > 0 && msPerChunk > 0
    ensures MeanTps(c, msPerChunk) * (|c.testOrder| as real * Seconds(msPerChunk))
            == PassSum(c.testOrder, c.tests) as real
  {
    var n := |c.testOrder| as real;
    var sum := TpsSum(c.testOrder, c.tests, msPerChunk);
    TpsSumIsPassesPerSecond(c.testOrder, c.tests, msPerChunk);
    assert MeanTps(c, msPerChunk) * n == sum;
    assert MeanTps(c, msPerChunk) * (n * Seconds(msPerChunk)) == sum * Seconds(msPerChunk);
  }

  /** Two tests at 2 and 4 transactions per second give a TPS column of 3. */
  lemma TpsRowTwoTests(c: ChunkValue)
    requires c == ChunkValue(5000, map["a" := Zero.(pass := 2), "b" := Zero.(pass := 4)], ["a", "b"])
    ensures TpsRowOf(c, 1000, 1000) == TpsRow(4, 3)
  {
    assert c.testOrder[..1] == ["a"];
    assert TpsSum(["a"], c.tests, 1000) == 2.0;
  }

  /** The response-time column is not the pooled mean: one test with a single
      0.1 s transaction and one with three 0.3 s transactions give 0.2 s, where
      pooling all four transactions would give 0.25 s. */
  lemma ResponseTimeRowNotPooled(c: ChunkValue)
    requires c == ChunkValue(1000, map["a" := Zero.(pass := 1, responseTime := 100),
                                       "b" := Zero.(pass := 3, responseTime := 900)], ["a", "b"])
    ensures ResponseTimeRowOf(c, 1000) == ResponseTimeRow(0, 0.2)
    ensures (100 + 900) as real / ((1 + 3) as real * 1000.0) == 0.25
  {
    assert c.testOrder[..1] == ["a"];
    assert MeanResponseTime(c.tests["a"]) == 0.1;
    assert MeanResponseTime(c.tests["b"]) == 0.3;
    assert MeanResponseTimeSum(["a"], c.tests) == 0.1;
  }

  /** The mean response time of each test id, in the order given. */
  function TestMeans(ids: seq<TestId>, tests: map<TestId, Totals>): (ms: seq<real>)
    requires Covers(ids, tests)
    ensures |ms| == |ids|
  {
    if ids == [] then []
    else TestMeans(ids[..|ids| - 1], tests) + [MeanResponseTime(tests[ids[|ids| - 1]])]
  }

  /** The sum of a sequence of reals. */
  function RealSum(xs: seq<real>): real
  {
    if xs == [] then 0.0 else RealSum(xs[..|xs| - 1]) + xs[|xs| - 1]
  }

  /** The loop's sum of mean response times is the sum of the test means. */
  lemma {:induction false} MeanResponseTimeSumIsRealSum(ids: seq<TestId>, tests: map<TestId, Totals>)
    requires Covers(ids, tests)
    ensures MeanResponseTimeSum(ids, tests) == RealSum(TestMeans(ids, tests))
  {
    if ids != [] {
      var ms := TestMeans(ids, tests);
      MeanResponseTimeSumIsRealSum(ids[..|ids| - 1], tests);
      assert ms[..|ms| - 1] == TestMeans(ids[..|ids| - 1], tests);
    }
  }

  /** Every element of xs lies between lo and hi. */
  predicate AllBetween(xs: seq<real>, lo: real, hi: real)
  {
    forall k :: 0 <= k < |xs| ==> lo <= xs[k] <= hi
  }

  /** Every listed test's mean lies between lo and hi. */
  lemma {:induction false} TestMeansBetween(ids: seq<TestId>, tests: map<TestId, Totals>, lo: real, hi: real)
    requires Covers(ids, tests)
    requires forall id :: id in tests ==> lo <= MeanResponseTime(tests[id]) <= hi
    ensures AllBetween(TestMeans(ids, tests), lo, hi)
  {
    if ids != [] {
      TestMeansBetween(ids[..|ids| - 1], tests, lo, hi);
      assert ids[|ids| - 1] in tests;
    }
  }

  /** A sum of n values between lo and hi lies between n * lo and n * hi. */
  lemma {:induction false} RealSumBounds(xs: seq<real>, lo: real, hi: real)
    requires AllBetween(xs, lo, hi)
    ensures |xs| as real * lo <= RealSum(xs) <= |xs| as real * hi
  {
    if xs != [] {
      var init := xs[..|xs| - 1];
      RealSumBounds(init, lo, hi);
      BoundsGrow(RealSum(init), xs[|xs| - 1], |init| as real, |xs| as real, lo, hi);
    }
  }

  /** Adding a value between lo and hi to a sum of n such values. */
  lemma BoundsGrow(sum: real, m: real, n: real, n': real, lo: real, hi: real)
    requires n * lo <= sum <= n * hi && lo <= m <= hi && n' == n + 1.0
    ensures n' * lo <= sum + m <= n' * hi
  {
    assert n' * lo == n * lo + lo && n' * hi == n * hi + hi;
  }

  /** The response-time column is a mean over the chunk's tests: it lies between
      the smallest and the largest per-test mean response time, and when every
      test has the same mean it is that mean. */
  lemma ResponseTimeRowBetweenTestMeans(c: ChunkValue, baseTime: int, lo: real, hi: real)
    requires WellFormed(c) && |c.testOrder| > 0
    requires forall id :: id in c.tests ==> lo <= MeanResponseTime(c.tests[id]) <= hi
    ensures lo <= ResponseTimeRowOf(c, baseTime).responseTime <= hi
    ensures ResponseTimeRowOf(c, baseTime).time == ElapsedSeconds(c, baseTime)
  {
    var ms := TestMeans(c.testOrder, c.tests);
    TestMeansBetween(c.testOrder, c.tests, lo, hi);
    RealMeanBetween(ms, lo, hi);
    MeanResponseTimeSumIsRealSum(c.testOrder, c.tests);
  }

  /** The mean of values between lo and hi lies between lo and hi. */
  lemma RealMeanBetween(xs: seq<real>, lo: real, hi: real)
    requires |xs| > 0 && AllBetween(xs, lo, hi)
    ensures lo <= RealSum(xs) / |xs| as real <= hi
  {
    RealSumBounds(xs, lo, hi);
    QuotientBetween(RealSum(xs), |xs| as real, lo, hi);
  }

  /** A sum of n values between lo and hi, divided by n, lies between lo and hi. */
  lemma QuotientBetween(sum: real, n: real, lo: real, hi: real)
    requires n > 0.0 && n * lo <= sum <= n * hi
    ensures lo <= sum / n <= hi
  {
    assert (sum / n) * n == sum;
  }

  /** A new key added to the map and appended to the order keeps the order
      covering the map. */
  lemma OrderCoversAdd<K, V>(order: seq<K>, m: map<K, V>, k: K, v: V)
    requires OrderCovers(order, m) && k !in m
    ensures OrderCovers(order + [k], m[k := v])
  {
    assert |m[k := v]| == |m| + 1;
  }

  /** The six increase_* calls of Chunk.add_a_data, in the order it makes them. */
  method IncreaseAll(s: PerChunkStatistics, passed: bool, r: Record)
    requires passed == Passed(r.errors)
    modifies s
    ensures s.Value() == Accumulate(old(s.Value()), r)
  {
    s.IncreasePassOrFail(passed);
    s.IncreaseBytes(r.responseLength);
    s.IncreaseResponseTime(r.responseTime);
    s.IncreaseResolveTime(r.resolveTime);
    s.IncreaseConnectTime(r.connectTime);
    s.IncreaseFirstByteTime(r.firstByteTime);
  }

  /** c with the totals of test id id set to t, listed last when new. */
  function WithTotals(c: ChunkValue, id: TestId, t: Totals): (d: ChunkValue)
    requires WellFormed(c)
    ensures WellFormed(d)
  {
    ChunkValue(c.timestamp, c.tests[id := t], if id in c.tests then c.testOrder else c.testOrder + [id])
  }

  /** add_a_data as setdefault followed by the increments: the record's totals
      are accumulated onto what setdefault left for its test id. */
  lemma WithRecordInSteps(before: ChunkValue, mid: ChunkValue, r: Record, after: ChunkValue)
    requires WellFormed(before) && WellFormed(mid)
    requires mid == WithTotals(before, r.testNo, TestTotals(before, r.testNo))
    requires after == WithTotals(mid, r.testNo, Accumulate(mid.tests[r.testNo], r))
    ensures after == WithRecord(before, r)
  {
    assert mid.tests[r.testNo := Accumulate(mid.tests[r.testNo], r)]
        == before.tests[r.testNo := Accumulate(TestTotals(before, r.testNo), r)];
  }

  /** A chunk that differs from before only in the totals of one test id. */
  lemma UpdatedTotals(before: ChunkValue, after: ChunkValue, id: TestId, t: Totals)
    requires WellFormed(before)
    requires after.timestamp == before.timestamp
    requires after.tests.Keys == before.tests.Keys + {id}
    requires after.testOrder == if id in before.tests then before.testOrder else before.testOrder + [id]
    requires id in after.tests && after.tests[id] == t
    requires forall k :: k in after.tests && k != id ==> after.tests[k] == before.tests[k]
    ensures after == WithTotals(before, id, t)
  {
    forall k | k in after.tests
      ensures after.tests[k] == before.tests[id := t][k]
    {
    }
    assert after.tests == before.tests[id := t];
  }

  /** Chunk: the per-test statistics of one time window, mutated in place. */
  class Chunk {
    var tests: map<TestId, PerChunkStatistics>
    var testOrder: seq<TestId>
    const timestamp: int
    /** The chunk's window index; with the tags of its statistics it tells the
        objects of different chunks apart. */
    ghost const index: int

    /** Each test id owns one statistics object, tagged with that id and this
        chunk's index, and testOrder lists the test ids once each. */
    ghost predicate Valid()
      reads this
    {
      (forall id :: id in tests ==> tests[id].testNo == id && tests[id].window == index) &&
      OrderCovers(testOrder, tests)
    }

    /** The chunk as a value. */
    ghost function Model(): (c: ChunkValue)
      reads this, tests.Values
      requires Valid()
      ensures WellFormed(c) && c.timestamp == timestamp && c.testOrder == testOrder
      ensures c.tests.Keys == tests.Keys
      ensures forall id :: id in tests ==> c.tests[id] == tests[id].Value()
    {
      var m := map id | id in tests :: tests[id].Value();
      assert m.Keys == tests.Keys;
      assert |m| == |m.Keys| == |tests.Keys| == |tests|;
      ChunkValue(timestamp, m, testOrder)
    }

    /** Chunk(start_time): no tests yet. */
    constructor (startTime: int, ghost index: int)
      ensures Valid() && this.index == index
      ensures Model() == NewChunk(startTime) && tests == map[]
    {
      tests := map[];
      testOrder := [];
      timestamp := startTime;
      this.index := index;
    }

    /** tests.setdefault(testNo, PerChunkStatistics()): the statistics of a test
        id, created zeroed and appended to the iteration order on first use. */
    method GetOrCreate(testNo: TestId) returns (s: PerChunkStatistics)
      requires Valid()
      modifies this
      ensures Valid()
      ensures testNo in tests && s == tests[testNo]
      ensures testNo in old(tests) ==> tests == old(tests)
      ensures testNo !in old(tests) ==> fresh(s) && tests == old(tests)[testNo := s]
      ensures Model() == WithTotals(old(Model()), testNo, TestTotals(old(Model()), testNo))
    {
      if testNo !in tests {
        s := AddTest(testNo);
      } else {
        s := tests[testNo];
        UpdatedTotals(Model(), Model(), testNo, s.Value());
      }
    }

    /** The first-use half of tests.setdefault: a zeroed statistics object for
        testNo, appended to the iteration order. */
    method AddTest(testNo: TestId) returns (s: PerChunkStatistics)
      requires Valid() && testNo !in tests
      modifies this
      ensures Valid()
      ensures fresh(s) && tests == old(tests)[testNo := s]
      ensures Model() == WithTotals(old(Model()), testNo, Zero)
    {
      ghost var before := Model();
      s := new PerChunkStatistics(testNo, index);
      OrderCoversAdd(testOrder, tests, testNo, s);
      tests := tests[testNo := s];
      testOrder := testOrder + [testNo];
      forall id | id in tests && id != testNo
        ensures tests[id].Value() == before.tests[id]
      {
        assert tests[id] == old(tests[id]);
      }
      UpdatedTotals(before, Model(), testNo, Zero);
    }

    /** Only the statistics object s has changed: the chunk's value differs in
        the totals of s's test id alone. */
    twostate lemma OneStatisticsChanged(s: PerChunkStatistics)
      requires old(Valid()) && unchanged(this)
      requires s.testNo in tests && tests[s.testNo] == s
      requires forall id :: id in tests && id != s.testNo ==> unchanged(tests[id])
      ensures Valid()
      ensures Model() == WithTotals(old(Model()), s.testNo, s.Value())
    {
      forall id | id in tests && id != s.testNo
        ensures tests[id].Value() == old(Model()).tests[id]
      {
      }
      UpdatedTotals(old(Model()), Model(), s.testNo, s.Value());
    }

    /** Chunk.add_a_data: the record's test gets its statistics (created on first
        use) and the six increase_* calls apply the record to them. */
    method AddAData(r: Record)
      requires Valid()
      modifies this, tests.Values
      ensures Valid()
      ensures Model() == WithRecord(old(Model()), r)
      ensures fresh(tests.Values - old(tests.Values))
    {
      ghost var before := Model();
      var passed := Passed(r.errors);
      var s := GetOrCreate(r.testNo);
      ghost var mid := Model();
      label Created:
      IncreaseAll(s, passed, r);
      OneStatisticsChanged@Created(s);
      WithRecordInSteps(before, mid, r, Model());
    }

    /** to_tps_csv: sums the passed transactions per second of every test in
        iteration order, and divides by the number of tests. */
    method ToTpsCsv(baseTime: int, msPerChunk: int) returns (row: TpsRow)
      requires Valid() && msPerChunk > 0
      requires |testOrder| > 0
      ensures row == TpsRowOf(Model(), baseTime, msPerChunk)
    {
      var t := timestamp - baseTime;
      var totalTps := 0.0;
      var i := 0;
      while i < |testOrder|
        invariant 0 <= i <= |testOrder|
        invariant totalTps == TpsSum(testOrder[..i], Model().tests, msPerChunk)
      {
        assert testOrder[..i + 1][..i] == testOrder[..i];
        totalTps := totalTps + PassedTxPerSec(tests[testOrder[i]].Value(), msPerChunk);
        i := i + 1;
      }
      assert testOrder[..i] == testOrder;
      row := TpsRow(TruncToInt(t as real / 1000.0), TruncToInt(totalTps / |testOrder| as real));
    }

    /** to_response_time_csv: sums the mean response times of every test in
        iteration order, and divides by the number of tests. */
    method ToResponseTimeCsv(baseTime: int) returns (row: ResponseTimeRow)
      requires Valid()
      requires |testOrder| > 0
      ensures row == ResponseTimeRowOf(Model(), baseTime)
    {
      var t := timestamp - baseTime;
      var totalResponseTime := 0.0;
      var i := 0;
      while i < |testOrder|
        invariant 0 <= i <= |testOrder|
        invariant totalResponseTime == MeanResponseTimeSum(testOrder[..i], Model().tests)
      {
        assert testOrder[..i + 1][..i] == testOrder[..i];
        totalResponseTime := totalResponseTime + MeanResponseTime(tests[testOrder[i]].Value());
        i := i + 1;
      }
      assert testOrder[..i] == testOrder;
      row := ResponseTimeRow(TruncToInt(t as real / 1000.0), totalResponseTime / |testOrder| as real);
    }
  }
}
