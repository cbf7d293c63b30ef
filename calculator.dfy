/** The Calculator: rates and means derived from one test's totals in one chunk.
    Floating-point division is modelled by exact real division. */
module Calculator {
  import opened Records
  import opened PerChunk

  /** Length of a chunk in seconds (ms_per_chunk / 1000.0). */
  function Seconds(msPerChunk: int): (s: real)
    requires msPerChunk > 0
    ensures s > 0.0 && s * 1000.0 == msPerChunk as real
  {
    msPerChunk as real / 1000.0
  }

  /** Passed transactions per second over the chunk. */
  function PassedTxPerSec(t: Totals, msPerChunk: int): (r: real)
    requires msPerChunk > 0
    ensures r * Seconds(msPerChunk) == t.pass as real
  {
    t.pass as real / Seconds(msPerChunk)
  }

  /** Failed transactions per second over the chunk. */
  function FailedTxPerSec(t: Totals, msPerChunk: int): (r: real)
    requires msPerChunk > 0
    ensures r * Seconds(msPerChunk) == t.fail as real
  {
    t.fail as real / Seconds(msPerChunk)
  }

  /** Calculator._mean: a per-passed-transaction mean in seconds; 0 when nothing
      passed. Failed transactions feed the total but never the denominator. */
  function Mean(t: Totals, total: int): (r: real)
    ensures t.pass == 0 ==> r == 0.0
    ensures t.pass != 0 ==> r * (t.pass as real * 1000.0) == total as real
  {
    if t.pass != 0 then total as real / (t.pass as real * 1000.0) else 0.0
  }

  function MeanResponseTime(t: Totals): real
  {
    Mean(t, t.responseTime)
  }

  function MeanFinishTime(t: Totals): real
  {
    Mean(t, t.responseTime - t.firstByteTime)
  }

  function MeanResolveTime(t: Totals): real
  {
    Mean(t, t.resolveTime)
  }

  function MeanConnectTime(t: Totals): real
  {
    Mean(t, t.connectTime)
  }

  function MeanFirstByteTime(t: Totals): real
  {
    Mean(t, t.firstByteTime)
  }

  /** Received kilobytes per second over the chunk. */
  function MeanThroughputPerSec(t: Totals, msPerChunk: int): (r: real)
    requires msPerChunk > 0
    ensures r * (1024.0 * Seconds(msPerChunk)) == t.receivedBytes as real
  {
    t.receivedBytes as real / (1024.0 * Seconds(msPerChunk))
  }

  /** The two rates, scaled back by the chunk length, count every transaction once. */
  lemma TxRatesCountAllTransactions(t: Totals, msPerChunk: int)
    requires msPerChunk > 0
    ensures (PassedTxPerSec(t, msPerChunk) + FailedTxPerSec(t, msPerChunk)) * Seconds(msPerChunk)
            == (t.pass + t.fail) as real
  {
  }

  /** Mean is linear in the total, so the mean finish time is the mean response
      time less the mean first-byte time. */
  lemma MeanFinishIsResponseLessFirstByte(t: Totals)
    ensures MeanFinishTime(t) == MeanResponseTime(t) - MeanFirstByteTime(t)
  {
    if t.pass != 0 {
      var d := t.pass as real * 1000.0;
      assert d != 0.0;
      assert MeanFinishTime(t) * d == (t.responseTime - t.firstByteTime) as real;
      assert (MeanResponseTime(t) - MeanFirstByteTime(t)) * d
          == MeanResponseTime(t) * d - MeanFirstByteTime(t) * d;
    }
  }

  /** Effect of one failed record: the pass-based figures do not move except that
      the record's times are spread over the same passed transactions, while the
      failure rate and the throughput grow by the record's share. */
  lemma FailedRecordEffect(t: Totals, r: Record, msPerChunk: int)
    requires msPerChunk > 0
    requires !Passed(r.errors)
    ensures PassedTxPerSec(Accumulate(t, r), msPerChunk) == PassedTxPerSec(t, msPerChunk)
    ensures FailedTxPerSec(Accumulate(t, r), msPerChunk)
            == FailedTxPerSec(t, msPerChunk) + 1.0 / Seconds(msPerChunk)
    ensures MeanThroughputPerSec(Accumulate(t, r), msPerChunk)
            == MeanThroughputPerSec(t, msPerChunk) + r.responseLength as real / (1024.0 * Seconds(msPerChunk))
    ensures t.pass == 0 ==> MeanResponseTime(Accumulate(t, r)) == 0.0
    ensures t.pass != 0 ==>
      MeanResponseTime(Accumulate(t, r))
      == MeanResponseTime(t) + r.responseTime as real / (t.pass as real * 1000.0)
  {
    var a := Accumulate(t, r);
    var s := Seconds(msPerChunk);
    assert a.pass == t.pass && a.fail == t.fail + 1;
    DivDistributes(t.fail as real, 1.0, s);
    DivDistributes(t.receivedBytes as real, r.responseLength as real, 1024.0 * s);
    if t.pass != 0 {
      DivDistributes(t.responseTime as real, r.responseTime as real, t.pass as real * 1000.0);
    }
  }

  /** Real division by a non-zero divisor distributes over a sum. */
  lemma DivDistributes(x: real, y: real, d: real)
    requires d != 0.0
    ensures (x + y) / d == x / d + y / d
  {
  }

  /** Over any run of records of one test, each of the five means is its column
      sum divided by the number of PASSED records (times 1000), and 0 when none
      passed: failed records add their times to the numerator only. */
  lemma MeansOverRun(rs: seq<Record>)
    ensures PassCount(rs) == 0 ==>
      MeanResponseTime(AccumulateAll(Zero, rs)) == 0.0 &&
      MeanFinishTime(AccumulateAll(Zero, rs)) == 0.0 &&
      MeanResolveTime(AccumulateAll(Zero, rs)) == 0.0 &&
      MeanConnectTime(AccumulateAll(Zero, rs)) == 0.0 &&
      MeanFirstByteTime(AccumulateAll(Zero, rs)) == 0.0
    ensures PassCount(rs) != 0 ==>
      MeanResponseTime(AccumulateAll(Zero, rs))
      == ResponseTimeSum(rs) as real / (PassCount(rs) as real * 1000.0)
    ensures PassCount(rs) != 0 ==>
      MeanFinishTime(AccumulateAll(Zero, rs))
      == (ResponseTimeSum(rs) - FirstByteTimeSum(rs)) as real / (PassCount(rs) as real * 1000.0)
    ensures PassCount(rs) != 0 ==>
      MeanResolveTime(AccumulateAll(Zero, rs))
      == ResolveTimeSum(rs) as real / (PassCount(rs) as real * 1000.0)
    ensures PassCount(rs) != 0 ==>
      MeanConnectTime(AccumulateAll(Zero, rs))
      == ConnectTimeSum(rs) as real / (PassCount(rs) as real * 1000.0)
    ensures PassCount(rs) != 0 ==>
      MeanFirstByteTime(AccumulateAll(Zero, rs))
      == FirstByteTimeSum(rs) as real / (PassCount(rs) as real * 1000.0)
  {
    AccumulateAllFromZero(rs);
  }

  /** For a test whose records all passed, the mean response time is the plain
      arithmetic mean of their response times, in seconds. */
  lemma MeanOfPassedRecords(rs: seq<Record>)
    requires rs != []
    requires forall i :: 0 <= i < |rs| ==> Passed(rs[i].errors)
    ensures MeanResponseTime(AccumulateAll(Zero, rs))
            == ResponseTimeSum(rs) as real / (|rs| as real * 1000.0)
  {
    AllPassedCount(rs);
    MeanWhenAllCounted(rs);
  }

  lemma MeanWhenAllCounted(rs: seq<Record>)
    requires rs != [] && PassCount(rs) == |rs|
    ensures MeanResponseTime(AccumulateAll(Zero, rs))
            == ResponseTimeSum(rs) as real / (|rs| as real * 1000.0)
  {
    AccumulateAllFromZero(rs);
    MeanResponseFromCounts(AccumulateAll(Zero, rs), |rs|, ResponseTimeSum(rs));
  }

  lemma MeanResponseFromCounts(t: Totals, n: int, sum: int)
    requires n != 0 && t.pass == n && t.responseTime == sum
    ensures MeanResponseTime(t) == sum as real / (n as real * 1000.0)
  {
  }

  lemma {:induction false} AllPassedCount(rs: seq<Record>)
    requires forall i :: 0 <= i < |rs| ==> Passed(rs[i].errors)
    ensures PassCount(rs) == |rs|
  {
    if rs != [] {
      AllPassedCount(rs[..|rs| - 1]);
    }
  }
}
