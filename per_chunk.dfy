/** The running totals one chunk keeps for one test (PerChunkStatistics). */
module PerChunk {
  import opened Records

  /** The seven counters of a PerChunkStatistics object, as a value. */
  datatype Totals = Totals(
    pass: int,
    fail: int,
    receivedBytes: int,
    responseTime: int,
    resolveTime: int,
    connectTime: int,
    firstByteTime: int)

  /** The counters of a freshly created PerChunkStatistics. */
  const Zero := Totals(0, 0, 0, 0, 0, 0, 0)

  /** The counters after Chunk.add_a_data has applied one record through the six
      increase_* calls. */
  function Accumulate(t: Totals, r: Record): Totals
  {
    Totals(
      if Passed(r.errors) then t.pass + 1 else t.pass,
      if Passed(r.errors) then t.fail else t.fail + 1,
      t.receivedBytes + r.responseLength,
      t.responseTime + r.responseTime,
      t.resolveTime + r.resolveTime,
      t.connectTime + r.connectTime,
      t.firstByteTime + r.firstByteTime)
  }

  /** One record raises pass + fail by exactly one, on the pass side iff it passed,
      and raises each of the five sums by exactly its own field, pass or fail. */
  lemma AccumulateCountsOneRecord(t: Totals, r: Record)
    ensures Accumulate(t, r).pass + Accumulate(t, r).fail == t.pass + t.fail + 1
    ensures Accumulate(t, r).pass == t.pass + 1 <==> Passed(r.errors)
    ensures Accumulate(t, r).fail == t.fail + 1 <==> !Passed(r.errors)
    ensures Accumulate(t, r).receivedBytes - t.receivedBytes == r.responseLength
    ensures Accumulate(t, r).responseTime - t.responseTime == r.responseTime
    ensures Accumulate(t, r).resolveTime - t.resolveTime == r.resolveTime
    ensures Accumulate(t, r).connectTime - t.connectTime == r.connectTime
    ensures Accumulate(t, r).firstByteTime - t.firstByteTime == r.firstByteTime
  {
  }

  /** The record's numeric columns are all non-negative (true of Grinder logs). */
  predicate NonNegative(r: Record)
  {
    r.responseTime >= 0 && r.responseLength >= 0 && r.resolveTime >= 0 &&
    r.connectTime >= 0 && r.firstByteTime >= 0
  }

  /** Every counter of a is at most the same counter of b. */
  predicate Below(a: Totals, b: Totals)
  {
    a.pass <= b.pass && a.fail <= b.fail && a.receivedBytes <= b.receivedBytes &&
    a.responseTime <= b.responseTime && a.resolveTime <= b.resolveTime &&
    a.connectTime <= b.connectTime && a.firstByteTime <= b.firstByteTime
  }

  /** The totals reached by applying the records in order, starting from t. */
  function AccumulateAll(t: Totals, rs: seq<Record>): Totals
  {
    if rs == [] then t else Accumulate(AccumulateAll(t, rs[..|rs| - 1]), rs[|rs| - 1])
  }

  /** Number of records among rs that pass. */
  function PassCount(rs: seq<Record>): nat
  {
    if rs == [] then 0 else PassCount(rs[..|rs| - 1]) + (if Passed(rs[|rs| - 1].errors) then 1 else 0)
  }

  /** Sum of the response-time column over rs. */
  function ResponseTimeSum(rs: seq<Record>): int
  {
    if rs == [] then 0 else ResponseTimeSum(rs[..|rs| - 1]) + rs[|rs| - 1].responseTime
  }

  /** Sum of the response-length column over rs. */
  function ResponseLengthSum(rs: seq<Record>): int
  {
    if rs == [] then 0 else ResponseLengthSum(rs[..|rs| - 1]) + rs[|rs| - 1].responseLength
  }

  /** Sum of the resolve-time column over rs. */
  function ResolveTimeSum(rs: seq<Record>): int
  {
    if rs == [] then 0 else ResolveTimeSum(rs[..|rs| - 1]) + rs[|rs| - 1].resolveTime
  }

  /** Sum of the connect-time column over rs. */
  function ConnectTimeSum(rs: seq<Record>): int
  {
    if rs == [] then 0 else ConnectTimeSum(rs[..|rs| - 1]) + rs[|rs| - 1].connectTime
  }

  /** Sum of the first-byte-time column over rs. */
  function FirstByteTimeSum(rs: seq<Record>): int
  {
    if rs == [] then 0 else FirstByteTimeSum(rs[..|rs| - 1]) + rs[|rs| - 1].firstByteTime
  }

  /** Counters are never decremented: for non-negative records every total grows. */
  lemma {:induction false} AccumulateAllMonotone(t: Totals, rs: seq<Record>)
    requires forall i :: 0 <= i < |rs| ==> NonNegative(rs[i])
    ensures Below(t, AccumulateAll(t, rs))
  {
    if rs != [] {
      AccumulateAllMonotone(t, rs[..|rs| - 1]);
    }
  }

  /** Starting from a fresh aggregate, the counters hold exactly: one record per
      pass or fail, the passes, and the column sums of the records applied. */
  lemma {:induction false} AccumulateAllFromZero(rs: seq<Record>)
    ensures AccumulateAll(Zero, rs).pass + AccumulateAll(Zero, rs).fail == |rs|
    ensures AccumulateAll(Zero, rs).pass == PassCount(rs)
    ensures AccumulateAll(Zero, rs).responseTime == ResponseTimeSum(rs)
    ensures AccumulateAll(Zero, rs).receivedBytes == ResponseLengthSum(rs)
    ensures AccumulateAll(Zero, rs).resolveTime == ResolveTimeSum(rs)
    ensures AccumulateAll(Zero, rs).connectTime == ConnectTimeSum(rs)
    ensures AccumulateAll(Zero, rs).firstByteTime == FirstByteTimeSum(rs)
  {
    if rs != [] {
      AccumulateAllFromZero(rs[..|rs| - 1]);
    }
  }

  /** PerChunkStatistics: seven counters updated in place by the increase_* methods. */
  class PerChunkStatistics {
    var totalPass: int
    var totalFail: int
    var totalReceivedBytes: int
    var totalResponseTime: int
    var totalResolveTime: int
    var totalConnectTime: int
    var totalFirstByteTime: int
    /** The test id and the chunk index the statistics belong to: they tell
        apart the objects of one chunk and those of different chunks. */
    ghost const testNo: TestId
    ghost const window: int

    /** The counters as a value. */
    function Value(): Totals
      reads this
    {
      Totals(totalPass, totalFail, totalReceivedBytes, totalResponseTime,
             totalResolveTime, totalConnectTime, totalFirstByteTime)
    }

    /** PerChunkStatistics(): all counters zero. */
    constructor (ghost testNo: TestId, ghost window: int)
      ensures Value() == Zero && this.testNo == testNo && this.window == window
    {
      this.testNo := testNo;
      this.window := window;
      totalPass, totalFail := 0, 0;
      totalReceivedBytes, totalResponseTime := 0, 0;
      totalResolveTime, totalConnectTime, totalFirstByteTime := 0, 0, 0;
    }

    /** increase_pass_or_fail: one more passed or one more failed transaction. */
    method IncreasePassOrFail(passed: bool)
      modifies this
      ensures Value() == if passed then old(Value()).(pass := old(totalPass) + 1)
                         else old(Value()).(fail := old(totalFail) + 1)
    {
      if passed {
        totalPass := totalPass + 1;
      } else {
        totalFail := totalFail + 1;
      }
    }

    /** increase_bytes. */
    method IncreaseBytes(bytes: int)
      modifies this
      ensures Value() == old(Value()).(receivedBytes := old(totalReceivedBytes) + bytes)
    {
      totalReceivedBytes := totalReceivedBytes + bytes;
    }

    /** increase_response_time. */
    method IncreaseResponseTime(responseTime: int)
      modifies this
      ensures Value() == old(Value()).(responseTime := old(totalResponseTime) + responseTime)
    {
      totalResponseTime := totalResponseTime + responseTime;
    }

    /** increase_resolve_time. */
    method IncreaseResolveTime(resolveTime: int)
      modifies this
      ensures Value() == old(Value()).(resolveTime := old(totalResolveTime) + resolveTime)
    {
      totalResolveTime := totalResolveTime + resolveTime;
    }

    /** increase_connect_time. */
    method IncreaseConnectTime(connectTime: int)
      modifies this
      ensures Value() == old(Value()).(connectTime := old(totalConnectTime) + connectTime)
    {
      totalConnectTime := totalConnectTime + connectTime;
    }

    /** increase_first_byte_time. */
    method IncreaseFirstByteTime(firstByteTime: int)
      modifies this
      ensures Value() == old(Value()).(firstByteTime := old(totalFirstByteTime) + firstByteTime)
    {
      totalFirstByteTime := totalFirstByteTime + firstByteTime;
    }
  }
}
