# grinder_mon in Dafny

grinder_mon is a small incremental analyzer for Grinder 3 logs. It reads
result records one at a time. It latches the start time of the first record
as the base time and puts each record in a one-second window ("chunk"). Each
chunk keeps, per test id, the number of passed and failed transactions and
the sums of the record's times and byte counts. Whenever a record lands in
another chunk than the record before it, the analyzer appends one line to
`tps.csv` and one to `response_time.csv`. Both lines describe the chunk at
the second-to-last key of the chunk dictionary.

This project models that engine and proves its properties:

- `records.dfy` (module `Records`): the record as typed columns. It also
  holds the pass test: the errors column, stripped, equals `"0"`.
- `per_chunk.dfy` (module `PerChunk`): the seven counters as a value
  (`Totals`) and the `PerChunkStatistics` class that updates them in place.
- `calculator.dfy` (module `Calculator`): the rates and means of
  `Calculator`, in exact real arithmetic.
- `indexing.dfy` (module `Indexing`): `chunk_by_time`'s floor division and
  its window bounds.
- `chunks.dfy` (module `Chunks`): a chunk as a value (`ChunkValue`), the two
  CSV rows derived from it, and the `Chunk` class. The class has `add_a_data`
  and the two row methods, which loop over the tests in iteration order.
- `store.dfy` (module `Store`): the chunk store as a value (`StoreValue`) and
  the `Statistics` class, with `chunk_by_time`, `get_a_chunk` and
  `last_chunk`.
- `monitor.dfy` (module `MainLoop`): the main loop.
  - The pure specification: `Ingest` does one iteration on a state value,
    `Run` folds it over a sequence of records, and lemmas over `Run` state
    what the loop promises.
  - The imperative loop: `Loop` allocates the global `Statistics` and keeps
    `prev_chunk` and the lines written in local variables, as the source's
    `__main__` block does. It is proved equal to `Run`.
- `scenarios.dfy` (module `Scenarios`): concrete runs.

Each class has a function that gives its value: `Value()` for
`PerChunkStatistics`, `Model()` for `Chunk` and `Statistics`. Each method
states its effect on that value in terms of the pure functions, and the
properties are proved about those functions. The lines written to the two
files are modelled as sequences of rows (`TpsRow`, `ResponseTimeRow`). A
row holds the numbers the line prints.

Dictionary order. `last_chunk` reads `chunks.keys()[-2]`, so which chunk a
line reports depends on the order in which the dictionary lists its keys.
The model lists keys in creation order (see "## Left out"). CPython 2
lists small non-negative integer keys by hash slot, which is the key
itself modulo the table size. The two orders agree when the records arrive
sorted and every window from 0 up to the newest has received a record,
because then every key is below the table size and the keys are created in
ascending order. They can differ otherwise:

- Sorted records that skip windows: with windows 0, 3 and 9 in an 8-slot
  table, key 9 sits in slot 1 and `keys()` is `[0, 9, 3]`. When the record of
  window 9 arrives, CPython 2 reports the new chunk 9, not the completed
  chunk 3 that the model reports.
- Out-of-order records: with records at 0, 2000, 1500 and 2500 ms, CPython 2
  lists `[0, 1, 2]` after the third record and reports chunk 1 on the third
  and the fourth record. The model lists `[0, 2, 1]` and reports chunk 2.

Every statement below about which chunk a line reports holds under the
creation-order model.

Notes on what the code does:

- **Which chunk a line reports.** A two-window lag might be expected, but
  the emission test runs after `get_a_chunk` has created the new chunk, and
  `last_chunk` reads `keys()[-2]`. For records sorted by start time, in the
  creation-order model, that key is the chunk just completed.
  `SortedRunReportsCompletedChunks` proves this, and `LaterWindowWritesRows`
  shows a line for window 0 as soon as the second window opens.
- **Out-of-order records.** In the creation-order model the line describes
  the second-newest chunk created. That is not necessarily the chunk the
  previous record touched (`OutOfOrderRepeatsNewestChunk`).
- **Pass test.** The pass test is textual: the code compares the stripped
  text of the errors column with `"0"`, so `"00"` or `"0 errors"` count as
  failures (`PassedIff`).
- **Zero tests.** `to_tps_csv` and `to_response_time_csv` divide by the
  number of tests without a guard. The model requires at least one test,
  and the main loop always meets that requirement, because every chunk
  receives a record as soon as it is created.
- **The new statistics object.** `add_a_data` calls
  `PerChunkStatistics(self)`, but that constructor takes no argument. The
  model creates a fresh zeroed statistics object, which is the evident
  intent.

## Model

| member | source | states |
|---|---|---|
| Records.PassedIff | grinder_mon.py:129-131 | a record passes iff its errors column is one '0' surrounded only by whitespace (both directions) |
| Records.StripLeftDropsLeadingSpace | grinder_mon.py:130 | the left half of str.strip drops exactly the leading whitespace and stops at the first other character |
| Records.StripRightDropsTrailingSpace | grinder_mon.py:130 | the right half of str.strip drops exactly the trailing whitespace and stops at the last other character |
| PerChunk.AccumulateCountsOneRecord | grinder_mon.py:123-142 | one record raises pass + fail by exactly one (pass iff it passed) and each of the five sums by exactly its own field, pass or fail |
| PerChunk.AccumulateAllMonotone | grinder_mon.py:201-214 | for records with non-negative columns no counter ever decreases |
| PerChunk.AccumulateAllFromZero | grinder_mon.py:195-205 | from fresh counters: pass + fail is the number of records, pass counts the passed ones, the response, resolve, connect and first-byte time sums and the byte sum are the column sums |
| PerChunk.PerChunkStatistics.constructor | grinder_mon.py:182-190 | all seven counters start at zero |
| PerChunk.PerChunkStatistics.IncreasePassOrFail | grinder_mon.py:195-199 | exactly one of total_pass / total_fail grows by one, the other counters unchanged |
| PerChunk.PerChunkStatistics.IncreaseBytes | grinder_mon.py:201-202 | total_received_bytes grows by the argument, nothing else changes |
| PerChunk.PerChunkStatistics.IncreaseResponseTime | grinder_mon.py:204-205 | total_response_time grows by the argument, nothing else changes |
| PerChunk.PerChunkStatistics.IncreaseResolveTime | grinder_mon.py:207-208 | total_resolve_time grows by the argument, nothing else changes |
| PerChunk.PerChunkStatistics.IncreaseConnectTime | grinder_mon.py:210-211 | total_connect_time grows by the argument, nothing else changes |
| PerChunk.PerChunkStatistics.IncreaseFirstByteTime | grinder_mon.py:213-214 | total_first_byte_time grows by the argument, nothing else changes |
| Calculator.Seconds | grinder_mon.py:237 | the chunk length in seconds is positive and is ms_per_chunk / 1000 |
| Calculator.PassedTxPerSec | grinder_mon.py:236-237 | the passed rate times the chunk length is total_pass |
| Calculator.FailedTxPerSec | grinder_mon.py:239-240 | the failed rate times the chunk length is total_fail |
| Calculator.Mean | grinder_mon.py:263-269 | _mean is 0 when nothing passed, otherwise the total divided by total_pass * 1000 |
| Calculator.MeanThroughputPerSec | grinder_mon.py:257-261 | throughput times 1024 times the chunk length is total_received_bytes |
| Calculator.TxRatesCountAllTransactions | grinder_mon.py:236-240 | (passed rate + failed rate) times the chunk length is total_pass + total_fail |
| Calculator.MeanFinishIsResponseLessFirstByte | grinder_mon.py:245-246 | mean finish time is mean response time less mean first-byte time |
| Calculator.FailedRecordEffect | grinder_mon.py:263-269 | a failed record leaves the passed rate alone, raises the failed rate by one per chunk length, and spreads its response time over the same passed transactions |
| Calculator.MeansOverRun | grinder_mon.py:242-269 | over any run of one test, mean_response_time, mean_finish_time, mean_resolve_time, mean_connect_time and mean_first_byte_time each equal their column sum over the number of passed records times 1000, and 0 when none passed; failed records count in the numerator only |
| Calculator.MeanOfPassedRecords | grinder_mon.py:242-243 | when every record passed, the mean response time is the arithmetic mean of their response times in seconds |
| Indexing.ChunkIndexBounds | grinder_mon.py:108-109 | the index i satisfies i * ms_per_chunk <= t - base_time < (i + 1) * ms_per_chunk |
| Indexing.ChunkIndexUnique | grinder_mon.py:108-109 | the index is the only integer whose window contains t |
| Indexing.ChunkIndexMonotone | grinder_mon.py:108-109 | a later start time never gets a smaller index |
| Chunks.WithRecordTouchesOneAggregate | grinder_mon.py:123-142 | add_a_data changes exactly the aggregate of the record's test id, created zeroed on first use; other tests and the timestamp are unchanged; the chunk is never left empty |
| Chunks.EveryTestListed | grinder_mon.py:148-149 | the iteration order lists every test id of the chunk, so the rows average over all of them |
| Chunks.TruncToIntBounds | grinder_mon.py:153 | %d keeps the integer part, truncating toward zero on both signs |
| Chunks.TpsSumIsPassesPerSecond | grinder_mon.py:147-149 | summing the per-test passed rates is summing the passes and dividing by the chunk length once |
| Chunks.TpsRowIsMeanOverTests | grinder_mon.py:144-156 | the TPS column is the chunk's passes divided by the number of test ids and by the chunk length (a mean over tests, not over transactions) |
| Chunks.TpsRowTwoTests | grinder_mon.py:144-156 | two tests at 2 and 4 passes per second give the line "4,3" for a chunk 4 s after the base time |
| Chunks.ResponseTimeRowBetweenTestMeans | grinder_mon.py:158-169 | the response-time column lies between the smallest and the largest per-test mean response time, so it is m when every test has mean m |
| Chunks.ResponseTimeRowNotPooled | grinder_mon.py:158-169 | the response-time column averages the per-test means (0.2 s in the example) rather than pooling transactions (0.25 s) |
| Chunks.IncreaseAll | grinder_mon.py:137-142 | the six increase_* calls together apply the record to the statistics object |
| Chunks.Chunk.constructor | grinder_mon.py:119-121 | a new chunk has no tests and the start time as its timestamp |
| Chunks.Chunk.GetOrCreate | grinder_mon.py:135 | tests.setdefault: the existing statistics object of the test id, or a fresh zeroed one added and listed last |
| Chunks.Chunk.AddTest | grinder_mon.py:135 | the first-use half of setdefault: a fresh zeroed object, listed last |
| Chunks.Chunk.AddAData | grinder_mon.py:123-142 | the chunk's value becomes WithRecord of the old value; the statistics objects it adds are fresh |
| Chunks.Chunk.ToTpsCsv | grinder_mon.py:144-156 | the loop over the tests in iteration order yields TpsRowOf the chunk's value |
| Chunks.Chunk.ToResponseTimeCsv | grinder_mon.py:158-169 | the loop over the tests in iteration order yields ResponseTimeRowOf the chunk's value |
| Store.GetAChunkCreatesAtMostOne | grinder_mon.py:91-99 | get_a_chunk latches the base time once, adds at most one chunk (the record's window, timestamped with the record's start time), keeps every existing chunk, and sets current_index to the larger of itself and the index |
| Store.AddRecordTouchesOneChunk | grinder_mon.py:322-323 | get_a_chunk then add_a_data changes exactly the chunk of the record's window |
| Store.Statistics.constructor | grinder_mon.py:85-89 | a new store is empty: no chunks, no base time, current_index 0 |
| Store.Statistics.ChunkByTime | grinder_mon.py:104-109 | base_time is latched on the first call only, and the result is the floor index of the start time |
| Store.Statistics.SetDefault | grinder_mon.py:94 | chunks.setdefault: an existing chunk is returned unchanged; a missing index gets a fresh chunk stamped with the start time, appended to the key order |
| Store.Statistics.RaiseCurrentIndex | grinder_mon.py:96-97 | current_index becomes the index when that is at least as large, nothing else changes |
| Store.Statistics.GetAChunk | grinder_mon.py:91-99 | the store's value becomes AfterGetAChunk of the old value, and the result is the chunk at the record's index |
| Store.Statistics.LastChunk | grinder_mon.py:101-102 | last_chunk is the chunk at the second-to-last key, with keys in creation order |
| MainLoop.IngestStoreEffect | grinder_mon.py:322-330 | one iteration latches the base time once, makes prev_chunk the record's window, creates at most that chunk, keeps every other chunk, and raises current_index |
| MainLoop.IngestEmits | grinder_mon.py:326-328 | one line is appended to each file iff prev_chunk is set and is another chunk, and both describe the chunk at the second-to-last key |
| MainLoop.BaseLatchedOnce | grinder_mon.py:105-106 | after any run the base time is the first record's start time, and prev_chunk is the last record's window |
| MainLoop.FirstRecordInWindowZero | grinder_mon.py:104-109 | the first record gets index 0, and chunk 0 exists from then on |
| MainLoop.ChunkKeysAreWindowsSeen | grinder_mon.py:91-99 | the store holds exactly one chunk per window seen and none for a window never seen |
| MainLoop.ChunkTimestampIsFirstRecord | grinder_mon.py:119-121 | a chunk's timestamp is the start time of the first record of its window, and later records never change it |
| MainLoop.CurrentIndexIsMaxWindow | grinder_mon.py:96-97 | current_index is the maximum of 0 and all indices seen |
| MainLoop.EmissionsCountWindowChanges | grinder_mon.py:326-330 | the number of lines written is the number of records whose window differs from the previous record's (never for the first record or within a window) |
| MainLoop.FirstIngestReports | grinder_mon.py:311-330 | after the first record nothing is written and its chunk is the newest |
| MainLoop.SortedIngestReports | grinder_mon.py:326-330 | a record not older than the newest chunk keeps the lines written describing the completed chunks, in order |
| MainLoop.SortedRunReportsCompletedChunks | grinder_mon.py:101-102 | for sorted records, with keys in creation order, one line per file is written for every window but the newest, in window order, and each line equals what its chunk gives at the end |
| MainLoop.AddAData | grinder_mon.py:323 | add_a_data on the chunk at index i changes the store's value in that chunk alone, as WithRecord prescribes |
| MainLoop.GetAndUpdateChunk | grinder_mon.py:322-323 | the store's value becomes AddRecord of the old value, and the chunk returned is the one at the record's index |
| MainLoop.AppendTps | grinder_mon.py:68-72 | the tps.csv line is TpsRowOf the chunk at the second-to-last key, and the store is left as it was |
| MainLoop.AppendResponseTime | grinder_mon.py:74-78 | the response_time.csv line is ResponseTimeRowOf the chunk at the second-to-last key, and the store is left as it was |
| MainLoop.Emit | grinder_mon.py:326-328 | comparing prev_chunk with the chunk by identity writes exactly the lines Ingest prescribes |
| MainLoop.Process | grinder_mon.py:315-330 | one iteration on the live objects agrees with Ingest on the state value |
| MainLoop.Loop | grinder_mon.py:306-330 | from a fresh Statistics and prev_chunk None, the store and the lines written after the records equal Run of the records |
| Scenarios.OnePassingRecordChunk | grinder_mon.py:123-142 | a passed record of 200 ms and 1000 bytes creates totals pass 1, 1000 bytes, 200 ms for its test |
| Scenarios.OnePassingRecordRows | grinder_mon.py:144-169 | that chunk gives the lines "0,1" and 0.2 s |
| Scenarios.FirstPassingRecord | grinder_mon.py:311-330 | the first record latches its start time, lands in chunk 0 and writes nothing |
| Scenarios.LaterWindowWritesRows | grinder_mon.py:326-328 | records at 1000 ms and 3000 ms write one line per file, for window 0: 0 s, 1 TPS, 0.2 s |
| Scenarios.OutOfOrderFirstThree | grinder_mon.py:101-102 | records at 0, 2000 and 1500 ms create chunks in the order 0, 2, 1; with keys in creation order, chunks 0 and 2 are reported |
| Scenarios.OutOfOrderRepeatsNewestChunk | grinder_mon.py:101-102 | with keys in creation order, a fourth record at 2500 ms reports chunk 2 again, and the model never reports chunk 1 |

## Left out

- CsvAppender's file handling (grinder_mon.py:49-78) is left out: opening the two files, the header lines, flushing and closing. The lines written are modelled as row sequences that the loop returns.
- read_data_from_pipe, stdin, `time.sleep` and the endless `while 1` are left out. The loop runs over a finite sequence of records that are already parsed. The crash `data[0]` would cause on the `None` returned for an empty line is not modelled.
- parse_a_line and the `isdigit` header skip are left out. Records arrive as typed columns; the `int()`/`long()` conversions are taken to succeed.
- The text of the lines is left out: `%d` is modelled as truncation toward zero, `%f` rendering and StringIO are not modelled.
- The `to_string` debug printers are left out.
- Floating point: rates and means use exact real arithmetic, so rounding is not modelled.
- Dict iteration order: Python 2's hash order of `chunks` and `tests` is modelled as creation order. For `chunks` this makes `keys()[-2]` the second-newest chunk created. CPython 2 lists small integer keys by slot (key modulo table size), which agrees with creation order only for sorted records that leave no window empty; for skipped windows or out-of-order records the chunk the program reports can differ from the model's (examples above).
- `ms_per_chunk` is the constant 1000 that `Statistics.__init__` sets. The Calculator functions take it as a positive parameter instead of reading the global `statistics`, and so does `base_time`.
- Chunks.Chunk.ToTpsCsv: requires a chunk with at least one test. The source would raise ZeroDivisionError on an empty chunk, which the main loop never reaches.
- Chunks.Chunk.ToResponseTimeCsv: requires a chunk with at least one test, for the same reason.
- The counters are unbounded integers, as Python's are.
