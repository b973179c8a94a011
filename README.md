# StarRocks frontend and storage pieces, modelled in Dafny

This project models five pieces of StarRocks and proves properties of them.

- **Quorum delete** (`delete_quorum.dfy`, module `DeleteQuorum`). A delete job pushes a delete
  to every replica of its target tablets. Each tablet's `TabletDeleteInfo` collects the replicas
  that acknowledged. The job state (PENDING, QUORUM_FINISHED, FINISHED, CANCELLED) follows from
  those sets by a majority rule. `DeleteHandler.process` then commits or aborts the job's
  transaction. Each unit test of `DeleteHandlerTest` is a scenario method whose contract is what
  the test asserts.
- **Bitmap range iterator** (`bitmap_range_iterator.dfy`, module `BitmapRanges`). It turns the
  sorted members of a roaring bitmap into closed-open ranges of consecutive values. It reads the
  bitmap in batches of 256 through a fixed-size buffer. The class keeps the buffer as an `array`
  and its cursor fields; `NextRange` is proved against a pure run decomposition `Runs`.
- **Multi-distinct rewrite** (`rewrite_multi_distinct.dfy`, module `RewriteMultiDistinct`). This
  is the optimizer rule that turns `count(distinct …)` and `sum(distinct …)` into
  `multi_distinct_count` / `multi_distinct_sum`. It turns `avg(distinct …)` into a projection
  `divide(sum, count)` over those two. It reuses an existing aggregate column when an equal call
  is already there.
- **Iceberg resource** (`iceberg_resource.dfy`, module `Iceberg`). `setProperties` validates the
  property map and records the catalog type and the one property that type needs.
  `getProcNodeData` shows that property as one display row. The getters
  `GetHiveMetastoreURIs`, `GetIcebergImpl` and `GetCatalogType` read the fields back.
- **Frontends display** (`frontends_proc_node.dfy`, module `Frontends`). `getFrontendsInfo`
  builds one 18-cell row per frontend, with the columns of `TITLE_NAMES`. `isJoin` and
  `isHelperNode` decide membership by (host, edit-log port) pairs. `convertToHostPortPair` turns
  socket addresses into such pairs.

`wrappers.dfy` holds the shared `Option` and `Result` types.

Where the code calls into parts of the system the model does not contain, those parts become
parameters:

- the function catalog lookup and the implicit-cast rewriter (`lookup`, `castArgs`);
- `IcebergCatalogType.fromString` and class loading (`fromString`, `classLoadable`);
- the ledger's answers to begin, commit and publish, and the replies of the replicas;
- the HA protocol's node lists, the global state, the configuration, DNS and time formatting.

## Model

| member | source | states |
|---|---|---|
| `DeleteQuorum.Classify` | fe/fe-core/src/test/java/com/starrocks/load/DeleteHandlerTest.java:218-222 | A tablet is full iff every expected replica acknowledged. It has at least a quorum iff it is full or more than half acknowledged. |
| `DeleteQuorum.AggregateState` | fe/fe-core/src/test/java/com/starrocks/load/DeleteHandlerTest.java:250-255 | The derived job state is never CANCELLED and never ranks above the least advanced tablet. |
| `DeleteQuorum.AggregateStateSpec` | fe/fe-core/src/test/java/com/starrocks/load/DeleteHandlerTest.java:250-255 | The derived job state is never CANCELLED. It is PENDING iff some tablet lacks a quorum. It is FINISHED iff every tablet is fully acknowledged. |
| `DeleteQuorum.QuorumMeansMoreThanHalf` | fe/fe-core/src/test/java/com/starrocks/load/DeleteHandlerTest.java:218-222 | For a tablet with replicas, quorum means more than half acknowledged. Full means all acknowledged. |
| `DeleteQuorum.ThreeReplicas` | fe/fe-core/src/test/java/com/starrocks/load/DeleteHandlerTest.java:104-106 | The test tablet's three replicas: zero or one ack is insufficient, two is a quorum, three is full. |
| `DeleteQuorum.OneReplica` | fe/fe-core/src/test/java/com/starrocks/load/DeleteHandlerTest.java:218-222 | Under the same majority rule, one replica never stops at quorum: zero acks are insufficient, one is full. |
| `DeleteQuorum.AggregateMonotone` | fe/fe-core/src/test/java/com/starrocks/load/DeleteHandlerTest.java:250-255 | If every tablet is at least as far along, the job state ranks at least as high (PENDING < QUORUM_FINISHED < FINISHED). |
| `DeleteQuorum.AcksMonotone` | fe/fe-core/src/test/java/com/starrocks/load/DeleteHandlerTest.java:221-222 | Acknowledgement sets only grow, so the job state never regresses. |
| `DeleteQuorum.AllAckedIsFinished` | fe/fe-core/src/test/java/com/starrocks/load/DeleteHandlerTest.java:429-477 | Once every replica of every tablet acknowledged, the job is FINISHED. |
| `DeleteQuorum.TabletDeleteInfo.constructor` | fe/fe-core/src/test/java/com/starrocks/load/DeleteHandlerTest.java:221 | A new tracker keeps its partition, tablet and replica set, and has no acknowledgements yet. |
| `DeleteQuorum.TabletDeleteInfo.AddFinishedReplicas` | fe/fe-core/src/test/java/com/starrocks/load/DeleteHandlerTest.java:222 | Adding acked replicas is a set union. Adding again changes nothing. The count rises monotonically up to the replica count. |
| `DeleteQuorum.TabletDeleteInfo.FinishedCount` | fe/fe-core/src/test/java/com/starrocks/load/DeleteHandlerTest.java:222 | The number of distinct acknowledged replicas never exceeds the tablet's replicas. |
| `DeleteQuorum.DeleteJob.constructor` | fe/fe-core/src/test/java/com/starrocks/load/DeleteHandlerTest.java:224-229 | A job has one fresh, empty, distinct tracker per target tablet, in order. It is not cancelled. |
| `DeleteQuorum.DeleteJob.RecordAcks` | fe/fe-core/src/test/java/com/starrocks/load/DeleteHandlerTest.java:218-222 | Each tablet's acknowledged set grows by exactly the replicas reported for it. |
| `DeleteQuorum.DeleteJob.GetState` | fe/fe-core/src/test/java/com/starrocks/load/DeleteHandlerTest.java:254 | A job reads CANCELLED iff it was cancelled; otherwise it reads the state derived from its trackers. getState is what the tests assert at lines 254, 304, 363, 425 and 475. |
| `DeleteQuorum.DeleteJob.Cancel` | fe/fe-core/src/test/java/com/starrocks/load/DeleteHandlerTest.java:184-208 | A cancelled job reads CANCELLED whatever its tablets say. |
| `DeleteQuorum.DeleteHandler.constructor` | fe/fe-core/src/test/java/com/starrocks/load/DeleteHandlerTest.java:250-252 | A new handler has an empty job registry and has issued no ledger calls. |
| `DeleteQuorum.DeleteHandler.CancelJob` | fe/fe-core/src/test/java/com/starrocks/load/DeleteHandlerTest.java:192-200 | Cancelling marks the job CANCELLED, keeps its acknowledgements, and aborts its transaction once. |
| `DeleteQuorum.DeleteHandler.CommitJob` | fe/fe-core/src/test/java/com/starrocks/load/DeleteHandlerTest.java:340-349 | Commit is issued. A rejected commit is followed by an abort and fails. An accepted one succeeds, with visibility pending iff publishing did not finish. The job state is unchanged. |
| `DeleteQuorum.DeleteHandler.Process` | fe/fe-core/src/test/java/com/starrocks/load/DeleteHandlerTest.java:184-477 | A rejected begin fails and changes nothing. Otherwise the job is registered under its transaction, other jobs are kept, and the job records exactly the acks. No quorum: the job is cancelled, the transaction aborted and the process fails. Quorum: the job state is the derived state and the commit outcome applies. |
| `DeleteQuorum.OneTabletState` | fe/fe-core/src/test/java/com/starrocks/load/DeleteHandlerTest.java:221-229 | A one-tablet job's state is exactly its tablet's progress: insufficient → PENDING, quorum → QUORUM_FINISHED, full → FINISHED. |
| `DeleteQuorum.RunTestDelete` | fe/fe-core/src/test/java/com/starrocks/load/DeleteHandlerTest.java:240-255 | One process call on a fresh handler leaves one job. The job state, outcome and ledger calls follow the quorum rule on the test tablet. |
| `DeleteQuorum.UnQuorumTimeout` | fe/fe-core/src/test/java/com/starrocks/load/DeleteHandlerTest.java:184-208 | No acknowledgements: the job reads CANCELLED, the transaction is aborted, the process fails. |
| `DeleteQuorum.QuorumTimeout` | fe/fe-core/src/test/java/com/starrocks/load/DeleteHandlerTest.java:210-256 | Two of three acknowledged before the timeout: one job, QUORUM_FINISHED, committed and visible. |
| `DeleteQuorum.FullyAcknowledged` | fe/fe-core/src/test/java/com/starrocks/load/DeleteHandlerTest.java:258-306 | testNormalTimeout: all three acknowledged and the ledger reports the transaction visible. Whatever the wait returns: one job, FINISHED, committed and visible. |
| `DeleteQuorum.CommitFail` | fe/fe-core/src/test/java/com/starrocks/load/DeleteHandlerTest.java:308-369 | The commit is rejected: the process fails, commit then abort are issued, and the job still reads FINISHED. |
| `DeleteQuorum.PublishFail` | fe/fe-core/src/test/java/com/starrocks/load/DeleteHandlerTest.java:371-477 | testPublishFail, and testNormal, which has the same setup (all three acknowledged, the wait returned false, visibility never reported). The commit is accepted but publishing does not finish: one job, success with visibility pending, and the job is FINISHED. |
| `BitmapRanges.RunLength` | be/src/storage/rowset/bitmap_range_iterator.h:65-71 | The run that starts a non-empty input has between one and all of its values. |
| `BitmapRanges.RunLengthSpec` | be/src/storage/rowset/bitmap_range_iterator.h:65-71 | The run is a maximal prefix of consecutive values: each value is the first plus its offset, and the next value breaks the sequence. |
| `BitmapRanges.RunLengthIs` | be/src/storage/rowset/bitmap_range_iterator.h:65-71 | Any maximal consecutive prefix has exactly the run's length. |
| `BitmapRanges.RunEndsAt` | be/src/storage/rowset/bitmap_range_iterator.h:65-71 | A consecutive stretch from a position, broken right after it, is the run at that position. |
| `BitmapRanges.Emitted` | be/src/storage/rowset/bitmap_range_iterator.h:72 | One output range per run, in order, each the run's start and its 32-bit wrapped end. |
| `BitmapRanges.EmittedStep` | be/src/storage/rowset/bitmap_range_iterator.h:58-74 | The output is the first run's range followed by the output of the rest. |
| `BitmapRanges.RunsNonEmpty` | be/src/storage/rowset/bitmap_range_iterator.h:43 | Every run is non-empty. |
| `BitmapRanges.RunsBounds` | be/src/storage/rowset/bitmap_range_iterator.h:43-46 | No run starts below the smallest member. |
| `BitmapRanges.RunsSeparated` | be/src/storage/rowset/bitmap_range_iterator.h:43-46 | Runs are in increasing order with a gap between any two, so ranges never touch or overlap. |
| `BitmapRanges.RunsCover` | be/src/storage/rowset/bitmap_range_iterator.h:43-46 | Every member lies in some run. |
| `BitmapRanges.RunsSound` | be/src/storage/rowset/bitmap_range_iterator.h:43-46 | Every value inside a run is a member. |
| `BitmapRanges.RunsPartition` | be/src/storage/rowset/bitmap_range_iterator.h:43-46 | A value is a member iff it lies in one of the runs. |
| `BitmapRanges.ConsecutiveIsOneRun` | be/src/storage/rowset/bitmap_range_iterator.h:65-71 | A fully consecutive input is a single run. |
| `BitmapRanges.AcrossBatchBoundary` | be/src/storage/rowset/bitmap_range_iterator.h:68-71 | 300 consecutive values, more than one batch of 256, still give one run. |
| `BitmapRanges.EmittedExact` | be/src/storage/rowset/bitmap_range_iterator.h:67-72 | Without the largest 32-bit value, each output range is exactly [run start, run end). |
| `BitmapRanges.WrapAtLargestMember` | be/src/storage/rowset/bitmap_range_iterator.h:63-72 | A run ending at 4294967295 is reported with `to` wrapped to 0. |
| `BitmapRanges.DocumentedExample` | be/src/storage/rowset/bitmap_range_iterator.h:44-46 | The documented input gives [0,2), [4,8), [10,11), [15,20). |
| `BitmapRanges.BitmapRangeIterator.constructor` | be/src/storage/rowset/bitmap_range_iterator.h:49-52 | A new iterator has read its first batch. Everything remains, and it is at eof iff the bitmap is empty. |
| `BitmapRanges.BitmapRangeIterator.ReadNextBatch` | be/src/storage/rowset/bitmap_range_iterator.h:77-82 | Reads the next min(256, remaining) values into the buffer, resets the position, and sets eof iff none were read. |
| `BitmapRanges.BitmapRangeIterator.AdvanceBuffer` | be/src/storage/rowset/bitmap_range_iterator.h:66-70 | Moves one value forward, refilling at the end of a batch. Eof iff every value was consumed; otherwise the buffer shows the next value. |
| `BitmapRanges.BitmapRangeIterator.ScanRun` | be/src/storage/rowset/bitmap_range_iterator.h:65-71 | The do-while loop moves past at least one value. Every value it passes is the first plus its offset, and it stops at eof or at the first value that breaks the sequence. `last_val` is the last passed value plus one, wrapped to 32 bits. |
| `BitmapRanges.BitmapRangeIterator.NextRange` | be/src/storage/rowset/bitmap_range_iterator.h:58-74 | Returns false at eof and leaves everything as it was. Otherwise it returns the next run's range and consumes exactly that run. |
| `BitmapRanges.DrainAcrossBatchBoundary` | be/src/storage/rowset/bitmap_range_iterator.h:56-82 | Draining the iterator over 300 consecutive values, which refills the 256-value buffer in between, reports the single range [1000, 1300). |
| `BitmapRanges.AllRanges` | be/src/storage/rowset/bitmap_range_iterator.h:56-74 | Calling next_range until it returns false yields exactly the ranges of the runs, in order. |
| `RewriteMultiDistinct.EqualsIgnoreCaseExamples` | fe/fe-core/src/main/java/com/starrocks/sql/optimizer/rule/transformation/RewriteMultiDistinctRule.java:73-76 | "COUNT" matches count and "Sum" matches sum ignoring case. avg matches neither, and count does not match sum. |
| `RewriteMultiDistinct.Check` | fe/fe-core/src/main/java/com/starrocks/sql/optimizer/rule/transformation/RewriteMultiDistinctRule.java:45-61 | The rule applies iff (more than one distinct aggregate and none has several arguments) or some aggregate is a distinct avg. |
| `RewriteMultiDistinct.BuildMultiCountDistinct` | fe/fe-core/src/main/java/com/starrocks/sql/optimizer/rule/transformation/RewriteMultiDistinctRule.java:148-157 | A non-distinct multi_distinct_count, resolved by looking up that name with the old call's argument types, with that function's return type. It is neither a distinct avg nor a call needing a function. |
| `RewriteMultiDistinct.BuildMultiSumDistinct` | fe/fe-core/src/main/java/com/starrocks/sql/optimizer/rule/transformation/RewriteMultiDistinctRule.java:159-167 | A non-distinct multi_distinct_sum, resolved by looking up that name with the old call's argument types, with that function's return type. It is neither a distinct avg nor a call needing a function. |
| `RewriteMultiDistinct.BuildMultiShape` | fe/fe-core/src/main/java/com/starrocks/sql/optimizer/rule/transformation/RewriteMultiDistinctRule.java:148-167 | The built call has the multi-distinct name, is not distinct, and carries the looked-up function and its return type. Its arguments are the cast rewriter's arguments for the call over the old arguments. |
| `RewriteMultiDistinct.CountAndSumDiffer` | fe/fe-core/src/main/java/com/starrocks/sql/optimizer/rule/transformation/RewriteMultiDistinctRule.java:148-167 | The count and sum versions of one call are never equal. |
| `RewriteMultiDistinct.BuildMultiDependsOnArguments` | fe/fe-core/src/main/java/com/starrocks/sql/optimizer/rule/transformation/RewriteMultiDistinctRule.java:148-157 | Two calls with the same arguments and argument types build the same multi-distinct call. |
| `RewriteMultiDistinct.FirstPassCases` | fe/fe-core/src/main/java/com/starrocks/sql/optimizer/rule/transformation/RewriteMultiDistinctRule.java:70-81 | The first pass: distinct count → multi_distinct_count, distinct sum → multi_distinct_sum, both case-insensitively; anything else is unchanged. |
| `RewriteMultiDistinct.FirstPassKeepsAvg` | fe/fe-core/src/main/java/com/starrocks/sql/optimizer/rule/transformation/RewriteMultiDistinctRule.java:71-78 | The first pass neither creates nor changes a distinct avg. |
| `RewriteMultiDistinct.FirstPassMapProperties` | fe/fe-core/src/main/java/com/starrocks/sql/optimizer/rule/transformation/RewriteMultiDistinctRule.java:67-82 | The new map has the same columns, and every distinct avg in it still carries its function. It holds a distinct avg iff the input does. |
| `RewriteMultiDistinct.RewriteDistinctCalls` | fe/fe-core/src/main/java/com/starrocks/sql/optimizer/rule/transformation/RewriteMultiDistinctRule.java:67-82 | The loop over the aggregations builds exactly the first-pass map. |
| `RewriteMultiDistinct.FindColumn` | fe/fe-core/src/main/java/com/starrocks/sql/optimizer/rule/transformation/RewriteMultiDistinctRule.java:98-103 | Returns the first column in iteration order whose call is equal, or none when no column has one. |
| `RewriteMultiDistinct.ColumnForCall` | fe/fe-core/src/main/java/com/starrocks/sql/optimizer/rule/transformation/RewriteMultiDistinctRule.java:96-106 | Reuses the first column holding an equal call. Otherwise it creates a fresh column and advances the counter. |
| `RewriteMultiDistinct.RewriteOneAvg` | fe/fe-core/src/main/java/com/starrocks/sql/optimizer/rule/transformation/RewriteMultiDistinctRule.java:94-124 | A distinct avg gets its count and sum columns (reused or fresh), and the projection divide(sum, count). The new map is the old one with exactly those two entries put. The counter advances by one for each of the two columns not found in the map. |
| `RewriteMultiDistinct.KeepRewritten` | fe/fe-core/src/main/java/com/starrocks/sql/optimizer/rule/transformation/RewriteMultiDistinctRule.java:106-118 | Later entries never undo what earlier avg rewrites established. |
| `RewriteMultiDistinct.SecondPassKeys` | fe/fe-core/src/main/java/com/starrocks/sql/optimizer/rule/transformation/RewriteMultiDistinctRule.java:92-129 | After visiting every column, the projections cover every column and the count/sum maps cover exactly the distinct avgs. |
| `RewriteMultiDistinct.PlainStep` | fe/fe-core/src/main/java/com/starrocks/sql/optimizer/rule/transformation/RewriteMultiDistinctRule.java:125-128 | A non-avg column projects to itself and is kept; the loop invariant survives the step. |
| `RewriteMultiDistinct.AvgStep` | fe/fe-core/src/main/java/com/starrocks/sql/optimizer/rule/transformation/RewriteMultiDistinctRule.java:94-124 | An avg column's rewrite preserves the loop invariant. |
| `RewriteMultiDistinct.AvgFreshStep` | fe/fe-core/src/main/java/com/starrocks/sql/optimizer/rule/transformation/RewriteMultiDistinctRule.java:96-118 | After an avg, every column not in the old map is a count or sum column of an avg met so far. The counter has not moved while every such column was found. |
| `RewriteMultiDistinct.PlainFreshStep` | fe/fe-core/src/main/java/com/starrocks/sql/optimizer/rule/transformation/RewriteMultiDistinctRule.java:125-128 | A non-avg column adds no new column and takes no id. |
| `RewriteMultiDistinct.FreshFinal` | fe/fe-core/src/main/java/com/starrocks/sql/optimizer/rule/transformation/RewriteMultiDistinctRule.java:92-129 | After the loop, every added column is the count or sum column of some avg. If every avg found both its columns, no id was taken. |
| `RewriteMultiDistinct.RewriteEntry` | fe/fe-core/src/main/java/com/starrocks/sql/optimizer/rule/transformation/RewriteMultiDistinctRule.java:92-128 | One iteration of the second loop keeps the loop invariant, plus the added-columns and counter facts. |
| `RewriteMultiDistinct.SecondPassEnd` | fe/fe-core/src/main/java/com/starrocks/sql/optimizer/rule/transformation/RewriteMultiDistinctRule.java:92-129 | At the end of the loop the invariant gives every promise below. |
| `RewriteMultiDistinct.RewriteAvgs` | fe/fe-core/src/main/java/com/starrocks/sql/optimizer/rule/transformation/RewriteMultiDistinctRule.java:89-129 | hasAvg iff a distinct avg exists. There is a projection for every column; non-avg columns are kept, avg columns are rewritten. The only added columns are count and sum columns of avgs. New column ids are fresh, none are used without an avg, and none are used when every avg reuses both of its columns. |
| `RewriteMultiDistinct.ProjectGroupingKeys` | fe/fe-core/src/main/java/com/starrocks/sql/optimizer/rule/transformation/RewriteMultiDistinctRule.java:136 | Every grouping key projects to itself. Other projections are unchanged, and nothing else is added. |
| `RewriteMultiDistinct.Transform` | fe/fe-core/src/main/java/com/starrocks/sql/optimizer/rule/transformation/RewriteMultiDistinctRule.java:64-146 | One plan. With no distinct avg: a GLOBAL aggregation over the first-pass map, with no new columns. With one: a projection over a single GLOBAL aggregation that has the same grouping keys and inputs, as described by `AvgPlan`. By `AvgPlanAdds`, that aggregation adds only count and sum columns of avgs, and no id is taken when every avg reused both columns. |
| `RewriteMultiDistinct.AvgPlanHolds` | fe/fe-core/src/main/java/com/starrocks/sql/optimizer/rule/transformation/RewriteMultiDistinctRule.java:131-138 | The second pass's result, with grouping keys projected, assembles into the promised projection-over-aggregation plan, with only count and sum columns added. |
| `RewriteMultiDistinct.FirstMatchUnique` | fe/fe-core/src/main/java/com/starrocks/sql/optimizer/rule/transformation/RewriteMultiDistinctRule.java:98-103 | The first equal entry in iteration order is unique. |
| `RewriteMultiDistinct.ExampleFirstPass` | fe/fe-core/src/main/java/com/starrocks/sql/optimizer/rule/transformation/RewriteMultiDistinctRule.java:84-88 | For count(distinct v1), avg(distinct v1), sum(distinct v1): count and sum become multi-distinct calls and avg stays. |
| `RewriteMultiDistinct.ExampleSecondPass` | fe/fe-core/src/main/java/com/starrocks/sql/optimizer/rule/transformation/RewriteMultiDistinctRule.java:84-88 | In that example avg reuses the count and sum columns: its count column is 1 and its sum column 3, the projection is divide(col 3, col 1), the two calls stay in the aggregation and avg is dropped. |
| `RewriteMultiDistinct.ExampleAdds` | fe/fe-core/src/main/java/com/starrocks/sql/optimizer/rule/transformation/RewriteMultiDistinctRule.java:84-88 | In that example no id is taken and the aggregation holds exactly columns 1 and 3. |
| `RewriteMultiDistinct.ExampleNoFreshColumn` | fe/fe-core/src/main/java/com/starrocks/sql/optimizer/rule/transformation/RewriteMultiDistinctRule.java:96-118 | When the only avg found both its columns among the existing ones, no id is taken and the aggregation holds exactly the non-avg columns. |
| `RewriteMultiDistinct.SharedArgumentExample` | fe/fe-core/src/main/java/com/starrocks/sql/optimizer/rule/transformation/RewriteMultiDistinctRule.java:64-146 | The whole rule on that example. No id is taken, the aggregation holds exactly the multi-distinct count at 1 and sum at 3, and the plan is the reusing projection. |
| `Iceberg.IsBlankExamples` | fe/fe-core/src/main/java/com/starrocks/catalog/IcebergResource.java:60 | Null, empty and whitespace-only strings are blank. "hive" is not. An ideographic space is whitespace; a non-breaking space is not. |
| `Iceberg.IcebergResource.constructor` | fe/fe-core/src/main/java/com/starrocks/catalog/IcebergResource.java:50-53 | A new resource has its name, null fields and an empty property map. |
| `Iceberg.IcebergResource.SetProperties` | fe/fe-core/src/main/java/com/starrocks/catalog/IcebergResource.java:56-85 | Always records the catalog type, then gives each message exactly in its case. Null map; blank type; hive needs non-blank metastore URIs; custom needs a non-blank, loadable implementation class; any other type fails. Only the field its type reads changes. Success means one display row with a non-blank value. |
| `Iceberg.IcebergResource.GetProcNodeData` | fe/fe-core/src/main/java/com/starrocks/catalog/IcebergResource.java:88-101 | Appends exactly the resource's display rows to the result. |
| `Iceberg.ProcRowsShape` | fe/fe-core/src/main/java/com/starrocks/catalog/IcebergResource.java:88-101 | One row iff the type is hive or custom, none otherwise. The row is [name, "iceberg", key, value], keyed by the property that type needs. |
| `Iceberg.CreateResource` | fe/fe-core/src/main/java/com/starrocks/catalog/IcebergResource.java:56-101 | setProperties accepts a map iff it is acceptable by the stated rule. An accepted resource shows exactly one row. |
| `Frontends.IsHelperNode` | fe/fe-core/src/main/java/com/starrocks/common/proc/FrontendsProcNode.java:139-141 | True iff some helper pair has the frontend's host and edit-log port. |
| `Frontends.IsJoin` | fe/fe-core/src/main/java/com/starrocks/common/proc/FrontendsProcNode.java:143-150 | True iff some pair has the frontend's host and edit-log port. This is the same rule as isHelperNode. |
| `Frontends.ConvertToHostPortPair` | fe/fe-core/src/main/java/com/starrocks/common/proc/FrontendsProcNode.java:152-158 | One pair per address, same length and order, each the address's host and port. |
| `Frontends.BuildInfo` | fe/fe-core/src/main/java/com/starrocks/common/proc/FrontendsProcNode.java:90-133 | The cells added for a frontend are exactly the row `Info` describes, in title order. |
| `Frontends.CellsLayout` | fe/fe-core/src/main/java/com/starrocks/common/proc/FrontendsProcNode.java:46-52 | A row has as many cells as TITLE_NAMES (18). Each of the 18 cells is the row field of its title, in order from Name to Version. HOSTNAME_INDEX 2 is the HostName column. |
| `Frontends.InfoFlags` | fe/fe-core/src/main/java/com/starrocks/common/proc/FrontendsProcNode.java:107-120 | IsMaster is "true" iff host = master IP. Join and IsHelper are "true" iff their pair list has (host, edit-log port). IP is the host, HostName its lookup. |
| `Frontends.InfoSelfNode` | fe/fe-core/src/main/java/com/starrocks/common/proc/FrontendsProcNode.java:98-118 | The node the manager runs on shows the configured query/rpc ports, Alive "true" and the largest journal id. Others show their record. |
| `Frontends.InfoMissingValues` | fe/fe-core/src/main/java/com/starrocks/common/proc/FrontendsProcNode.java:123-133 | StartTime is "NULL" iff the record is not alive (even for the self node), else the formatted start time. Version is "NULL" when unknown, else the version. |
| `Frontends.GetFrontendsInfo` | fe/fe-core/src/main/java/com/starrocks/common/proc/FrontendsProcNode.java:76-137 | Appends one row per frontend, in order, after the rows already there. A null master IP compares as "", and the join list is electable nodes then observers. |
| `Frontends.FetchResult` | fe/fe-core/src/main/java/com/starrocks/common/proc/FrontendsProcNode.java:61-74 | The result has the title names and one row per frontend in order, each as wide as the titles. |

## Left out

- `DeleteHandler.java` is not part of this model. The handler's behaviour is taken from what
  `DeleteHandlerTest` drives and asserts.
- The handler's latch wait and its threads are not modelled. The wait's result is a parameter,
  and when it reports completion every replica has acknowledged.
- Analysis of the delete statement, partition pruning and the push tasks to backends are left out.
  The acknowledging replicas are an input.
- `DeleteQuorum.Classify`: a tablet with no replicas counts as fully acknowledged. The tests
  never build one.
- The roaring bitmap's own iterator is not modelled. The bitmap is its sorted member sequence,
  read 256 at a time.
- The optimizer's `CallOperator`, `Type` and `Function` are reduced to the fields the rule reads.
  Operator equality is structural equality of those fields.
- The function catalog lookup (`getFunction` with non-strict supertype matching) and the implicit-
  cast rewriter are parameters. The lookup always returns a function.
- HashMap iteration order is a parameter `order`. Which column is reused and which ids are created
  depend on it.
- The column-ref factory is a counter `nextId` that exceeds every column id in use. Its types and
  nullability are not modelled.
- `RewriteMultiDistinct.EqualsIgnoreCaseExamples`: case folding is ASCII-only. Java's
  `equalsIgnoreCase` also folds other letters (for instance U+017F, the long s, matches `s`, so
  "ſum" equals "sum" ignoring case there). The model differs on names with such characters.
- `RewriteMultiDistinct.Transform` requires `Resolved`: every distinct count, sum or avg call carries
  its catalog function. The source dereferences `getFunction().getArgs()` when it builds the
  multi-distinct calls (RewriteMultiDistinctRule.java lines 150 and 161), and would throw a
  NullPointerException on a call without one. That failure is not modelled.
- `IcebergCatalogType.fromString` and the context class loader are parameters.
- `Preconditions.checkNotNull` is modelled as an error result rather than an exception.
- Gson serialisation of the resource is left out.
- The `properties` field of `IcebergResource` stays empty, because `setProperties`'s parameter
  shadows it.
- `Iceberg.IcebergResource.GetHiveMetastoreURIs`, `GetIcebergImpl` and `GetCatalogType` are plain
  readers with no contract of their own. `SetProperties` and `ProcRowsShape` state what they
  return.
- DNS lookup (`getHostnameByIp`) and `TimeUtils.longToTimeString` are parameters.
- The global state, HA protocol node lists and `Config` ports are inputs read once.
- The node's role is its enum name as a string.
- `Frontends.IntToString`: Java's 32-bit and 64-bit integer widths are not modelled. Values are
  unbounded integers printed in decimal.
- The LOG calls in `IcebergResource.getProcNodeData` and `FrontendsProcNode` are left out.
