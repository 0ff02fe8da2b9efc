# Nestor, verified

Nestor is a read-through block cache: readers ask for byte ranges of objects, the cache serves whole
blocks, and whatever is missing is fetched from an origin. This project models its fetch engine, its
stream assemblers, its latency window, its cluster client and its codecs in Dafny, and proves what
readers are promised: whatever is cached, in flight, retried, hedged, timed out or delivered too
widely, a reader gets the exact bytes of one version of the object, or an error.

`dafny verify dfyconfig.toml` checks everything.

## What is modelled

| file | models |
|---|---|
| `Common.dfy`, `Powers.dfy`, `Errors.dfy` | wrappers, a few arithmetic facts, error kinds |
| `Blocks.dfy` | block arithmetic, range resolution, fetch grouping |
| `Origin.dfy` | versions, content tags, the history of writes, what an honest answer may say |
| `Engine.dfy` | the fetch engine as a transition system |
| `EngineOwnership.dfy` | every slot has one owner and settles once |
| `EngineAgreement.dfy` | every cached and delivered block is the right bytes |
| `EngineOnce.dfy`, `EngineProbes.dfy` | scheduled groups never fetch a block twice, and adopted probes may |
| `EngineStaleness.dfy` | how old a version a read may pin, and what readers of a version that is gone are told |
| `EngineDeliveries.dfy` | a run that delivers a scheduled block |
| `BlockStreams.dfy`, `HedgedBodies.dfy` | bodies cut into blocks, raced against a backup |
| `Readers.dfy`, `ShortReads.dfy` | the streaming reader and its window, and reads cut short by a window of zero |
| `EngineRequests.dfy`, `EngineReads.dfy` | what each task was asked for, and the engine as the readers' environment |
| `GroupFetches.dfy` | retries of one fetch group |
| `InflightTable.dfy` | the sharded in-flight table and its slots |
| `Histogram.dfy`, `Latencies.dfy` | the latency histogram and its rotating window |
| `ChunkedFraming.dfy`, `ChunkedDecoder.dfy`, `ChunkedEncoding.dfy` | `aws-chunked` decoding |
| `Codecs.dfy` | the disk encoding of keys and blocks |
| `Rendezvous.dfy`, `NodeLoads.dfy`, `RoutedReads.dfy` | cluster ranking, bounded load, routed reads |

The engine is a transition system because its promise is about interleavings. A run is any list of
actions. Each action is one atomic step of one task, of a slot being settled, of the origin, of the
cache losing an entry, or of the clock; every await and every lock is a place where another action may
come in between. Timeouts, `select!` and dropped tasks are actions that may be taken whenever the
source could take them. The origin may claim a wider or a narrower range than it was asked for, may
ignore `If-Match` and may stop at any byte. Hash functions are arbitrary.

The parts that work by changing fields are classes with the source's fields and loops; what a class
promises is stated against a function of its state, and the properties are proved about that function.
Where the surroundings decide what happens next (which item arrives, what a request is answered, what
the engine hands a reader), they are an arbitrary script or an arbitrary function, so a contract covers
every schedule.

## What is assumed

- Equal tags mean equal bytes (`Origin.Faithful`): in ETag mode an ETag, or without one the size,
  identifies the content, these hash without collisions (`Origin.IdentifiedFaithful`), and in immutable
  mode an object never changes. This is exactly what cache agreement needs
  (`EngineAgreement.AgreementExactly`), and `Origin.FaithfulExactly` says what it is in terms of ETags,
  sizes and hashes.
- `insert` is given a version the origin has had.
- Fewer than 2^32 blocks per object; `Blocks.MachineArithmeticExact` says when the 32-bit arithmetic
  of the source is exact.
- A cluster node answers a block request with the requested range, cut to the object's size, or fails.
- A semaphore permit may take any time; clocks do not go backwards.

## Where the source's own description is stronger than its code

- The latency window is described as one to two periods. `rotate` stores the time of the call and not a
  period boundary, so the bound is three periods less a nanosecond, and it is reached:
  `Latencies.Latency.Rotate` and `Latencies.StillVisible`.
- A quantile is described as never below the true value. That holds exactly for samples below 2^40
  nanoseconds: `Histogram.EdgeBound`.
- The TTL is described as the staleness bound. `accept` stamps an answer when it is recorded, after a
  wait for a permit that nothing bounds, so the answer's age at that moment adds to the TTL:
  `EngineStaleness.BoundedStaleness` and `EngineStaleness.TtlAloneIsNoBound`.
- Blocks are described as fetched once. `adopt` does not look in the cache again after registering, so
  the claim is proved for what `schedule` requests (`EngineOnce.FetchedAtMostOnce`), and a run is given in
  which two probes fetch one block (`EngineProbes.ProbesFetchTwice`). A block taken from a wider answer is
  looked up before it is registered and not after; it is never asked for on its own account. Blocks past
  the end are delivered empty and not cached, so they may be asked for again.
- A clean end of a stream is complete if the window in use is at least one block: the read window once
  the size is known, the fetch window until then. The builders rule a window of zero out and the
  configuration file does not. With a read window of zero a stream ends without an error after what its
  probe brought or, if the size is not known, after one group (`Readers.Reader.Collect`), and so short of
  its range exactly if that does not reach the end of it (`Readers.CompleteExactly`);
  `ShortReads.Truncated` is such a read of any object longer than one block.
- The single-version claim is about the bytes a reader yields. After a restart the metadata cell held by
  the public handle is the old one; it is not part of the claim.
- Decoding is independent of how the body is split exactly when every header line is at most 1023 bytes
  long: `ChunkedFraming.SplitsAgreeExactly`.
- A routed read is of one version exactly if the caller insists on an ETag, or every version has one, or
  the range lies in one block: `RoutedReads.OneVersionExactly`.

## Model

| member | source | states |
|---|---|---|
| `EngineAgreement.CacheAgreement` | nestor/src/fetch.rs:415-628 | in every reachable state of every interleaving, each block cached under (object, tag, i) is exactly bytes i·B to min((i+1)·B, size) of every version written under the tag, and such a version exists; a cut-off tail is cached only if it ends the object |
| `EngineAgreement.AgreementExactly` | nestor/src/key.rs:174-197 | a faithful history is necessary as well as sufficient: cached blocks agree with all versions of their tag after every further step iff equal tags mean equal bytes |
| `EngineAgreement.UnfaithfulDisagrees` | nestor/src/nestor.rs:402-425 | from any reachable state over a history in which one tag stands for two contents, one step reaches a state whose cache disagrees with a version of the tag |
| `EngineAgreement.DeliveriesAgree` | nestor/src/fetch.rs:108-176 | what a schedule's handle delivers, from the cache, from its own fetch or from one it joined, is that block of every version with the context's tag, with that version's size |
| `EngineAgreement.RunSound` | nestor/src/fetch.rs:312-628 | the invariant behind both: over every run all cached blocks, settled results, metadata, and the stream positions of all bodies in the leading, requested and trailing phases are sound |
| `EngineAgreement.AcceptedAt` | nestor/src/fetch.rs:415-438 | an answer that passes the tag and alignment checks is the version the context names, and its body is at its first whole block |
| `EngineAgreement.TrailingMoves` | nestor/src/fetch.rs:577-605 | skipping or storing a trailing block leaves the stream at the next block |
| `EngineOwnership.InflightOwnership` | nestor/src/inflight.rs:41-122 | in every reachable state a key is in the table exactly when one unsettled slot exists for it, and every live slot is held by exactly one task |
| `EngineOwnership.EndedTasksSettle` | nestor/src/inflight.rs:66-70 | a task that ended by return, error or cancellation left no slot unsettled |
| `EngineOwnership.SettledOnce` | nestor/src/inflight.rs:53-64 | over every run a slot settles once: whatever happens later, its result and key stay what they were when it was settled, also if the key has a new owner |
| `EngineOnce.FetchedAtMostOnce` | nestor/src/fetch.rs:108-176 | over a cache that does not evict, in every interleaving no scheduled group requests a block, or delivers one it asked for, after any fetch delivered it, what was fetched stays cached, and no two tasks hold slots for one block |
| `EngineOnce.OneHolder` | nestor/src/inflight.rs:101-116 | two tasks never hold slots for the same block |
| `EngineOnce.ExtraBlocksClaimed` | nestor/src/fetch.rs:536-568 | a wider answer is not wasted: every whole block of it around those asked for is by then cached or in flight, if need be for this task |
| `EngineOnce.WholeExactly` | nestor/src/fetch.rs:566-568 | the blocks claimed behind those asked for are those all of whose bytes the answer claims |
| `EngineOnce.AsksOnlyInside` | nestor/src/fetch.rs:332-345 | once the size is known, only groups that start inside the object are asked for |
| `EngineProbes.ProbesFetchTwice` | nestor/src/fetch.rs:279-310 | adopting does not re-check the cache: for every block size there is a run, without evictions, in which a block that was fetched and is cached is being fetched again for a second probe |
| `EngineProbes.PastEndNeverFetched` | nestor/src/fetch.rs:551-555 | only blocks the object has are ever recorded as fetched: those past its end are delivered empty and stay out of the cache |
| `EngineDeliveries.ScheduleDelivers` | nestor/src/fetch.rs:108-176 | for every block size there is a run in which a scheduled read of a block nobody has passes every stage of scheduling and fetching, and its handle yields the block, which is cached and asked for once |
| `EngineStaleness.BoundedStaleness` | nestor/src/meta.rs:33-62 | in every run a read on fresh metadata pins a version none of whose successors was written before now − ttl − a, with a the age of the origin's answer when it was recorded |
| `EngineStaleness.ProbeUnchangedDated` | nestor/src/fetch.rs:248-251 | a not-modified answer soundly renews the entry |
| `EngineStaleness.AcceptDated` | nestor/src/fetch.rs:422-422 | accepting an answer records it with the age it has by then |
| `EngineStaleness.AnswersRecorded` | nestor/src/meta.rs:33-62 | whatever answer a probe, a fetch or a HEAD brings is looked up as fresh for a TTL from then on and as expired after it, and never expires in immutable mode |
| `EngineStaleness.HeldRevalidates` | nestor/src/fetch.rs:212-252 | expired metadata whose ETag is still current is renewed by a probe, which hands out a context for the held version and fetches nothing |
| `EngineStaleness.ContextInsists` | nestor/src/fetch.rs:29-70 | a read of a version asks for blocks under its tag and, outside immutable mode, insists on its ETag |
| `EngineStaleness.ChangedVersionIsStale` | nestor/src/fetch.rs:415-438 | in every run, an answer from a version with another tag than the context's settles every slot of the group as stale, and one from the context's version settles none |
| `EngineStaleness.RefusedSlots` | nestor/src/fetch.rs:386-396 | a missing object settles every slot as not found, and a failed precondition as stale |
| `EngineStaleness.FailedSlots` | nestor/src/fetch.rs:440-456 | in every run a failed attempt settles no slot if another is due, and otherwise each with the error, or with a timeout if only the deadline prevented a retry |
| `EngineStaleness.TtlAloneIsNoBound` | nestor/src/fetch.rs:323-422 | for every TTL, every wait and every block size there is a run in which fresh metadata pins a version that was overwritten a TTL and the wait ago |
| `BlockStreams.BlockStream.NextBlock` | nestor/src/body.rs:41-68 | a finished poll hands out the next bytes of the body and leaves the rest, an unfinished one loses nothing, and it fails only if the body has too few bytes left, with the body's own error or a short read |
| `BlockStreams.BlockStream.Finish` | nestor/src/body.rs:41-68 | awaited to the end it succeeds exactly when the body has the bytes, whatever its chunks |
| `BlockStreams.AfterConcat` | nestor/src/body.rs:52-56 | skipping over chunk boundaries is skipping in the concatenated bytes |
| `HedgedBodies.AdoptedBytes` | nestor/src/body.rs:212-223 | what an adopted backup delivers after its skip is what the owed block starts with |
| `HedgedBodies.AdoptableExactly` | nestor/src/body.rs:212-223 | an answer of some version carries on iff it is the version being read, starts at a block boundary and not past the owed byte |
| `HedgedBodies.HedgedBody.Adopt` | nestor/src/body.rs:212-223 | a backup carries on exactly when it answered with an aligned range of the version being read that does not start past the owed block |
| `HedgedBodies.HedgedBody.HandOver` | nestor/src/body.rs:158-167 | a failed primary is replaced by a backup at the same byte exactly if its error is retryable and there is a backup that can carry on; otherwise its own error is returned |
| `HedgedBodies.HedgedBody.NextAt` | nestor/src/body.rs:129-210 | for every sequence of stalls, openings, wins, failures and hand-overs: an Ok block is the version's bytes and leaves the backup idle and the stream right behind them, an error is returned only if the unhedged primary had failed too and is the primary's own unless a backup took over after a retryable one, and a primary that has the bytes in time wins |
| `HedgedBodies.HedgedBody.NextBlock` | nestor/src/body.rs:129-210 | the same for block i of the object, after which the body is at block i+1 |
| `HedgedBodies.HedgedBody.Successive` | nestor/src/fetch.rs:547-563 | successive calls hand out consecutive bytes of one version, cut as asked; without hedging, for exactly as long as the body has them |
| `HedgedBodies.ConsecutiveJoins` | nestor/src/fetch.rs:547-563 | blocks handed out that way join to one stretch of the version |
| `Readers.Reader.Next` | nestor/src/reader.rs:238-303 | for every environment: terminates, what the stream has yielded over its whole life is a prefix of its range in one version, all of it after a clean end unless the window in use is zero, a restart changes the version only while nothing was yielded, a call that finds nothing in the window and a limit of zero ends the stream as it is; if no block fails for good, cancelled ones coming when asked for again, it fails only for a range past the end, and if the first block is stale and the object resolves to a readable version it goes on with that version |
| `Readers.Reader.Collect` | nestor/src/reader.rs:63-81 | collects all of the range of one version, or an error, if the window in use at the end is at least one block; it succeeds on its version if no block fails for good, however many are cancelled once, unless the range starts past the end; it succeeds with the slice of the renewed version if the first block is stale and the renewed version is readable; and with a read window of zero it yields exactly the blocks already held or, if the size is unknown, one group |
| `Readers.EndsAtNext` | nestor/src/reader.rs:242-245 | a clean end has yielded all the blocks that were asked for |
| `Readers.CompleteExactly` | nestor/src/reader.rs:242-245 | a stream that has not failed has yielded its whole range iff the blocks it got to reach the end of it |
| `ShortReads.Truncated` | nestor/src/reader.rs:185-212 | with a read window of zero, a read of any object longer than one block ends cleanly after the block its probe brought, although nothing fails |
| `Readers.Reader.Fill` | nestor/src/reader.rs:185-212 | afterwards the window still holds the handles of blocks emit to next in order, at most max(read_window, fetch_window, 1) of them, and is empty only if the range is covered or the window in use is zero |
| `Readers.Reader.Extend` | nestor/src/reader.rs:193-211 | whole aligned groups are added until the window is full, the next group does not fit or the range is covered |
| `Readers.Reader.Learn` | nestor/src/reader.rs:171-183 | learning the size cuts range and block count but not what the read yields |
| `Readers.Reader.Serve` | nestor/src/reader.rs:249-274 | a block yields exactly its share of the range; a block with nothing for the read is an error if it is the first and otherwise the end of a complete read |
| `Readers.Reader.Recover` | nestor/src/reader.rs:275-300 | a cancelled block is asked for once more and put in front, on the same version; a stale first block restarts the read once; and anything else ends it with its own error |
| `Readers.Reader.Restart` | nestor/src/reader.rs:214-236 | starts over with nothing yielded on exactly the context and handles the object resolves to now, for the range the request resolves to there, unless it does not resolve or not satisfy the request, with that error |
| `Readers.Reader.Open` | nestor/src/nestor.rs:338-371 | a read starts, with nothing yielded and on the range its request resolves to, exactly if the object resolves and the request is satisfiable |
| `Readers.ProbedWithin` | nestor/src/block.rs:71-80 | the probe's handles lie inside the resolved range and one fetch window |
| `Readers.NextSlice` | nestor/src/block.rs:82-89 | what was yielded plus the slice of block i is what lies before block i+1 |
| `Readers.NothingLeft` | nestor/src/reader.rs:254-261 | a block past the first with nothing for the read means the range is complete |
| `Readers.LastBlock` | nestor/src/reader.rs:268-270 | a short block or the last of the range completes the read |
| `Readers.OneVersion` | nestor/src/reader.rs:238-303 | what a reader yielded is a prefix of its range in every version with the tag it pinned, all of it after a clean end with a window in use of at least one block |
| `EngineReads.EngineServes` | nestor/src/nestor.rs:51-84 | every run of the engine, whichever of its tasks and moments answer a reader's questions, is an environment as the readers rely on, also after later writes |
| `EngineReads.ScheduleBooks` | nestor/src/fetch.rs:108-176 | in every run a finished schedule of lo..hi has one handle for each of those blocks, and each yields that block of the context's version or an error |
| `EngineReads.ProbeResolves` | nestor/src/fetch.rs:212-310 | in every run a probe for the first group of a request resolves it: its handles are for the first blocks of the group, inside the group and the object its context describes |
| `EngineRequests.RunFits` | nestor/src/fetch.rs:108-310 | over every run each schedule, probe and fetch is what it was started for, with as many handles as that calls for |
| `GroupFetches.GroupFetch.Run` | nestor/src/fetch.rs:312-413 | at most max(1, attempts) rounds; every request asks for everything from the first slot that was not settled when it was made, the first one for the whole group; every sleep ends before the deadline; at the end every slot was settled exactly once, with what some attempt made of it, with its block if the last attempt succeeded, as cancelled exactly if no permit came, and as empty as soon as a refused attempt on an object nothing is known about finds that it ends before the group |
| `GroupFetches.GroupFetch.Once` | nestor/src/fetch.rs:332-412 | a round settles slots only with what its attempt made of them or as past the end, and ends with no slot left or with another attempt due before the deadline; what lies past the end of a known size, or of the size found after a refusal when none was known, is settled empty without another attempt |
| `GroupFetches.GroupFetch.RetryOrFail` | nestor/src/fetch.rs:440-456 | another attempt is made exactly if one is due; otherwise every slot left gets the error, or a timeout if only the deadline prevented a retry |
| `GroupFetches.GroupFetch.Consume` | nestor/src/fetch.rs:547-563 | slots are served in order, empty past the end, and it fails exactly if the body fails before the last block the object has, having served what the body delivered |
| `GroupFetches.GroupFetch.Resolve` | nestor/src/fetch.rs:557-562 | the front slot was unsettled, is settled now, and the settled ones stay a prefix |
| `GroupFetches.Retry.Failed` | nestor/src/policy.rs:250-262 | another attempt is due exactly if the error is retryable, attempts are left and the sleep would end before the deadline |
| `GroupFetches.BackoffGrows` | nestor/src/policy.rs:221-225 | delays start at the base, double exactly until they reach the cap or the sixteenth attempt, and stay there |
| `InflightTable.MaskIsRemainder` | nestor/src/inflight.rs:94-99 | masking a hash with a power of two less one is the remainder, so it always names a shard |
| `InflightTable.Inflight.Register` | nestor/src/inflight.rs:101-116 | the sharded table refines one map: the first caller for a key owns a new channel, later ones get the owner's |
| `InflightTable.Inflight.Remove` | nestor/src/inflight.rs:118-123 | removes the key from that map and nothing else |
| `InflightTable.Inflight.Len` | nestor/src/inflight.rs:125-130 | the shard sizes add up to the size of that map |
| `InflightTable.Adopt` | nestor/src/fetch.rs:279-310 | a probe owns its first blocks, inside the object, up to the first that already has an owner, and no other entry changes |
| `InflightTable.Slot.Settle` | nestor/src/inflight.rs:57-64 | takes the entry out and publishes the result once; a settled slot leaves the table alone |
| `InflightTable.Slot.Drop` | nestor/src/inflight.rs:67-71 | an unsettled slot is settled as cancelled, a settled one changes nothing |
| `InflightTable.DropAfterReuse` | nestor/src/inflight.rs:57-71 | dropping a resolved slot after its key was registered again leaves the new owner's entry and the first result alone |
| `Blocks.GroupMisses` | nestor/src/block.rs:149-162 | the groups list the misses in order, each group is consecutive and inside one window-aligned cell, and there are as many groups as places that force a new one |
| `Blocks.FewestGroups` | nestor/src/block.rs:149-162 | no other cover of the misses by such requests has fewer |
| `Blocks.FirstGroupIsRun` | nestor/src/block.rs:149-162 | of any such grouping the first group is the leading run and the others group the rest, so taking leading runs one by one, as the engine does, is grouping |
| `Blocks.DealtByCount` | nestor/src/fetch.rs:166-174 | dealing owner slots out by group counts gives each group the indexes its span covers |
| `Blocks.AlignedTakeStops` | nestor/src/block.rs:164-168 | makes progress, stays inside range and cell, and stops only at the end or at the boundaries grouping cuts at |
| `Blocks.TakesToGroupEnd` | nestor/src/block.rs:164-168 | what is taken ends at the first window boundary past its start, or at the end |
| `Blocks.FirstGroupCovers` | nestor/src/block.rs:71-80 | a probe asks for exactly what the request wants of the cell its first block is in; only a suffix has no such group |
| `Blocks.MachineArithmeticExact` | nestor/src/block.rs:34-49 | the truncating index and the saturating count are exact iff the offset and the size are below 2^32 blocks |
| `Blocks.CountBounds` | nestor/src/block.rs:42-49 | an index is below the count iff its block starts before the end |
| `Blocks.ExpectedBounds` | nestor/src/block.rs:58-69 | a block is empty iff its index is past the count, and short iff it crosses the end |
| `Blocks.TakeBlock` | nestor/src/fetch.rs:547-556 | a stream at a block's start holds that block first and the next block's start behind it |
| `Blocks.Resolve` | nestor/src/block.rs:109-134 | the range is exactly the bytes of the object the request wants, and a request that wants none is refused unless the object is empty and the request names no place in it |
| `Origin.FaithfulExactly` | nestor/src/key.rs:174-197 | equal tags mean equal bytes iff, whenever two versions of an object differ, the object is not immutable and the hashes of their ETags, or without them of their sizes, differ and are not both below 2 |
| `Origin.IdentifiedFaithful` | nestor/src/key.rs:174-197 | so it holds if ETags, or without them sizes, identify the bytes, and ETags and sizes hash without collisions |
| `Origin.ContentTag` | nestor/src/key.rs:174-184 | never the tag of immutable blocks |
| `Origin.ContentGrows` | nestor/src/key.rs:174-197 | later writes never change what a tag stands for |
| `Histogram.EdgeBound` | nestor/src/latency.rs:160-172 | the upper edge of a sample's bucket is above the sample iff the sample is below 2^40 ns, and then by at most an eighth of max(sample, 2^16) |
| `Histogram.BucketMonotone` | nestor/src/latency.rs:160-166 | larger samples never land in smaller buckets |
| `Histogram.WalkFindsRank` | nestor/src/latency.rs:113-121 | the bucket at which the running count reaches r is the bucket of the r-th smallest sample, in whatever order the samples came |
| `Histogram.QuantileBound` | nestor/src/latency.rs:98-122 | so the value returned bounds the r-th smallest sample x: above it iff x is below 2^40, and at most 9/8 of max(x, 2^16) |
| `Histogram.RankExactly` | nestor/src/latency.rs:155-158 | the rank of a quantile is at most the number of samples, and the least with at least that share of them at or below it |
| `Latencies.Latency.Quantile` | nestor/src/latency.rs:98-122 | while no bucket overflows: none iff no sample is visible, otherwise that bound for the sample of the asked-for rank among the visible ones |
| `Latencies.Latency.QuantileAt` | nestor/src/latency.rs:98-122 | for any quantile, over real numbers: none iff no sample is visible, otherwise that bound for the sample at that share of the visible ones |
| `Latencies.Latency.Mean` | nestor/src/latency.rs:85-96 | while the counters fit, the exact floor of sum over count of the visible samples |
| `Latencies.Latency.Observe` | nestor/src/latency.rs:79-83 | the sample joins the current turn, after rotating |
| `Latencies.Latency.Rotate` | nestor/src/latency.rs:130-151 | after any sequence of calls every sample no older than one period is visible and none aged three periods less a nanosecond or more is |
| `Latencies.Latency.Record` | nestor/src/latency.rs:33-37 | the counters of a generation stand for what it recorded, until one overflows |
| `Latencies.Latency.Clear` | nestor/src/latency.rs:39-45 | a cleared generation stands for nothing and the others are untouched |
| `Latencies.Latency.MeanNow` | nestor/src/latency.rs:87-95 | the mean read off the current and the previous generation |
| `Latencies.Latency.QuantileNow` | nestor/src/latency.rs:100-121 | the quantile read off the current and the previous generation |
| `Latencies.StillVisible` | nestor/src/latency.rs:138-150 | for every age up to three periods less two nanoseconds there are calls after which a sample of that age is still the whole mean |
| `ChunkedDecoder.Decoder.Next` | nestor-s3/src/body.rs:69-131 | every poll yields the next part of what the items decode to, or their outcome |
| `ChunkedDecoder.Drain` | nestor-s3/src/body.rs:61-132 | reading to the end yields exactly what the reference decoding of the items says |
| `ChunkedFraming.FeedDecodes` | nestor-s3/src/body.rs:69-131 | with header lines of at most 1023 bytes, output and outcome are those of the concatenated input, however it is split |
| `ChunkedFraming.SplitsAgreeExactly` | nestor-s3/src/body.rs:86-88 | that condition is exact: every split decodes alike iff all header lines reached are that short |
| `ChunkedFraming.LongLineSplits` | nestor-s3/src/body.rs:86-88 | with a longer line some cut of the body changes what is decoded |
| `ChunkedFraming.FindCrlf` | nestor-s3/src/body.rs:57-59 | the first line end, or none if there is none |
| `ChunkedEncoding.HeaderExactly` | nestor-s3/src/body.rs:51-55 | a header line announces n iff its size is n in hexadecimal digits of either case, within a machine word, whatever white space, plus sign and extension are around it |
| `ChunkedEncoding.HeaderRoundTrip` | nestor-s3/src/body.rs:51-55 | in particular it announces the size it was written for |
| `ChunkedEncoding.BadHeader` | nestor-s3/src/body.rs:51-55 | a line whose size has any other character is a bad size |
| `ChunkedEncoding.RoundTrip` | nestor-s3/src/body.rs:50-132 | any list of chunks with any extensions and trailers decodes to its payload |
| `ChunkedEncoding.DecoderRoundTrip` | nestor-s3/src/body.rs:61-132 | so does the decoder, however the body is split |
| `ChunkedEncoding.CutIsAnError` | nestor-s3/src/body.rs:118-123 | a body that ends or fails anywhere before the zero chunk's line ends yields exactly the payload that arrived by then, and the error |
| `ChunkedEncoding.DecoderCut` | nestor-s3/src/body.rs:118-123 | so it does for the decoder, however what arrives is split |
| `ChunkedEncoding.BadTerminatorIsAnError` | nestor-s3/src/body.rs:100-109 | after any chunks, a chunk not followed by a line end is an error once its bytes are out |
| `Codecs.KeyRoundTrip` | nestor/src/key.rs:131-165 | an encoded key followed by any bytes decodes to the key and those bytes iff its name is shorter than 2^32, and its length is the estimated size |
| `Codecs.BlockRoundTrip` | nestor/src/key.rs:37-80 | an encoded block followed by any bytes decodes to itself, but for an empty ETag and what of its time is not whole milliseconds after the epoch, and those bytes, iff its ETag is shorter than 2^16, its data shorter than 2^32 and its time below 2^64 ms, and its length is the estimated size |
| `Codecs.NormalIsStable` | nestor/src/key.rs:69-74 | normal form changes neither data nor size and is reached in one round trip |
| `Codecs.LittleRoundTrip` | nestor/src/key.rs:41-45 | an integer survives exactly when it fits the width it is written in |
| `Rendezvous.New` | nestor-client/src/router.rs:47-60 | nodes with distinct addresses have a ranking by score, then address |
| `Rendezvous.FirstScoresHighest` | nestor-client/src/router.rs:47-60 | the first of a ranking has the highest score, and the lowest address among those |
| `Rendezvous.RankingUnique` | nestor-client/src/router.rs:47-60 | and only one |
| `Rendezvous.OrderIndependent` | nestor-client/src/router.rs:47-60 | clients that list the same nodes in different orders rank alike |
| `Rendezvous.DeletionStable` | nestor-client/src/router.rs:1-3 | deleting a node deletes just that node from every ranking |
| `Rendezvous.AdditionMovesToNew` | nestor-client/src/router.rs:1-3 | adding a node changes a block's owner only to the new node |
| `NodeLoads.LoadIsBalanced` | nestor-client/src/node.rs:91-112 | in every interleaving the in-flight count is the number of live tokens, never wraps, and exceeds the limit by no more than the forced ones |
| `NodeLoads.TryStaysWithinLimit` | nestor-client/src/node.rs:91-107 | a winning `try_acquire` leaves the count within the limit |
| `NodeLoads.UndisturbedTry` | nestor-client/src/node.rs:91-107 | in every reachable state a `try_acquire` nothing disturbs wins, and counts once, iff the count is below the limit |
| `NodeLoads.Primary` | nestor-client/src/router.rs:67-76 | the first node up with room; the limit is passed only when every node seen up was seen full, and then on the first one up, or the first of all if none is |
| `NodeLoads.Secondary` | nestor-client/src/router.rs:78-83 | the first other node up with room, never the primary's address and never past the limit |
| `RoutedReads.Get` | nestor-client/src/read.rs:17-71 | the response is what the block answers chain up to; whatever honest nodes answered it is about the asked-for range and one of the object's versions, whose bytes it is if it has an ETag or the range lies in one block; and if every request is answered in full from one version it is all that was asked for, and no error |
| `RoutedReads.UndisturbedRead` | nestor-client/src/read.rs:45-64 | the same of the chained response, with and without ETags, for every block size and range |
| `RoutedReads.UndisturbedBytes` | nestor-client/src/read.rs:17-71 | in particular a read without a range returns the whole object, and one with a range just that range |
| `RoutedReads.DisturbedRead` | nestor-client/src/read.rs:45-64 | a read that fails at one block delivers everything before that block and what its body delivered, and then the error |
| `RoutedReads.Rest` | nestor-client/src/read.rs:48-64 | the bodies after the first are chained in order until one fails |
| `RoutedReads.RoutedReadIsOneVersion` | nestor-client/src/read.rs:17-71 | with an ETag, or within one block, the body is the asked-for bytes of the one version whose metadata is returned, or ends in an error, whatever is written meanwhile |
| `RoutedReads.FirstTile` | nestor-client/src/read.rs:34-39 | the first request reaches the first block boundary or the end |
| `RoutedReads.NextTile` | nestor-client/src/read.rs:53-57 | every further request starts where the one before ended and is not empty |
| `RoutedReads.LastTile` | nestor-client/src/read.rs:43-44 | the last one ends at the end of the range |
| `RoutedReads.ChainServes` | nestor-client/src/read.rs:48-64 | chained answers of one version tile the rest of the range without gap or overlap |
| `RoutedReads.SplicedWithoutEtag` | nestor-client/src/read.rs:45-45 | without an ETag and past one block, any two versions of one size can be spliced by honest nodes at the first block boundary of any range |
| `RoutedReads.OneVersionExactly` | nestor-client/src/read.rs:17-71 | a routed read is always from the one version whose metadata it returns iff the caller insists on an ETag, or every version has one, or the range lies in one block |

## Left out

- The block cache's own library, its disk tier, eviction policy and admission counters: the cache is a map that may lose entries at any step.
- The scheduler, semaphore fairness and memory orderings: steps are atomic and interleave in any order.
- Hash functions, signatures and percent-encoding: hashes are arbitrary functions.
- Rounding of floating point: a quantile is a real number and a hedge delay is arbitrary.
- HTTP routing, forwarding, XML, headers and preconditions, and the request-body capture: plumbing around the parts modelled.
- Configuration, command line, admin server, telemetry, dashboards, benchmarks and the end-to-end harness.
- Store adapters, cluster membership and DNS refresh: thin wrappers over libraries.
- Readahead detection and metrics: they do not change what is served.
- The peeked first chunk of the public read handle: it hands on what the reader yields.
- The liveness of waiting: a handle stands for what waiting on it will yield, and a run may end before it does.
- `past_end` inside a fetch group retries on its own schedule, so the group's deadline does not bound its time; its outcome is part of the model and its duration is not bounded.
- Races between two rotations of the latency window: calls are taken one at a time.
- Latencies.Latency.Rotate: takes the time since the epoch as a number that fits 64 bits, as it does for the first 584 years.
- Latencies.Latency.Record: the counters of the three generations are rows of shared arrays and not separate objects.
- ChunkedEncoding.HeaderRoundTrip: a size is trimmed of ASCII white space only; the source also trims the other Unicode white space.
- NodeLoads.Primary: works on what a search saw of each node; how long a node stays down is not modelled.
- Rendezvous.New: the source calls a library sort; any sort gives the ranking, because there is only one.
