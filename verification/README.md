# Verified model of an at-least-once Kafka-to-S3 sink

The sink routes Kafka records to streams, appends their printed lines to one active file per stream, seals
files by size, by age or at shutdown, uploads them concurrently with retries, and commits, per partition, the
offset below which every record is known to be uploaded. Streams and partitions are many-to-many, so the
offsets of a partition are scattered over several files whose uploads finish in any order.

The project models the state machine, the event loop around it, the file registry, the serializer, the router
and the key generator, and proves what they are for: whatever happens - rebalances, failed uploads, lost or
late commits, crashes, shutdowns - no committed record is missing from the store.

## How it is organised

- `DataModel`, `Text`, `OrderedSet`, `Sums`: the values that flow through the sink, and small theories of
  splitting, ascending sets and sums.
- `Utf8`, `Router`, `KeyGenerator`, `JsonGrammar`, `JsonSerializer`: stream identifiers, object keys, and record
  lines, against RFC 3629 and the grammar of RFC 8259.
- `Config`, `Settings`: the state machine is proved correct for any routing, printing and key function;
  `Settings.Configure` supplies those of the sink.
- `Ledger`: a history of consumed records, the yardstick for offset lists and files.
- `FileRegistry`, `StateMachine`, `EventLoop`: the classes, updated in place as in the source. Each method is
  proved to do what a function of `FileRegistry`, `MachineModel` or `SinkModel` says, for any order in which a
  hash map yields its keys; the theorems are about those functions.
- `Sealing`: when files are sealed. `Answers`: what each request is answered with and leaves, in terms of the state
  before it alone. `MachineInvariant`: what every request keeps.
- `World`: the sink among its surroundings as a transition system. `WorldInvariant`, `AtLeastOnce`,
  `EndToEnd`: at-least-once delivery, down to bytes. `Group`: the same for a whole consumer group.
- `Track`, `MachineRuns`, `CommitRuns`: the commit scan over every run, one partition at a time.
- `Agreement`: streams, registry and uploads agree. `Disk`: no file is forgotten.
- `Accounting`, `Books`: conservation of offsets and uploads in flight. `Progress`, `Retries`: bounded work.
- `CalmRuns`, `Shutdown`: graceful shutdown and discarded uploads. `Witnesses`: runs in which a promise is
  not met.

## Environment

`World.Enabled` states what is assumed of the surroundings. After its assignment a partition is read from the
group's committed offset on: each record delivered is the first one of the log at or above the consumer's
position. No record of a partition is delivered while the consumer does not own it. A commit list handed to the
consumer may reach the broker at any later time, several times or never, also after a crash. A crash can happen
at any point and keeps the disk, the store, the committed offsets and the commits on their way; a commit the
consumer refuses, or any other error that ends the program, is a crash. Rebalances may happen at any time.
Commit ticks may carry any assignment. Other members of the consumer group may store objects and commit at any
time; a run of `World` relies on their objects holding the lines they list and on their commits being covered,
and `Group.MemberRun` shows that members that run this sink give that to each other, so nothing is assumed of a
group as a whole. A partition may move between members at any time. An upload succeeds or fails in any order; a
successful one has stored the file as it is on the disk at that moment. Paths drawn from a counter stand for
UUIDs. The store is the list of all objects ever put; `AtLeastOnce.AtLeastOnceInBucket` reads it as a bucket
with one object a key, under the hypothesis that no two different objects are put under one key, and
`EndToEnd.CommittedRecordsInBucket` derives that from different UUIDs of one length (a key has eight characters of
a UUID in it).

## Where the code does not meet a promise

- "No committed offset passes an offset of a discarded upload" is false in general
  (`Witnesses.DiscardedOffsetPassed`). `Shutdown.LastCommitPasses` says, for every run, exactly when the last
  commit passes an offset: when it lies below the first offset of the partition delivered since the last reset,
  or when all offsets from that one up to it have landed since then. A reset is the handling of a revocation of
  the partition, or a commit tick that does not find it assigned; after the latter the partition goes on from the
  watermark it has. So a discarded offset is passed if it was committed before the partition came back, or if
  another upload, after a redelivery or from before the revocation, stored it. It is never passed if the partition
  was kept since the program started (`Shutdown.LastCommitStopsAtDiscarded`), and whenever it is passed the record
  is in the store (`Shutdown.PassedDiscardsAreDelivered`).
- A stream whose records were all skipped has no file, so sealing it is fatal (`Witnesses.SkippedStreamEndsRun`);
  `Agreement.SealingOutcome` and `Shutdown.DrainReached` say exactly when a seal and a shutdown succeed.
- A gap in a partition's offsets stops its commits (`Witnesses.GapStopsCommits`): `Shutdown.GracefulShutdown` says
  exactly when the last commit reaches the end.
- Stream identifiers with the delimiter inside a component collide (`Router.DelimiterCollides`); they decode
  exactly when no component has one (`Router.IdDecodes`).
- A payload with a raw newline breaks the framing of its file; `EndToEnd.FileFraming` is exact about it.
- During the drain the counter of uploads in flight is too high by the number of failed uploads, since their
  retries are neither started nor subtracted (`Books.UploadsInFlight`), and local files are not deleted.

## Model

| member | source | states |
|---|---|---|
| `AtLeastOnce.AtLeastOnce` | README.md:2 | In every run, each log record from its partition's initial position up to the group's committed offset, or up to any commit still on its way, is safe: a stored object under its stream's key lists its offset, holds the lines of records of which it is one, and so has its line |
| `AtLeastOnce.ReachableOk` | src/sink.rs:65-132 | The world invariant holds in every reachable world: committed offsets, commits under way and watermarks are covered by stored objects; streams, files and outstanding uploads agree; owned partitions without a watermark are read from a covered position |
| `AtLeastOnce.StepOk` | src/sink.rs:65-179 | Every event - turn, drain step, final commit, assignment, revocation, late commit, crash, other members' work - keeps the world invariant |
| `AtLeastOnce.RequestHandled` | src/state_machine.rs:134-170 | Every request other than a revocation keeps the machine sound, commits only covered offsets, hands out sound uploads and asks to delete only files that no stream and no outstanding upload needs |
| `AtLeastOnce.RequestExpected` | src/sink.rs:95-107 | Because pending revocations are handled first, the request that follows is one the machine can expect: a first record of an unwatermarked partition starts at a covered offset |
| `Group.GroupAtLeastOnce` | README.md:2 | At-least-once in every run of a group of any number of members, with rebalances between them: what any of them sees committed, or may still commit, is safe in the shared store |
| `Group.MemberRun` | src/sink.rs:65-179 | Each member of a group goes through a run of its own in which the other members do just what a run relies on |
| `Group.GroupStepOk` | src/sink.rs:65-179 | Every step of a member keeps all members sound and what they share equal |
| `AtLeastOnce.AtLeastOnceInBucket` | src/key_generator.rs:35-40 | With the store read as a bucket, one object a key: if no two different objects share a key, each record below the committed offset is in the bucket |
| `WorldInvariant.RevocationsOk` | src/sink.rs:95-104 | Handling the pending revocations keeps machine and uploads sound, and leaves a watermark exactly to the partitions none of them names |
| `WorldInvariant.RevokedDeletes` | src/state_machine.rs:187-191 | A revocation asks to delete only files that no remaining stream and no outstanding upload uses |
| `WorldInvariant.CommitOk` | src/state_machine.rs:415-483 | Every offset a commit scan lists is covered, and watermarks stay covered |
| `WorldInvariant.Dispatched` | src/sink.rs:106-131 | Unless a fatal response stops it, the loop carries out all responses: uploads join the pool in order, deletions happen, and only a final request to drain leads into the drain |
| `WorldInvariant.StopsIfFatal` | src/sink.rs:106-134 | The loop stops if and only if a response is fatal, and enters the drain if and only if none is and the last one asks for it |
| `AtLeastOnce.StoredDelivers` | src/state_machine.rs:228-262 | A stored object that lists a record's offset is made of records of which it is one, and has its line unless the serializer skipped it |
| `EndToEnd.CommittedRecordsAreFound` | README.md:2 | At-least-once with the sink's own router, serializer and keys: the record's JSON line is in an object keyed by its stream identifier, and is one of the lines the object splits into if no payload in it has a newline, unless the record's payload is null or decodes to nothing; a payload that does not decode is never committed |
| `EndToEnd.SettingsMean` | src/sink.rs:58-63 | What the settings make of a record: a stream if and only if its topic is configured, and the outcomes of serializing it |
| `EndToEnd.RecordEndsSettings` | src/state_machine.rs:215-297 | In every run of the sink with its settings, a record ends it if and only if its topic is not configured, its payload does not decode, or it has data that cannot be written or fills a file that cannot be closed |
| `EndToEnd.CommittedRecordsInBucket` | src/key_generator.rs:18-40 | With different UUIDs of one length, each record below the committed offset is in the store read as a bucket |
| `EndToEnd.GroupRecordsAreFound` | README.md:2 | The same in every run of a group |
| `MachineInvariant.ConsumedInv` | src/state_machine.rs:228-262 | Consuming a record keeps every active file equal to the lines of exactly the records its stream lists, and touches no sealed file |
| `MachineInvariant.ProcessInv` | src/state_machine.rs:215-297 | Processing a record without a fatal error keeps the machine sound and every sealed file untouched; a sealed file carries the offsets of exactly the records whose lines it holds |
| `MachineInvariant.SealInv` | src/state_machine.rs:380-413 | Sealing a stream keeps the machine sound, touches no other sealed file, and hands out a sound upload of a file that was still active |
| `MachineInvariant.SealAllInv` | src/state_machine.rs:199-213 | Sealing several streams one after the other does so too, and the files of all uploads stay distinct |
| `MachineInvariant.TakenOut` | src/state_machine.rs:180-191 | Taking streams out with their files leaves the other streams, files and sealed files as they were |
| `Agreement.RegistryAgrees` | src/state_machine.rs:249-291 | In every reachable state the registry has a file for exactly the streams with bytes, the byte count is the file's length, and the file holds the lines of exactly the listed records, in order |
| `Agreement.SealingOutcome` | src/state_machine.rs:389-412 | Sealing a stream fails for want of a file if and only if all its records were skipped; otherwise it yields an upload with the full content and offsets unless closing fails |
| `Agreement.RecordEndsRun` | src/state_machine.rs:215-297 | In every reachable state a record ends the run if and only if its topic is unknown, its payload does not decode, its line cannot be written, or it fills a file that cannot be closed; never for a missing file |
| `Agreement.RecreatedStreamStartsEmpty` | src/files/disk_file_registry.rs:34-49 | A stream created again gets a path no file on the disk has, and its file holds just the new line |
| `Agreement.OutstandingFilesSafe` | src/state_machine.rs:348-375 | In every reachable state an outstanding upload still has its file with the content and sizes it was sealed with, and no stream or other upload uses that path |
| `Agreement.MarkedOffsetsAreReal` | src/state_machine.rs:361-370 | Every offset marked as uploaded, stale or not, belongs to a record that is safe in the store |
| `Disk.NoFileForgotten` | src/sink.rs:123-125 | While the loop runs, every file created in a program's life is active or awaits its upload: seals, completions and revocations forget none |
| `Disk.AllDeleted` | src/state_machine.rs:187-191 | A revocation asks to delete the file of every stream it takes out |
| `Sealing.SealedBySize` | src/state_machine.rs:249-294 | A record seals its stream's file if and only if it was written, the file has reached its size and the uploader has room; byte and record counts are right, other streams unchanged |
| `Sealing.SealedByAge` | src/state_machine.rs:313-338 | An upload tick takes out only streams created by the cut-off, one answer each, and never more than the limit on uploads leaves; if the limit is not reached, no such stream remains |
| `Answers.RevocationAnswer` | src/state_machine.rs:172-197 | A revocation keeps a stream if and only if it lists an offset of a partition that is kept; the others leave with their files, and exactly those files are asked to be deleted; exactly the revoked partitions are forgotten |
| `Answers.CompletionAnswer` | src/state_machine.rs:340-378 | A failed upload is handed out again with one retry less and all else unchanged, or is fatal without one; a success adds exactly its offsets and asks for the deletion of its file; a final outcome takes one off the counter modulo 2^64 |
| `Answers.CommitAnswer` | src/state_machine.rs:299-311 | A commit tick is answered asynchronously and the final request synchronously, with one list; entries of uploaded offsets stay exactly for assigned partitions with offsets left or no watermark |
| `Answers.RecordAnswer` | src/state_machine.rs:215-297 | The answer to a record in every case, with the error of each failure |
| `Answers.SealAnswer` | src/state_machine.rs:380-413 | Sealing takes the stream and its file out in any case, counts an upload exactly when it answers with one, and carries the path, sizes, offsets, age, key and retries |
| `Answers.PolledRequest` | src/sink.rs:66-93 | The request for each event the loop wakes up to; only a finished upload leaves the pool |
| `Sealing.SealAllSucceeds` | src/state_machine.rs:389-395 | Sealing several streams is fatal if and only if one of them has no file or its file cannot be closed |
| `Sealing.SealedAtShutdown` | src/state_machine.rs:199-213 | A shutdown signal takes out every stream, ignoring the limit on uploads, and asks for the drain last |
| `Track.CommitRefinesSimple` | src/state_machine.rs:444-475 | The scan over the garbage-collected set computes the simple definition: the least offset, from the first one recorded since the last reset, missing from all offsets uploaded since then |
| `Track.TickFinds` | src/state_machine.rs:444-475 | One tick finds that offset whenever the collected set stands for the full one |
| `Track.CommitsIncrease` | src/state_machine.rs:457-465 | Between revocations committed offsets strictly increase and the watermark is the last of them |
| `Track.StaleIgnored` | src/state_machine.rs:437-449 | Offsets reported below a watermark change neither commits nor the watermark |
| `Track.SilentFrom` | src/state_machine.rs:437-442 | Without a watermark nothing is committed, whatever completions arrive |
| `MachineRuns.ScanProjects` | src/state_machine.rs:415-483 | The scan over all partitions is, partition by partition, one tick of a track, and lists exactly the partitions that advance |
| `MachineRuns.Projects` | src/state_machine.rs:134-170 | Each request acts on a partition's track as the event it means to that partition, and commits what the track commits |
| `MachineRuns.RetainedAboveWatermark` | src/state_machine.rs:467-475 | After a commit tick everything kept for an assigned, watermarked partition lies strictly above its watermark |
| `CommitRuns.WholeRunProjects` | src/sink.rs:65-179 | Every stretch of a run between crashes is, partition by partition, a run of tracks, and hands to the consumer what they commit |
| `CommitRuns.IncrementalCommit` | src/state_machine.rs:361-483 | In every run, after a commit that finds the partition assigned, the watermark is the least offset, from the first one delivered since the last reset, that has not landed since then, and exactly the landed offsets above it are kept |
| `CommitRuns.FindReset` | src/state_machine.rs:193-196 | Every stretch has such a last reset, or else its first event serves |
| `CommitRuns.StandsSinceReset` | src/state_machine.rs:361-483 | At every point since the last reset the collected set and the watermark stand for what was delivered and what has landed |
| `CommitRuns.StartsUntracked` | src/state_machine.rs:193-196 | A program start, and a revocation of the partition, leave nothing tracked for it |
| `CommitRuns.CompletionOrderIrrelevant` | src/state_machine.rs:361-480 | Two runs in which a partition is committed from the same offset and the same offsets have landed since the last reset end with the same watermark and uncollected offsets, however completions and ticks interleave |
| `CommitRuns.CommitsOnlyAdvance` | src/state_machine.rs:457-465 | In every run the offsets handed to the consumer for a partition strictly increase, above its watermark, until a revocation of it is handled |
| `CommitRuns.LateCompletionsSilent` | src/state_machine.rs:193-196 | In every run, once a turn has handled a revocation of a partition, no commit names it until one of its records is delivered, whatever completions arrive |
| `CommitRuns.SilentUntilDelivered` | src/state_machine.rs:437-442 | In every run a partition without a watermark is not committed until one of its records is delivered |
| `CommitRuns.StaleOffsetsIgnored` | src/state_machine.rs:426-449 | In every run, after reassignment, the commits are those of the same stretch without the offsets reported below the new watermark |
| `Books.OffsetsConserved` | src/state_machine.rs:172-413 | In every run until the drain, an offset was consumed as often as it is listed in active streams, outstanding uploads and successful uploads together, plus what revocations dropped, which is nothing for a partition never revoked |
| `Books.UploadsInFlight` | src/state_machine.rs:348-397 | In every run the counter equals the outstanding uploads and is within the limit until the drain; in the drain it exceeds them by the failed uploads; it is positive whenever an upload can complete |
| `Books.ReachableBooked` | src/state_machine.rs:134-170 | The balance of offsets, the counter and the origin of dropped records hold in every reachable world |
| `Accounting.RequestAccounts` | src/state_machine.rs:134-170 | Every request other than a revocation balances consumed, active and handed-out offsets, adjusts the counter by the uploads, respects the limit except at shutdown, and lowers the work left |
| `Accounting.RevokedBalances` | src/state_machine.rs:180-191 | What a revocation drops is what the streams it takes out had listed |
| `Progress.WorkIsBounded` | src/state_machine.rs:340-413 | While no record arrives, seals and completions are bounded by (maximum retries + 2) times the streams plus the sum of (retries + 1) over outstanding uploads |
| `Progress.StepWork` | src/state_machine.rs:340-413 | Each seal and each completion takes at least one unit off that measure |
| `Retries.TriesAreBounded` | src/uploader/s3_uploader.rs:87-97 | A file is tried at most maximum + 1 times, and an outstanding upload was tried before exactly maximum - retries times, so the attempt number never underflows |
| `Retries.RequestFrom` | src/envelopes.rs:65-71 | An upload handed out is either of a file still active before, with all retries, or the failed upload reported, with one retry less |
| `Shutdown.GracefulShutdown` | src/sink.rs:151-179 | When the last commit is reached and no drained upload failed: no streams, files or uploads, counter zero; a partition kept since the start is committed to the least offset not consumed, which is its last offset + 1 with nothing left over if and only if its log is contiguous |
| `Shutdown.DrainReached` | src/sink.rs:106-134 | A shutdown signal leads into the drain if and only if every stream that survives the pending revocations has bytes and its file can be closed; otherwise the sink stops |
| `Shutdown.DrainIsEvents` | src/sink.rs:151-179 | The drain is a completion event for each outstanding upload followed, unless one is fatal, by the last commit |
| `Shutdown.CommitPasses` | src/state_machine.rs:444-465 | A commit passes an offset if and only if it is below the watermark or all offsets from the watermark up to it are marked as uploaded |
| `Shutdown.LastCommitStopsAtDiscarded` | src/sink.rs:158-178 | For a partition kept since the program started the last commit passes no offset of a discarded upload |
| `Shutdown.PassedDiscardsAreDelivered` | src/sink.rs:158-178 | In every run, if the last commit passes a record of a discarded upload, another upload has delivered it |
| `Shutdown.LastCommitPasses` | src/sink.rs:158-178 | In every run, the last commit passes an offset of a partition it finds assigned if and only if the offset lies below the first one delivered since the last reset or all offsets from that one up to it have landed since then |
| `Witnesses.DiscardedOffsetPassed` | src/sink.rs:158-178 | A run of the sink with a revocation and a redelivery whose last commit passes an offset of a discarded upload |
| `Witnesses.SkippedStreamEndsRun` | src/state_machine.rs:294-294 | A run of the sink with one record of a null payload, in which the shutdown signal ends the run without a drain |
| `Witnesses.GapStopsCommits` | src/state_machine.rs:449-455 | A run of the sink in which both records of a log with a gap are stored and the commit stops at the gap |
| `CalmRuns.StepCalm` | src/sink.rs:65-179 | While a partition is kept, its records are consumed once each in log order, and what is tracked stands for what was consumed and what landed |
| `Shutdown.LastCommitTracks` | src/state_machine.rs:299-304 | The last commit reaches the least offset, from the first consumed one, that has not landed |
| `StateMachine.OffsetToCommit` | src/state_machine.rs:444-455 | The scan loop finds the least offset from the watermark on that is not in the set |
| `StateMachine.StateMachine.constructor` | src/state_machine.rs:102-121 | A new machine tracks nothing and has an empty history |
| `StateMachine.StateMachine.Handle` | src/state_machine.rs:134-170 | Handling a request gives exactly the state and responses of the model |
| `StateMachine.StateMachine.HandleProcessRecord` | src/state_machine.rs:215-297 | Proved equal to the model: unknown topic, listing, skipped record, serialization and write errors, seal by size |
| `StateMachine.StateMachine.Note` | src/state_machine.rs:228-247 | Lists the offset under its stream and gives the partition a watermark if it has none |
| `StateMachine.StateMachine.Write` | src/state_machine.rs:249-292 | Appends the line, counts its bytes, and seals the file when it is full and there is room |
| `StateMachine.StateMachine.HandleUploadTick` | src/state_machine.rs:313-338 | Proved equal to the model of sealing by age |
| `StateMachine.StateMachine.SealDormant` | src/state_machine.rs:321-337 | The loop seals dormant streams in iteration order while there is room |
| `StateMachine.TickedIs` | src/state_machine.rs:321-337 | Sealing while iterating is the same as first choosing the dormant streams and then sealing them |
| `StateMachine.StateMachine.HandleShutdownSignal` | src/state_machine.rs:199-213 | Proved equal to sealing every stream and asking for the drain |
| `StateMachine.StateMachine.HandleUploadCompletion` | src/state_machine.rs:340-378 | Proved equal to the model: retry, failure for good, success |
| `StateMachine.StateMachine.ExtendUploaded` | src/state_machine.rs:364-370 | The loop adds every reported offset, in any order of partitions |
| `StateMachine.StateMachine.CloseAndUpload` | src/state_machine.rs:380-413 | Hands out the closed file with its offsets and counts it, or reports why it cannot be closed |
| `StateMachine.StateMachine.HandleRevokePartitions` | src/state_machine.rs:172-197 | Proved equal to the model of a revocation |
| `StateMachine.StateMachine.RemoveRevoked` | src/state_machine.rs:180-191 | The loop takes out exactly the streams all of whose partitions are revoked, with their files |
| `StateMachine.StateMachine.ForgetPartitions` | src/state_machine.rs:193-196 | The loop removes watermarks and uploaded offsets of exactly the revoked partitions |
| `StateMachine.StateMachine.HandleCommitTick` | src/state_machine.rs:306-311 | Answers with the list of the commit scan, to be committed asynchronously |
| `StateMachine.StateMachine.HandleFinalCommit` | src/state_machine.rs:299-304 | Answers with the list of the commit scan, to be committed synchronously |
| `StateMachine.StateMachine.MakeTopicPartitionList` | src/state_machine.rs:415-483 | The scan, in any order of partitions, lists and advances exactly the partitions whose uploaded offsets reach further, and keeps exactly what is above |
| `StateMachine.StateMachine.CollectGarbage` | src/state_machine.rs:477-480 | Removes exactly the entries found empty or unowned |
| `FileRegistry.DiskFileRegistry.constructor` | src/files/disk_file_registry.rs:26-32 | A new registry has no active files |
| `FileRegistry.DiskFileRegistry.WriteAll` | src/files/disk_file_registry.rs:46-49 | Appends to the stream's file, created on a fresh path if there is none; if creating fails nothing changes, if writing fails the file stays registered with whatever landed in it |
| `FileRegistry.WriteLeaves` | src/files/disk_file_registry.rs:34-49 | A write leaves the stream with a file, on its old path or a fresh one, grown by the bytes or by whatever landed, and touches no other file; only a failure to create leaves everything as it was |
| `FileRegistry.DiskFileRegistry.Close` | src/files/disk_file_registry.rs:51-58 | Gives up the stream's file and returns its path, or the error of a missing file or a failing disk; the compressed size is left out |
| `FileRegistry.DiskFileRegistry.Revoke` | src/files/disk_file_registry.rs:64-68 | Gives up the stream's file, if any, and returns its path |
| `EventLoop.Sink.Turn` | src/sink.rs:65-132 | One turn is the model's: selection, then all pending revocations, then the request, then its responses |
| `EventLoop.Sink.Select` | src/sink.rs:66-93 | A finished upload leaves the pool and becomes a completion |
| `EventLoop.Sink.ProcessRevocations` | src/sink.rs:95-104 | Handles the pending revocations in order and deletes the files they give up |
| `EventLoop.Sink.Dispatch` | src/sink.rs:106-131 | Carries out responses in order until one leaves the loop; the earlier ones have taken effect |
| `EventLoop.LeftLoop` | src/sink.rs:106-131 | Once a response has left the loop the remaining ones do nothing |
| `EventLoop.Sink.Respond` | src/sink.rs:108-130 | What each response does to the pool, the commits, the disk and the loop |
| `EventLoop.Sink.HandleCommit` | src/sink.rs:181-190 | An empty commit list is not committed |
| `EventLoop.Sink.DrainPool` | src/sink.rs:158-166 | The drain completes every upload, ignores retries and stops at a fatal response |
| `EventLoop.Sink.CommitLast` | src/sink.rs:168-176 | Commits synchronously for the last time |
| `EventLoop.Sink.DrainAndShutdown` | src/sink.rs:151-179 | The whole drain, for any order of completions |
| `JsonSerializer.JsonSerializer.Serialize` | src/json_serializer.rs:28-81 | Yields the line of the record, nothing for a null or empty payload, an error for an undecodable one; the buffer holds the line |
| `JsonSerializer.JsonSerializer.AppendHeaders` | src/json_serializer.rs:57-76 | The loop appends the text of exactly the headers the filter keeps, in order |
| `JsonSerializer.SerializedOutcomes` | src/json_serializer.rs:33-81 | A record is skipped if and only if it has no payload or one that decodes to nothing, fails if and only if it has one that does not decode (schema framing needs five bytes and a first one of zero), and otherwise prints the decoded data |
| `JsonSerializer.LineIs` | src/json_serializer.rs:54-78 | A line written out: the data, the headers whose key and value are plain JSON strings, in order, each prefixed with x-, and a newline |
| `JsonSerializer.HeadersRoundTrip` | src/json_serializer.rs:57-80 | A parser of what follows the payload recovers exactly the kept headers, in order |
| `JsonSerializer.FilterIsExact` | src/json_serializer.rs:83-85 | The filter passes exactly the bytes that make a JSON string, between quotation marks, without escapes |
| `JsonSerializer.LineIsObject` | src/json_serializer.rs:54-80 | If the payload is a JSON text, the line without its newline is a JSON object |
| `JsonSerializer.LineFraming` | src/json_serializer.rs:54-80 | A line ends in a newline and has another one if and only if its payload has |
| `EndToEnd.FileFraming` | src/json_serializer.rs:54-80 | Splitting a file at newlines gives back exactly its printed records, in order, if and only if no payload has a newline |
| `EndToEnd.StoredObjectsSplit` | src/state_machine.rs:249-262 | In every run each stored object lists the offsets of log records of one stream, is keyed by that stream, and splits into their lines if no payload has a newline |
| `Router.FindHeader` | src/record/router.rs:30-43 | The first header with the key whose value is present, UTF-8 and not empty; unusable ones are passed over |
| `Router.WriteId` | src/record/router.rs:22-28 | Leaves the identifier of the record's stream in the buffer, whatever was in it |
| `Router.GroupByTopicVersion` | src/record/router.rs:45-55 | Appends schema name and version, joined by the delimiter |
| `Router.GroupByDlq` | src/record/router.rs:57-75 | Appends topic, schema name, version and status code, joined by the delimiter |
| `Router.TopicVersionId` | src/record/router.rs:45-55 | The identifier is the schema name, the delimiter and the schema version, each the first usable header value or the fallback, and splits into them if neither has the delimiter |
| `Router.DlqId` | src/record/router.rs:57-75 | The identifier of a dead letter is the topic, the schema name, the version and the status code in that order, with the prefix of the last, and splits into them |
| `Router.LookupSays` | src/record/router.rs:30-43 | A lookup yields the one value the headers say: that of the first header with the key whose value is non-empty UTF-8 text, or the fallback if there is none |
| `Router.RouterNames` | src/record/router.rs:12-20 | The delimiter, header names, fallbacks and prefix, letter by letter |
| `Utf8.ValidIsUtf8` | src/record/router.rs:36-36 | The validity test accepts exactly the encodings of sequences of Unicode scalar values |
| `Router.IdDecodes` | src/record/router.rs:45-75 | Splitting an identifier gives back its components if and only if none holds the delimiter |
| `Router.IdsDistinguish` | src/record/router.rs:45-75 | Without delimiters in components, identifiers agree if and only if strategies and components agree |
| `Router.DelimiterCollides` | src/record/router.rs:45-55 | With the delimiter inside a schema name, records of different schemas share an identifier |
| `KeyGenerator.KeyDecodes` | src/key_generator.rs:18-31 | A key splits into the components of its stream, the day segment and the file name if and only if no component has a slash |
| `KeyGenerator.DirectoryDeterminesStream` | src/key_generator.rs:18-31 | Without slashes in the components, the prefixes of two keys before the date segment agree if and only if the streams do |
| `KeyGenerator.KeyDeterminesStream` | src/key_generator.rs:18-31 | Two equal keys of this kind, whatever clocks and UUIDs they were made with, belong to one stream and one day |
| `KeyGenerator.KeysDistinguish` | src/key_generator.rs:18-31 | Without slashes, keys made with UUIDs of one length agree if and only if the streams, days, times and UUIDs do |
| `KeyGenerator.KeyIs` | src/key_generator.rs:18-31 | A key written out: components, day, time and UUID with their separators and extension |
| `KeyGenerator.KeyPrefix` | src/key_generator.rs:18-31 | A key is its stream's prefix, the identifier with slashes for delimiters, then the date segment and the file name |
| `Text.SplitJoin` | src/key_generator.rs:19-30 | Splitting undoes joining if and only if no part holds the delimiter |
| `Text.JoinSplit` | src/key_generator.rs:19-30 | Joining always undoes splitting |

## Left out

- The Kafka client, its callbacks, tokens and fetching: kept are revocation messages and the environment above.
- Rebalances that reach the consumer between a record's receipt and the draining of the rebalance channel: a
  record whose partition is revoked in that window is excluded by the environment.
- S3 transfer, back-off sleeps and object metadata: an upload is an item that completes with success or failure.
- zstd compression and compressed sizes: a file is the sequence of bytes written to it.
- What a failed close leaves in a file: such a failure is fatal and ends the run.
- Failure of the client library to add an entry to a commit list.
- The widths of byte counts, record counts and offsets: they are unbounded here; the in-flight counter's 64-bit
  decrement is modelled.
- The cache of stream identifiers, allocation and capacities.
- Statistics, logging and disk-space reports.
- Timers, signals and the bias of the select: any request may come next.
- Clock and date formatting, and the distinctness of UUIDs: they are inputs, or a counter for paths.
- Hash-map iteration order changing within one turn: one order, chosen freely each turn, serves all loops of it.
- Command line, configuration files and start-up.
- StateMachine.StateMachine.CloseAndUpload: leaves out the compressed size of the sealed file, which only metadata use.
- FileRegistry.DiskFileRegistry.Close: leaves out the compressed size it returns, for the same reason.
- EventLoop.Sink.HandleCommit: a commit that the consumer refuses is not an outcome of it; as it ends the program, a run has it as a crash.
- StateMachine.StateMachine.HandleUploadTick: the system clock is a parameter, and the cut-off is an integer in milliseconds.
