# AeroMQ: a verified model

AeroMQ is a small message broker. Brokers written in Rust keep each partition as
a segmented log with a cold tier and replicate it by pulling; a controller
written in Go keeps brokers, topics, consumer groups and committed offsets as a
replicated state machine; a Go client speaks a binary protocol to the brokers.
This project models the three parts and how they fit together, and proves what
they promise. `dafny verify dfyconfig.toml` checks everything.

## The parts

**One partition on one broker.** `Bytes`, `FileNames`, `LogFiles`, `Search`,
`Recovery` and `TieredLog` (file `PartitionLog.dfy`) follow the log from bytes to
meaning. Directories are maps from file identities (log or index file of a base
offset) to contents and modification times; names appear where a directory is
listed. The class `TieredLog.PartitionLog` has the fields of the source and a
ghost record of the segments its files stand for. What the rest of the system may
know of it is a value, `View()`: the sequence of payloads, the replica list, the
recorded progress and the high watermark (`Replicas.Replica`). `Append` adds one
payload to that value whatever rolls over or is deleted meanwhile, and
`ReadFromOffset` designates the bytes that `Replicas.Read` gives for the sequence.

**One partition on several brokers.** `Replication` is a transition system with
the steps produce, begin a fetch, serve, lose, deliver, abort, reconcile,
consume and restart. Requests may be overtaken, lost or served after their run has failed,
and a follower may have any number of runs in progress. `ReplicationLimits` shows
where the conditions of the results are needed.

**The data port.** `Utf8` and `Wire` give the frames, `DataServer` the table of
open partitions and the connection loop, `Sessions` what a whole connection does,
`Follower` a replication run in bytes, `Consumer` the client's consume loop.
`Simulation` ties it to `Replication`: real logs and bytes in flight stand for a
state, and every operation on them is one step of the transition system.

**The controller.** `ClusterState` (file `Cluster.dfy`), `Failover`, `Placement`,
`Groups`, `OffsetKeys` and `Controller` hold the class `Controller.FSM` and the
relation `Controller.Next` it is proved against. Every iteration over a Go map is
an arbitrary order: the methods pick any remaining element, and the relation says
that some order exists, so what is proved holds for all. Clock readings are
arguments of the commands. `ControllerEffects` says what each command does field by
field and in plain numbers, and what that makes of liveness and offsets over whole
runs; `ControllerRuns` proves the invariant of all reachable states, `Heartbeats`
the answer to a heartbeat.

**Together.** `System` runs brokers, heartbeats, network and controller at once.
Its main results, `ServedSurvivesFailover` and `PrintedSurvivesFailover`, say that
every message a leader has served, and every message the client's consume loop
has printed, is still there, at the same offset with the same bytes, on whichever
broker the controller's next sweep elects.

## What the results rest on

These are preconditions of the lemmas concerned, because the code relies on them
without checking them. Where the code can break one, a lemma says exactly when.

- File operations succeed and appends complete. Offsets and file lengths stay
  below 2^64 (`RoomIn`, and the preconditions of `Append`).
- Replicated payloads have at most 65536 bytes, the budget both fetchers ask for.
  `Follower.CatchesUp` and `Consumer.PrintsCommitted` are equivalences: what goes
  wrong with empty and with longer payloads is part of the statement.
- A delivered message comes from a run whose follower is still where the run
  began (`OnTime`), which the append does not check. `DeliveryNeedsCheck` says
  exactly which deliveries keep the invariant; `TwoRunsStart`, `TwoRunsAnswered`
  and `OverlapBreaks` exhibit two overlapping runs after which the follower is no
  prefix of the leader, `OverlapHarms` carries that on to a consumer that is served
  a message the follower lacks; `SoloRunIsRun` shows that waiting for each run to end is
  enough.
- Consumers are served only while the leader knows its replicas; a restart makes
  it forget them. `UnlistedLeader` says which messages it serves before that
  although a follower lacks them, and `RestartForgets` what a restart costs.
- Replication results cover one leadership that starts with every follower's log
  a prefix of the leader's.
- Broker 0 is harmless to the partition (`ZeroHarmless`) where an election among
  replicas is claimed, because the code takes id 0 for "none found".
  `BrokerZeroPassedOver` is a failing case, `ElectsReplica` the exact condition for
  one election and `ReplicaLostIff` the exact condition for a whole sweep.
- Group ids without a slash and partition numbers that are Unicode scalar values,
  for the committed offsets of different partitions to be kept apart. `OffsetRead`
  says what is read without that, `KeysEqualIff` when two keys coincide, and
  `KeysCollide` gives a family of collisions.
- The high watermark of a leader never falls while each follower's fetches are
  served in the order sent and the leader keeps its replica list, whatever is
  delivered late and however long payloads are; `ServeLowers` says exactly when one service lowers it,
  and `WatermarkFalls` reaches such a service. The consume loop's results do not
  need it: `PrintsStretch` holds for falling watermarks too.

Where the code and its documentation differ, the model follows the code: indexes
are read from files by seeking (the repository's README speaks of memory mapping),
and the key comment in `fsm.go` about a cleaner format does not change that the
partition number is stored as one character.

## Model

| member | source | states |
|---|---|---|
| `Bytes.GetPut` | rust-broker/src/log/manager.rs:186-187 | reading back a number written big-endian in w bytes gives it modulo 256^w |
| `Bytes.PutGet` | rust-broker/src/net/server.rs:58-58 | every byte string is the encoding of the number it reads as |
| `Bytes.PutDigit` | rust-broker/src/net/server.rs:58-58 | byte i of a number written in w bytes is its digit of weight 256^(w-1-i): most significant byte first |
| `FileNames.NameRoundTrip` | rust-broker/src/log/manager.rs:66-86 | a log file's 20-digit name scans back to its u64 base offset without loss, and an index file's name is ignored by the scan |
| `FileNames.NamesDistinct` | rust-broker/src/log/manager.rs:93-100 | different segment files never share a name |
| `FileNames.NameLayout` | rust-broker/src/log/manager.rs:93-100 | a file name is 20 decimal digits whose i-th has the weight 10^(19-i), then .log or .idx |
| `LogFiles.FlatSlice` | rust-broker/src/log/manager.rs:178-188 | in a log file each message occupies exactly the bytes between two index positions |
| `LogFiles.IndexEntry` | rust-broker/src/log/manager.rs:185-188 | the i-th index entry holds the i-th offset and the message's start position: the index is dense |
| `LogFiles.SeekReads` | rust-broker/src/log/manager.rs:385-418 | in contiguous segments the newest one based at or below k is the one that holds offset k, if anything does |
| `LogFiles.StoreMessage` | rust-broker/src/log/manager.rs:178-188 | writing a message and its entry turns files that hold a chain of segments into files that hold the chain with that message |
| `LogFiles.DropOldest` | rust-broker/src/log/manager.rs:268-270 | deleting the oldest segment's files leaves files that hold exactly the rest |
| `Search.SearchLastAtMost` | rust-broker/src/log/manager.rs:349-365 | the binary search over bases returns the last base at most k, as a scan from the end would, without going below zero |
| `Search.LastAtMost` | rust-broker/src/log/manager.rs:387-403 | the reference: an index whose base is at most k while all later ones exceed k, or none exists |
| `Search.SearchIndex` | rust-broker/src/log/manager.rs:428-449 | the binary search over an index file returns the first entry with offset at least k |
| `Search.FirstAtLeast` | rust-broker/src/log/manager.rs:428-454 | the reference: an entry with offset at least k while all earlier ones are below, or none exists |
| `Recovery.ScanDirectory` | rust-broker/src/log/manager.rs:66-86 | whatever order the directory is listed in, the result is strictly increasing and holds exactly the bases of the log files there |
| `Recovery.SortSorts` | rust-broker/src/log/manager.rs:86-86 | sorting gives an ascending list and keeps it free of duplicates |
| `Recovery.ScanRecovers` | rust-broker/src/log/manager.rs:66-86 | listing a directory that holds a chain of segments recovers exactly its bases, for every order of the listing |
| `Recovery.OffsetRecovers` | rust-broker/src/log/manager.rs:115-125 | the last index entry, or the base of an empty segment, gives back the next offset |
| `Replicas.WatermarkIsMinimum` | rust-broker/src/log/manager.rs:155-170 | the high watermark is the minimum of the own length and the other replicas' recorded offsets, a missing one counting as 0 |
| `Replicas.WatermarkUnique` | rust-broker/src/log/manager.rs:155-170 | being an attained lower bound determines the watermark |
| `Replicas.ReadExact` | rust-broker/src/log/manager.rs:472-477 | a read gives d if and only if the offset exists and d is the non-empty prefix of its payload of min(length mod 2^32, max) bytes, and nothing exactly otherwise |
| `Replicas.FetchFaithful` | rust-broker/src/log/manager.rs:472-477 | a fetch of 65536 bytes returns the whole message if and only if it has 1 to 65536 bytes |
| `Replicas.DrainedIff` | rust-broker/src/grpc/mod.rs:203-226 | fetching offset after offset yields exactly the messages of a range if and only if each has 1 to 65536 bytes |
| `TieredLog.MessageBytes` | rust-broker/src/log/manager.rs:456-470 | an entry's position and the next one's, or the file's end, bound exactly one message |
| `TieredLog.IndexLookup` | rust-broker/src/log/manager.rs:428-454 | in a dense index the entry found for k is k minus the base, and there is none past the end |
| `TieredLog.ReadSegment` | rust-broker/src/log/manager.rs:420-477 | the extent found in a segment designates the first min(length, max) bytes of message k, and nothing if that is empty or past the end |
| `TieredLog.FindLocalSegment` | rust-broker/src/log/manager.rs:385-408 | finds the newest local segment based at or below k, or none |
| `TieredLog.FindColdSegment` | rust-broker/src/log/manager.rs:313-378 | finds the newest cold segment based at or below k, or none |
| `TieredLog.TrimBySize` | rust-broker/src/log/manager.rs:252-276 | terminates, removes a prefix of the segments, stops within the limit or at one segment, and removed nothing while within the limit |
| `TieredLog.TrimByAge` | rust-broker/src/log/manager.rs:278-308 | terminates, removes a prefix of expired segments and stops at one that is not expired or at one segment |
| `TieredLog.Trim` | rust-broker/src/log/manager.rs:251-311 | both cleanings: a suffix with the active segment remains, within the limits unless it is alone, and only segments that were due are gone |
| `TieredLog.TotalSizeIs` | rust-broker/src/log/manager.rs:252-260 | the files retention weighs hold the payload bytes and 16 bytes per message |
| `TieredLog.RetentionMeans` | rust-broker/src/log/manager.rs:251-311 | when retention stops with more than one segment, payload bytes plus 16 per message are within the size limit and the oldest file is no older than the age limit |
| `TieredLog.DueMeans` | rust-broker/src/log/manager.rs:251-311 | a segment is deleted only if, with the older ones gone, payload bytes plus 16 per message still exceed the limit or its file is too old, and never the active one |
| `TieredLog.RollStep` | rust-broker/src/log/manager.rs:199-249 | copying to cold storage and opening an empty segment keeps all invariants and the payloads |
| `TieredLog.DropOnDisk` | rust-broker/src/log/manager.rs:268-270 | deleting the j oldest local segments keeps the partition whole on local and cold files together |
| `TieredLog.PartitionLog.constructor` | rust-broker/src/log/manager.rs:38-148 | opening a fresh directory or one left behind, under whatever segment size, gives a sound log with the payloads on disk and no replicas known |
| `TieredLog.PartitionLog.RecomputeHighWatermark` | rust-broker/src/log/manager.rs:155-170 | the two loops compute the minimum |
| `TieredLog.PartitionLog.UpdateFollowerOffset` | rust-broker/src/log/manager.rs:150-153 | records the progress and refreshes the watermark, nothing else |
| `TieredLog.PartitionLog.Reconcile` | rust-broker/src/grpc/mod.rs:102-109 | replaces the replica list and refreshes the watermark, nothing else |
| `TieredLog.PartitionLog.MakeRoom` | rust-broker/src/log/manager.rs:173-176 | nothing at all changes unless the active segment has bytes and the message would take them past the limit; then exactly one segment is closed, copied and kept, and an empty one opened at the next offset |
| `TieredLog.PartitionLog.RollOver` | rust-broker/src/log/manager.rs:199-249 | the payloads stay; the old active segment becomes the newest closed one, in cold storage too, and one record for an empty segment at the next offset is added |
| `TieredLog.PartitionLog.CleanRetention` | rust-broker/src/log/manager.rs:251-311 | keeps every payload readable; the oldest local segments go one by one, each only when due by bytes or clock, and the limits hold afterwards in bytes and clock readings unless one segment is left |
| `TieredLog.PartitionLog.Append` | rust-broker/src/log/manager.rs:172-197 | returns the number of payloads so far and adds one; a segment is closed exactly if the active one has bytes and the message would take them past the limit, and otherwise the message joins the active segment; both files are written at the given time and no other file changes; retention deletes only what is due and leaves the limits met; closed segments have identical cold copies, the watermark is current, oversized segments hold a single message's bytes and segments are as full as the limit allows if they were |
| `TieredLog.PartitionLog.Store` | rust-broker/src/log/manager.rs:173-190 | rollover exactly if due, then the two writes at the given time, and no other file changes; the segments are as full as the limit allows if they were |
| `TieredLog.GreedyStep` | rust-broker/src/log/manager.rs:173-176 | closing segments this way keeps the cut tight: each closed segment has bytes, and with the next segment's first message it would exceed the limit |
| `TieredLog.PartitionLog.ReadFromOffset` | rust-broker/src/log/manager.rs:382-478 | designates exactly the first min(length, max) bytes of the k-th payload ever appended, or nothing; in cold storage exactly if no local segment is based at or below k |
| `TieredLog.Reopen` | rust-broker/src/log/manager.rs:65-148 | reopening rebuilds the same segment list and next offset over the same files and payloads, and shows what a restarted broker knows |
| `Replication.BelowWatermark` | rust-broker/src/log/manager.rs:150-170 | everything below the watermark is on every listed replica at the same offset with the same bytes |
| `Replication.StepKeeps` | rust-broker/src/net/server.rs:177-200 | every step, with any number of overlapping runs, restarts of any broker, every delivery on time and consumers served by a leader that lists its replicas, keeps the invariant: followers are prefixes, recorded offsets are honest, served messages are on every replica |
| `Replication.RunKeeps` | rust-broker/src/grpc/mod.rs:175-229 | so does every run, in every interleaving, with any number of runs per follower in progress and any restarts |
| `Replication.ServedEverywhere` | rust-broker/src/net/server.rs:113-129 | after any run from the start of a leadership, everything ever served reads the same on every listed replica |
| `Replication.PathGrows` | rust-broker/src/log/manager.rs:190-196 | along any path at all every copy only grows |
| `Replication.HonestKeeps` | rust-broker/src/net/server.rs:197-198 | whatever happens, no recorded or requested offset exceeds its follower's true length |
| `Replication.WatermarkNeverFalls` | rust-broker/src/net/server.rs:197-198 | on any path in which each follower's fetches are served in order and the leader keeps its replica list, the watermark never decreases, with late deliveries, payloads of any length and diverged copies included |
| `Replication.ServeLowers` | rust-broker/src/net/server.rs:197-198 | serving a request lowers the watermark if and only if it is a listed follower's and asks for an offset below it |
| `Replication.DeliveryNeedsCheck` | rust-broker/src/grpc/mod.rs:225-226 | a delivery keeps the invariant if and only if it brings nothing or the leader's message at the follower's end equals the one the run asked for; a run that is on time always does |
| `ReplicationLimits.TwoRunsStart` | rust-broker/src/grpc/mod.rs:117-137 | a follower can start two runs at the same offset |
| `ReplicationLimits.TwoRunsAnswered` | rust-broker/src/net/server.rs:194-206 | and both are answered with the same message |
| `ReplicationLimits.OverlapBreaks` | rust-broker/src/grpc/mod.rs:225-226 | after both are delivered the follower is no prefix of the leader |
| `ReplicationLimits.OverlapHarms` | rust-broker/src/grpc/mod.rs:225-226 | from two overlapping runs, one late delivery and five steps within all conditions lead to a consumer that is served a message the follower does not hold at that offset |
| `ReplicationLimits.RestartForgets` | rust-broker/src/log/manager.rs:142-146 | a leader that restarts keeps the invariant but serves everything until it is told its replicas, and then starts its watermark from 0 if it has a follower |
| `ReplicationLimits.UnlistedLeader` | rust-broker/src/log/manager.rs:157-160 | without a replica list a consumer is served a message that a given follower lacks exactly for the offsets between the follower's end and the leader's whose message is readable |
| `ReplicationLimits.WatermarkFalls` | rust-broker/src/net/server.rs:194-200 | from any state with one listed follower one readable message behind, a disciplined run reaches a state in which serving an overtaken request lowers the watermark |
| `ReplicationLimits.SoloRunIsRun` | rust-broker/src/grpc/mod.rs:177-226 | if a follower starts a run only when it has none, every delivery is on time, so the results on runs apply |
| `Utf8.ValidIsText` | rust-broker/src/net/server.rs:74-74 | whatever the topic check accepts is the UTF-8 encoding of a list of scalar values |
| `Utf8.TextIsValid` | rust-broker/src/net/server.rs:74-74 | and every such encoding is accepted |
| `Utf8.Examples` | rust-broker/src/net/server.rs:74-74 | the encodings of one to four bytes given in section 7 of RFC 3629 |
| `Wire.PutAt` | client/main.go:210-218 | the big-endian store writes the low w bytes of the number behind what is there |
| `Wire.WriteProduce` | client/main.go:200-226 | the buffers the client fills are the frame of the produce request, lengths cut to their fields |
| `Wire.WriteFetch` | client/main.go:278-303 | likewise for the fetch request |
| `Wire.WriteReplicaFetch` | rust-broker/src/grpc/mod.rs:188-205 | likewise for the follower's request |
| `Wire.FrameBack` | rust-broker/src/net/server.rs:42-61 | scanning a frame followed by anything returns its command and body and stops exactly behind it |
| `Wire.BodyBack` | rust-broker/src/net/server.rs:63-191 | parsing the body of any sendable request gives the request back |
| `Wire.StreamBack` | rust-broker/src/net/server.rs:39-191 | encoded requests followed by any bytes decode to those requests and then to what the bytes decode to |
| `Wire.StreamRoundTrip` | rust-broker/src/net/server.rs:39-191 | a concatenation of encoded requests decodes to exactly that list if and only if each topic is UTF-8 of at most 65535 bytes and each body is under 2^32 bytes |
| `Wire.DecodedSendable` | rust-broker/src/net/server.rs:63-191 | whatever bytes arrive, each request that gets through is one that could have been sent |
| `Wire.MoreBytes` | rust-broker/src/net/server.rs:42-61 | however the stream is cut, a decoded request is never taken back |
| `Wire.FramesInjective` | client/main.go:200-226 | different lists of sendable requests never look alike |
| `Wire.FrameLayout` | client/main.go:200-226 | where every field of the three frames is, byte for byte, with its literal command and magic bytes |
| `Wire.ParsesIff` | rust-broker/src/net/server.rs:63-191 | a body of a command is read as r if and only if r is of that command, can be sent, and its encoding starts the body |
| `Wire.StopsAt` | rust-broker/src/net/server.rs:39-191 | the first frame that cannot be read ends the connection with its error: the requests before it are delivered, nothing behind it is looked at |
| `Wire.CutStream` | rust-broker/src/net/server.rs:42-61 | a stream cut off inside a frame delivers everything before it and ends quietly inside a header, with an error inside a body |
| `Wire.Rejections` | rust-broker/src/net/server.rs:42-56 | exactly which streams have no full header or wrong magic bytes, and which command bytes are unknown |
| `Wire.ReencodesIff` | rust-broker/src/net/server.rs:67-81 | a frame that was read is its request's encoding if and only if nothing follows the last field; a longer body is read too |
| `Wire.ReplyLayout` | rust-broker/src/net/server.rs:88-175 | where everything is in the three replies, with their literal status bytes |
| `Wire.ReplyBack` | client/main.go:305-335 | client and follower read back the reply the broker wrote and leave the bytes after it |
| `DataServer.Transfer` | rust-broker/src/net/server.rs:132-166 | the bytes sent for a read are the first bytes of the payload |
| `DataServer.RecordAndRead` | rust-broker/src/net/server.rs:194-200 | records the follower's progress, refreshes the watermark and reads regardless of it |
| `DataServer.FetchCommitted` | rust-broker/src/net/server.rs:113-129 | with others changing the log between tries, the answer is the read at the first of ten looks with the offset below the watermark, or nothing if there is none |
| `DataServer.LogManager.GetPartition` | rust-broker/src/log/manager.rs:524-543 | opens a log at most once, and opening changes no partition's contents |
| `DataServer.LogManager.AllOffsets` | rust-broker/src/log/manager.rs:514-522 | reports every open partition exactly once with its next offset as a signed number |
| `DataServer.LogManager.ReconcileLeaders` | rust-broker/src/grpc/mod.rs:101-114 | the broker's partitions afterwards are the ones `Told` names; what that is, `Sessions.ToldIs` and `Sessions.ToldListed` say without it |
| `DataServer.LogManager.Handle` | rust-broker/src/net/server.rs:63-243 | one request's effect on every partition and its reply (their meaning: `Sessions`), and for a produce that the files were written at the first clock reading and retention applied at the second, with the manager's limits |
| `DataServer.LogManager.HandleConnection` | rust-broker/src/net/server.rs:39-247 | from any bytes: the requests decoded are run in order on the partitions, the bytes sent are their replies, and the connection ends with the decoder's verdict |
| `Sessions.LogsGrowByProduced` | rust-broker/src/net/server.rs:84-93 | over a connection every partition grows by exactly the messages sent to it, in order |
| `Sessions.AckedStays` | rust-broker/src/net/server.rs:84-93 | the offset in an acknowledgement is where the message is at the end of the connection |
| `Sessions.AcksIncrease` | rust-broker/src/net/server.rs:84-93 | messages to one partition are acknowledged with increasing offsets |
| `Sessions.RepliesReadBack` | client/main.go:228-242 | the sender of any list of requests reads exactly one reply for each, in order, with nothing left over |
| `Sessions.FetchReply` | rust-broker/src/net/server.rs:113-129 | a consumer gets a message if and only if its offset is below the watermark and in the log, the message there is readable and bytes are asked for; it is then its first min(length, max) bytes, and no data otherwise |
| `Sessions.ReplicaFetchReply` | rust-broker/src/net/server.rs:193-215 | a follower likewise, whatever the watermark is |
| `Sessions.FetchReplyAt` | rust-broker/src/net/server.rs:113-129 | the same for the i-th reply of any connection: no consumer is ever sent an uncommitted byte |
| `Sessions.RecordsAfter` | rust-broker/src/net/server.rs:194-200 | after a connection each follower's recorded progress is the offset it asked for last, or as before; id and replica list stay and the watermark is current |
| `Sessions.KeysApart` | rust-broker/src/net/server.rs:83-84 | requests address the same partition exactly if topic and number agree |
| `Sessions.ToldIs` | rust-broker/src/grpc/mod.rs:101-114 | after a heartbeat reply a listed partition has the last list given for it, its log and recorded progress and a current watermark; every other partition is as it was |
| `Sessions.ToldListed` | rust-broker/src/grpc/mod.rs:101-114 | with each partition listed once: partition i ends with exactly its list, and its watermark is at most what each listed follower has recorded, 0 for none |
| `Follower.Ask` | rust-broker/src/grpc/mod.rs:175-205 | the request carries the follower's id and its own length |
| `Follower.Respond` | rust-broker/src/net/server.rs:177-206 | from the request bytes the leader records that length and replies with its message at that offset, if any |
| `Follower.Take` | rust-broker/src/grpc/mod.rs:207-229 | from the reply bytes the follower appends the message, if any, wherever its end is by then |
| `Follower.Replicate` | rust-broker/src/grpc/mod.rs:175-229 | a run from request bytes to append records the follower's length with the leader and appends the leader's message at that offset, if any |
| `Follower.RunIsThreeSteps` | rust-broker/src/grpc/mod.rs:175-229 | such a run is the three steps begin, serve and deliver of the transition system |
| `Follower.CatchesUp` | rust-broker/src/grpc/mod.rs:175-229 | a follower n messages behind has the leader's log after n runs if and only if each missing message has 1 to 65536 bytes |
| `Follower.StaysPrefix` | rust-broker/src/grpc/mod.rs:215-226 | one run leaves the follower a prefix if and only if nothing is missing, the fetch finds no data or the missing message has at most 65536 bytes |
| `Simulation.Produced` | rust-broker/src/net/server.rs:84-86 | with real logs and bytes standing for a state: a produced message is the produce step |
| `Simulation.Begun` | rust-broker/src/grpc/mod.rs:175-205 | sending a follower's request is the begin step |
| `Simulation.Answered` | rust-broker/src/net/server.rs:177-206 | serving the request bytes is the serve step |
| `Simulation.Delivered` | rust-broker/src/grpc/mod.rs:207-229 | appending from the reply bytes is the deliver step, however late |
| `Simulation.Lost` | rust-broker/src/grpc/mod.rs:186-205 | a request that does not arrive is the lose step |
| `Simulation.Aborted` | rust-broker/src/grpc/mod.rs:125-136 | a run that fails is the abort step |
| `Simulation.Told` | rust-broker/src/grpc/mod.rs:102-109 | handing the leader its replica list is the reconcile step |
| `Simulation.Consumed` | rust-broker/src/net/server.rs:115-121 | one look of a fetch is the consume step, and its data is what is recorded as served |
| `Simulation.RestartedBroker` | rust-broker/src/log/manager.rs:38-148 | reopening a broker's log is the restart step |
| `Consumer.SendFetch` | client/main.go:278-336 | one fetch through request and reply bytes gives what the broker's ten looks find |
| `Consumer.Consume` | client/main.go:244-276 | the loop ends, having printed one message per fetch until the first fetch without data |
| `Consumer.PrintedReads` | client/main.go:256-266 | every printed message was committed when read and still reads the same at the last look, even if the watermark has fallen since |
| `Consumer.PrintsStretch` | client/main.go:244-276 | whatever the watermark does: what is printed is the stretch of the log, exactly if each message has 1 to 65536 bytes; the loop ends because nothing more was committed at any of ten looks or the next message reads as no data; and everything committed at the last look was printed if and only if it can all be fetched |
| `Consumer.PrintsCommitted` | client/main.go:244-276 | if the watermark does not fall, the loop prints exactly the committed messages from the start offset on, once each and in order, if and only if each has 1 to 65536 bytes |
| `Consumer.FetchIsConsume` | rust-broker/src/net/server.rs:113-129 | a fetch that brings data is the consume step that records the message as served |
| `Consumer.PrintedIsReplicated` | client/main.go:262-266 | every printed message is on every replica the leader lists when it is read |
| `Consumer.RunGrowing` | client/main.go:256-266 | looks at the leader along any path whatever find a growing log |
| `Consumer.RunRising` | client/main.go:256-266 | and along an in-order path, late deliveries, long payloads and diverged copies included, a watermark that never falls |
| `Consumer.PrintsCommittedInRun` | client/main.go:244-276 | so on any in-order path the loop prints exactly what is committed at its last look, if and only if it can all be fetched |
| `Consumer.PrintedStaysReplicated` | client/main.go:262-266 | at the end of any disciplined run everything printed from a leader that lists its replicas reads the same on every listed replica |
| `ClusterState.RefreshedOk` | go-controller/pkg/consensus/fsm.go:275-327 | the ISR is the live leader and the live replicas at most 10 behind, without duplicates, and the watermark is its least offset |
| `ClusterState.WatermarkBounds` | go-controller/pkg/consensus/fsm.go:290-324 | the watermark is attained in the ISR, at least the leader's offset minus 10, at most the leader's if it is in sync, and 0 if nobody is |
| `Failover.ElectsReplica` | go-controller/pkg/consensus/fsm.go:350-361 | the new leader is a replica if and only if the first live one has a nonzero id or the fallback happens to be a replica |
| `Failover.ElectsActive` | go-controller/pkg/consensus/fsm.go:349-362 | the new leader is active |
| `Failover.FirstLiveIsFirst` | go-controller/pkg/consensus/fsm.go:350-356 | every replica listed before the first live one is the failed broker or not active |
| `Failover.BrokerZeroPassedOver` | go-controller/pkg/consensus/fsm.go:350-361 | a live replica with id 0 is passed over for a broker that holds nothing |
| `Failover.ActiveAfterSweep` | go-controller/pkg/consensus/fsm.go:260-270 | after a sweep, in any order, exactly the active brokers that had not expired are active; in clock readings this is `ControllerEffects.LivesShow` |
| `Failover.LeadersStayActive` | go-controller/pkg/consensus/fsm.go:260-270 | if any broker survives, a partition whose leader was active is led by an active one, also when an elected leader expires later in the sweep |
| `Failover.LeaderActiveIff` | go-controller/pkg/consensus/fsm.go:260-270 | for a full sweep: led by an active broker if and only if some broker survives |
| `Failover.LeaderStaysReplica` | go-controller/pkg/consensus/fsm.go:339-366 | if a replica survives and broker 0 is not in the way (it leads, is no replica, is inactive, or a replica listed before it survives), a partition led by a replica still is, in every order of the sweep, with the same replicas |
| `Failover.FindsZero` | go-controller/pkg/consensus/fsm.go:350-361 | an election comes upon broker 0 exactly when it is an active replica other than the failed broker and nobody listed before it is live |
| `Failover.LosingSweep` | go-controller/pkg/consensus/fsm.go:260-270 | an order of the sweep that hands a partition to a broker without its data although a replica survives |
| `Failover.ReplicaLostIff` | go-controller/pkg/consensus/fsm.go:260-270 | with a surviving replica, some full sweep leaves a partition led by a non-replica if and only if its leader expires, broker 0 is an active replica other than the leader with no survivor listed before it, and a non-replica survives |
| `Placement.PlacePartition` | go-controller/pkg/consensus/fsm.go:169-194 | the loops compute leader, replicas, first ISR and zero offsets by turns around the ring |
| `Placement.PlacedWell` | go-controller/pkg/consensus/fsm.go:169-194 | min(factor, n) distinct active replicas with the leader first |
| `Placement.LeadershipBalanced` | go-controller/pkg/consensus/fsm.go:169-176 | the j-th broker leads floor(P/n) partitions, and one more exactly if j < P mod n |
| `Placement.SlotsBalanced` | go-controller/pkg/consensus/fsm.go:178-182 | every broker holds between k*floor(P/n) and k*ceil(P/n) replica slots |
| `Placement.AllReplicasPlaced` | go-controller/pkg/consensus/fsm.go:178-187 | the replica lists those slots are counted in are the placed topic's |
| `Groups.Deal` | go-controller/pkg/consensus/fsm.go:368-399 | for some order of the members, each partition of each subscribed existing topic goes to its turn's member and to nobody else, once |
| `Groups.DealtToOne` | go-controller/pkg/consensus/fsm.go:380-398 | each such partition has exactly one owner, a subscriber, even with repeated topics in a subscription |
| `Groups.DealtExists` | go-controller/pkg/consensus/fsm.go:384-398 | everything assigned exists and its owner subscribed to it |
| `Groups.LoadsBalanced` | go-controller/pkg/consensus/fsm.go:390-397 | without repeated topics two subscribers' loads differ by at most one per topic |
| `OffsetKeys.KeysEqualIff` | go-controller/pkg/consensus/fsm.go:256-257 | for all inputs, two keys are equal if and only if the joined names are and the partition numbers give the same character |
| `OffsetKeys.KeyInjective` | go-controller/pkg/consensus/fsm.go:256-257 | keys are injective on slash-free groups and scalar partition numbers |
| `OffsetKeys.KeysCollide` | go-controller/pkg/consensus/fsm.go:256-257 | moving a slash between group and topic, or two numbers that are no scalar values, give the same key |
| `OffsetKeys.KeyExamples` | go-controller/pkg/consensus/fsm.go:256-257 | concrete keys, the replacement character for a number that is no scalar value included |
| `Controller.CollectIsr` | go-controller/pkg/consensus/fsm.go:290-311 | the loop collects the in-sync list |
| `Controller.ComputeHw` | go-controller/pkg/consensus/fsm.go:313-324 | the loop computes the least offset, 0 for an empty list |
| `Controller.ElectLeader` | go-controller/pkg/consensus/fsm.go:346-363 | the loop elects the first live replica or the fallback, and changes only partitions the failed broker led |
| `Controller.FSM.SweepInactive` | go-controller/pkg/consensus/fsm.go:260-269 | the sweep is a full sweep in some order, with some fallback at each failure |
| `Controller.FSM.Apply` | go-controller/pkg/consensus/fsm.go:99-273 | every command is a step of the relation `Next`; what each step does, field by field and in numbers, is in `ControllerEffects` |
| `Controller.FSM.GetOffset` | go-controller/pkg/consensus/fsm.go:483-491 | the offset under the key, or -1 |
| `ControllerRuns.NextKeeps` | go-controller/pkg/consensus/fsm.go:99-273 | every command keeps the invariant and every existing partition's replicas |
| `ControllerRuns.Reachable` | go-controller/pkg/consensus/fsm.go:99-327 | in every reachable state, whatever offsets are reported, ISRs are duplicate-free, active and from leader plus replicas, watermarks are their minimum, partitions are numbered from 0, and no partition of a group has two owners |
| `ControllerRuns.WatermarkFloor` | go-controller/pkg/consensus/fsm.go:313-324 | no watermark is ever below 0 or the lowest offset reported so far |
| `ControllerRuns.OffsetRead` | go-controller/pkg/consensus/fsm.go:246-258 | after any commands the offset read is that of the last commit whose joined names and partition character agree, or -1 |
| `ControllerRuns.OffsetReadBack` | go-controller/pkg/consensus/fsm.go:246-258 | with slash-free groups and scalar partition numbers that is the last one committed for exactly that group, topic and partition, or -1 |
| `ControllerEffects.LivesShow` | go-controller/pkg/consensus/fsm.go:109-270 | in every run, for every order of every sweep, a broker is known, last heard of and active exactly as its own registrations, heartbeats and sweeps more than 8 seconds after the last of them say |
| `ControllerEffects.HeartbeatKeepsAlive` | go-controller/pkg/consensus/fsm.go:136-269 | a registered broker heard of at time t is active after a sweep at `now` if and only if now - t is at most 8000000000 nanoseconds |
| `ControllerEffects.HeartbeatRecords` | go-controller/pkg/consensus/fsm.go:143-150 | a heartbeat sets the sender's offset for each existing partition to the last one it reports, and changes no other offset, leader or replica list |
| `ControllerEffects.OffsetsAre` | go-controller/pkg/consensus/fsm.go:125-199 | in every run a broker's offset for a partition is what its last heartbeat about it said, or 0 from the creation if it is a replica, and otherwise missing |
| `ControllerEffects.OffsetsStay` | go-controller/pkg/consensus/fsm.go:99-273 | no other command changes an existing partition's offsets or replicas, and only a sweep moves its leader |
| `ControllerEffects.InSyncExactly` | go-controller/pkg/consensus/fsm.go:275-327 | after every heartbeat, creation and sweep a broker is in the ISR if and only if it was heard of within 8 seconds and leads, or is a replica at most 10 behind the leader; the watermark is the least offset in it, 0 for none |
| `ControllerEffects.RegisterEnters` | go-controller/pkg/consensus/fsm.go:109-123 | registering enters the broker as active and heard of now, whatever was there, and changes nothing else |
| `ControllerEffects.HeartbeatTouches` | go-controller/pkg/consensus/fsm.go:136-141 | a heartbeat renews and reactivates its sender and no other broker, group or committed offset |
| `ControllerEffects.CreateMakes` | go-controller/pkg/consensus/fsm.go:153-199 | an existing topic is left alone; a new one has exactly the partitions 0 to count-1, each with min(factor, active brokers) distinct active replicas, the leader first, all offsets 0 |
| `ControllerEffects.CreateBalances` | go-controller/pkg/consensus/fsm.go:165-194 | every active broker leads the floor or the ceiling of the new topic's partitions per active broker |
| `ControllerEffects.JoinEnters` | go-controller/pkg/consensus/fsm.go:218-244 | joining enters the member with its topics, keeps the others, counts the generation up modulo 2^32 and touches nothing else |
| `ControllerEffects.JoinDeals` | go-controller/pkg/consensus/fsm.go:218-244 | after a join every partition of a topic the member asked for has exactly one owner, and that owner asked for the topic |
| `ControllerEffects.CommitTouches` | go-controller/pkg/consensus/fsm.go:246-258 | a commit sets the value under one key and touches nothing else |
| `ControllerEffects.SweepTouches` | go-controller/pkg/consensus/fsm.go:260-270 | a sweep adds and removes no broker, topic, group or committed offset |
| `ControllerEffects.SoleSuccessor` | go-controller/pkg/consensus/fsm.go:339-366 | when only the leader has been silent for over 8 seconds, a sweep in any order hands the partition to the first active replica listed, unless that is broker 0 |
| `ControllerEffects.LeaderKept` | go-controller/pkg/consensus/fsm.go:260-270 | a leader heard of within 8 seconds keeps its partition through every sweep |
| `Heartbeats.Assignments` | go-controller/pkg/grpcserver/server.go:118-148 | each partition the broker leads is listed once with its replicas, each it follows once, and nothing else is |
| `System.StepBounded` | go-controller/pkg/consensus/fsm.go:125-151 | no step of the combined system, takeovers by elected brokers and appends to any copy included, makes a recorded, drafted or travelling offset exceed the broker's real log |
| `System.NeverOverestimates` | rust-broker/src/grpc/mod.rs:78-96 | in every run, across failovers and with several brokers believing to lead, with heartbeats delayed, reordered, repeated or lost and lengths reported through the signed cast, the controller's offset for a broker is within its real log |
| `System.WatermarkWithinLogs` | go-controller/pkg/consensus/fsm.go:313-324 | so the controller's watermark is within the real log of every in-sync broker |
| `System.ReignLasts` | rust-broker/src/grpc/mod.rs:101-109 | while the controller keeps the leader and one broker acts as it, replication's invariant lasts over every run of the combined system, restarts included, and the leader lists the replicas handed out or nothing |
| `System.ServedSurvivesFailover` | go-controller/pkg/consensus/fsm.go:339-366 | everything ever served to a consumer in a run of the system is at the same offset with the same bytes on the broker the controller's next sweep elects, for every order of the sweep, if a replica survives it and broker 0 is harmless |
| `System.PrintedSurvivesFailover` | client/main.go:256-266 | everything the consume loop printed from looks at the leader reads the same on the broker the controller's next sweep elects |
| `System.ReportArrives` | rust-broker/src/grpc/mod.rs:78-92 | an offset that is read, sent and applied is what the controller then holds for the broker, whatever else the heartbeat carries: the length the log had, if below 2^63 |
| `System.GrantArrives` | rust-broker/src/grpc/mod.rs:101-109 | the reply to the leader's heartbeat makes it list exactly the partition's replicas with a current watermark |

## Left out

- Raft, its transport, snapshots and the JSON encoding of commands: foreign code and plumbing.
- Equality of state across controller nodes: `Apply` reads the local clock and iterates maps, so results hold for every clock and order instead.
- The assign_partitions command: nothing proposes it and it accepts any state.
- Writes torn between log and index file: reopening is claimed after completed appends only.
- Agreement of logs across several leaderships: followers never truncate, so only what one leadership has served is claimed.
- Follow mode of the consume loop, which never ends, and the client's lookup of the leader's address.
- Sendfile, socket flags, CPU pinning, task scheduling and the migration of old file names: a served read is the designated byte slice.
- File handles are paths, a directory is a map keyed by the file's identity with its name appearing where directories are listed, and topic names are not resolved as directory paths.
- Go's 64-bit integers in the controller and the sum of file sizes in retention are unbounded here; the cast of an offset for the heartbeat report is `Bytes.Signed`.
- Errors from the file system or a failing append, after which a connection ends without a reply.
- TieredLog.PartitionLog.Append: requires offsets and file lengths below 2^64, where the source would overflow.
- DataServer.LogManager.HandleConnection: one connection with nothing else served meanwhile; each request on any state is `Handle`, interleavings are in Replication and, between the tries of a fetch, in FetchCommitted.
- Follower.Replicate: nothing else happens during the run; its parts are single steps in Simulation, where they interleave.
- Consumer.Consume: requires a topic that can be sent and an upper bound on the watermarks, without which the loop need not end.
- Generated gRPC code, HTTP handlers, command-line parsing and the integration test driver.
