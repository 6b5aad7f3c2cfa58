# Verification model of xchannel

xchannel is a single-writer, multi-reader, append-only log in memory-mapped files. A channel is a chain
of segment files; a segment is divided into regions; a record is a 16-byte header and a payload. This
project models the log byte by byte, store by store, and proves what its readers and its crash recovery
rely on.

- **Bytes and codec.** `Bytes`, `Crc32c` and `Linking` hold little-endian integers, the CRC32C of section
  12.1 of RFC 3720 (bit by bit, and by the table the code builds), the header extension and the `Roll` body.
- **One segment.** `Layout` says where headers lie, `Chain` what a segment's records are (the committed
  headers laid end to end from offset 0), `SegmentWalk` what the header-only walk finds, and `Segments`
  which states a segment may be in between two stores.
- **A channel.** `Channel` holds the files, the directory and the history of published segments, with
  `Inv`, the invariant between any two stores; `Histories` the abstract log, `Log`, and `Moments` what holds
  between any two moments. `SharedFiles.ChannelFiles` has one method per store. Each records the state it
  leaves, so what is proved of every recorded state holds of every point a process may die at and of every
  moment another process may look.
- **The writer** (`RecordBytes`, `Writers`) reserves, commits, rolls over regions and files. Its contracts
  tie the log after each call to the log before it.
- **Recovery** (`Recovery`) opens a channel from any state that satisfies `Inv`, which a crash inside
  recovery leaves too.
- **Readers** (`Reading`, `Readers`, `Walking`, `Opening`, `Locating`) run while others act: every load may be
  followed by `Others`, any number of stores that keep `Inv` and only advance the channel. What an opening answers is tied
  to the recorded moments its loads were made at.
- **Retention and crashes** (`Retention`, `Crashes`): the order in which segments lose their names, and a run of
  store methods that breaks it.
- **Protocols between threads** (`Prefault`, `Lengths`, `MapAhead`, `Wake`) are state machines with one step
  per access to shared memory, proved over every interleaving; `Handshake` ties the first to the channel's files.

Atomics are sequentially consistent, and a crash keeps every store made before it. Mapping a region,
growing a file and opening one may fail wherever the code handles that, and
ghost counters of such failures say when an operation may fail. Instance IDs are fresh, distinct and
nonzero: a caller passes the one a roll may need.

A reader with a helper is the same reader: `Readers.Reader.OpenSuccessor` may take any file at all as the one
its helper opened ahead, and `MapAhead` shows that a region taken ready-mapped is the one it would have mapped.
Every store also keeps a published segment's name gone once it is gone; that a helper's late installation does
not bring one back is `Prefault.RemovedForGood`.

Four properties are false of the code in some runs; for each the model gives such a run and proves when the
property holds.

- A `Live` open starts on the record chain exactly when segments are unlinked oldest first
  (`Opening.StartsExact`). Retention keeps that order exactly when nothing older than the segment it drops is
  left (`Retention.RollsExact`, `Opening.RollStartsExact`). A writer that dies between publishing a successor
  and retention leaves such a segment: `Crashes.CrashLeavesHole` makes those stores one by one, and the pair it
  leaves sends a reader of segment 0 to a slot off the chain.
- With a helper, retention keeps the order exactly when a segment is queued only behind every older one left,
  and deleted directly only when none is (`Prefault.OrderExact`); any other queueing breaks it by the deletions
  already decided (`Prefault.OutOfLine`). It is broken when the queue of two is full
  (`Prefault.QueueFullReorders`), and, without that, when a deferred segment is overtaken
  (`Prefault.DeferralReorders`).
- A reader goes to sleep on something unread, with no waking to come, exactly when the wake word was bumped a
  nonzero multiple of 2^32 times between its load and the sleep (`Wake.WrapExact`), which a run does
  (`Wake.WrapMisses`).
- The comment on `distrust_flag_if_unwoken` says a waking writer's flag stays trusted. It does while no writer
  dies between publishing and bumping (`Wake.NeverDistrusted`); after such a death a miss is left that counts
  against the next writer (`Wake.CrashMisleads`). A flag is distrusted exactly after two misses with no bump in
  between (`Wake.DistrustExact`).

## Model

| member | source | states |
|---|---|---|
| Bytes.LeAt | src/v4.rs:378-386 | the byte at offset `i` of a little-endian integer is its digit of weight 256^i |
| Crc32c.ByTable | src/v4.rs:67-73 | the table-driven loop computes the bit-by-bit CRC32C of every byte string |
| Crc32c.BuildTable | src/v4.rs:38-56 | the table holds, for every byte, the remainder eight bit steps leave |
| Crc32c.PolyIs | src/v4.rs:45 | the polynomial is 0x82F63B78 |
| Crc32c.BurstDetected | src/v4.rs:58-73 | messages that differ only inside 32 consecutive bits have different checksums |
| Linking.DecodeOfEncode | src/v4.rs:378-410 | decoding an encoded edge gives it back, unless its instance is zero, which is refused |
| Linking.EncodeOfDecode | src/v4.rs:390-410 | an accepted `Roll` body is the encoding of what it decodes to: the codec is one-to-one |
| Linking.RollFields | src/v4.rs:378-386 | which bytes of a `Roll` body hold the sequence, the instance, the base, the checksum of those, and zeros |
| Linking.CorruptedRollRefused | src/v4.rs:390-410 | an accepted `Roll` body changed anywhere within four consecutive bytes is refused, across the checksum's edge too |
| Linking.NamesOne | src/v4.rs:414-420 | an edge, parent and sequence determine the successor's identity |
| Linking.IdentityOfExtension | src/v4.rs:238-275 | the identity read back from a prepared extension is the one written, and invalid ones alone are refused |
| Linking.ExtensionOfIdentity | src/v4.rs:253-275 | an accepted extension is the one its identity writes, but for the state byte |
| Linking.ExtensionFields | src/v4.rs:238-249 | which bytes of an extension hold the two instances, the sequence, the state, the checksum of the first 40, and zeros |
| Linking.CorruptedExtensionRefused | src/v4.rs:253-275 | an extension changed within four consecutive bytes is refused, unless only its state byte changed |
| Linking.ChannelHeaderExt.InitPrepared | src/v4.rs:238-249 | the fields stored in place are the prepared extension of the identity |
| Linking.ChannelHeaderExt.Publish | src/v4.rs:288-290 | publishing changes the state byte and nothing of the identity |
| Layout.PreallocWhole | src/lib.rs:4203-4234 | a new file is whole regions, the fewest that cover the roll size, or one without a roll size |
| Layout.HeaderFields | src/channel.rs:24-34 | which bytes of a header hold the committed byte, the type, the message type, the length and the metadata |
| Chain.SlotsHold | src/lib.rs:1478-1556 | every slot of a record chain is 8-aligned with room for a Roll left in its region |
| Chain.RegionOnChain | src/lib.rs:376-386 | every region a chain has come to begins with a record boundary |
| SegmentWalk.WalkSegment | src/lib.rs:379-441 | the walk's loop computes the recursive walk, error cases included |
| SegmentWalk.WalkWhole | src/lib.rs:368-441 | a walk nothing stops counts a segment's user records exactly and says how its chain ends |
| SegmentWalk.WalkToNth | src/lib.rs:2631-2641 | asked for the record with `k` before it, the walk stops on that record |
| Walking.WalkOn | src/lib.rs:368-441 | loaded record by record while others act, the walk ends on the chain with the records before it counted and finds what stood there when it began; undisturbed it is the recursive walk |
| Segments.CommitOrphans | src/lib.rs:1608-1613 | committing makes the record at the next slot, and nothing else, part of the segment |
| Segments.CommitRolls | src/lib.rs:1700-1701 | committing a staged Roll ends the chain on it and changes nothing the segment holds |
| Segments.PokeSettled | src/lib.rs:1516-1556 | stores past the chain that leave the next slot uncommitted change neither the chain nor what is published |
| Channel.StoreKeeps | src/lib.rs:1434-1455 | a store into one segment that evolves it as its place in the history allows keeps the channel's invariant |
| Channel.PublishKeeps | src/lib.rs:1690-1698 | publishing the staged successor extends the history by it and keeps the invariant |
| Channel.InstallKeeps | src/lib.rs:1778-1812 | a file installed under the next name is not history |
| Histories.LogGrows | src/lib.rs:1434-1455 | the log is append-only: at any later state it has the earlier one as a prefix |
| Histories.RecordInLog | src/lib.rs:1413-1418 | the record with `n` before it in a segment is the log's record at that segment's base plus `n` |
| Moments.Atomic | src/lib.rs:1567-1629 | where the log gains at most one record it gains it in one store: up to some moment it is the old log, from then on the new |
| Moments.BumpedFinds | src/lib.rs:1434-1442 | whoever finds a wake word bumped by a call finds every file, and the log, as the call leaves them |
| Moments.FrozenForGood | src/lib.rs:1594-1621 | a committed record keeps its bytes, its place and its meaning through every later store |
| Moments.OneFilePublished | src/lib.rs:1656-1712 | two files published with the same sequence, at any two moments, are one file |
| Moments.SegmentForGood | src/lib.rs:1656-1712 | a published segment stays the same instance under its name, which once gone stays gone; it names its predecessor and starts at that one's base plus count |
| SharedFiles.ChannelFiles.CommitNext | src/lib.rs:1608-1613 | the committing store grows the log by exactly what the record at the next slot delivers |
| SharedFiles.ChannelFiles.PublishNext | src/lib.rs:1690-1698 | the publishing store leaves the log as it is, the predecessor's Roll staged |
| SharedFiles.ChannelFiles.Unlink | src/lib.rs:1765-1775 | taking away a name changes no file and no record |
| RecordBytes.FilledHeader | src/lib.rs:1587-1593 | a header stored field by field is the header |
| RecordBytes.LaidIsReady | src/lib.rs:1594-1613 | a record laid with the next slot preinstalled is ready to commit, and delivers the reserved payload |
| Writers.Writer.TryReserve | src/lib.rs:1478-1556 | makes exactly the rolls due from where the writer stands, at most three in one of six orders, each leaving the writer, the old file's Roll and its wake word where it must; with `p` the least multiple of 8 not below 16 + size, it is too large if and only if p + 56 exceeds the region, or the first slot and p + 56 the roll size, and taken with no roll if and only if p + 56 fits region and roll size where the writer stands; it fails only at a roll that is due, for a call that failed or for want of a sequence or an index; the payload lies in one region and one file past everything committed; the log is unchanged |
| Writers.DueNext | src/lib.rs:1509-1549 | a file roll is due where the record is past the roll size, a region roll where it does not fit its region, and after those due it fits |
| Writers.NeededIs | src/lib.rs:1485-1487 | a reservation needs its header and payload rounded up to 8 bytes, and 56 more |
| Writers.Writer.NextRegionInside | src/lib.rs:1513-1528 | a region roll under a roll size never leaves the preallocated length |
| Writers.Writer.Fill | src/lib.rs:1551-1555 | filling the reserved payload changes those bytes alone |
| Writers.Writer.Commit | src/lib.rs:1567-1629 | the log grows by exactly the record committed, short commits included; of the segment its bytes, count, position and wake word alone change; no recorded moment has the word bumped before the record is committed, counted and positioned; errors change nothing on disk |
| Writers.Append | src/lib.rs:1478-1629 | reserving, filling and committing appends just that payload, type and metadata, in one store, and keeps just the last `keep` segments named if they were; what is refused is refused for its size alone, and what fails failed in a call or for want of a number |
| Writers.Writer.RollOverRegion | src/lib.rs:1859-1922 | the Skip moves the writer to the next region's start and adds no record; of the segment its bytes and position alone change; it fails only where a call does |
| Writers.Writer.GrowTo | src/lib.rs:1992-2038 | the file is grown with zeros to just the end of the next region, or left as it is, as in a rolling channel always |
| Writers.Writer.PrepareSuccessor | src/lib.rs:1778-1812 | the successor is the file prepared here or the one installed first, and either is accepted |
| Writers.SpareAdopted | src/lib.rs:1816-1857 | whatever a crash, a failed roll or the helper left under the next name passes every check of adoption |
| Writers.Writer.RollFile | src/lib.rs:1633-1762 | the roll adds one segment that starts at the old base plus count and carries the wake setting, adds no record, and applies retention; it fails if a call does, or the sequence is 2^64 - 1, or, no call having failed, if and only if base plus count passes 2^64 - 1, and leaves the writer where it was; no recorded moment has the old segment's wake word bumped before the Roll is committed and positioned, and none has the new segment in part |
| Writers.Writer.InstalledAhead | src/prefault.rs:598-658 | the helper's installation between two calls leaves the writer valid and the log alone |
| Recovery.OrphanFound | src/lib.rs:1301-1378 | a record whose publication was cut short is found, stepped over and counted exactly, and never refused |
| Recovery.RollFound | src/lib.rs:972-1060 | a roll cut short is found at exactly the store it stopped before, and never refused |
| Recovery.DiscardUnpublishedTail | src/lib.rs:4238-4259 | the newest published segment is found; of the names only that of an unpublished file is removed |
| Recovery.OpenFile | src/lib.rs:1204-1402 | the newest segment is published, with the count and position of its chain; nothing else changes, no record is lost or gained, and no wake word is touched |
| Recovery.CommitStrandedRoll | src/lib.rs:946-1061 | if the roll into the newest segment was not complete, the segment before it gets its Roll committed, its position behind it and its wake word bumped, whatever the writer's own setting, and the word last of all; nothing else changes, and nothing at all if it was complete |
| Recovery.Reopen | src/lib.rs:839-941 | from every state the invariant allows a channel opens, with the same log and history and exactly the disk that finishing what was left open makes; opening again changes the wake flag at most; no moment has the old segment's wake word bumped before its Roll is committed and positioned |
| Recovery.ReopenAt | src/lib.rs:839-941 | from any moment ever recorded, opening gives that moment's log, a prefix of every later one, on exactly the disk recovery makes of that moment's |
| Recovery.Create | src/lib.rs:1226-1262 | a channel is created empty, valid and published |
| Reading.SlotHolds | src/lib.rs:3797-3823 | a reader's slot holds nothing yet, a user record, a service record or a Roll, and its committed byte and type tell which |
| Reading.RollLeads | src/lib.rs:3885-3998 | a committed Roll leads to the next published file, which passes every check and goes on at the reader's index |
| Readers.Reader.LoadSlot | src/lib.rs:3797-3823 | a header is read whole once its committed byte is seen set, whatever others store in between |
| Readers.Reader.OpenSuccessor | src/lib.rs:3891-3998 | the file followed is the one the committed Roll names, whether its helper opened it ahead or its name leads to it; it passes every check, and is not followed only if its name is gone or the system fails to open it |
| Readers.Reader.OpenNextFile | src/lib.rs:3847-3870 | following a Roll keeps the index of the next record; a failure leaves cursor and mappings alone |
| Readers.Reader.ScanToUserRecord | src/lib.rs:3495-3571 | what is delivered is the log's record at the reader's position, which moves by one; nothing means the log ended there; it fails only on a Skip whose next region the system failed to map, or on a Roll whose file is gone or was not opened, and keeps the position; only its own region stays mapped |
| Readers.Reader.ReadOwnedInto | src/lib.rs:3443-3466 | records come with consecutive indices from the position on, each once, in order, while the channel changes; what stops it early is a free slot, a Skip the next region of which failed to map, or a Roll whose file is gone or failed to open |
| Readers.Reader.ScanRegion | src/lib.rs:3218-3296 | the scan of one region leaves each record's place in `batchPos`, inside its run and its region |
| Readers.Reader.ScanBatch | src/lib.rs:3188-3316 | over regions and files mapped behind the reader's own, a scan finds the places of the next consecutive records and ends behind the last, at a free slot or on a Roll it cannot follow; it fails only if a region was not mapped, a Roll not followed with no record before it, or more than 65,536 regions came one after another |
| Readers.Reader.TryReadBatch | src/lib.rs:3126-3183 | the batch is of the next consecutive records and the cursor moves behind them; short of full it ends at a free slot, or on a Roll whose file is gone or was not opened; an error comes only of a region not mapped, of such a Roll with no record before it, or of more than 65,536 regions, consumes nothing and makes the reader's own region the last mapped again |
| Readers.Reader.MessageAt | src/lib.rs:2286-2310 | a place of the batch, read through its mapping, is the log's record at its index |
| Readers.Reader.BatchStays | src/lib.rs:2286-2310 | and stays so, whatever others do while the batch is held |
| Readers.BatchRefines | src/lib.rs:3126-3316 | a batch of at most `n` and `n` single reads take as many records and end in one place, and stopped by one Roll both stand on it |
| Reading.SameStop | src/lib.rs:3238-3261 | a batch and single reads that have consumed the same record stand at the same file, slot and index |
| Reading.SameWait | src/lib.rs:3226-3231 | and so do two ways of reading on from one place that both found nothing more |
| Reading.SameRecord | src/lib.rs:2868-2875 | a reader that sought an index and one that read up to it find the same record |
| Opening.PairConsistent | src/lib.rs:2657-2670 | with the position loaded first, the count second and the slot last, the count is that of the records before the slot |
| Opening.LiveStart | src/lib.rs:2679-2736 | the answer is what the loads, made at recorded moments, come to; if segments were unlinked oldest first meanwhile it is stale or a start on the record chain with the index of the record there, never off the chain or past the end |
| Opening.StartsExact | src/lib.rs:2664-2672 | opens of a disk at rest all go on to a newer segment or start right if and only if segments are unlinked oldest first |
| Opening.RollStartsExact | src/lib.rs:1755-1759 | after a roll and its retention they do if and only if nothing older was left than the segment dropped |
| Retention.RetainedThroughout | src/lib.rs:1755-1759 | under one setting, undisturbed, any number of rolls leaves exactly the last `keep` segments, in order |
| Retention.PruneExact | src/lib.rs:1755-1759 | one retention step keeps the order if and only if nothing older than the segment dropped is left |
| Retention.RollsExact | src/lib.rs:1755-1759 | any number of rolls keep it if and only if the first one does |
| Crashes.CrashLeavesHole | src/lib.rs:1698-1759 | a crash between publishing and retention, then a whole roll, leave segment 0 named and 1 not; a `Live` open of segment 0 then starts one slot past its Roll, off the chain |
| Opening.HoleMisleads | src/lib.rs:2664-2672 | before any gap the older segment passes for the newest and the open does not start right |
| Locating.ListSequences | src/lib.rs:4332-4362 | the listing is the directory's sequences in ascending order |
| Locating.Search | src/lib.rs:2601-2619 | the binary search ends on the last listed segment whose base is at or before the index |
| Locating.Locate | src/lib.rs:2549-2655 | what is found is a cursor on the chain with the index asked for; pruned and past-head answers name the base of the oldest listed segment and the head loaded; a vanished segment means a published one lost its name meanwhile, a refusal that there was a gap |
| Locating.OpenAt | src/lib.rs:2512-2522 | it gives up only after eight names were lost, one after another; while no name is lost and no gap is left, every index from tail to head is found |
| Locating.NothingMissed | src/lib.rs:2549-2655 | none of the other answers can be justified for such an index |
| Prefault.StepKeeps | src/prefault.rs:598-658 | every step of writer and helper keeps the handshake's invariant |
| Handshake.StepReflects | src/prefault.rs:661-708 | every step that installs, publishes or unlinks is that store on the channel's disk, which keeps its invariant, and every other leaves the disk alone |
| Prefault.RemovedForGood | src/prefault.rs:160-166 | in no interleaving does a name that retention removed come back |
| Prefault.OneFileEver | src/prefault.rs:661-708 | two files published with the same sequence, at any moments of a run, are one file |
| Prefault.NamesPredecessor | src/prefault.rs:661-708 | a published file names the one published before it |
| Prefault.NeverRefused | src/lib.rs:1656-1674 | the file a roll takes, adopts or prepares always names the writer's segment as its parent |
| Prefault.ClosedExactly | src/prefault.rs:455-468 | dropping the writer leaves exactly the published segments retention did not drop, no deferred removal forgotten and no published file lost, and takes away an unpublished file exactly if the helper had it ready |
| Prefault.OrderExact | src/lib.rs:1750-1775 | a run removes segments oldest first, and lines them up so, if and only if each is queued behind every older one left, or deleted when none is |
| Prefault.OutOfLine | src/prefault.rs:319-326 | from a queue out of line, deleting what is queued breaks the order |
| Prefault.QueueFullReorders | src/prefault.rs:319-326 | a run that breaks the order through the full queue |
| Prefault.DeferralReorders | src/lib.rs:1750-1767 | a run that breaks it with the queue never overrun, through deferral |
| Lengths.RunNeverShortens | src/prefault.rs:394-404 | in no interleaving is a segment file made shorter, a view handed over late included |
| Lengths.NeverShorter | src/prefault.rs:711-731 | no single step of the writer's growth or the helper's makes a file shorter |
| MapAhead.OnlyNamedFiles | src/map_ahead.rs:128-177 | a reader with a helper is in none but the files its Rolls named, and maps regions of those alone |
| MapAhead.StaleTurnedDown | src/lib.rs:3907-3931 | whatever was opened ahead, a file never published is neither read nor mapped |
| MapAhead.TakenRegionOwn | src/map_ahead.rs:128-145 | a region taken ready-mapped is of the file the reader is in |
| Wake.SleepersOwed | src/lib.rs:3602-3645 | in any run, deaths and writers that do not wake included, whoever sleeps on something unread is owed a waking that has not been made |
| Wake.NoLostWakeUp | src/lib.rs:3602-3645 | once a writer has woken for what it published, and none died or did not wake, no reader sleeps on anything unread, rolls followed while looking included |
| Wake.DistrustExact | src/lib.rs:3663-3683 | over any run a flag is distrusted if and only if its reader missed twice in the segment with no bump in between |
| Wake.NeverDistrusted | src/lib.rs:3663-3683 | if a flag is, a writer died between publishing and bumping or one that does not wake took over, however writers are held up |
| Wake.WrapExact | src/wake.rs:32-38 | in any run, a reader goes to sleep on something unread with no waking owed if and only if the word was bumped a nonzero multiple of 2^32 times since its load |
| Wake.WrapMisses | src/wake.rs:32-38 | a run in which that many records pass a reader between look and sleep |
| Wake.WakingWakesAll | src/wake.rs:30-38 | once a writer has woken a segment's sleepers none of them sleeps there, deaths before it notwithstanding |
| Wake.SilentWriterCaught | src/lib.rs:3674-3683 | over any run, a writer that does not bump is distrusted at the second full sleep that ends on a record, and not at the first |
| Wake.SilentWriterRun | src/lib.rs:3674-3683 | a run in which one takes over and is caught |
| Wake.CrashMisleads | src/lib.rs:3674-3683 | a run in which every writer wakes, one dies between publishing and bumping, and the next one's flag is distrusted |

## Left out

- Readers.Reader.ScanToUserRecord: returns whatever finite number of stores others make in all; against others that add Skips and Rolls without end nothing is promised.
- Writers.Writer.RollFile: unlinking always succeeds; the code ignores a failure to unlink.
- Recovery.Reopen: I/O errors while opening are not modelled other than as a crash at that point.
- Moments.FrozenForGood: says nothing of what a process outside the protocol may write.
- Lengths.RunNeverShortens: counts lengths in regions; a rolling channel's preallocation is a file born at full length.
- Wake.NoLostWakeUp: assumes no word is bumped 2^32 times under a value a reader still holds; after a death, a sleep that is still owed its waking is bounded by its cap.
- Header fields of region 0 are kept beside the bytes of the Channel record, which are zero in the model; version, endianness, names and sizes are not validated.
- Sizes, offsets and positions are unbounded integers: overflow of `usize` in offset arithmetic is not modelled. Sequences and record indices are checked against 2^64 where the code checks them.
- The SSE4.2 path of the CRC and the source of random instance IDs.
- Private attempt files and their sweeping: an installation is one atomic step.
- `wait_any` over several wake words, backoff durations and clocks.
- Owned messages, how long mappings live, page populating, unmapping, thread start-up and the queues of descriptors.
- Builders, accessors, display text, and deleting and recreating a channel at one path.
- Acquire and release orderings, and power loss.
