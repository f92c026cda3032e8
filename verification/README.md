# Zakura gRPC replay, live and reconnect protocol: a Dafny model

The Zakura Geyser plugin publishes node events as numbered updates. Block-scoped updates go into a bounded replay
buffer and then, one by one, into a live broadcast ring; mempool updates are applied to a revisioned mempool view and
go to the ring only. A subscriber opens a receiver on the ring, takes a replay snapshot, then perhaps a mempool
snapshot, and drops the overlap by two watermarks, one on sequence numbers and one on revisions. The Rust client folds
what it receives into a chain state (a finalized anchor and the blocks above it) and a bounded duplicate filter, and
after a disconnect asks again from its anchor.

The model follows the code, component by component, and proves what the views amount to together:

| files | what they model |
|---|---|
| `proto.dfy`, `order.dfy` | the messages; the ascending order in which ordered maps and sorted lists yield their keys |
| `replay.dfy`, `window.dfy` | the replay buffer object, and the window it keeps over whole runs |
| `mempool.dfy` | the mempool view and its snapshot, and what a follower makes of them |
| `filter.dfy`, `event_filter.dfy` | compilation of subscription filters to masks and sets, matching, payload choice |
| `projection.dfy`, `wire.dfy`, `delivery.dfy` | payload projection and its cache, encoded lengths, the last step before the wire |
| `transparent.dfy`, `event.dfy` | encoding of transparent inputs and outputs, and of one node event as a batch |
| `unspent.dfy`, `batch.dfy` | what a follower of those batches rebuilds and can take back, and what they show, field by field |
| `chain.dfy`, `best_chain.dfy`, `dedup.dfy`, `handshake.dfy` | the client's chain state, duplicate filter, request construction, and the server's check of it |
| `protocol.dfy`, `shared_state.dfy` | the publisher and a subscriber as a machine of steps, and the objects that perform those steps |
| `subscription.dfy` | a subscription's task: initial messages, then the loop over requests, live updates and pings |
| `splice.dfy`, `guarantees.dfy`, `filtered.dfy` | the inductive invariant of that machine and what a subscriber is therefore sent |
| `snapshot.dfy`, `task.dfy` | what a subscriber starts with, and the task of a subscriber of that machine |
| `recovery.dfy`, `exactly_once.dfy`, `acceptance.dfy`, `resumed.dfy` | the machine with a reconnecting client, and the end-to-end guarantees |
| `histogram.dfy` | the load test's latency percentile |

State that the source updates in place is a class here; each of its methods is proved equal to a function on values,
and the lemmas are about those functions. The interleaving machine is built from the same functions. Its steps are as
fine as the code's locks make them: numbering, locking, stamping and applying a batch; pushing it; each single send;
releasing the lock; opening a receiver; the replay snapshot under its lock; the mempool snapshot under its lock; each
message handed on; each message received; falling behind; and evictions by other readers at any time.

`dafny verify dfyconfig.toml` checks everything.

## Main results

- **Splice safety** (`Guarantees.SpliceSafety`, and `FilteredStream.FilteredSplice` for any filter): under every
  interleaving the block-scoped updates arrive in strictly increasing sequence order, every retained one at or above
  the requested height and every later one exactly once, and a subscriber that falls behind has a prefix.
- **Mempool agreement** (`Guarantees.MempoolAgreement`): under every interleaving, snapshot plus deltas give exactly
  the server's key set.
- **The task on the machine** (`TaskStream.TaskIsMachine`): started on what `Subscribe` returned in any reachable state
  and woken by the ring, a subscription's task sends exactly what passes its filter of what the machine's subscriber is
  given. Whatever wakes it up, also with its filter replaced, nothing block-scoped comes twice and nothing that its
  mempool snapshot covers comes after it (`TaskStream.TaskInSequence`, `TaskStream.RequestTakesEffect`).
- **The mempool snapshot** (`SnapshotStream.SnapshotSent`): between its two markers lies exactly the mempool of one
  moment of the log, with every current transaction in full (`MempoolView.SnapshotExactly`).
- **No gap and no early duplicate across reconnects**, for every request and however the client resumes, from an anchor
  or from a height (`ExactlyOnce.NothingMissing`, `ExactlyOnce.ResumptionNeverAhead`,
  `ExactlyOnce.DuplicateNeedsHeights`): the application gets exactly what the request asks to be sent of each update,
  and gets it again only after updates of more heights than the filter retains. And when a resume from an anchor
  succeeds at all (`Acceptance.AnchorDecides`): if and only if the anchor's batch survives the eviction at that moment;
  otherwise OUT_OF_RANGE. What comes back of the later updates, exactly: `Acceptance.LaterComesBack`.
- **The chain state after a resume** (`ResumedState.ResumedChainIsLog`): a catch-all client that has resumed and caught
  up has the chain state of everything ever published, if the replay held everything at or above its anchor and the
  log satisfies `ChainResume.ReplayableFrom` at its last finalized block.
- **The unspent outputs, forwards and back** (`UnspentView.EventFollowedAndUndone`): following the UTXO updates of a
  block event takes the full set of unspent outputs over the block's transactions, and undoing them gives it back.
  Everything that an event's batch shows, in order: `BatchView.EventShown`.
- **The best chain is held** (`BestChainView.BestChainHeld`): the client's partial blocks hold every block of the node's
  best chain above the anchor; what each update leaves of them, exactly: `BestChainView.HeldExactly`.
- **Window refinement** (`Window.WindowRefinement`; over the messages themselves, `Window.WindowByMessages`), **filter
  meaning** (`Filter.CompilationPreservesMeaning`,
  `EventFilters.SentIsAsked`, `EventFilters.DeliveredIsUnion`), **when a replay reconstructs chain state**, exactly
  (`ChainResume.ReplayReconstructsExactly`), **when a range is complete**, exactly (`Window.RangeCompleteExactly`),
  **handshake** (`Handshake.HandshakeSucceeds`), **bounded duplicate detection** (`Dedup.AcceptedExactly`), **UTXO
  conservation** (`Transparent.Conservation`), **projection cache** (`Projection.PublishedUpdate.Payload`) and
  **percentile** (`Histogram.LatencyHistogram.Percentile`).

Hypotheses are stated where they are needed and nowhere else. `Recovery.Rules` asks something of the chain only for the
kinds of reconnect that a story has. For a reconnect from an anchor it is `Recovery.ChainRule`: what is published after
a block was finalized is about greater heights; `Recovery.EqualHeightLosesUpdate` shows why it says greater. For a
client without an anchor, which asks for the last height it received less a buffer, it is `Recovery.HeightRule`:
published heights go down by less than that buffer; `Recovery.LowUpdateLosesAnother` shows why. A client that
reconnects with no anchor and with nothing block-scoped received has nothing to resume from: the story's base, the
first snapshot from which nothing is missing, starts over there, and `ExactlyOnce.BaseStays` says that it does so only
there.

## Where the code and its documentation differ

The model follows the code.

- The delivery notes say that the client resumes from a height checkpoint (`README.md:430-431`). It does so only
  while it has no finalized anchor; otherwise it resumes from the anchor, with the last height seen unused. And a resume
  by height need not be free of gaps: when a block is finalized further below the last height received than the buffer,
  which is 2 by default, its batch alone makes the request acceptable, also when the batches in between were evicted
  (`Recovery.LowUpdateLosesAnother`).
- `from_height` is documented to fail when the requested height has been evicted (`README.md:411-412`). The check is
  against the least retained height, so a height of which some buckets were evicted and others not is accepted and
  replayed in part: `Window.BoundaryHeightMayBeIncomplete` gives such a run, and `Window.RangeCompleteExactly` says
  exactly when an accepted request returns everything: when every evicted bucket lies below the height.
- `DedupState::observe` is documented to return true once for each key. A key whose height bucket was dropped is
  accepted again, as in `Dedup.ForgottenKeyComesThroughAgain`; `Dedup.AcceptedExactly` says exactly when a key is.
- A retained height that has no finalized block at all is also answered with FAILED_PRECONDITION, not only one with a
  different hash (`Replay.ReplayBuffer.VerifyCheckpoint`).
- The resume from an anchor is documented to let an application roll back what was not final and take replacement data
  (`README.md:153-158`). Folding the replay from the anchor need not give the chain state of the whole log:
  `ChainResume.LowResetBreaksReplay` has a reset below the anchor that is not replayed, so an orphan stays.
  `ChainResume.ReplayReconstructsExactly` gives the exact condition, and `ChainResume.ReplayReconstructsState` a simpler
  one that suffices. The replacement data may also lack a block that was
  published above the anchor before the anchor was finalized and evicted since; the notice discards it all the same
  (`ResumedState.EvictedBlockForgotten`).

## Model

| member | source | states |
|---|---|---|
| Order.List | zakura-grpc-geyser/src/filter.rs:63-63 | sorting the keys of a map gives its ascending listing, whatever order they come in |
| Order.AscendingUnique | zakura-grpc-geyser/src/filter.rs:63-63 | a set has only one ascending listing, so the result cannot depend on map order |
| Order.TextLessMeans | zakura-grpc-geyser/src/filter.rs:63-63 | the order of names is the byte-wise one: at the first difference the smaller byte decides, and a proper prefix comes first |
| Replay.FirstHeight | zakura-grpc-geyser/src/server.rs:459-466 | absent exactly when no update of the batch is block-scoped, otherwise the height of one |
| Replay.ReplayBuffer.constructor | zakura-grpc-geyser/src/server.rs:440-448 | an empty deque with agreeing counters |
| Replay.ReplayBuffer.PushBatchAt | zakura-grpc-geyser/src/server.rs:454-494 | one more bucket for a block-scoped batch, then eviction; nothing at all with a height capacity of zero; the counters still agree |
| Replay.ReplayBuffer.Evict | zakura-grpc-geyser/src/server.rs:496-519 | ends, leaving what the limits let stay, with counters equal to the deque's sums; on exit no limit is exceeded |
| Replay.ReplayBuffer.EvictFront | zakura-grpc-geyser/src/server.rs:521-539 | drops the oldest bucket; the counters agree again and no height keeps a zero count |
| Replay.ReplayBuffer.Snapshot | zakura-grpc-geyser/src/server.rs:541-583 | evicts, checks the range against the least retained height, and returns whole buckets with the last sequence number |
| Replay.ReplayBuffer.VerifyCheckpoint | zakura-grpc-geyser/src/server.rs:585-621 | accepted when some bucket at the height holds the finalized block with the hash, otherwise a mismatch or an unavailable height |
| Replay.AppendMeasures | zakura-grpc-geyser/src/server.rs:484-492 | adding a bucket moves each counter by exactly that bucket |
| Replay.CountsKeys | zakura-grpc-geyser/src/server.rs:503-503 | the size of the count map is the number of distinct heights |
| Replay.DropUndoesBump | zakura-grpc-geyser/src/server.rs:527-532 | decrementing, and removing at zero, exactly undoes the increment |
| Replay.KeptIsSuffix | zakura-grpc-geyser/src/server.rs:496-519 | eviction is first in, first out |
| Replay.KeptStays | zakura-grpc-geyser/src/server.rs:498-514 | the loop's exit test holds of what it leaves |
| Window.OldestFirst | zakura-grpc-geyser/src/server.rs:498-502 | with insertion in time order, testing the front's age tests every bucket's age |
| Window.KeptIsLongest | zakura-grpc-geyser/src/server.rs:496-519 | the loop leaves the longest suffix within all four limits |
| Window.WindowRefinement | zakura-grpc-geyser/src/server.rs:454-519 | after any pushes and evictions under a monotone clock the buffer is exactly the longest suffix of everything ever pushed that meets all four limits |
| Window.RunIsSuffix | zakura-grpc-geyser/src/server.rs:521-524 | whatever the clock does, the buffer is a suffix of everything pushed |
| Window.WindowByMessages | zakura-grpc-geyser/src/server.rs:454-519 | the same with the messages themselves: when each cached length is that of its message, what is retained has at most the limits of heights, messages and encoded bytes, none is older than the age limit, and one bucket more would break a limit |
| Window.RangeComplete | zakura-grpc-geyser/src/server.rs:541-583 | with non-decreasing heights a successful range request omits nothing above the height, nor at it when it exceeds the first available one |
| Window.RangeCompleteExactly | zakura-grpc-geyser/src/server.rs:541-583 | an accepted range request returns everything ever pushed at or above the height if and only if every evicted bucket lies below it; with non-decreasing heights, if and only if the last evicted one does |
| Window.RangeFailure | zakura-grpc-geyser/src/server.rs:543-567 | a range request fails exactly when every retained bucket lies above it |
| Window.BoundaryHeightMayBeIncomplete | zakura-grpc-geyser/src/server.rs:642-644 | under any limits that allow one update, two updates of one height: the request at that height is accepted and misses the first |
| Window.AtHeightAppend | zakura-grpc-geyser/src/server.rs:466-470 | a bucket takes the updates of its height in the batch's order |
| Wire.VarintRoundTrip | zakura-grpc-geyser/src/server.rs:1182-1189 | the base-128 encoding of every number reads back as that number |
| Wire.EncodedVarintLen | zakura-grpc-geyser/src/server.rs:1182-1189 | the loop counts the bytes of that encoding, for every number |
| Wire.NamesRoundTrip | zakura-grpc-geyser/src/server.rs:1175-1180 | every list of filter names can be recovered from its length-delimited records |
| Wire.EncodedFilterNamesLen | zakura-grpc-geyser/src/server.rs:1175-1180 | the sum is the length of those records |
| Wire.LengthAdditive | zakura-grpc-geyser/src/server.rs:1092-1097 | the cached length of a message without names plus the names' length is the length with the names |
| Projection.PublishedUpdate.constructor | zakura-grpc-geyser/src/server.rs:76-86 | keeps the full projection and its length, with every slot empty |
| Projection.PublishedUpdate.Payload | zakura-grpc-geyser/src/server.rs:88-139 | for specified modes the result is projecting the original from scratch, whichever call filled the slot and whatever the irrelevant mode; filled slots never change |
| Projection.UnspecifiedIsRelabelled | zakura-grpc-geyser/src/server.rs:88-139 | for unspecified modes the cached answer is never what direct projection gives |
| Projection.ProjectionKeepsMetadata | zakura-grpc-geyser/src/server.rs:1114-1173 | projection touches only the droppable parts and the payload label |
| MempoolView.MempoolState.Apply | zakura-grpc-geyser/src/server.rs:328-363 | applies a batch in order: the specified new entries, template and revision |
| MempoolView.MempoolState.ApplyOne | zakura-grpc-geyser/src/server.rs:330-359 | added ids keep an existing entry, invalidated and mined ids go, a transaction replaces its entry |
| MempoolView.MempoolState.InsertIds | zakura-grpc-geyser/src/server.rs:337-341 | exactly the listed ids are added, and existing details stay |
| MempoolView.MempoolState.RemoveIds | zakura-grpc-geyser/src/server.rs:342-346 | exactly the listed ids are removed |
| MempoolView.MempoolState.TakeSnapshot | zakura-grpc-geyser/src/server.rs:365-398 | ids in ascending order in chunks of 1000, then the known transactions, all at the current revision |
| MempoolView.ApplyFollows | zakura-grpc-geyser/src/server.rs:328-363 | a client that follows the updates the server applies has the server's keys |
| MempoolView.ApplyFiles | zakura-grpc-geyser/src/server.rs:350-358 | every stored transaction is filed under its own id |
| MempoolView.SnapshotRebuildsKeys | zakura-grpc-geyser/src/server.rs:365-398 | following a snapshot from nothing gives exactly the server's keys |
| MempoolView.KeysExactly | zakura-grpc-geyser/src/server.rs:328-363 | an id is in the view exactly when some update lists or brings it and no later one removes it |
| MempoolView.DetailsExactly | zakura-grpc-geyser/src/server.rs:350-358 | the view holds for an id the last transaction update for it that no later update removes, and nothing otherwise |
| MempoolView.SnapshotExactly | zakura-grpc-geyser/src/server.rs:365-398 | a snapshot gives each current transaction in full and at the current revision, no other transaction, every current id once, and the number of them |
| EventBits.HasAfterWith | zakura-grpc-geyser/src/filter.rs:638-642 | setting a bit adds exactly that event type to the mask |
| Filter.CompileList | zakura-grpc-geyser/src/filter.rs:387-416 | accepted exactly when short enough, all parse and none is on the reject list; the result is the canonical set; a bad reject list is an internal error |
| Filter.CompileKinds | zakura-grpc-geyser/src/filter.rs:141-165 | accepted exactly for known, specified event types within the limit; the mask holds exactly those |
| Filter.FromProto | zakura-grpc-geyser/src/filter.rs:141-232 | accepted exactly when every list, type and payload mode is; the compiled filter holds what the raw one says |
| Filter.AddressesMean | zakura-grpc-geyser/src/filter.rs:257-275 | include, exclude and required sets mean what the raw lists say, also when addresses were not extracted because no filter needs them |
| Filter.MetadataMeans | zakura-grpc-geyser/src/filter.rs:277-310 | packed flags and optional conditions mean what the raw fields say |
| Filter.PackingKeepsFlags | zakura-grpc-geyser/src/filter.rs:632-636 | each flag is recovered from the packed byte |
| Filter.CompilationPreservesMeaning | zakura-grpc-geyser/src/filter.rs:240-255 | a compiled filter matches an update if and only if the raw filter means it, for every update |
| Filter.AddressesShown | zakura-grpc-geyser/src/filter.rs:526-585 | the addresses extracted are exactly those of spent outputs and of outputs, and are absent for every kind of update but three |
| Filter.IdsMentioned | zakura-grpc-geyser/src/filter.rs:485-524 | the ids extracted are exactly those that the update mentions |
| Filter.FactsCarried | zakura-grpc-geyser/src/filter.rs:587-630 | the facts extracted are those that the update carries |
| EventFilters.New | zakura-grpc-geyser/src/filter.rs:29-78 | a request is accepted exactly when its limits, names and filters are; the result represents it, sorted by name |
| EventFilters.CompileNamed | zakura-grpc-geyser/src/filter.rs:53-62 | in whatever order the map yields them, all named filters are accepted and compiled or the request is refused |
| EventFilters.SortedByName | zakura-grpc-geyser/src/filter.rs:63-63 | the compiled filters in the ascending order of their names |
| EventFilters.EmptyFilterMeansAll | zakura-grpc-geyser/src/filter.rs:337-351 | a filter counts as empty exactly when it asks for every update |
| EventFilters.NoneAsksForAll | zakura-grpc-geyser/src/filter.rs:29-78 | where catch-all subscriptions are disabled, no accepted request asks for everything by its event list or by a named filter |
| EventFilters.MatchedMeansRequest | zakura-grpc-geyser/src/filter.rs:81-119 | an update is delivered exactly when the request wants it, under exactly the names whose filters mean it, strictly ascending |
| EventFilters.RichestTransactionPayload | zakura-grpc-geyser/src/filter.rs:313-335 | the flags computed in the loop are the join of the modes |
| EventFilters.RichestIsLeastUpperBound | zakura-grpc-geyser/src/filter.rs:313-335 | that join covers every mode and is covered by whatever covers them all |
| EventFilters.ChosenModes | zakura-grpc-geyser/src/filter.rs:96-110 | each half of the payload is kept exactly when some wanting filter keeps it, and all of it for a legacy or catch-all match |
| EventFilters.DeliveredIsUnion | zakura-grpc-geyser/src/server.rs:1114-1173 | what is delivered is exactly the union of what each wanting filter alone would have been sent |
| EventFilters.PayloadCodes | zakura-grpc-geyser/src/server.rs:1114-1173 | what each payload code of a lone filter leaves of a message, part by part |
| EventFilters.SentIsAsked | zakura-grpc-geyser/src/filter.rs:81-119 | what the compiled filter sends for an update is exactly what the raw request asks for: nothing, or the projection with the wanting names |
| Delivery.SendFiltered | zakura-grpc-geyser/src/server.rs:1057-1112 | skips exactly the unmatched; otherwise the projection that the match asks for, with its names and its exact encoded length |
| Delivery.MatchedIsSpecified | zakura-grpc-geyser/src/filter.rs:96-110 | a match never asks for an unspecified mode, so the cache always answers as direct projection |
| Delivery.CatchAllDeliversEverything | zakura-grpc-geyser/src/filter.rs:92-110 | a catch-all subscription is sent every published update whole |
| Transparent.EncodeTransparentInput | zakura-grpc-geyser/src/event.rs:495-568 | one record and, for a spend, one change; the value is the previous output's, zero for coinbase, absent when unresolved |
| Transparent.EncodeTransparentOutput | zakura-grpc-geyser/src/event.rs:570-607 | one record and one change at (txid, index) |
| Transparent.EncodeTransparentUpdates | zakura-grpc-geyser/src/event.rs:412-493 | succeeds exactly when indices fit u32 and the checked totals fit u64; then records, ordered changes and totals are exact; an overflow names the side that overflowed |
| Transparent.ChangesReplayTransaction | zakura-grpc-geyser/src/event.rs:412-493 | folding the changes removes exactly the spent outpoints and then adds exactly the outputs |
| Transparent.Conservation | zakura-grpc-geyser/src/event.rs:412-493 | with distinct inputs that spend known outputs of the set and with new outputs the set's total moves by output total minus input total |
| Transparent.TotalKnown | zakura-grpc-geyser/src/event.rs:446-466 | the input total is there exactly when every spent output is known |
| Transparent.FirstUnresolved | zakura-grpc-geyser/src/event.rs:446-466 | once an input is unresolved the checked total is the sum of those before it |
| Events.EncodeBlockTransactions | zakura-grpc-geyser/src/event.rs:235-288 | succeeds exactly when every transaction is encodable and, if sent, serializes; the updates come in block order after the block |
| Events.EncodeEvent | zakura-grpc-geyser/src/event.rs:28-116 | succeeds exactly when the block and every transaction sent serialize and every index and total is in range; its updates are the specified ones, in order |
| Events.EventIsSourceBatch | zakura-grpc-geyser/src/event.rs:28-116 | one event's updates are all block-scoped at one height or all about the mempool; those of a finalized block finalize it, the block itself among them, and no others finalize anything |
| UnspentView.BlockFollowed | zakura-grpc-geyser/src/event.rs:412-607 | following a block's UTXO updates takes the full set of unspent outputs, with heights and coinbase flags, over its transactions in order |
| UnspentView.BlockUndone | zakura-grpc-geyser/src/event.rs:609-645 | when each spent output is known as it is in the set, undoing them, the last first, gives every spent output back in full |
| UnspentView.EventFollowedAndUndone | zakura-grpc-geyser/src/event.rs:28-116 | so for every accepted or finalized block event, whatever else its batch holds |
| BatchView.ChangesShown | zakura-grpc-geyser/src/event.rs:495-607 | one change for each spend and each output, in order and with all that is known, and no change exactly when there is neither |
| BatchView.BlockShown | zakura-grpc-geyser/src/event.rs:290-389 | after the block itself each transaction is shown once, at its index and in order, with its inputs, outputs and facts, and then its changes if it has any |
| BatchView.EventShown | zakura-grpc-geyser/src/event.rs:28-233 | every event that can be encoded is published as a batch of its session and source sequence, each update of the right type and showing what it stands for |
| ChainResume.ChainResumeState.FromRequest | zakura-grpc-client/src/reconnect.rs:135-149 | the state that the request's checkpoint stands for |
| ChainResume.ChainResumeState.ObserveUpdate | zakura-grpc-client/src/reconnect.rs:151-198 | one fold step per kind of update |
| ChainResume.ChainResumeState.InsertOne | zakura-grpc-client/src/reconnect.rs:200-209 | inserts above the anchor only |
| ChainResume.ChainResumeState.ObserveOneBlock | zakura-grpc-client/src/reconnect.rs:211-223 | a finalized block becomes the anchor and prunes what is not above it |
| ChainResume.ChainResumeState.TakeCheckpoint | zakura-grpc-client/src/reconnect.rs:225-232 | the anchor with the partial blocks from the highest key down |
| ChainResume.ObserveWellFormed | zakura-grpc-client/src/reconnect.rs:151-223 | every update keeps the partial blocks above the anchor and under their own keys |
| ChainResume.AnchorIsLastFinalized | zakura-grpc-client/src/reconnect.rs:211-215 | the anchor is the last block finalized, even a lower one |
| ChainResume.CheckpointBlocks | zakura-grpc-client/src/reconnect.rs:225-232 | a checkpoint lists exactly the partial blocks, strictly descending by height and hash |
| ChainResume.CheckpointRoundTrip | zakura-grpc-client/src/reconnect.rs:135-232 | rebuilding the state from its checkpoint is exact |
| ChainResume.EffectIsObserved | zakura-grpc-client/src/reconnect.rs:151-223 | above the finalized heights an update's effect on a block's entry does not depend on the state |
| ChainResume.FoldIsLast | zakura-grpc-client/src/reconnect.rs:151-223 | so the fold of a log leaves at each key what the last update with an effect on it left |
| ChainResume.ReplayReconstructsExactly | zakura-grpc-client/src/reconnect.rs:151-223 | for every log last finalized at its highest finalized block, the replay from that anchor gives the whole log's state if and only if no update that the replay leaves out has the last effect on a block above the anchor, unless it leaves there what the replay leaves |
| ChainResume.StartForgotten | zakura-grpc-client/src/reconnect.rs:211-223 | once a log has finalized its highest block, the fold is the same from any lower anchor as from nothing |
| ChainResume.FoldsAgree | zakura-grpc-client/src/reconnect.rs:151-223 | without low resets that name a block above the height, the two folds agree above it, also before that height is finalized |
| ChainResume.ReplayReconstructsState | zakura-grpc-client/src/reconnect.rs:151-223 | without such resets, folding the replay from the anchor alone gives the anchor and partial blocks of the whole log |
| ChainResume.LowResetBreaksReplay | zakura-grpc-client/src/reconnect.rs:167-174 | a growth above the anchor that a reset to a tip below it disconnects: the replay leaves the reset out and keeps the orphan |
| BestChainView.HeldExactly | zakura-grpc-client/src/reconnect.rs:151-223 | above the anchor the client holds after an update exactly the blocks that the update shows and those held before that it does not touch; at or below it none |
| BestChainView.BestChainHeld | zakura-grpc-client/src/reconnect.rs:151-198 | while the node grows and resets its chain from the tip, every block of it above the last finalized height is held by height and hash |
| BestChainView.CheckpointNamesBestChain | zakura-grpc-client/src/reconnect.rs:225-232 | so the next checkpoint names it |
| Dedup.DedupState.constructor | zakura-grpc-client/src/dedup.rs:34-40 | nothing seen |
| Dedup.DedupState.Observe | zakura-grpc-client/src/dedup.rs:45-81 | accepts and files a new key, drops the oldest height buckets beyond the retention, and forgets exactly their keys |
| Dedup.DedupState.FileKey | zakura-grpc-client/src/dedup.rs:58-70 | adds the key to the first bucket of its height, or to a new last one |
| Dedup.SeenIsDisjointUnion | zakura-grpc-client/src/dedup.rs:45-81 | over any run the seen keys are the disjoint union of the buckets' keys, at distinct heights, no more than the retention |
| Dedup.AcceptedExactly | zakura-grpc-client/src/dedup.rs:45-81 | a block-scoped update is accepted if and only if its session and sequence together are new or as many buckets as the retention were created after the one that took them last |
| Dedup.NewIsAccepted | zakura-grpc-client/src/dedup.rs:53-56 | an update whose session and sequence no earlier one had both is accepted, also when only the session differs |
| Dedup.ForgottenKeyComesThroughAgain | zakura-grpc-client/src/dedup.rs:72-79 | with one height retained, a key is accepted, and after one update of another height accepted again |
| Dedup.ReacceptedOnlyAfterRetention | zakura-grpc-client/src/dedup.rs:72-79 | between two acceptances of a key as many buckets of other, distinct heights as the retention are created after its own |
| Dedup.ReacceptedAfterHeights | zakura-grpc-client/src/dedup.rs:72-79 | and since some update of its height, at or before the first acceptance, updates of more heights than the retention have come |
| Dedup.NotCountedFromAcceptance | zakura-grpc-client/src/dedup.rs:60-66 | counted from the first acceptance itself it can be no more than the retention: a run in which an older bucket took the key |
| Dedup.ExactlyOnceWithinRetention | zakura-grpc-client/src/dedup.rs:45-81 | in a run of any length, a key is accepted exactly when it is new as long as no more heights than the retention have come since an update of its height |
| Handshake.BuildReconnectRequest | zakura-grpc-client/src/reconnect.rs:427-446 | the checkpoint and its height, or the last height less the buffer, or the original height; neither when data is skipped |
| Handshake.HandleUpdate | zakura-grpc-client/src/reconnect.rs:240-278 | chain state first, then the height, then duplicate suppression; pings are answered and keepalive pongs dropped |
| Handshake.AnchorHash | zakura-grpc-client/src/reconnect.rs:211-215 | with hashes present the anchor's hash is never empty, and there is an anchor exactly when one was given or finalized |
| Handshake.AnchoredRequestAccepted | zakura-grpc-geyser/src/server.rs:270-297 | an anchored client's request passes the check if and only if the anchor's hash is not empty |
| Handshake.HandshakeSucceeds | zakura-grpc-geyser/src/server.rs:270-309 | after any run the reconnect request is accepted at the anchor's height, rebuilds the state exactly, and the echoed notice empties the partial blocks |
| Handshake.NoticeEmptiesPartial | zakura-grpc-client/src/reconnect.rs:191-195 | observing the echoed notice discards every partial block and keeps the anchor |
| Handshake.AcceptedCheckpoints | zakura-grpc-geyser/src/server.rs:270-297 | a request with a checkpoint is accepted exactly when its anchor has a hash, it stands for a well-formed chain state, and any height asked for is the anchor's |
| Handshake.UnanchoredRequest | zakura-grpc-client/src/reconnect.rs:427-446 | without an anchor: nothing is asked back when data is skipped, otherwise the last height less the buffer, or what was asked first; filters, ping and snapshot flag as they were |
| Handshake.ControlHandedOn | zakura-grpc-client/src/reconnect.rs:240-278 | of what is not block-scoped the application gets everything but pings and the pongs to the client's own replies, which change nothing |
| Protocol.AssignSequences | zakura-grpc-geyser/src/lib.rs:205-217 | consecutive numbers, continuing from the last one assigned, or nothing when they run out, which is exactly when u64 is exceeded |
| SharedStates.SharedState.constructor | zakura-grpc-geyser/src/server.rs:150-163 | the machine's empty server |
| SharedStates.SharedState.PublishBatch | zakura-grpc-geyser/src/server.rs:165-203 | the whole new state is that of the machine's publishing steps |
| SharedStates.SharedState.StampAndApply | zakura-grpc-geyser/src/server.rs:166-184 | a batch with a mempool update gets the next revision on each such update and is applied |
| SharedStates.SharedState.Send | zakura-grpc-geyser/src/server.rs:191-198 | the updates are appended to the live channel in order |
| SharedStates.SharedState.Subscribe | zakura-grpc-geyser/src/server.rs:205-241 | receiver first, then verification, eviction, range check and snapshot, then the mempool snapshot; the outcome and every part of it are the machine's |
| SharedStates.Stamp | zakura-grpc-geyser/src/server.rs:170-174 | exactly the mempool updates get the revision |
| SharedStates.GrpcPlugin.OnEvent | zakura-grpc-geyser/src/lib.rs:187-224 | an event that cannot be encoded changes nothing; when the numbers run out nothing is published; any other event is numbered and published as one source batch |
| SharedStates.PublishedIsSteps | zakura-grpc-geyser/src/server.rs:165-203 | publishing a batch is a run of the machine: begin, push, one send per update, finish |
| Subscriptions.SendAll | zakura-grpc-geyser/src/server.rs:850-857 | of a list of updates, what the request asks for, until the response closes |
| Subscriptions.SendInitialUpdates | zakura-grpc-geyser/src/server.rs:815-859 | notice, bracketed mempool snapshot and replay, through the filter except for notice and markers; the two watermarks unless the response closes, and then exactly what it took |
| Subscriptions.RunSubscription | zakura-grpc-geyser/src/server.rs:888-989 | the whole task for any sequence of wake-ups: filter replacement or refusal, pongs, live updates past both watermarks and the filter, pings, and each reason to end |
| Subscriptions.ForwardedInOrder | zakura-grpc-geyser/src/server.rs:938-958 | however it is woken up, also with its filter replaced on the way, the loop forwards in strictly increasing sequence order from its watermark on |
| Subscriptions.PingIdsNegative | zakura-grpc-geyser/src/server.rs:723-743 | the ids of the server's pings stay within the negative i32 |
| Subscriptions.KeepaliveHidden | zakura-grpc-client/src/reconnect.rs:249-263 | so the pong to the client's reply is one that the client keeps from the application |
| Subscriptions.PingsCountDown | zakura-grpc-geyser/src/server.rs:723-743 | every tick that finds room sends one ping, with ids counted down from -1 through the negative i32 numbers and again |
| Subscriptions.EndsExactly | zakura-grpc-geyser/src/server.rs:911-989 | the task goes on until the first wake-up that ends it, and for that one's reason, unless the response had no more room; after the end of the requests none is read |
| Subscriptions.LoopIsReceive | zakura-grpc-geyser/src/server.rs:938-958 | woken only by the ring, the loop sends what the request asks of what the machine's receive steps let pass, with the same watermark, until the response closes |
| Splice.NumberedBatch | zakura-grpc-geyser/src/lib.rs:205-217 | a numbered batch is one stretch after the log, all at one height or all stamped with one new revision |
| Splice.PushHistory | zakura-grpc-geyser/src/server.rs:454-494 | every pushed bucket is a whole stretch of the log at its height, in log order, and every block-scoped update is in one |
| Splice.SuffixWindow | zakura-grpc-geyser/src/server.rs:569-582 | a window taken at any moment consists of whole stretches, and nothing block-scoped was pushed after its last one |
| Splice.WatermarkIsEnd | zakura-grpc-geyser/src/server.rs:569-573 | the replay watermark is the end of the last retained stretch |
| Splice.FollowMark | zakura-grpc-geyser/src/server.rs:165-199 | while no mempool batch is in flight the mempool's keys are those of the log |
| Splice.StepKeeps | zakura-grpc-geyser/src/server.rs:165-241 | every step of publisher, subscriber and other readers keeps the invariant |
| Splice.RunKeeps | zakura-grpc-geyser/src/server.rs:165-241 | the invariant holds in every state of every interleaving |
| Guarantees.OutgoingBlocks | zakura-grpc-geyser/src/server.rs:938-958 | the block-scoped part of what is delivered is the replay and then one stretch of the log |
| Guarantees.SpliceSafety | zakura-grpc-geyser/src/server.rs:205-216 | each retained update at or above the height and each one pushed after the snapshot exactly once, in strictly increasing order, nothing else; a lagging subscriber has a prefix |
| Guarantees.MempoolAgreement | zakura-grpc-geyser/src/server.rs:941-952 | snapshot plus passed deltas follow to the server's exact key set, and no delta newer than the snapshot is withheld |
| SnapshotStream.RunKeepsStart | zakura-grpc-geyser/src/server.rs:165-241 | in every state of every interleaving the mempool view is what everything published makes of it, and what a subscriber started with is the snapshot of its moment |
| SnapshotStream.SnapshotSent | zakura-grpc-geyser/src/server.rs:815-848 | a subscriber that asked for it is sent, after the notice, the snapshot of one moment of the log between two markers with its revision and count, then the replay; every transaction current at that moment in full |
| TaskStream.SubscribeIsSteps | zakura-grpc-geyser/src/server.rs:205-241 | subscribing is the machine's opening, replay snapshot and mempool snapshot |
| TaskStream.SubscribeStarts | zakura-grpc-geyser/src/server.rs:205-241 | and returns exactly what the subscriber's task starts with |
| TaskStream.TaskIsMachine | zakura-grpc-geyser/src/server.rs:888-958 | in every state of every interleaving, the task on what `Subscribe` returned, woken by the ring from the receiver's position, has sent what passes the filter of all that the machine's subscriber was given, in order, as far as the response took it |
| TaskStream.RequestTakesEffect | zakura-grpc-geyser/src/server.rs:861-882 | a request that comes in between leaves what was sent before: a ping is answered with its id, an accepted filter decides from there on, a refused one ends the task |
| TaskStream.TaskInSequence | zakura-grpc-geyser/src/server.rs:888-989 | whatever wakes it up, all block-scoped messages that the task sends, replay included, strictly increase, and nothing after the initial ones is covered by the mempool snapshot |
| FilteredStream.FilteredKeeps | zakura-grpc-geyser/src/server.rs:1057-1112 | filtering passes on one projected message for each wanted update and nothing else |
| FilteredStream.CatchAllPassesAll | zakura-grpc-geyser/src/filter.rs:92-110 | a catch-all subscription passes a stream of published updates on unchanged |
| FilteredStream.FilteredSplice | zakura-grpc-geyser/src/server.rs:938-958 | for every interleaving and request, each retained or later update is sent exactly when the request means it, in strictly increasing order, as the projection of its match |
| Recovery.AnchorRetained | zakura-grpc-geyser/src/server.rs:541-567 | a snapshot at an anchor's height succeeds only while the anchor's bucket is retained |
| Recovery.AnchoredSnapshotComplete | zakura-grpc-geyser/src/server.rs:574-580 | a successful snapshot at an anchor replays everything not published before the anchor |
| Recovery.HeightSnapshotComplete | zakura-grpc-client/src/reconnect.rs:436-444 | a successful snapshot at the height of an update less the buffer replays everything not published up to that update |
| Recovery.EqualHeightLosesUpdate | zakura-grpc-geyser/src/server.rs:211-216 | why later heights must be greater: with three batches at the anchor's height an accepted resume misses the second, because verification comes before the eviction |
| Recovery.LowUpdateLosesAnother | zakura-grpc-client/src/reconnect.rs:436-444 | why heights may go down by less than the buffer only: a reconnect by height is accepted because of a low update and misses one that was evicted, although the chain rule holds |
| Recovery.NextRequestKeepsFilter | zakura-grpc-client/src/reconnect.rs:427-446 | a reconnect asks for the same filter |
| Recovery.VerifiedInLog | zakura-grpc-geyser/src/server.rs:585-600 | a verified checkpoint was finalized somewhere in the log |
| Recovery.HandleCompletes | zakura-grpc-client/src/reconnect.rs:264-276 | when the client handles a block-scoped update, everything below it since the base that the filter lets through has been received, so nothing is missing up to the anchor and the height that it moves to |
| Recovery.JoinEnters | zakura-grpc-geyser/src/server.rs:205-233 | up to the snapshot of a resumed connection, by anchor or by height, whatever was not received before is replayed |
| Recovery.MoveKeeps | zakura-grpc-client/src/reconnect.rs:304-416 | every move of server, connection and client keeps the recovery invariant |
| Recovery.StoryKeeps | zakura-grpc-client/src/reconnect.rs:304-416 | the recovery invariant holds in every state of every story of disconnects and reconnects |
| ExactlyOnce.OutputCovers | zakura-grpc-client/src/reconnect.rs:264-276 | duplicate suppression never withholds an update that the application does not have |
| ExactlyOnce.OutputTwice | zakura-grpc-client/src/reconnect.rs:268-272 | an output given twice was received twice, with updates of more heights than the retention received since one of its height |
| ExactlyOnce.OutputOnce | zakura-grpc-client/src/reconnect.rs:268-272 | in particular, with no more heights than the retention the output has no block-scoped update twice |
| ExactlyOnce.NothingMissing | zakura-grpc-client/src/reconnect.rs:418-478 | for every request and across reconnects, from anchors and by height, what the request asks of each block-scoped update since the base is with the application, or the update is on its way or not yet reached; once caught up the application has it all, and nothing else; under the chain rule of each kind of reconnect that the story has |
| ExactlyOnce.NothingMissingUnfiltered | zakura-grpc-client/src/reconnect.rs:418-478 | with a catch-all request the application has the updates themselves |
| ExactlyOnce.ResumptionNeverAhead | zakura-grpc-client/src/reconnect.rs:436-444 | at every moment the application has everything that its filter lets through up to the anchor that the client would resume from, and up to an update at the height that it would resume near |
| ExactlyOnce.BaseStays | zakura-grpc-client/src/reconnect.rs:436-444 | once the client has an anchor or has received anything block-scoped, no reconnect makes it start over |
| ExactlyOnce.DuplicateNeedsHeights | zakura-grpc-client/src/dedup.rs:45-81 | in every story, an update given to the application twice was received twice, and since an update of its height, at or before the first time, updates of more heights than the retention were received |
| ExactlyOnce.NothingDuplicated | zakura-grpc-client/src/dedup.rs:45-81 | in particular nothing is given twice while no more heights than the retention have been received |
| Acceptance.StoryShown | zakura-grpc-geyser/src/event.rs:235-288 | in every state, each retained batch that finalizes anything holds the finalized block itself |
| Acceptance.AnchorDecides | zakura-grpc-geyser/src/server.rs:205-233 | an anchored request is accepted if and only if the anchor's batch survives the eviction at that moment, and is otherwise refused with OUT_OF_RANGE |
| Acceptance.RefusedExactly | zakura-grpc-geyser/src/server.rs:585-621 | a checkpoint that makes no sense is INVALID_ARGUMENT; one whose height is retained without its finalized block FAILED_PRECONDITION; one whose height is not retained OUT_OF_RANGE |
| Acceptance.NothingToReplay | zakura-grpc-geyser/src/server.rs:541-583 | a request for no height is accepted at any time and replays nothing |
| Acceptance.LaterComesBack | zakura-grpc-geyser/src/server.rs:574-580 | everything published after a batch comes back in a replay if and only if every later batch is retained and lies at or above the height replayed from |
| ResumedState.ConnectionFolds | zakura-grpc-client/src/reconnect.rs:151-198 | folding what a resumed connection brings, notice first, is folding its block-scoped updates from the anchor alone |
| ResumedState.StoryFollows | zakura-grpc-client/src/reconnect.rs:264-276 | in every state of every story, the chain state on a resumed connection is the fold, from the checkpoint sent, of what has come through |
| ResumedState.PartReconstructs | zakura-grpc-client/src/reconnect.rs:151-223 | folding any ordered part of a replayable log that has all at or above an anchor, from that anchor, gives the state of the whole log |
| ResumedState.ResumedChainIsLog | zakura-grpc-client/src/reconnect.rs:151-223 | for a catch-all request, a client that has resumed and caught up has the chain state of everything ever published, if the replay held all at or above its anchor and no low reset names a block above the last finalized one |
| ResumedState.EvictedBlockForgotten | zakura-grpc-geyser/src/server.rs:299-309 | why it has to: a block accepted above one that was then finalized is evicted, the resume succeeds, and the notice has discarded it |
| Histogram.OrderStatistic | examples/rust/src/bin/load-test.rs:156-166 | the least bound that k samples respect is the k-th order statistic |
| Histogram.TargetInRange | examples/rust/src/bin/load-test.rs:160-160 | the saturating target is the nearest rank within counter bounds, zero for zero percent, and beyond all samples past 100 |
| Histogram.LatencyHistogram.constructor | examples/rust/src/bin/load-test.rs:134-139 | no samples |
| Histogram.LatencyHistogram.Record | examples/rust/src/bin/load-test.rs:141-147 | records the sample capped at the last bucket |
| Histogram.LatencyHistogram.Merge | examples/rust/src/bin/load-test.rs:149-154 | the merged histogram is that of the concatenated samples |
| Histogram.LatencyHistogram.Percentile | examples/rust/src/bin/load-test.rs:156-166 | within counter bounds, the nearest-rank percentile of the capped samples for 1 to 100, the first bucket for zero, absent beyond 100 or without samples |

## Left out

- The fallback to the live head after an unavailable checkpoint (`SkipToLive`): a refused reconnect ends the client's story here, as under the default policy. The retry keeps the checkpoint in the request that it sends, so it does not start at the live head.
- Backoff, sleeps, transport errors and retries of a connection attempt: a disconnect may happen at any time and the next attempt comes later.
- The client's command channel: the request that a reconnect starts from is the initial one, so a story keeps one filter. Replacing the filter on an open subscription is in `Subscriptions` only.
- Saturation of revisions and replay counters at their integer maximum: these are unbounded here, and so are the sequence numbers of the interleaving machine. The exhaustion of sequence numbers is in `SharedStates.GrpcPlugin.OnEvent`. The histogram's saturating counters and the u64 totals of the encoder are modelled.
- Heights are natural numbers rather than u32: the modelled code only compares them and subtracts with saturation at zero.
- Sharing of updates by reference: buffers hold values, so that a message is never changed after publication holds by construction outside `Projection.PublishedUpdate`.
- The channel between a subscription and its client is in order, and in the interleaving machine unbounded; the server's own shutdown is a disconnect. The rounding of the ring capacity to a power of two is not modelled: the capacity is any number.
- Address and transaction id parsing, script decoding, transaction serialization and hashing: canonicalization is an arbitrary partial function, addresses and bytes are given.
- Encoded lengths other than those of the filter names: the rest of a message is encoded by two arbitrary functions, for the fields before and after the names.
- Fields that no modelled code looks at (authorization digests, lock times, fees, sigop counts, networks, timestamps), and the receipt order of accepted blocks.
- Order.List: yields the listing by repeated insertion; the source sorts unstably, which is the same for distinct names.
- Clocks and locks: the time of a push, an eviction or a snapshot is a parameter that never goes back, and holding a lock is a state of the publisher.
- Parallel encoding: the ordered map over a batch is a loop.
- The replay information reply (first and latest hashes), metrics, tracing, authentication, configuration checks, TLS, compression and health reporting.
- The TypeScript client's resume state, which repeats the Rust client's in another order, and the command-line examples.
- Recovery.StoryKeeps: is about one server session; after a restart the server has an empty buffer and refuses the anchor.
