# tvr in Dafny

A Dafny 4.11 model of tvr, a relay for IPTV streams, and proofs about it. `dafny verify
dfyconfig.toml` checks everything; each file is one module.

Two of the parts are protocols. They appear twice: as a state machine on values, over whose runs
the safety properties are proved, and as a class with the fields and loops of the Go code, each of
whose methods is proved to take exactly the machine's steps.

**The live relay.**
`MpegTs` and `TsCopy` frame the upstream bytes into 188-byte transport packets (ISO/IEC 13818-1,
section 2.4.3.2) and show that the incremental framing refines whole-stream framing for every way
of splitting the input. `FanoutModel`, `Fanout` and `Session` are the fan-out to bounded viewer
queues: one step per region under the session lock, a log of everything broadcast and a history per
viewer. `LiveRelay` joins the two over all the pumps of a session. `ManagerModel`, `Epochs` and `SessionManager` are the manager
with its epochs, revisions, blocked channels and sticky errors, and sessions that end on their own
time. `Failover` is the walk over (upstream, candidate) pairs. What these machines remember is also
said from the events of a run alone, without their step functions: which viewer waits for a
keyframe and what it starts with (`FanoutLaws`), who is let in (`ManagerLaws`), where a session
starts and how long it waits (`FailoverLaws`), what packet headers say (`PacketLaws`).

**The guide worker.**
`Library` holds the tables, the workflow mutations and the work each of them enqueues. `EpgModel` is
the worker over tables, source files and relay files; a step is one transaction with its
enqueueing, one region under the service lock, or one file operation, so fetches and builds stay
in flight while mutations happen. `Freshness` proves what the relay files are worth in every
reachable state, `WorkerRuns` what else every run keeps, `Refreshes` what becomes of the refresh a
URL change asks for, and `GuideService` is the service object
with its enqueue methods and nested drain loops. `SourceCache` is the generation and index files,
`RelayXml` the merged document. Again from the events alone: the rows of the tables and what each
mutation enqueues (`LibraryLaws`), when a source is due (`RefreshTimes`) and which document it
serves (`ServedDocs`); `RelayGuide` says which programmes a relay's guide lists.

**Algorithms.**
`NatSort` and `NaturalOrder` (natural order), `Lanes` (programme lanes), `Hls` and `HlsPlaylist`
(segment selection and numbering, RFC 8216), `M3u`, `PlaylistRoundTrip` and `PlaylistQuotes` (the
playlist printer and parser, and what double quotes do between them).

**The store.**
`Lineup` and `RelayLayout` (channel numbers), `ChannelModel`, `ChannelStore` and `ChannelUrls` (rows,
proxies and the URL derived from them), `ChannelImport`, `ImportProxies` and `ChannelNames` (list imports).

`Seqs`, `Text` and `StableSorting` are shared.

## What the proofs found

- A viewer whose join loses the race with `stop` is never closed by it, nor by a second stop
  (`Fanout.JoinAfterStopStaysOpen`). The viewers attached in a stopped session are exactly those
  that joined after the stop and neither left nor were dropped since
  (`Fanout.AttachedAfterStopExactly`).
- The second guard of `rememberFinish` (a session is mapped) never fires on its own; the epoch
  guard alone decides (`Epochs.EpochGuardDecides`).
- After a URL change the refresh of the new URL can be lost until the source's interval has passed.
  Going through its sources, the worker can fetch the new URL first and then delete the fresh
  generation with the old ones (`Refreshes.UrlChangeCanLoseItsRefresh`); or, taking the deletion
  first, it drops the source because the old URL is still backing off
  (`Refreshes.BackOffCanLoseARefresh`). Both runs begin at a fresh start. Relay files stay right or
  known to be wrong. `Refreshes.RefreshIsLostExactly` says when it happens: a document was published
  while the deletion was still queued, or the source was taken during its back-off, or its fetch
  was cancelled or failed, and afterwards the source was neither queued nor due.
  `Refreshes.RefreshIsKeptWithoutRisk` names the guards; taking the deletion first is not enough.
- A relay can lose its only cached file to the cleanup of another relay that had the same slug
  before, from a fresh start and with no other relay left (`WorkerRuns.AnotherCleanupTakesTheFile`).
  `WorkerRuns.FileIsLostExactly` says of every step whether it takes a relay's last file, and
  `WorkerRuns.FileStaysExactly` of every run whether the relay always has one.
- Over an alphabet with 0, 1 and a, natural order is transitive exactly when all its digits are ASCII
  (`NaturalOrder.TransitiveIffAsciiDigits`).
- The playlist parser does not know the printer's escape for double quotes. A line is rejected
  exactly when each comma in it stands behind an odd number of them
  (`PlaylistQuotes.AnyLineIsLostExactly`); with comma-free fields that means the quotes in id, name,
  logo and group are odd in number (`PlaylistQuotes.LineIsLostExactly`), and what is left of the row
  is an entry that goes by its URL (`PlaylistQuotes.LostRowIsItsUrl`). A row that is cut at the right
  comma comes back exactly when id, logo and group have no quotes and nothing printed right after
  a quoted name matters (`PlaylistQuotes.FieldsComeBackExactly`).
- `ImportChannels` caches proxies under the Unicode lower case of their names while the name index
  folds ASCII only, so of two proxies whose names differ in the case of another letter the second
  is taken for the first, and a channel is stored behind the wrong proxy
  (`ImportProxies.SecondProxyIsTakenForTheFirst`). An entry gets the proxy it names
  exactly when the first entry under its key names the same one
  (`ChannelImport.EntryGetsItsProxyExactly`).

## How to read the model

- Store and file operations of the guide worker succeed, as the freshness property assumes. A
  relay's file remembers its writer and the writer's incarnation, because a restore reuses ids.
- Generation ids are fresh, and a document comes back from its file as it was written.
- Integers are unbounded except where the code's 64 bits show: `ParseInt`, `Atoi` and the
  segment counter.
- Strings are sequences of characters. Where Go folds the case of all letters the model folds
  ASCII, or takes the folding as a parameter (`lower` in `NatSort` and `ChannelNames`, `fold` in
  `ChannelStore`).
- Network fetches, URL parsing, fresh ids, the clock and whether a unique index lets rows in are
  parameters, so each property holds for all their answers.
- A map iteration order is any order.

## Model

| member | source | states |
|---|---|---|
| MpegTs.ExtractFramed | internal/core/mpegts/frame.go:10-35 | the scan over the read buffer returns the run of whole packets at the first sync byte and the bytes to carry, as the specification function says |
| MpegTs.ExtractRefinesGreedy | internal/core/mpegts/frame.go:10-35 | extraction loses nothing: for every continuation of the input, what was emitted followed by whole-stream framing of the carry is whole-stream framing of everything; what was emitted is whole packets |
| MpegTs.SkipNonSync | internal/core/mpegts/frame.go:10-35 | bytes dropped before a sync byte never matter to any future input |
| MpegTs.AlignedInputIsEmittedAtOnce | internal/core/mpegts/frame.go:10-35 | packet-aligned input is emitted at once; only a partial packet is carried |
| MpegTs.PacketsFlat | internal/core/mpegts/frame.go:39-45 | whole packets, said recursively, are a multiple of 188 bytes with 0x47 at every packet start |
| PacketLaws.FirstPacketIsHandedOn | internal/core/mpegts/frame.go:10-37 | the first sync byte with a whole packet behind it is handed on at once, wherever it is |
| PacketLaws.CarryIsTheRest | internal/core/mpegts/frame.go:10-37 | the carry is the end of the input, and the run stands right before it; without a sync byte nothing is handed on and less than a packet carried |
| PacketLaws.HeaderPid | internal/core/mpegts/frame.go:48-53 | the id read is the one the header was made with |
| PacketLaws.HeaderUnitStart | internal/core/mpegts/frame.go:56-58 | so is the start indicator |
| PacketLaws.HeaderRandomAccess | internal/core/mpegts/frame.go:62-75 | and the random-access flag, in adaptation fields that fit |
| PacketLaws.HeaderTable | internal/core/stream/copy.go:122-140 | a packet that starts a section is taken for a program map exactly when the table id behind its pointer is 2, adaptation field or not |
| TsCopy.Feed | internal/core/stream/copy.go:24-48 | one read keeps the refinement between emitted bytes plus carry and the whole input, and every run handed on is a positive number of whole packets |
| TsCopy.FeedRefines | internal/core/stream/copy.go:24-48 | the refinement is kept by a read for every future input |
| TsCopy.CopyMpegTs | internal/core/stream/copy.go:12-73 | for any turns of the read loop: what is emitted and carried is the framing of the turns fed, and each outcome (still reading, end, early end, stop, halt, too large, no media in the probe window, read error) is reached exactly when the last turn fed says so and none before it ended the loop |
| TsCopy.SplittingDoesNotMatter | internal/core/stream/copy.go:12-48 | two ways of cutting one input into reads stand for the same packets |
| TsCopy.BroadcastFramed | internal/core/stream/copy.go:82-98 | the bursts are whole packets of bounded size and concatenate to the run |
| Session.Viewer.TrySend | internal/core/stream/copy.go:186-203 | the send that does not block: queued, or the viewer is closed because its channel is full |
| Session.Session.StartupPackets | internal/core/stream/copy.go:142-156 | PAT, then every PMT in some map order |
| Session.Session.ObservePacket | internal/core/stream/copy.go:100-140 | which packet becomes PAT, PMT or keyframe knowledge |
| Session.Session.AddViewer | internal/core/stream/session.go:215-240 | the new state is the join step: a fresh viewer, waiting for a keyframe or given the tables |
| Session.Session.RemoveViewer | internal/core/stream/session.go:242-263 | the new state is the leave step |
| Session.Session.Stop | internal/core/stream/session.go:275-298 | the new state is the stop step: every attached viewer closed, none left attached |
| Session.Session.FanOut | internal/core/stream/copy.go:181-203 | whatever order the viewer map yields, each attached viewer gets its share and exactly the full ones are dropped |
| Session.Session.Broadcast | internal/core/stream/copy.go:167-205 | the new state is the broadcast step, log and byte count included |
| Session.ViewerReader.Read | internal/core/stream/session.go:464-481 | a read delivers the next bytes of what was queued, and end of stream only after every byte of a closed channel |
| Fanout.StartupIsTables | internal/core/stream/copy.go:142-156 | what a viewer is started with is PAT and PMT packets and nothing else |
| Fanout.StepKeeps | internal/core/stream/copy.go:75-205 | every step keeps every viewer: start-up tables, then one gap-free run of the log from its join, or from the first keyframe after it |
| Fanout.RunKeeps | internal/core/stream/session.go:215-263 | the same over every interleaving of joins, leaves, broadcasts, upstream changes, reads and stop |
| Fanout.DeliveryIsContiguous | internal/core/stream/copy.go:75-205 | after any run each viewer was queued whole 188-byte packets: tables, then one contiguous run of the broadcast log, up to its end if still attached; bytesSent is the log length |
| Fanout.ViewerStep | internal/core/stream/session.go:242-263 | a viewer is detached only by leaving, by stop or by a full channel, and then its history is final |
| Fanout.StaysOpen | internal/core/stream/copy.go:181-203 | a viewer that waits for a keyframe is never dropped as slow |
| Fanout.AttachedExactly | internal/core/stream/session.go:242-263 | an attached viewer is attached at the end of a run exactly when no step in it was its leave, the stop, or a broadcast that met its full channel |
| Fanout.AttachedAfterStopExactly | internal/core/stream/session.go:275-298 | in every run that ends stopped, the viewers attached are exactly those whose join came after the stop and that were not detached since |
| Fanout.JoinAfterStopStaysOpen | internal/core/stream/manager.go:147-169 | there are such viewers: a join that lost the race with stop stays open, even through a second stop |
| Fanout.ReceivedIsPrefix | internal/core/stream/session.go:464-481 | what a reader took is a prefix of what was queued, and all of it once the channel is drained |
| FanoutLaws.StateRecalls | internal/core/stream/copy.go:100-156 | after any run the tables are the last PAT and the last PMT of every program shown since the upstream was last switched, and a keyframe counts as seen exactly when a random-access packet was shown since |
| FanoutLaws.JoinFollowsEvents | internal/core/stream/session.go:215-240 | a viewer that joins waits for a keyframe exactly when the session transcodes, became ready and was shown a keyframe since the last switch; every other viewer is open at once, and starts with the last tables shown if there are any |
| FanoutLaws.ViewerKeepsItsStart | internal/core/stream/session.go:215-240 | nothing later changes whether a viewer joined late or where it started |
| FanoutLaws.BroadcastDelivers | internal/core/stream/copy.go:158-205 | one broadcast gives an open viewer the chunk, a waiting one the tables and the chunk from its first keyframe or nothing, and drops exactly the viewers without room |
| LiveRelay.RunPump | internal/core/stream/copy.go:12-98 | the read loop and the cutting into bursts give a pump whose bursts are the runs it framed |
| LiveRelay.PumpIsFramed | internal/core/stream/copy.go:12-48 | what a pump framed, followed by the framing of its carry, is the whole-stream framing of all it read |
| LiveRelay.ViewerHoldsASliceOfTheStream | internal/core/stream/copy.go:12-205 | end to end, over any number of pumps and upstreams: tables plus one slice of what the pumps framed one after the other, however the input was split into reads |
| SessionManager.Manager.Subscribe | internal/core/stream/manager.go:119-158 | admission verdict and new state are those of the subscribe step (ManagerLaws.AdmissionFollowsEvents says which), what is attached is the mapped session, and a stopped one it replaces is reported |
| SessionManager.Manager.PublishChannel | internal/core/stream/manager.go:173-188 | new state is the publish step; the retired session is returned |
| SessionManager.Manager.BlockChannel | internal/core/stream/manager.go:191-201 | new state is the block step |
| SessionManager.Manager.ApplyProfile | internal/core/stream/manager.go:204-219 | exactly the transcoding sessions are retired, whatever the map order |
| SessionManager.Manager.Close | internal/core/stream/manager.go:326-337 | every session is retired and the manager closed |
| SessionManager.Manager.RemoveSession | internal/core/stream/manager.go:339-345 | a session is unmapped only if it is the one mapped |
| SessionManager.Manager.RememberFinish | internal/core/stream/manager.go:261-278 | new state is the guarded update of the sticky status |
| Epochs.StepKeeps | internal/core/stream/manager.go:119-345 | every step keeps: mapped epochs equal channel epochs, sticky and mapped channels disjoint, blocked channels without session, revision or sticky status |
| Epochs.RunKeeps | internal/core/stream/manager.go:119-345 | the same over every interleaving with asynchronous finishers, and no epoch ever goes back |
| Epochs.StaleFinisherIsSilent | internal/core/stream/manager.go:261-278 | a retired or replaced session neither writes nor clears a sticky status nor unmaps its successor |
| Epochs.StaleForEver | internal/core/stream/manager.go:281-303 | once retired or replaced, a session is so in every later state |
| Epochs.EpochGuardDecides | internal/core/stream/manager.go:261-278 | the epoch guard alone decides: the mapped guard never fires on its own |
| Epochs.NewestFinisherIsHeard | internal/core/stream/manager.go:261-278 | the newest session of a channel leaves its error as sticky status, or clears it |
| Epochs.SubscribeAttaches | internal/core/stream/manager.go:119-158 | attached exactly when open, not blocked and not stale; shared exactly when a live session of the right kind is mapped, else a fresh one under a newer epoch |
| Epochs.ClosedForEver | internal/core/stream/manager.go:326-337 | after close no session is ever mapped again |
| ManagerLaws.AdmissionFollowsEvents | internal/core/stream/manager.go:119-158 | after any run, from its events: closed exactly after a close; blocked exactly when the last block came after the last publication; stale exactly when another revision was published or let in since the last block; refused, nothing changes; let in, a live session of the kind asked for is mapped |
| ManagerLaws.LiveSessionIsShared | internal/core/stream/manager.go:119-158 | who is let in shares the live session of the kind asked for, if there is one |
| ManagerLaws.OtherwiseOneIsStarted | internal/core/stream/manager.go:119-158 | otherwise exactly one session is started, the old error is forgotten, and other channels keep theirs |
| ManagerLaws.StateRecalls | internal/core/stream/manager.go:119-219 | closing, blocks and revisions are what the events say |
| ManagerLaws.PublishDoes | internal/core/stream/manager.go:173-188 | a publication unblocks, records a revision if it has one, and detaches the session only when asked to |
| ManagerLaws.BlockDoes | internal/core/stream/manager.go:191-201 | a block detaches the session and forgets the revision |
| ManagerLaws.ProfileDoes | internal/core/stream/manager.go:204-219 | a new profile detaches the transcoding sessions and no others |
| ManagerLaws.CloseDoes | internal/core/stream/manager.go:326-337 | closing detaches every session |
| ManagerLaws.LeavesMap | internal/core/stream/manager.go:339-345 | a session that ends on its own leaves the map only if it is the one mapped |
| Failover.Normalize | internal/core/upstream/source.go:78-102 | succeeds exactly when some URL is not blank; blank ones dropped, the policy by its name or fixed, the fixed index put in range |
| FailoverLaws.UsableAreKeptInOrder | internal/core/upstream/source.go:78-102 | every upstream with a URL is kept, in order, and no other |
| FailoverLaws.WrittenPolicy | internal/core/upstream/source.go:49-75 | which policy a written name stands for, spaces around it and letter case aside |
| FailoverLaws.SessionStarts | internal/core/upstream/source.go:104-123 | a session starts at the first URL of the fixed pick, of the random draw, or of the first upstream, as its policy says |
| FailoverLaws.EligibleExactly | internal/core/stream/session.go:119-171 | a pair may be tried exactly when it exists and belongs to the session's upstream or the policy is failover |
| FailoverLaws.EligibleInOrder | internal/core/stream/session.go:119-137 | pairs go by upstream, then by candidate |
| FailoverLaws.WaitsDouble | internal/core/stream/pump.go:15-108 | after any run of a fresh session the next wait is 1, 2, 4, 8, then 16 seconds by the number of failures since it was last healthy, and it is ready exactly if it ever became so |
| FailoverLaws.AloneEndsExactly | internal/core/stream/pump.go:15-108 | a ready session with one pair stays on it and ends at the first end of stream or halt |
| Failover.EligibleDistinct | internal/core/stream/session.go:154-171 | the eligible (upstream, candidate) pairs are distinct |
| Failover.FullRound | internal/core/stream/session.go:119-137 | as many advances as the budget try every eligible pair exactly once, cyclically from where they start |
| Failover.BeforeReady | internal/core/stream/pump.go:76-108 | before readiness failures follow the walk one by one and, unless halted before, the session fails exactly at the budget |
| Failover.NeverReadyTriesAll | internal/core/stream/pump.go:15-108 | a session that never gets ready tries every eligible pair exactly once, in order |
| Failover.AfterReady | internal/core/stream/pump.go:76-108 | after readiness a walking session goes on until it is halted, also in the back-off wait, and its failures follow the walk |
| Failover.TurnKeeps | internal/core/stream/pump.go:15-74 | indices stay in range and the back-off within 1, 2, 4, 8, 16 seconds |
| Failover.Walker.ApplyCurrentUpstream | internal/core/stream/session.go:88-111 | on a valid state the clamps do nothing and the URL is the current pair's |
| Failover.Walker.AdvanceIndex | internal/core/stream/session.go:113-137 | new indices are the next position of the walk |
| Failover.Walker.AttemptBudget | internal/core/stream/session.go:154-171 | the loop counts the eligible pairs |
| Failover.Walker.HandlePumpError | internal/core/stream/pump.go:76-108 | new state is the specified reaction to a failed pump, a stop during the wait included |
| Library.CommitEffect | internal/core/workflows/workflows.go:88-326 | every workflow mutation keeps the tables sound, and each relay it does not enqueue is untouched or new |
| Library.SourcesEffect | internal/core/workflows/workflows.go:106-149 | a source that survives a mutation keeps its URL or has its files queued for deletion |
| Library.SlugsEffect | internal/core/workflows/workflows.go:151-187 | a surviving relay keeps its slug or has the old one queued for cleanup |
| LibraryLaws.RowsFollowEvents | internal/core/workflows/workflows.go:85-326 | after any run every row is what the last mutation that named it wrote, unless it was deleted since; a relay takes its memberships along |
| LibraryLaws.GuidePairsFollowRows | internal/core/store/relays.go:615-636 | a relay's guide is made of exactly the pairs of the channels it has as members |
| LibraryLaws.RefreshIsQueuedExactly | internal/core/workflows/workflows.go:85-326 | a mutation queues a refresh exactly of the sources it leaves enabled and made, enabled, moved or restored, of those an import names, and of those an interval change finds due |
| LibraryLaws.FilesAreDeletedExactly | internal/core/workflows/workflows.go:85-326 | it queues for deletion exactly the files of sources that are gone, moved, or replaced by a restore |
| LibraryLaws.SlugIsCleanedExactly | internal/core/workflows/workflows.go:85-326 | it queues for cleanup exactly the slugs that no relay has any more, under the relay that had them |
| GuideService.Service.AcquireAdmission | internal/core/epg/worker.go:27-40 | granted exactly while admission is open |
| GuideService.Service.EnqueueRefreshDue | internal/core/epg/worker.go:128-158 | queues the enabled sources whose interval has passed, or that were never refreshed, and that are not backing off; none when work is not taken |
| RefreshTimes.TimersFollowEvents | internal/core/epg/worker.go:396-495 | after any run from a fresh start the clock, refresh times, delays and retry times are what the events say; the delay is 1, 2, 4 to 512 seconds by the number of failures since the last finished refresh |
| RefreshTimes.DueExactly | internal/core/epg/worker.go:128-158 | the due check queues exactly the enabled sources whose row had no finished refresh yet or one that began an interval, and a minute, ago, unless the wait after their failures goes on |
| GuideService.Service.EnqueueRebuildRelays | internal/core/epg/worker.go:160-172 | all positive ids queued while work is taken, none otherwise |
| GuideService.Service.EnqueueRelayCleanup | internal/core/epg/worker.go:174-196 | the slug waits at once, even when closed admission is reported; blank slugs are dropped |
| GuideService.Service.EnqueueDeleteSourceFiles | internal/core/epg/worker.go:198-207 | revision moved on, index tag dropped, deletion queued while work is taken |
| GuideService.Service.ApplyDerivedWork | internal/core/workflows/workflows.go:56-86 | enqueueing the lists one item at a time amounts to the single enqueue step of the model; a source named twice has its revision moved on twice |
| GuideService.Service.DeleteSourceFiles | internal/core/epg/manifest.go:201-221 | manifest, generation files, index files and tag of the source go, nothing else |
| GuideService.Service.Fetched | internal/core/epg/worker.go:437-494 | a fetched document becomes a generation only if revision and URL are still those the fetch began with |
| GuideService.Service.ProcessNextSource | internal/core/epg/worker.go:396-456 | one pending source is taken; exactly when it is there and not backing off it is fetched, unless cancelled, with the URL it has, and the steps are a run of the machine |
| GuideService.Service.FinishSource | internal/core/epg/worker.go:478-494 | tag stored, back-off cleared, time of the refresh recorded, every relay that references the source queued |
| GuideService.Service.FetchFailed | internal/core/epg/worker.go:419-435 | back-off started or doubled, retry time set |
| GuideService.Service.RelaysReferencingSource | internal/core/epg/relay_builder.go:61-79 | each relay with a pair of the source, once |
| GuideService.Service.ProcessNextRelay | internal/core/epg/relay_builder.go:81-143 | one pending relay is taken, as a run of the machine's build steps that ends idle; exactly when its row and the documents of all its sources are there, its slug gets the file built from today's pairs and documents, and no other file changes |
| GuideService.Service.FindReady | internal/core/epg/worker.go:356-378 | an entry whose retry time is not ahead, or none when there is none |
| GuideService.Service.ProcessReady | internal/core/epg/worker.go:496-544 | every slug taken is blank, absent, owned by a live relay, or deferred again |
| GuideService.Service.Drain | internal/core/epg/worker.go:268-333 | the loops end; the steps form a run of the machine; unless cancelled nothing is pending and no cleanup ready, every relay that was pending has its file if its documents are there, and from a reachable state every file a relay wrote itself is current as far as its sources are eligible |
| Freshness.StepKeeps | internal/core/epg/worker.go:268-494 | every mutation and every worker step keeps freshness while work is taken |
| Freshness.FreshInEveryRun | internal/core/epg/relay_builder.go:81-143 | in every reachable state a relay whose current file it wrote itself is queued or in work, or the file is the build from today's pairs and generations, or a needed source is ineligible or queued for deletion |
| Freshness.FreshInvInEveryRun | internal/core/epg/worker.go:268-494 | the states a fresh start can reach are those the drain's promise is about |
| Freshness.WrittenIsFresh | internal/core/epg/relay_builder.go:81-143 | a file is current at the moment it is written, unless its relay is queued again |
| Freshness.DrainedIsFresh | internal/core/epg/worker.go:268-333 | after an uncancelled drain only ineligible sources excuse a file that is not current |
| SourceCache.IndexFromDoc | internal/core/epg/service.go:337-352 | the index has each channel of the document once, with its non-empty names, in sorted order |
| SourceCache.LoadKeeps | internal/core/epg/manifest.go:156-190 | reading or rebuilding an index keeps manifests, index files and tags in agreement |
| SourceCache.AnswerFitsGeneration | internal/core/epg/manifest.go:156-190 | an answer carries the generation the manifest named and the index of that generation's document |
| SourceCache.WipeTakesOneSource | internal/core/epg/manifest.go:201-221 | a wiped source has no file and no tag left, every other one serves what it did |
| SourceCache.UsableIsAnswered | internal/core/epg/manifest.go:156-190 | a lookup goes on exactly when manifest and file serve the URL, and then is answered from the generation of the manifest |
| ServedDocs.ServedFollowsEvents | internal/core/epg/worker.go:396-495 | after any run a source has exactly the document delivered last, unless it was cleared away since; a fetch delivers exactly when the source was not deleted, moved or restored since it was taken |
| ServedDocs.EligibleExactly | internal/core/epg/manifest.go:156-190 | a source is served exactly when that document is from the URL its row has now, and it is served that document |
| ServedDocs.FinishedIsHit | internal/core/epg/worker.go:430-495 | right after a source is finished a lookup of it hits in memory and answers with the channels just fetched |
| SourceCache.NonEmptyKeeps | internal/core/epg/service.go:337-352 | an index has every name that is not blank, in its place |
| WorkerRuns.IndexAnswersInEveryRun | internal/core/epg/manifest.go:131-190 | the same in every run, through publication, invalidation, deletion and repair, with the URL asked for |
| WorkerRuns.EligibleIsFromCurrentUrl | internal/core/epg/manifest.go:156-165 | what an eligible source serves was fetched from its present URL |
| WorkerRuns.OvertakenFetchPublishesNothing | internal/core/epg/worker.go:397-456 | a mutation that invalidates a source or deletes its files during its fetch makes that fetch publish nothing, whatever happens before the fetch ends |
| WorkerRuns.OwnedFileStaysInRun | internal/core/epg/worker.go:496-544 | no run removes the file of a slug that a live relay owns throughout |
| WorkerRuns.FileIsLostExactly | internal/core/epg/worker.go:496-544 | a step takes the last file of a relay that survives it exactly when it is a cleanup of the only slug left with a file: another relay's that gets past its checks, or its own on a slug another relay has by now |
| WorkerRuns.CleanupInEveryRun | internal/core/epg/worker.go:496-544 | every state a fresh start can reach is one those statements apply to: nothing blank waits, and what a cleanup read of its relay is still its slug or waits as well |
| WorkerRuns.FileStaysExactly | internal/core/epg/worker.go:174-196 | a relay with a file has one under its slug or a slug that waits for cleanup in every state of a run exactly when no step of it is such a cleanup |
| WorkerRuns.FileStaysInRun | internal/core/epg/worker.go:174-196 | so it has one throughout while no other relay sits on, or cleans up, a slug of its own that waits for cleanup |
| WorkerRuns.AnotherCleanupTakesTheFile | internal/core/epg/worker.go:496-544 | from a fresh start a relay, by then the only one, loses its only file to the leftover cleanup of a deleted relay |
| WorkerRuns.ClosedRun | internal/core/epg/worker.go:42-102 | once admission is closed and not held, the three pending sets only shrink |
| WorkerRuns.BackoffRun | internal/core/epg/worker.go:421-434 | delays are 1, 2, 4 up to 512 seconds and no retry time is further ahead than its delay |
| Refreshes.RefreshIsLostExactly | internal/core/epg/worker.go:268-456 | after a URL change of an enabled source, until the source is changed again: it is served, queued, being fetched or due unless its refresh slipped (published before the deletion was done, or taken during the back-off, cancelled or failed) and it was never queued nor due afterwards; once the deletion is done, exactly then it is not |
| Refreshes.SourcesInEveryRun | internal/core/epg/worker.go:396-456 | so is every state for these: tags agree with generations and no fetch knows a revision its source has not had |
| Refreshes.RefreshIsKeptWithoutRisk | internal/core/epg/worker.go:268-456 | it is kept when the deletion is taken before the source and, while the source is not overdue, the source is not taken during its back-off and its fetch neither cancelled nor failing |
| Refreshes.UrlChangeCanLoseItsRefresh | internal/core/epg/worker.go:281-305 | from a fresh start a URL change during the source loop loses its refresh |
| Refreshes.BackOffCanLoseARefresh | internal/core/epg/worker.go:408-414 | from a fresh start, with a successful fetch and an hour later a failed one, a URL change within the back-off loses its refresh though the deletion is taken first |
| Refreshes.OverdueIsQueued | internal/core/epg/worker.go:128-158 | a source that is due is queued by the due check once its back-off has passed |
| RelayXml.PublicTvgIdInjective | internal/core/epg/public.go:10-16 | public ids determine the source and the trimmed tvg-id |
| RelayXml.MergeDocument | internal/core/epg/relay_builder.go:39-59 | in any map order a source's renamed channels are put in, and its renamed programmes appended |
| RelayXml.OneMoreSource | internal/core/epg/relay_builder.go:130-137 | merging one more source overwrites nothing already merged |
| RelayXml.OrderDoesNotMatter | internal/core/epg/service.go:497-506 | after the stable sort the programmes do not depend on the order sources were merged in |
| RelayXml.MergeAll | internal/core/epg/relay_builder.go:130-137 | the merged and sorted document is one function of pairs and documents |
| RelayGuide.GuideListsWhatSourcesList | internal/core/epg/relay_builder.go:39-59 | of every pair the relay carries, the programmes of the source for that channel are in the guide under its public id, those of equal start and title each as often and in the order the document has them |
| RelayGuide.GuideListsNothingElse | internal/core/epg/relay_builder.go:51-58 | every programme of the guide is for a pair the relay carries |
| RelayGuide.GuideIsInOrder | internal/core/epg/service.go:479-506 | programmes go by channel, start and title |
| RelayGuide.GuideChannels | internal/core/epg/relay_builder.go:39-50 | the guide has exactly the channels of the pairs that their sources know, under public ids with their fields |
| StableSorting.StableSortIs | internal/core/epg/service.go:498-506 | the sort orders and keeps ties in order |
| StableSorting.StableSortUnique | internal/core/epg/service.go:498-506 | a stable sort has only one possible result |
| NatSort.CompareNaturalLoop | internal/utils/natsort.go:43-106 | the index loops compute the specified comparison |
| NaturalOrder.RunsByValue | internal/utils/natsort.go:50-89 | two digit runs compare by numeric value, then by fewer leading zeros |
| NaturalOrder.CodeFollowsTokens | internal/utils/natsort.go:43-106 | on ASCII digits the comparison is that of the token sequences |
| NaturalOrder.CompareIsAntisymmetric | internal/utils/natsort.go:43-106 | antisymmetric, and 0 exactly for equal lower-cased strings |
| NaturalOrder.CompareIsTransitive | internal/utils/natsort.go:43-106 | transitive |
| NaturalOrder.NaturalLessIsStrictWeak | internal/utils/natsort.go:11-26 | NaturalLess is a strict weak order |
| NaturalOrder.ChannelLessIsStrictWeak | internal/core/epg/guide.go:371-386 | guideChannelLess is a strict weak order |
| NaturalOrder.CjkNamesComeLast | internal/utils/natsort.go:11-41 | a name that starts with a Chinese, Japanese or Korean character comes after every other and after blank ones; within either kind natural order decides |
| NaturalOrder.ChannelsByNameThenId | internal/core/epg/guide.go:371-386 | channels go by trimmed name, by id where it is blank, and rows that tie by id |
| NaturalOrder.TransitiveIffAsciiDigits | internal/utils/natsort.go:43-106 | over an alphabet with 0, 1 and a, transitive exactly when all its digits are ASCII |
| Lanes.AssignProgrammeLanes | static/js/state.js:50-63 | a sorted permutation of the input, no overlap in a lane, and as many lanes as the larger of 1 and the most programmes live at once |
| Lanes.NoFewerLanes | static/js/state.js:50-63 | no assignment without overlaps uses fewer lanes |
| Hls.SeenSet.Add | internal/core/stream/hls.go:406-435 | set and order stay equal and duplicate-free; at most max entries, the newest ones |
| Hls.PumpHls | internal/core/stream/hls.go:40-165 | broadcast segments with positive numbers are strictly increasing over the run, a segment broken off in the middle included, and they are those the selection picks, whichever listings can be fetched; each outcome is reached exactly when the poll it ends at says so |
| Hls.WindowsAreStitched | internal/core/stream/hls.go:104-147 | sliding windows over one live stream give every segment from the live edge on once, without a gap |
| Hls.EndedPlaylistIsPlayedWhole | internal/core/stream/hls.go:104-147 | a playlist that has ended is played from its first segment to its last |
| Hls.LastWindowIsStitched | internal/core/stream/hls.go:104-147 | once a run is going, the last window of a stream that ends is stitched on like any other |
| Hls.NewestAreRemembered | internal/core/stream/hls.go:406-435 | the URIs remembered are the newest ones, as many as fit |
| Hls.NoUriTwice | internal/core/stream/hls.go:104-147 | as long as the polls list no more URIs than are remembered, none is broadcast twice, whatever the numbers say |
| Hls.UnnumberedByUri | internal/core/stream/hls.go:104-147 | a segment without a positive number is broadcast exactly when its URI is not remembered |
| HlsPlaylist.ParseHlsPlaylist | internal/core/stream/hls.go:240-309 | the line loop computes the specified parse, refusals included |
| HlsPlaylist.RefusedExactly | internal/core/stream/hls.go:250-300 | refused exactly when a line has a tag that is not supported; the first such line is the reason |
| HlsPlaylist.AcceptedIsWhatLinesSay | internal/core/stream/hls.go:250-300 | an accepted playlist has ended exactly when a line says so, and its variants and segments are all the address lines in order, variants being those after a stream tag and before any segment tag |
| HlsPlaylist.NumbersAreRead | internal/core/stream/hls.go:240-309 | decimal numbers are read with either sign, and those out of range become the nearest |
| HlsPlaylist.SegmentsAreNumbered | internal/core/stream/hls.go:250-300 | when EXT-X-MEDIA-SEQUENCE precedes all segments, segment i has that number plus i |
| M3u.PrintPlaylist | internal/httpapi/relays.go:249-282 | the handler's loop prints the specified text |
| M3u.SplitInfo | internal/core/m3u/parser.go:154-167 | cut at the first comma outside quotes, both sides trimmed, or nothing |
| M3u.ParseAttrsLoop | internal/core/m3u/parser.go:169-212 | the index-driven scanner computes the specified attribute map |
| M3u.ParsePlaylist | internal/core/m3u/parser.go:33-117 | the line loop with its pending entry computes the specified result |
| M3u.EntriesAreAddressLines | internal/core/m3u/parser.go:56-117 | every address line becomes an entry, whatever precedes it, and nothing else does |
| M3u.FirstAttrIs | internal/core/m3u/parser.go:119-152 | of several keys the first with a value that is not blank decides |
| M3u.GroupLine | internal/core/m3u/parser.go:90-93 | a group line fills in the group of an entry that has none |
| M3u.OptionLine | internal/core/m3u/parser.go:85-89 | option lines set the headers they name |
| PlaylistRoundTrip.PlaylistComesBack | internal/httpapi/relays.go:249-282 | parsing a printed playlist gives one entry per row, in order, with the row's fields up to sanitising and trimming, and no warning |
| PlaylistRoundTrip.CleanRowComesBack | internal/httpapi/relays.go:249-282 | a row of trimmed text without line breaks, zero characters and quotes comes back to the letter |
| PlaylistRoundTrip.InfoComesBack | internal/core/m3u/parser.go:119-152 | the same for one line's name, number, id, group and logo |
| PlaylistQuotes.AnyLineIsLostExactly | internal/core/m3u/parser.go:154-167 | a line is rejected exactly when each of its commas stands behind an odd number of double quotes |
| PlaylistQuotes.LineIsLostExactly | internal/core/m3u/parser.go:154-167 | so with comma-free fields, exactly when the double quotes in id, name, logo and group are odd in number |
| PlaylistQuotes.LostRowIsItsUrl | internal/core/m3u/parser.go:33-117 | a rejected row leaves a warning and an entry that goes by its URL |
| PlaylistQuotes.FieldsComeBackExactly | internal/core/m3u/parser.go:119-212 | of a row cut at the comma after its attributes, all fields come back exactly when id, logo and group have no quote and what is printed right after a name with quotes is blank |
| PlaylistQuotes.CutEarlyIsLost | internal/core/m3u/parser.go:119-167 | a row with an unquoted comma in its attributes never comes back |
| PlaylistQuotes.EqualsSignCanMend | internal/core/m3u/parser.go:169-212 | why fields with quotes have no equals sign there: a name that spells an attribute brings the logo back |
| PlaylistRoundTrip.AdvertisedIdsAreGuideIds | internal/httpapi/relays.go:261-268 | advertised ids are, before escaping, the ids of the relay's guide |
| Lineup.LineupUnique | internal/core/store/relays.go:301-330 | a relay has exactly one lineup order |
| Lineup.Renumber | internal/core/store/relays.go:301-330 | afterwards the numbers in lineup order are 1 to n and nothing else changed |
| Lineup.RelayStore.AddMembership | internal/core/store/relays.go:368-399 | succeeds exactly for valid input and a free channel; the row is added as asked, its relay renumbered, every relay still numbered |
| Lineup.RelayStore.UpdateMembership | internal/core/store/relays.go:401-434 | the same for an update, with defaults for unset fields |
| Lineup.RelayStore.DeleteMembership | internal/core/store/relays.go:436-450 | the same for a deletion |
| RelayLayout.AcceptedIsPermutation | internal/core/store/relays.go:517-559 | only permutations of the relay's groups and memberships are accepted |
| RelayLayout.ReplaceRelayLayout | internal/core/store/relays.go:490-568 | accepted exactly when it is one; then the lineup is the layout read in order, numbered 1 to n; otherwise nothing changes |
| ChannelModel.AppendKeepsPrimary | internal/core/store/import.go:367-410 | appending a row leaves the primary row alone |
| ChannelModel.PrimaryProxyDecides | internal/core/store/proxies.go:368-377 | only the primary row's proxy matters to the stored URL |
| ChannelUrls.StoredUrlIs | internal/core/store/upstreams.go:105-131 | of every channel the stored URL is that of the row its fixed pick names first, or of the first row: the trimmed link, or the picked server without trailing slashes, one slash and the link without leading ones |
| ChannelUrls.ResolvedUrls | internal/core/store/upstreams.go:287-297 | under a fail-over proxy a row stands for its link behind each server, in order, otherwise for its one stored URL |
| ChannelUrls.PolicyNames | internal/core/upstream/source.go:49-75 | which names stand for which policy |
| ChannelStore.Store.ResolveSpec | internal/core/store/upstreams.go:32-115 | let through exactly with a policy and rows of valid links, known proxies, no source twice and no resolved URL twice; then rows as asked and trimmed, a fixed pick that exists, and the URL of the primary |
| ChannelStore.Store.InsertChannel | internal/core/store/import.go:444-489 | when it succeeds; the channel has name, rows, policy and pick as asked, and stored URLs agree with primaries in every channel |
| ChannelStore.Store.UpdateChannel | internal/core/store/store.go:601-659 | the same for an update, with present rows, policy and pick for what is not given |
| ChannelStore.Store.UpdateProxy | internal/core/store/proxies.go:119-157 | the same after a proxy update; the proxy is as asked for and only stored URLs of channels that use it change |
| ChannelStore.Store.Refresh | internal/core/store/proxies.go:335-379 | each dependent channel is derived again exactly when its primary row uses the proxy |
| ChannelStore.Store.ResolveProxy | internal/core/store/proxies.go:192-230 | let through exactly with a name, a policy and at least one server, all http(s) and none twice; servers as asked, ids kept unless blank or used, the pick asked for if it exists |
| ChannelStore.Store.DeleteProxy | internal/core/store/proxies.go:159-183 | refused exactly while some channel uses the proxy |
| ChannelStore.Store.Restore | internal/core/store/backup.go:226-286 | the proxies and channels are exactly the backup's, each as asked for with its policy and pick, and stored URLs agree with primaries; a failed one changes nothing |
| ChannelStore.Store.FindByUrl | internal/core/store/import.go:412-438 | without a proxy the first owner: stored URLs before mere rows, then by id; with one any channel that has the row, as the query has no order; none exactly when there is none |
| ChannelStore.Store.FindImportChannel | internal/core/store/import.go:343-356 | an owner of the row if there is one, else of a URL the row would resolve to, else none |
| ChannelStore.Store.Append | internal/core/store/import.go:367-410 | a row is appended exactly when it is valid and not a duplicate, and stored URLs still agree |
| ChannelImport.EntryGetsItsProxyExactly | internal/core/store/import.go:323-341 | an entry gets the proxy it names exactly when the first entry under the same cache key with a known proxy names that one |
| ImportProxies.SecondProxyIsTakenForTheFirst | internal/core/store/import.go:260-341 | two proxies are created and a list imported that names one for each channel: the import succeeds and the second channel is stored behind the first proxy |
| ChannelImport.SettledStays | internal/core/store/import.go:276-300 | what is found or a duplicate stays so as tables grow |
| ChannelImport.ImportChannels | internal/core/store/import.go:260-321 | entry by entry, each is found, appended or created exactly as its three cases say, or the import fails at it and changes nothing; created, reused, added and warnings sum to the entries; every entry ends settled, and settled lists change nothing |
| ChannelImport.ImportTwice | internal/core/store/import.go:260-321 | a second import of the same list creates, adds and changes nothing |
| ChannelNames.NextUniqueChannelName | internal/core/store/import.go:510-531 | the first of "name", "name (2)", "name (3)" and so on whose lower-cased key is free, with "Channel" for a blank name, and the search ends |

## Left out

- HTTP routing, JSON, authentication, settings, icons, logging and the rest of the UI: plumbing.
- ffmpeg, fetching, gzip and the XML encoder and decoder: a fetch, pump or parse returns any result or error.
- SQL: tables are maps, a transaction is one step or a rollback, unique indexes decide through a parameter; schema migrations are not modelled.
- Real time: timers, the readiness watch and its idle timeout, goroutine scheduling; the clock is a number that steps may advance.
- Session status texts, idle callbacks and `pumpCancel`: they do not influence what viewers get.
- Epochs, revisions and viewer ids: unbounded, so the wrap-around of their 64-bit counters is not modelled.
- Startup reconciliation: a run of the guide worker starts with no files of its own, as in a fresh process.
- Failing file writes and store errors in the worker: only fetches, ineligible sources and vanished rows fail.
- The setOK and setError texts; when the timer fires (nextDelay); which sources an interval change finds due is a parameter of that mutation.
- Service.eligibleSource inside a build: index lookups are steps of their own that may happen at any time, and the build reads manifest and file.
- Slug normalisation and validation: slugs are stored normalised, so trimming them again is the identity.
- ImportRelay's grouping of entries: each entry goes through the same membership insert as AddMembership.
- The EPG fields of channels in ChannelStore, headers, logos and transcoding: they play no part in the stored URL.
- M3u.ParsePlaylist: the guide URLs of the header (extractEPGURLs) are left out, since the URL parser is foreign code; entries do not depend on them.
- PlaylistQuotes.FieldsComeBackExactly: not for a field that has both a double quote and an equals sign, since there the attribute scanner reads whatever the field spells; nor for a row whose attributes end inside quotes and whose name has a comma of its own.
- WorkerRuns.OvertakenFetchPublishesNothing: the last check of revision and URL and the write of the manifest are one step, so a change that lands between the two is not modelled.
- The scanner's limit of 1 MB per line, and byte offsets of letters whose upper case is ASCII (such as U+0131): tags are recognised by ASCII case.
- HLS durations, bandwidths, variant choice and reload waits: floating point that selection does not look at.
- Full backup and restore identity: it does not hold, since UpdateProxy can leave duplicate resolved URLs that a restore rejects.
- The fixed pick surviving Normalize with blank upstreams: the code does not remap the index, and neither does the model.
- SourceCache.IndexFromDoc: sorted only for an order that is total; on other digits than ASCII guideChannelLess is not one, and only the content of the index is promised.
