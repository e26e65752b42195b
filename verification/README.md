# Repro It capture core: a verified model

Repro It records one failing backend operation so that it can be replayed elsewhere. Its capture code is
fail-closed: whatever it cannot account for must stop the capture from closing. This project models the parts
of the SDK that carry that promise and proves what they keep in every run.

Code that updates an object in place is a class whose methods are proved against a specification function or
against the old state; protocols that several threads or processes run together are state machines with one
step for each lock section, atomic instruction or file-system call, and their theorems speak about every
reachable state under every interleaving. Ghost fields and `history` fields only record what happened.

`dafny verify dfyconfig.toml` checks the whole project.

## The components

**Process-wide resources** (`StormGate`, `CandidateEntries`, `Ledger`, `Records`, `Sections`, `CaptureRuns`
and the other `Capture...` modules, `SinkQueue`, with `Arith`, `MapSums`). The failure-storm gate is a token
bucket in front of a map of recently admitted identities. Its verdict is proved to be a function of the
admission history alone: an identity is suppressed exactly while it was admitted less than a minute ago, and
anything else is admitted exactly when every window that ends now has room for one more. In consequence the
map holds at most 123 entries and the eviction for 256 identities is dead code.

`Ledger` is the process-wide account of bytes as an object. `Sections` gives every lock section of the ledger,
an `Sdk` and a local recorder as a function, and `CaptureSdk` proves the objects' methods equal to them, one
method for each section. `CaptureRuns` lets any number of Sdks, recorders and sinks, retaining or not, run
over one ledger in every interleaving of these sections. An Sdk keeps the lock of its own table over several
sections of a failing operation, so no other call of that Sdk comes in between, but every other object may; a
change of fields that this lock alone protects belongs to the section of the ledger beside it. Each entry of
the ledger has a custodian (a failing operation, a recorder, someone taking a candidate out, or another sink),
and `CaptureLaws` proves for all runs that tables, recorders and calls agree with the ledger one to one, that
every total is the exact sum and that the limits hold. `CaptureTheorems` says what that means, and gives each
outcome of a failing operation by the state of the section that decides it. `CaptureStory` tells each run
again from the arguments of the accepted calls alone and proves that the stored records, and those of every
sealed and kept candidate, are exactly what was said; `CaptureTally` proves the same for the recall counters,
and `CaptureAnswers` for the answers of every call. `SinkQueue` takes the managed sink apart into the steps of
its senders, its worker thread and the other users of the ledger; `SinkStory` gives the order of delivery and
the meaning of a sender's answer.

**Automatic world** (`Semantics`, `World`, `WorldLaws`, `WorldAnswers`, `WorldArtifacts`, `WorldStory`,
`WorldExamples`, `WorldCoordinator`, `Classes`). The coordinator class refines the functions of `World`, and
the theorems about `close` are about all runs of those functions. `WorldStory` is an independent account of a
run: a diary of what each session said, kept from the steps alone without any state of the coordinator. All
that a closed capture hands over is proved equal to what this diary prescribes, and `WorldExamples` proves
that captures with any sessions do close. `WorldAnswers` says when each call is accepted. The outcomes of
storage calls, reservations, the recorder and schema validators are inputs of each step, so a run ranges over
all of them. Digests are injective constructors. A codec is a record of functions: an encoder, a strict parser
and a validator for each contract and role, with the round trip as a stated hypothesis.

**Engine** (`EngineSession`, `EngineModes`, `EngineOpening`, `EngineVerdicts`, `ObservationClient`,
`Registry`, `FailureTask`, `FailureStory`). `EngineSession` runs the engine's own semantic session beside the
coordinator and proves that both hold the same bytes, and `EngineModes` that the engine finishes a dependency
only as the coordinator's mode demands, `EngineOpening` what an opened dependency is and what a failed call
leaves, `EngineVerdicts` that the second validation never refuses what the coordinator would accept;
`ObservationClient` is the .NET client over the coordinator class; `Registry` is the table of handles;
`FailureTask` is the background task under every interleaving of enqueuers, cancellers, worker and waiters,
and `FailureStory` tells its states, its order and its answers from the steps alone.

**Coverage sentinel** (`Sentinel`, `SentinelOwners`, `IgnoreTable`, `IgnoreStory`, `EventChannel`,
`TracedThreads`). The controller's log of drained events is a ghost history; a coverage result is proved to be
a verdict about that history, and over the event channel to be one about everything the tracer was asked to
emit. `SentinelOwners` says who owns an event without the table of ownership. The table of ignored threads and
the event channel are modelled one atomic instruction at a time. A thread is stopped by the tracer between two
of its own instructions on the table, because none of them is a system call.

**Identity files** (`IdentityFiles`, `IdentityProgress`). Processes create, write, flush, hard-link, remove
and read files in every interleaving, may crash at any step, and the machine may lose power, which drops a
directory entry that was never flushed.

**Ambient context** (`ContextStack`), **encoders and streams** (`CanonicalText`, `CanonicalJson`, `Upload`,
`SubjectCopy`, `RequestResponse`, `EncryptedObject`, with `Sequences`, `Options`). Canonical JSON is related
to an independent parser (section 7 of RFC 8259 for strings, section 3 of RFC 3629 for UTF-8).

## Where the code does less than one expects

Each of these is proved, with the exact condition or with a run that shows it.

- `Sdk::fail` numbers the failure record under one lock and appends it under another. As long as its operation
  was not ended and begun anew in between, the sealed records are numbered without gaps if and only if no
  append came between (`CaptureTheorems.SealedIffUndisturbed`); `CaptureExamples.FailureNumberedTooEarly` runs
  the calls with an append in between.
- `Sdk::fail` succeeds for a sent candidate if and only if its bytes were not given back before it looks
  (`CaptureTheorems.CheckVerdict`, `SinkQueue.CheckVerdict`), so it can report a quota error for a delivered
  candidate (`SinkQueue.DeliveredYetRefused`).
- When it finds the candidate gone it releases the capture once more. This releases an entry that is not its
  own if and only if another sink has claimed the same capture since (`CaptureTheorems.SettleReleases`); a run
  that comes to this is `CaptureExamples.StrangersEntryReleased`.
- The worker of the managed sink gives a candidate's bytes back before it uncounts it. A claimed candidate is
  refused if and only if it meets this gap and the queue is then full (`SinkQueue.CountRefusesIff`).
- The eviction branch of the storm gate is unreachable (`StormGate.LiveMapStaysSmall`,
  `StormGate.FailureStormGate.Admit`).
- `mark_unowned` sets no flag when its evidence cannot be stored or recorded. The fence's zero is the true
  count of unowned marks if and only if no mark was lost that way (`WorldLaws.FenceCountsAreTrue`), and a
  capture with such a mark closes (`WorldLaws.LostMarkCloses`).
- A managed upload that the server calls committed is accepted without the identity check
  (`Upload.CommittedShortcut`).
- Raw response bytes written before `finish_dependency` make the cached record differ from the buffer. The
  coordinator reads the spooled bytes again, so success still means a valid pair in the spooled files with the
  reported outcome (`EngineSession.FinishDependencyMeansValidPair`); with a suffix-free encoding such a call
  never succeeds (`EngineSession.RawBytesAreRejected`).
- A replay whose recorded response is empty reaches its end at once. The server rejects the finish that the
  client then sends, and no other finish that it sends (`ObservationClient.ObservationSession.Finish`); a run
  of this is `ObservationClient.EmptyResponseCannotFinish`. Without such a response no call is ever rejected
  for the session's state (`ObservationClient.AnyCalls`).
- Agreement on an identity file needs temporary names that are never repeated
  (`IdentityFiles.RepeatedNameBreaksAgreement`), and after a power loss it binds only processes that flushed
  the directory (`IdentityFiles.UnsyncedReaderCanBeContradicted`).

## Model

| member | source | states |
|---|---|---|
| StormGate.FailureStormGate.Admit | crates/reproit-sdk-rust/src/resources.rs:248-282 | the decision depends on the admission history alone: exact suppression iff this identity was admitted less than 60,000 ms ago, admission iff in addition every window ending now has room for one more; the eviction for 256 identities is never reached; the whole new map and history |
| StormGate.FailureStormGate.Refill | crates/reproit-sdk-rust/src/resources.rs:284-291 | refills two milli-tokens per elapsed millisecond up to four tokens and touches nothing else |
| StormGate.RefillKeepsExact | crates/reproit-sdk-rust/src/resources.rs:284-291 | after any lapse of time the bucket again holds exactly the slack of the tightest window of the history |
| StormGate.TokenIffRateAllows | crates/reproit-sdk-rust/src/resources.rs:259-261 | a whole token is there iff one more admission keeps 1000 * count <= 4000 + 2 * length in every window ending now |
| StormGate.SpendKeepsExact | crates/reproit-sdk-rust/src/resources.rs:272-281 | spending a token for an admission keeps the bucket exact |
| StormGate.AdmissionKeepsRateLaw | crates/reproit-sdk-rust/src/resources.rs:248-291 | an allowed admission keeps the rate law in every window [s,t], past and present: 1000 * count <= 4000 + 2 * (t - s) |
| StormGate.RetainIsExact | crates/reproit-sdk-rust/src/resources.rs:251-253 | the expiry pass leaves exactly the identities admitted in the last 60,000 ms |
| StormGate.InsertIsExact | crates/reproit-sdk-rust/src/resources.rs:254-281 | an admission keeps two admissions of one identity at least 60,000 ms apart and the map exact |
| StormGate.LiveMapStaysSmall | crates/reproit-sdk-rust/src/resources.rs:262-271 | the map never has more than 123 entries, so its bound of 256 is never met |
| StormGate.PassTime | crates/reproit-sdk-rust/src/resources.rs:248-261 | at any later time refill and expiry keep the gate invariant and make both tests questions about the history |
| StormGate.AdmitKeeps | crates/reproit-sdk-rust/src/resources.rs:272-281 | an admission keeps the whole gate invariant |
| Ledger.ProcessResources.ReserveOperation | crates/reproit-sdk-rust/src/resources.rs:134-147 | succeeds iff the operation is new and count and byte limits allow it; totals stay exact sums |
| Ledger.ProcessResources.GrowOperation | crates/reproit-sdk-rust/src/resources.rs:149-163 | succeeds iff the operation is known and the bytes fit; then its entry and the total grow by exactly those bytes |
| Ledger.ProcessResources.ReleaseOperation | crates/reproit-sdk-rust/src/resources.rs:165-170 | removes exactly this entry; the total stays the exact sum |
| Ledger.ProcessResources.ReserveCandidateHandoff | crates/reproit-sdk-rust/src/resources.rs:74-92 | succeeds iff the capture is new, fewer than 16 are held and the bytes fit beside the operations |
| Ledger.ProcessResources.ClaimCandidate | crates/reproit-sdk-rust/src/resources.rs:176-201 | succeeds iff a handed-off entry has exactly these bytes, or there is none and room for one; then the entry is retained |
| Ledger.ProcessResources.ReleaseCandidate | crates/reproit-sdk-rust/src/resources.rs:94-98 | removes exactly this entry; the total stays the exact sum |
| Ledger.ClaimedOnce | crates/reproit-sdk-rust/src/resources.rs:74-98 | a handoff can be claimed with its own size only, and once; while a capture has an entry it gets no other |
| Ledger.LogicalByteReservation.Reserve | crates/reproit-sdk-rust/src/resources.rs:62-72 | succeeds iff the capture bytes of all live reservations stay within 4 GiB; then this reservation grows by exactly that |
| Ledger.LogicalByteReservation.Release | crates/reproit-sdk-rust/src/resources.rs:119-125 | gives back at most what the reservation holds, and the same amount to the process |
| Ledger.LogicalByteReservation.Drop | crates/reproit-sdk-rust/src/resources.rs:127-132 | the end of a reservation gives back all it holds, and only that |
| Records.SealedContiguousIff | crates/reproit-sdk-rust/src/lib.rs:377-396 | sealed records are numbered 0..n-1 iff the failure record was numbered at the count it is appended at; sizes stay within the operation limit |
| Records.NextRecord | crates/reproit-sdk-rust/src/lib.rs:504-510 | appending a record that fits keeps bytes equal to the sum of record sizes and the numbering contiguous |
| CaptureSdk.LocalRecorder.Keep | crates/reproit-sdk-rust/src/managed_sink.rs:507-518 | under the recorder's lock: keeps a claimed candidate iff it is this recorder's operation, fits and none is kept yet |
| CaptureSdk.LocalRecorder.TakeOut | crates/reproit-sdk-rust/src/managed_sink.rs:444-448 | hands the kept candidate out, once |
| CaptureSdk.LocalRecorder.GiveBack | crates/reproit-sdk-rust/src/managed_sink.rs:449-452 | returns exactly the taken candidate's entry to the ledger; the totals stay exact sums |
| CaptureSdk.LocalRecorder.Drop | crates/reproit-sdk-rust/src/managed_sink.rs:460-467 | a candidate nobody took gives its bytes back |
| CaptureSdk.Sdk.Begin | crates/reproit-sdk-rust/src/lib.rs:250-291 | the section of the specification over any balanced ledger; the ledger stays balanced; an error changes nothing |
| CaptureSdk.Sdk.BindAutomaticWorld | crates/reproit-sdk-rust/src/lib.rs:293-309 | binds the world of an operation once; only that operation changes |
| CaptureSdk.Sdk.Append | crates/reproit-sdk-rust/src/lib.rs:482-509 | appends the next-numbered record of exactly this kind and payload iff both limits allow it (CaptureTheorems.AppendVerdict, CaptureStory.RecordsAreWhatWasSaid); a record beyond the operation's limits ends the operation; one beyond the process's must be followed by the drop |
| CaptureSdk.Sdk.DropOperation | crates/reproit-sdk-rust/src/lib.rs:498-503 | the second ledger section of an append that found no room |
| CaptureSdk.Sdk.Delete | crates/reproit-sdk-rust/src/lib.rs:537-542 | forgets the operation here and in the ledger with exactly its bytes |
| CaptureSdk.Sdk.Forget | crates/reproit-sdk-rust/src/lib.rs:343-359 | forgets the operation iff it was there, and counts an abandoned one |
| CaptureSdk.Sdk.FailureRecord | crates/reproit-sdk-rust/src/lib.rs:452-470 | numbers the failure record by the record count seen under this lock, iff the operation lives and has a world |
| CaptureSdk.Sdk.Remove | crates/reproit-sdk-rust/src/lib.rs:370-410 | the operation leaves table and ledger in any case; the candidate is sealed from its records, or the call is rejected |
| CaptureSdk.Sdk.Admit | crates/reproit-sdk-rust/src/lib.rs:411-427 | the decision is the admission history's; which recall counter and which outcome go with it |
| CaptureSdk.Sdk.HandOff | crates/reproit-sdk-rust/src/lib.rs:427-437 | an entry is reserved for the candidate, or the call ends as queue full and is counted |
| CaptureSdk.Sdk.Claim | crates/reproit-sdk-rust/src/managed_sink.rs:501-506 | the recorder's claim of the reserved entry |
| CaptureSdk.Sdk.Check | crates/reproit-sdk-rust/src/lib.rs:440-441 | looks whether the capture has a retained entry at this moment |
| CaptureSdk.Sdk.Settle | crates/reproit-sdk-rust/src/lib.rs:442-447 | releases the capture unless it was found retained; delivered iff sent and found retained |
| CaptureSdk.Sdk.Drop | crates/reproit-sdk-rust/src/lib.rs:545-551 | the end of an Sdk takes all its operations, and no others, out of the ledger |
| CaptureLaws.StepKeeps | crates/reproit-sdk-rust/src/lib.rs:250-551 | every section of every Sdk, recorder and other sink keeps the joint invariant: tables, recorders, calls under way and other sinks match the ledger one to one, totals are exact sums |
| CaptureLaws.RunKeeps | crates/reproit-sdk-rust/src/resources.rs:56-201 | so it holds after every interleaving |
| CaptureTheorems.TablesMatchLedger | crates/reproit-sdk-rust/src/lib.rs:270-289 | every stored operation is in the ledger with the sum of its record sizes, is numbered contiguously and is in one table only |
| CaptureTheorems.LedgerMatchesTables | crates/reproit-sdk-rust/src/resources.rs:134-170 | every operation entry of the ledger is stored by some live Sdk |
| CaptureTheorems.TotalsAddUp | crates/reproit-sdk-rust/src/resources.rs:134-201 | the totals of all Sdks add up to the ledger's, which is the exact sum of its entries and within every limit |
| CaptureTheorems.RecordersMatchLedger | crates/reproit-sdk-rust/src/managed_sink.rs:493-519 | a recorder's candidate is retained in the ledger with exactly its bytes, and in one recorder only |
| CaptureTheorems.HandoffsAreInFlight | crates/reproit-sdk-rust/src/lib.rs:427-447 | a handed-off entry belongs to exactly one call of `fail` that has not settled it |
| CaptureTheorems.NothingLeaks | crates/reproit-sdk-rust/src/lib.rs:427-447 | with no call under way and nothing kept, no candidate bytes are left; with no Sdk either, nothing is |
| CaptureTheorems.AdmissionsAreRare | crates/reproit-sdk-rust/src/resources.rs:248-291 | over all Sdks together the admissions keep the rate law in every window and a minute between two of one identity |
| CaptureTheorems.SealedIffUndisturbed | crates/reproit-sdk-rust/src/lib.rs:361-396 | in every reachable state the candidate sealed next is numbered without gaps iff no append came after its failure record was numbered |
| CaptureTheorems.HandOffVerdict | crates/reproit-sdk-rust/src/lib.rs:427-437 | the call ends as queue full iff, at this very section, the candidate is too long, another sink has its capture, 16 are held or the bytes do not fit beside all others |
| CaptureTheorems.ClaimNeverRefused | crates/reproit-sdk-rust/src/resources.rs:176-201 | the claim of a reserved entry never fails, whatever ran in between, and changes no total |
| CaptureTheorems.CheckVerdict | crates/reproit-sdk-rust/src/lib.rs:440-441 | a sent candidate is found retained iff its capture still has an entry; one that was not sent, iff another sink has it |
| CaptureTheorems.SettleVerdict | crates/reproit-sdk-rust/src/lib.rs:442-447 | delivered iff the sink took it and, if the sink retains, it was found retained; after a refusal no recorder and no call has it |
| CaptureTheorems.SettleReleases | crates/reproit-sdk-rust/src/lib.rs:442-444 | a call that found its candidate gone leaves no entry of the capture; the entry it releases is its own unclaimed handoff or one that another sink claimed since |
| CaptureTheorems.BeginVerdict | crates/reproit-sdk-rust/src/lib.rs:250-291 | in every reachable state a begin is accepted iff its payload fits one record, no Sdk stores the operation, fewer than 512 are stored and its base64url size and 32 bytes fit beside all bytes of the process |
| CaptureTheorems.AppendVerdict | crates/reproit-sdk-rust/src/lib.rs:482-513 | which appends are accepted, which end the operation and which are about to, by sizes and limits |
| CaptureTheorems.NumberVerdict | crates/reproit-sdk-rust/src/lib.rs:452-470 | a failure is numbered iff its operation is stored with its world and the payload fits one record |
| CaptureTheorems.RemoveVerdict | crates/reproit-sdk-rust/src/lib.rs:370-410 | a failing operation ends in any case; it is sealed iff failure and terminal record fit and the candidate is valid |
| CaptureStory.RecordsAreWhatWasSaid | crates/reproit-sdk-rust/src/lib.rs:482-513 | in every run the records of a stored operation are exactly the kinds and payloads of the begin and of the appends that were accepted, in order and numbered from zero, and its bytes are their base64url sizes and 32 each |
| CaptureStory.CandidatesReport | crates/reproit-sdk-rust/src/lib.rs:369-410 | in every run a sealed candidate holds exactly the accepted events, then a failure record with the payload and number of its call, then a terminal record with the terminal payload |
| CaptureStory.RecordersReport | crates/reproit-sdk-rust/src/managed_sink.rs:493-519 | and so does the candidate that a recorder keeps |
| CaptureTally.CountersAreTrue | crates/reproit-sdk-rust/src/lib.rs:361-447 | in every run each recall counter is the number of times its event happened, up to saturation |
| CaptureTally.AdmitVerdict | crates/reproit-sdk-rust/src/lib.rs:411-427 | a sealed candidate is suppressed as exact, suppressed as one of too many, or passed on, by the admission history; only a pass is an admission |
| CaptureAnswers.BeginAnswers | crates/reproit-sdk-rust/src/lib.rs:250-291 | which error a begin gets: a schema error for a payload without canonical bytes or an operation begun twice, otherwise a quota error |
| CaptureAnswers.AppendAnswers | crates/reproit-sdk-rust/src/lib.rs:482-513 | what an append answers in each of its outcomes, and when it has to drop the operation first |
| CaptureAnswers.DropVerdict | crates/reproit-sdk-rust/src/lib.rs:498-503 | the dropped operation leaves the table and the ledger and the append is out of quota |
| CaptureAnswers.ForgetVerdict | crates/reproit-sdk-rust/src/lib.rs:343-359 | success, cancellation and abandonment end exactly this operation, in the table and in the ledger |
| CaptureAnswers.BindVerdict | crates/reproit-sdk-rust/src/lib.rs:293-309 | a world is bound once, to a stored operation without one; a second binding is a schema error |
| CaptureAnswers.NumberAnswers | crates/reproit-sdk-rust/src/lib.rs:452-470 | which error a failure gets, and that its record is numbered by the records there are |
| CaptureAnswers.KeepVerdict | crates/reproit-sdk-rust/src/managed_sink.rs:493-519 | a recorder keeps a claimed candidate iff it is of its own operation, within one operation's size and the first; anything else it counts, and gives a claim back |
| CaptureAnswers.TakeVerdict | crates/reproit-sdk-rust/src/managed_sink.rs:444-458 | a candidate is taken out once, and its recorder is then as new but for the counter |
| CaptureAnswers.DeliveredMeans | crates/reproit-sdk-rust/src/lib.rs:427-447 | in every run a failing operation that settles is delivered iff its sink said that it took the candidate and, if the sink retains, the candidate was found retained |
| CaptureAnswers.RecorderCountIsTrue | crates/reproit-sdk-rust/src/managed_sink.rs:493-519 | in every run a recorder's counter is the number of candidates that it did not keep |
| CaptureExamples.StrangersEntryReleased | crates/reproit-sdk-rust/src/lib.rs:440-447 | a run in which the call releases the entry that another sink claimed since |
| CaptureExamples.FailureNumberedTooEarly | crates/reproit-sdk-rust/src/lib.rs:361-396 | begin, number, append, remove on the objects: the sealed records are not contiguous |
| SinkQueue.StepKeeps | crates/reproit-sdk-rust/src/managed_sink.rs:760-812 | every step of every sender, of the worker and of other ledger users keeps custody: each reserved candidate is with one sender, in the channel or with the worker, and its bytes are in the ledger until they are returned |
| SinkQueue.RunKeeps | crates/reproit-sdk-rust/src/managed_sink.rs:279-308 | so it holds after every interleaving |
| SinkQueue.GivenBackAtMostOnce | crates/reproit-sdk-rust/src/managed_sink.rs:881-893 | a candidate's bytes are returned at most once, and have been returned iff its ledger entry is gone |
| SinkQueue.NothingLeaks | crates/reproit-sdk-rust/src/managed_sink.rs:881-893 | when all senders are done and the queue is idle, every candidate's bytes were returned exactly once and no entry of this sink is left |
| SinkQueue.PushNeverFull | crates/reproit-sdk-rust/src/managed_sink.rs:800-811 | the bounded channel always has room for a counted candidate: the error for a full channel cannot occur |
| SinkQueue.ChannelHasRoom | crates/reproit-sdk-rust/src/managed_sink.rs:800-811 | a sender about to push is counted beside the whole channel, within 16 |
| SinkQueue.IdleIffNothingQueued | crates/reproit-sdk-rust/src/managed_sink.rs:379-392 | the state in which `wait_until_idle` answers true is exactly the one with no candidate with a counted sender, in the channel or in delivery |
| SinkQueue.CheckVerdict | crates/reproit-sdk-rust/src/lib.rs:440-441 | a sent candidate is found retained iff the worker has not yet given its bytes back; one that was not sent is not found |
| SinkQueue.SettleVerdict | crates/reproit-sdk-rust/src/lib.rs:442-447 | success iff it was found retained; otherwise no entry is left and its bytes were returned exactly once |
| SinkQueue.DeliveredYetRefused | crates/reproit-sdk-rust/src/lib.rs:439-447 | a reachable run in which a delivered candidate is reported with a quota error |
| SinkQueue.CountRefusesIff | crates/reproit-sdk-rust/src/managed_sink.rs:774-793 | the queue refuses a claimed candidate iff the worker has given a candidate's bytes back and not yet uncounted it, and with it 16 are counted or the bytes do not fit; without it there is room |
| SinkStory.ReceivedInOrder | crates/reproit-sdk-rust/src/managed_sink.rs:279-308 | in every run the worker receives the queued candidates in the order of their queueing, none twice and none left out |
| SinkStory.AnswersAreTrue | crates/reproit-sdk-rust/src/managed_sink.rs:760-812 | a sender that ends well has queued its candidate, and a direct delivery ends well iff it has |
| SinkStory.ClaimVerdict | crates/reproit-sdk-rust/src/resources.rs:176-201 | the claim of a failing operation never fails; a direct one is refused iff the process has no room |
| WorldCoordinator.Coordinator.OpenObservation | crates/reproit-sdk-rust/src/automatic_world.rs:331-381 | changes the coordinator exactly as the specification function says |
| WorldCoordinator.Coordinator.WriteObservation | crates/reproit-sdk-rust/src/automatic_world.rs:383-432 | same, with the partial chunk of a failed append and the overflow of a session |
| WorldCoordinator.Coordinator.AppendChunk | crates/reproit-sdk-rust/src/automatic_world.rs:420-432 | counts first, then appends; a failed append leaves a prefix of the chunk and marks the world incomplete |
| WorldCoordinator.Coordinator.DispatchObservation | crates/reproit-sdk-rust/src/automatic_world.rs:444-479 | same; an unreadable request file fails when it is validated; in replay the recorded response is spooled |
| WorldCoordinator.Coordinator.ReadObservationResponse | crates/reproit-sdk-rust/src/automatic_world.rs:481-500 | same; reads the next bytes of the spooled response and reports the end exactly |
| WorldCoordinator.Coordinator.FinishObservation | crates/reproit-sdk-rust/src/automatic_world.rs:502-542 | same; the session always leaves |
| WorldCoordinator.Coordinator.CommitSession | crates/reproit-sdk-rust/src/automatic_world_artifacts.rs:29-81 | the commit of the specification, whose observation and evidence carry the argument's outcome and the session's parent, position and files (WorldStory.FinishReports); on an error artifacts already pushed stay and the world is incomplete |
| WorldCoordinator.Coordinator.CommitEvidence | crates/reproit-sdk-rust/src/automatic_world_artifacts.rs:83-163 | pushes the interaction or the state artifact and returns the digest that binds the exact bytes |
| WorldCoordinator.Coordinator.AbandonObservation | crates/reproit-sdk-rust/src/automatic_world.rs:544-548 | same; an abandoned session makes the world incomplete |
| WorldCoordinator.Coordinator.MarkUnowned | crates/reproit-sdk-rust/src/automatic_world.rs:601-659 | same, with the three ways a mark can fail |
| WorldCoordinator.Coordinator.BindNativeSentinelCoverage | crates/reproit-sdk-rust/src/automatic_world.rs:291-316 | binds coverage to every class at once, and once only |
| WorldCoordinator.Coordinator.WorldClosure | crates/reproit-sdk-rust/src/automatic_world.rs:779-816 | the loop over all observations collects for each class its coverage and its evidence in order |
| WorldCoordinator.Coordinator.Close | crates/reproit-sdk-rust/src/automatic_world.rs:661-704 | hands over the fence, the references and the whole transcript of the specification (WorldStory.ClosedIsTheDiary); total of the referenced artifacts by a checked sum |
| WorldCoordinator.DigestFile | crates/reproit-sdk-rust/src/automatic_world_artifacts.rs:213-237 | the buffered loop yields the digest of the whole content iff it has exactly the declared length |
| Semantics.ReadRecordExact | crates/reproit-sdk-rust/src/automatic_world_semantics.rs:112-135 | a record is read iff the bytes are exactly its canonical encoding, it is valid and within bounds |
| Semantics.RequestOkExact | crates/reproit-sdk-rust/src/automatic_world_semantics.rs:19-43 | a request is accepted iff it is the canonical encoding of a valid record of the session's class |
| Semantics.PairOkExact | crates/reproit-sdk-rust/src/automatic_world_semantics.rs:45-104 | a pair is accepted iff both halves are canonical encodings of valid records that fit together, with the reported outcome |
| WorldLaws.RunKeeps | crates/reproit-sdk-rust/src/automatic_world.rs:318-704 | every run, whatever storage, recorder and callers do, keeps the world invariant: slots, fates, evidence, numbering, files and counters |
| WorldLaws.StepKeeps | crates/reproit-sdk-rust/src/automatic_world.rs:318-704 | every single operation keeps it |
| WorldLaws.CloseCommitsEverySession | crates/reproit-sdk-rust/src/automatic_world.rs:661-704 | if a capture closes, every session ever opened was committed exactly once: each class's positions are exactly 0..n-1 and sessions and observations correspond one to one |
| WorldLaws.CloseNumbersEverything | crates/reproit-sdk-rust/src/automatic_world_artifacts.rs:29-123 | observations and interactions of a closed capture are numbered by their indices, every observation has an owner and every interaction belongs to exactly the dependency observations in order |
| WorldLaws.ReceiptsCoverEverySession | crates/reproit-sdk-rust/src/automatic_world.rs:779-816 | each class's closure receipt is its coverage and then, in commit order, the own evidence of every session the class opened, each exactly once |
| WorldLaws.FenceCountsAreTrue | crates/reproit-sdk-rust/src/automatic_world.rs:818-837 | dropped and overflowed are the true values, and the constant zero for unowned observations is true iff no mark was lost to storage or to the recorder |
| WorldLaws.LostMarkCloses | crates/reproit-sdk-rust/src/automatic_world.rs:601-704 | a run with a lost mark that closes with a zero count |
| WorldLaws.CommittedEvidenceMatchesFiles | crates/reproit-sdk-rust/src/automatic_world_artifacts.rs:29-163 | each committed session's evidence is bound to the exact request and response bytes, which its files still hold unless an identifier was opened twice |
| WorldLaws.KeptKeeps | crates/reproit-sdk-rust/src/automatic_world_artifacts.rs:29-81 | committing a session keeps the invariant |
| WorldLaws.OpenedKeeps | crates/reproit-sdk-rust/src/automatic_world.rs:350-381 | a session enters at the next position of its class |
| WorldLaws.Appends | crates/reproit-sdk-rust/src/automatic_world.rs:420-432 | counts and file lengths stay equal, or the world is incomplete |
| WorldLaws.SettledKeeps | crates/reproit-sdk-rust/src/automatic_world.rs:502-548 | a session may leave without an observation only in replay or into an incomplete world |
| WorldLaws.MarkUnownedKeeps | crates/reproit-sdk-rust/src/automatic_world.rs:601-659 | an unowned mark keeps the counters true |
| WorldLaws.EveryInteractionLinked | crates/reproit-sdk-rust/src/automatic_world_artifacts.rs:83-123 | with as many links as interactions, every interaction is linked |
| WorldLaws.RunKeepsMode | crates/reproit-sdk-rust/src/automatic_world.rs:223-249 | mode and first positions never change |
| WorldArtifacts.CheckpointIsSessions | crates/reproit-sdk-rust/src/automatic_world.rs:661-704 | the references that a close hands over, without stored evidence of lost marks, are those of the sessions that observed state, each once and in commit order |
| WorldArtifacts.StepLists | crates/reproit-sdk-rust/src/automatic_world_artifacts.rs:29-163 | every operation keeps the artifacts equal to those of the committed sessions, or the world incomplete |
| WorldArtifacts.StateEvidenceIsReferenced | crates/reproit-sdk-rust/src/automatic_world_artifacts.rs:124-163 | the evidence of every observation of state is the digest of one of those references |
| WorldStory.ClosedIsTheDiary | crates/reproit-sdk-rust/src/automatic_world.rs:661-704 | all that a closed capture hands over (counts, digest, owners of every class, receipts, references and transcript) is what the diary of the run prescribes: each session once, in commit order, with its own class, parent, position, bytes and outcome |
| WorldStory.ClosedLeavesNothingOpen | crates/reproit-sdk-rust/src/automatic_world.rs:661-704 | when a capture closes, the diary has no session left open |
| WorldStory.FinishReports | crates/reproit-sdk-rust/src/automatic_world_artifacts.rs:29-163 | a finish in capture adds one observation with the session's class and parent, the adapter registered for the class, and the digest of an interaction or of a reference with this very outcome, position and content of both files |
| WorldStory.EveryFinishStands | crates/reproit-sdk-rust/src/automatic_world_artifacts.rs:29-163 | in every run each finish that succeeded is still reported so at the end |
| WorldStory.OpenAnswers | crates/reproit-sdk-rust/src/automatic_world.rs:331-381 | an opening is accepted iff its class is registered, the identifier is free, there is room and both files are created; it answers with the number of sessions of the class so far |
| WorldStory.MarkReports | crates/reproit-sdk-rust/src/automatic_world.rs:601-659 | an unowned mark adds one observation without owner, over the digest of its evidence, which is spooled and referenced |
| WorldStory.StepAgrees | crates/reproit-sdk-rust/src/automatic_world.rs:318-704 | every operation keeps coordinator and diary in agreement or spoils the world |
| WorldStory.ReadIsNext | crates/reproit-sdk-rust/src/automatic_world.rs:481-500 | a read returns the next bytes of the recorded response, at least one while there are any, and says truly whether they were the last |
| WorldStory.ReplayReadsBack | crates/reproit-sdk-rust/src/automatic_world.rs:481-500 | however the reads are sized, together they return the recorded response up to the offset |
| WorldStory.DispatchReplays | crates/reproit-sdk-rust/src/automatic_world.rs:444-479 | a dispatch in replay makes exactly the recorded response the one that is read |
| WorldExamples.HonestCaptureCloses | crates/reproit-sdk-rust/src/automatic_world.rs:661-704 | for any plan of up to 1024 sessions of any class, parent, content and outcome there is a run whose capture closes and is recorded as planned |
| WorldAnswers.WriteVerdict | crates/reproit-sdk-rust/src/automatic_world.rs:383-432 | while nothing went wrong, a write is accepted iff the stream is open, chunk and file are within bounds and all of it is stored; otherwise the world is incomplete |
| WorldAnswers.DispatchVerdict | crates/reproit-sdk-rust/src/automatic_world.rs:444-479 | a dispatch is accepted iff the request is there and valid, and in replay its response is found and stored |
| WorldAnswers.FinishVerdict | crates/reproit-sdk-rust/src/automatic_world.rs:502-542 | a finish succeeds iff the response is complete, both files are not empty and a valid pair with this outcome at this position, and in capture it can be recorded; the session always leaves, and a refusal makes the world incomplete |
| WorldAnswers.MarkVerdict | crates/reproit-sdk-rust/src/automatic_world.rs:601-659 | when unowned evidence is recorded, and that exactly a lack of room is counted as a drop |
| WorldAnswers.CloseVerdict | crates/reproit-sdk-rust/src/automatic_world.rs:661-704 | a world closes iff nothing was dropped or went wrong, no session is open, every observation has an owner, all classes are registered and covered, and what is handed over fits and is accepted |
| EngineSession.RunInStep | crates/reproit-sdk-engine/src/observation.rs:48-246 | after every run each live semantic session of the engine holds the coordinator's spooled request, and its response or, in replay, the first `offset` bytes of it |
| EngineSession.StepInStep | crates/reproit-sdk-engine/src/observation.rs:48-246 | every call keeps engine and coordinator in step, also when either side fails |
| EngineSession.WriteInStep | crates/reproit-sdk-engine/src/observation.rs:90-131 | a write changes both sides alike or releases the handle |
| EngineSession.DispatchInStep | crates/reproit-sdk-engine/src/observation.rs:133-160 | same for a dispatch |
| EngineSession.ReadInStep | crates/reproit-sdk-engine/src/observation.rs:162-184 | a read appends to the buffer exactly the bytes by which the offset moves |
| EngineSession.FinishInStep | crates/reproit-sdk-engine/src/observation.rs:196-233 | a finish always takes the handle away |
| EngineSession.AbandonInStep | crates/reproit-sdk-engine/src/observation.rs:235-246 | an abandon keeps the others in step |
| EngineSession.InvalidateInStep | crates/reproit-sdk-engine/src/observation.rs:255-264 | giving one session up keeps the others in step |
| EngineSession.ValidatorsAgree | crates/reproit-sdk-rust/src/automatic_world_semantics.rs:45-82 | on a consumed response the engine's validation succeeds iff the coordinator's does |
| EngineSession.FinishMeansValidPair | crates/reproit-sdk-engine/src/observation.rs:196-233 | success means a fully consumed, canonical, valid pair on the spooled bytes with the reported outcome, and the returned record is the one those bytes encode |
| EngineSession.OpenDependencyInStep | crates/reproit-sdk-engine/src/semantic_dependency.rs:258-324 | opening a dependency keeps everything in step, whichever of its parts fails |
| EngineSession.FinishDependencyInStep | crates/reproit-sdk-engine/src/semantic_dependency.rs:326-425 | so does finishing one |
| EngineSession.RecordWritten | crates/reproit-sdk-engine/src/semantic_dependency.rs:432-443 | a record written in chunks adds exactly its bytes on both sides |
| EngineSession.FinishDependencyMeansValidPair | crates/reproit-sdk-engine/src/semantic_dependency.rs:326-425 | success in capture means that the coordinator's files hold the engine's request and response, a valid pair with the returned outcome; with a suffix-free encoding the cached record is the spooled one |
| EngineSession.ReplayFinishMeansValidPair | crates/reproit-sdk-engine/src/semantic_dependency.rs:326-425 | success in replay means that the recorded response was read to its end, the engine's buffers are the coordinator's files, and these are a valid pair with the returned outcome |
| EngineSession.RecordSpooled | crates/reproit-sdk-engine/src/semantic_dependency.rs:432-443 | a record written in full is appended to the coordinator's response file, and nothing else |
| EngineModes.BoundActionIsMode | crates/reproit-sdk-engine/src/semantic_dependency.rs:47-57 | in every run the action bound to a session is the mode of its coordinator, and it never changes |
| EngineModes.FinishFollowsMode | crates/reproit-sdk-engine/src/semantic_dependency.rs:59-68 | in every run a dependency is finished only with the caller's response in capture and only without one in replay |
| EngineSession.RawBytesAreRejected | crates/reproit-sdk-engine/src/semantic_dependency.rs:110-118 | a capture whose buffer already holds raw response bytes is never finished with a record of its own |
| EngineSession.FailedFinishReleases | crates/reproit-sdk-engine/src/semantic_dependency.rs:326-430 | a failed finish leaves no handle behind |
| EngineSession.ReplayFinishSucceedsIff | crates/reproit-sdk-engine/src/semantic_dependency.rs:326-425 | with a readable spool a replay finish succeeds iff the session is bound to replay and its position, the recorded response was read to its end and is a valid pair with the request |
| EngineOpening.OpenDependencyMeans | crates/reproit-sdk-engine/src/semantic_dependency.rs:258-324 | an opened dependency is a live handle on a dispatched session at the next position of its class with the given parent; its request file and buffer hold the canonical request, which was validated, and it is bound to that position and to the coordinator's mode |
| EngineOpening.FailedOpenDependency | crates/reproit-sdk-engine/src/semantic_dependency.rs:258-324 | a failed opening leaves no handle, and if the session had been opened it is gone and the world is incomplete |
| EngineOpening.FailedWriteGivesUp | crates/reproit-sdk-engine/src/observation.rs:90-131 | a failed write either changed nothing, for a chunk out of bounds, or the handle and its session are gone and the world is incomplete |
| EngineOpening.FailedDispatchGivesUp | crates/reproit-sdk-engine/src/observation.rs:133-160 | after a failed dispatch the handle and its session are gone and the world is incomplete |
| EngineVerdicts.WriteVerdict | crates/reproit-sdk-engine/src/observation.rs:90-131 | a dependency's write is accepted iff the coordinator accepts it and the record stays within its own bound |
| EngineVerdicts.DispatchVerdict | crates/reproit-sdk-engine/src/observation.rs:133-160 | a dispatch is accepted iff the coordinator accepts it: the engine's validation never disagrees |
| EngineVerdicts.FinishVerdict | crates/reproit-sdk-engine/src/observation.rs:196-233 | a finish is accepted iff the coordinator accepts it |
| EngineSession.SemanticDependencySession.Write | crates/reproit-sdk-engine/src/semantic_dependency.rs:120-142 | appends within the record bound, or refuses and keeps the buffers |
| EngineSession.SemanticDependencySession.Dispatch | crates/reproit-sdk-engine/src/semantic_dependency.rs:144-154 | accepts exactly a canonical, valid request of its class |
| EngineSession.SemanticDependencySession.ValidatedResponse | crates/reproit-sdk-engine/src/semantic_dependency.rs:167-180 | the cached record is the one the buffer encodes; asking again gives the same answer |
| EngineSession.SemanticDependencySession.Finish | crates/reproit-sdk-engine/src/semantic_dependency.rs:156-165 | returns the validated record iff it has the reported outcome |
| ObservationClient.ObservationSession.Write | sdks/dotnet/ReproIt.Sdk/ObservationSession.cs:197-223 | a chunk goes to the server only in a state in which the server accepts it; afterwards client and server agree on state and counts |
| ObservationClient.ObservationSession.Dispatch | sdks/dotnet/ReproIt.Sdk/ObservationSession.cs:114-136 | sent only if the server's session is requesting with a nonempty request; the client then follows the action |
| ObservationClient.ObservationSession.ReadResponse | sdks/dotnet/ReproIt.Sdk/ObservationSession.cs:138-161 | sent only if the server is replaying; the end is reported exactly when the server's is |
| ObservationClient.ObservationSession.Finish | sdks/dotnet/ReproIt.Sdk/ObservationSession.cs:163-187 | a finish that is sent is rejected by the server for a state reason iff the recorded response was empty |
| ObservationClient.ObservationSession.Abandon | sdks/dotnet/ReproIt.Sdk/ObservationSession.cs:189-195 | an abandon of an unfinished session finds it on the server |
| ObservationClient.AnyCalls | sdks/dotnet/ReproIt.Sdk/ObservationSession.cs:114-223 | whatever a client is asked to do, in any order: unless a recorded response is empty, no call is ever rejected for the server's state, and the end is taken as reached only when the server's offset is the response length |
| ObservationClient.OthersFollow | sdks/dotnet/ReproIt.Sdk/ObservationSession.cs:114-223 | a call of one client leaves every other client of the same server in agreement with it |
| ObservationClient.EmptyResponseCannotFinish | crates/reproit-sdk-rust/src/automatic_world.rs:502-534 | a run with an empty recorded response: it is read to its end, and the finish is rejected |
| ObservationClient.RejectionsAreErrors | crates/reproit-sdk-rust/src/automatic_world.rs:383-534 | the rejections that the client avoids are errors of the server's operations |
| ContextStack.NestingRestoresStack | crates/reproit-sdk-rust/src/automatic_context.rs:155-211 | every well-bracketed nesting of install and drop restores the stack exactly, whether its installs pushed or replaced |
| ContextStack.NestedDropIsSilent | crates/reproit-sdk-rust/src/automatic_context.rs:178-211 | in a nesting no drop invalidates anyone |
| ContextStack.StackStaysOk | crates/reproit-sdk-rust/src/automatic_context.rs:156-176 | the current stack is duplicate-free and at most 16 deep at every point of every nesting |
| ContextStack.MoveKeeps | crates/reproit-sdk-rust/src/automatic_context.rs:155-211 | also for installs and drops in any order |
| ContextStack.InstallKeeps | crates/reproit-sdk-rust/src/automatic_context.rs:156-176 | an install either makes the context current or invalidates its operation |
| ContextStack.MismatchIsFinal | crates/reproit-sdk-rust/src/automatic_context.rs:178-211 | after a drop that does not find the stack that its install left, no operation on the stack or of the guard ever passes `take_for_close`, whatever runs next |
| ContextStack.InstallVerdict | crates/reproit-sdk-rust/src/automatic_context.rs:156-176 | exactly an active context found nowhere below a stack of less than sixteen is pushed; any other replaces the stack and invalidates its own operation only |
| ContextStack.DropVerdict | crates/reproit-sdk-rust/src/automatic_context.rs:178-211 | a drop invalidates all operations involved in a mismatch and nobody else; what the stack is afterwards |
| ContextStack.TakenIffActive | crates/reproit-sdk-rust/src/automatic_context.rs:344-353 | after any program a close succeeds iff the operation was never invalidated and still has its coordinator, and concerns no other operation |
| ContextStack.InvalidNeverPasses | crates/reproit-sdk-rust/src/automatic_context.rs:344-353 | an operation that was ever invalidated never passes `take_for_close` |
| ContextStack.TakenAtMostOnce | crates/reproit-sdk-rust/src/automatic_context.rs:344-353 | an operation is taken for closing at most once |
| ContextStack.InvalidIsSticky | crates/reproit-sdk-rust/src/automatic_context.rs:447-453 | invalidity is sticky and coordinators never come back |
| ContextStack.Operation.TakeForClose | crates/reproit-sdk-rust/src/automatic_context.rs:344-353 | succeeds iff the coordinator is there and the operation was never invalidated |
| ContextStack.Operation.OpenAmbientSession | crates/reproit-sdk-rust/src/automatic_context.rs:362-388 | identifiers are consecutive from the upper half; one too many invalidates the operation |
| ContextStack.OperationStack.InstallContext | crates/reproit-sdk-rust/src/automatic_context.rs:156-176 | the stack object does what the specification function says, and invalidates exactly whom it says |
| ContextStack.OperationStack.DropContext | crates/reproit-sdk-rust/src/automatic_context.rs:178-211 | same for a drop |
| ContextStack.OperationStack.RequireCurrent | crates/reproit-sdk-rust/src/automatic_context.rs:103-122 | passes iff the context is on top and active; otherwise both sides are invalid |
| Registry.Registry.AllocateHandle | crates/reproit-sdk-engine/src/lib.rs:271-275 | a handle is never reused, of whatever kind, and the last one is never given out |
| Registry.Registry.OpenEngine | crates/reproit-sdk-engine/src/lib.rs:444-478 | opens iff fewer than 64 engines are open, the configuration is accepted and a handle is left; the forest holds |
| Registry.Registry.CloseEngine | crates/reproit-sdk-engine/src/lib.rs:480-499 | removes exactly what the engine transitively owns, cancels exactly the failure tasks of its sinks and consumes exactly its operations |
| Registry.Registry.BeginOperation | crates/reproit-sdk-engine/src/lib.rs:501-530 | begins iff the engine lives, fewer than 512 operations are active and a handle is left |
| Registry.Registry.OpenObservation | crates/reproit-sdk-engine/src/observation.rs:48-75 | opens iff the operation lives and fewer than 1024 observations are open |
| Registry.Registry.RemoveObservation | crates/reproit-sdk-engine/src/observation.rs:255-264 | removes exactly this observation |
| Registry.Registry.SucceedOperation | crates/reproit-sdk-engine/src/lib.rs:422-431 | ends a live operation once, with its observations |
| Registry.Registry.AbandonOperation | crates/reproit-sdk-engine/src/lib.rs:433-442 | same, as abandoned |
| Registry.Registry.FailOperation | crates/reproit-sdk-engine/src/lib.rs:569-592 | a live operation is consumed exactly once: moved into one new sink iff there is room, the token is right and a handle is left, otherwise abandoned |
| Registry.Registry.RemoveSinkIfSame | crates/reproit-sdk-engine/src/lib.rs:738-747 | removes the sink iff it still belongs to this failure task |
| Registry.WithoutKeeps | crates/reproit-sdk-engine/src/lib.rs:754-806 | what remains after closing an engine is a forest again |
| Registry.WithoutIs | crates/reproit-sdk-engine/src/lib.rs:754-806 | the three removal passes remove exactly what lies under the engine |
| Registry.CounterRises | crates/reproit-sdk-engine/src/lib.rs:271-275 | the next handle is unused by every kind |
| Registry.OneRoot | crates/reproit-sdk-engine/src/lib.rs:480-499 | no handle is under two engines |
| Registry.OtherTreesStay | crates/reproit-sdk-engine/src/lib.rs:480-499 | closing one engine leaves the trees of the others alone |
| FailureTask.StepKeeps | crates/reproit-sdk-engine/src/failure_delivery.rs:120-220 | every step of enqueuers, cancellers, worker and waiters keeps the failure-task protocol |
| FailureTask.RunKeeps | crates/reproit-sdk-engine/src/failure_delivery.rs:120-220 | so it holds after every interleaving |
| FailureTask.JobsEndOnce | crates/reproit-sdk-engine/src/failure_delivery.rs:120-159 | a job is run or dropped at most once, and has been iff its task is no longer pending; a pending task is still carried by someone |
| FailureTask.QuietMeansSettled | crates/reproit-sdk-engine/src/failure_delivery.rs:194-220 | when nothing moves any more, every job was run or dropped exactly once and its task is settled |
| FailureTask.CancelledStays | crates/reproit-sdk-engine/src/failure_delivery.rs:120-145 | Cancelled is absorbing in every run |
| FailureTask.IdleOnlyIfReady | crates/reproit-sdk-engine/src/failure_delivery.rs:161-191 | a wait answers true only for a task that was Ready |
| FailureTask.RejectedLeavesNoSink | crates/reproit-sdk-engine/src/failure_delivery.rs:237-256 | after an enqueue rejected for a full queue or for an unavailable worker no sink names the failure task, it is cancelled and the worker never gets it |
| FailureStory.StatesAreTrue | crates/reproit-sdk-engine/src/failure_delivery.rs:120-159 | in every run a task is Cancelled iff somebody cancelled it; otherwise Ready iff its job ended well and Failed iff it ended badly |
| FailureStory.JobsInOrder | crates/reproit-sdk-engine/src/failure_delivery.rs:237-256 | jobs reach the worker in the order of their acceptance, and at most sixteen wait |
| FailureStory.SendVerdict | crates/reproit-sdk-engine/src/failure_delivery.rs:237-256 | a job is accepted iff the worker is there and fewer than sixteen wait |
| FailureStory.ListedUntilSettled | crates/reproit-sdk-engine/src/lib.rs:738-747 | in every run a sink names its task until its engine closes, its enqueue is rejected, or a wait has answered true or with the error of the job |
| FailureStory.WaitsAreTrue | crates/reproit-sdk-engine/src/failure_delivery.rs:161-191 | in every run a wait answers as the steps entitle it to: an error for no sink, a failed or a cancelled job, true for a job that ended well and an idle sink, false otherwise |
| FailureTask.TakeJob | crates/reproit-sdk-engine/src/failure_delivery.rs:151-159 | the worker gets a job iff the failure task is pending with one |
| FailureTask.WaitUntilIdle | crates/reproit-sdk-engine/src/failure_delivery.rs:161-191 | the answer is decided by the first settled state it meets before the deadline |
| FailureTask.FailureTaskCell.CancelTask | crates/reproit-sdk-engine/src/failure_delivery.rs:120-125 | the cell object does what the specification says |
| FailureTask.FailureTaskCell.TakeTaskJob | crates/reproit-sdk-engine/src/failure_delivery.rs:151-159 | same |
| FailureTask.FailureTaskCell.CompleteTask | crates/reproit-sdk-engine/src/failure_delivery.rs:134-145 | a result is stored only into a running task |
| Sentinel.OneCandidateIffSoleOwner | crates/reproit-sdk-sentinel/src/sentinel.rs:120-151 | the controller finds one owner iff exactly one dispatched observation on the thread matches, where exact class owners shadow transitive ones |
| Sentinel.Controller.ApplyEvent | crates/reproit-sdk-sentinel/src/sentinel.rs:120-158 | counters stay an exact account of the history after every event, whose owners are those of SentinelOwners.SoleOwnerIs |
| Sentinel.Controller.Drain | crates/reproit-sdk-sentinel/src/sentinel.rs:93-118 | all events that arrived are applied in order, batch by batch, and ill health is recorded |
| Sentinel.Controller.OperationStarted | crates/reproit-sdk-sentinel/src/sentinel.rs:166-184 | an operation starts its account after the drain; beyond the limit every account becomes incomplete |
| Sentinel.Controller.OperationFinished | crates/reproit-sdk-sentinel/src/sentinel.rs:186-199 | the coverage is the verdict of the history since the start |
| Sentinel.Controller.OperationRemoved | crates/reproit-sdk-sentinel/src/sentinel.rs:201-206 | drains and forgets the operation with its observations |
| Sentinel.Controller.ObservationOpened | crates/reproit-sdk-sentinel/src/sentinel.rs:278-298 | opens undispatched, or marks everyone incomplete at the limit |
| Sentinel.Controller.ObservationDispatched | crates/reproit-sdk-sentinel/src/sentinel.rs:300-310 | earlier events are drained first, then the observation owns its thread |
| Sentinel.Controller.ObservationFinished | crates/reproit-sdk-sentinel/src/sentinel.rs:312-322 | an unknown observation marks everyone incomplete |
| Sentinel.Controller.EngineClosed | crates/reproit-sdk-sentinel/src/sentinel.rs:237-250 | closing the last engine forgets everything |
| Sentinel.ResultIsVerdict | crates/reproit-sdk-sentinel/src/sentinel.rs:337-356 | the counters tell exactly what the history tells, below saturation and at it; owned never exceeds relevant |
| Sentinel.CleanAccountsForAll | crates/reproit-sdk-sentinel/src/sentinel.rs:337-356 | a clean result means that every event other than Exit in the operation's lifetime had exactly one matching dispatched observation on its thread |
| Sentinel.CleanMissesNoEffect | crates/reproit-sdk-sentinel/src/sentinel.rs:337-356 | over a drained channel a clean verdict means that every effect the tracer was asked to emit in the lifetime is in the log under its own number and has a sole owner |
| Sentinel.EventsAreConserved | crates/reproit-sdk-sentinel/src/sentinel.rs:120-158 | the events attributed to all operations and those attributed to none add up to all events other than Exit: nothing is counted twice or lost |
| Sentinel.OneOperation | crates/reproit-sdk-sentinel/src/sentinel.rs:146-151 | no event is attributed to two operations |
| Sentinel.IncompleteIsSticky | crates/reproit-sdk-sentinel/src/sentinel.rs:160-164 | once incomplete, an operation stays incomplete |
| Sentinel.ExactIsOwned | crates/reproit-sdk-sentinel/src/sentinel_linux.rs:53-99 | an exact owner of an event kind is also an owner of it |
| SentinelOwners.OwnershipTable | crates/reproit-sdk-sentinel/src/sentinel_linux.rs:53-99 | the dependency classes own exactly file system, network, clock and randomness; any other class owns its own kind or none |
| SentinelOwners.SoleOwnerIs | crates/reproit-sdk-sentinel/src/sentinel.rs:120-151 | an event has a sole owner iff its thread has exactly one dispatched observation of that kind, or none and exactly one dependency |
| SentinelOwners.LoneDependencyOwns | crates/reproit-sdk-sentinel/src/sentinel.rs:120-158 | an effect beside one dispatched dependency, and no observation of its kind, belongs to the operation of that dependency |
| SentinelOwners.LoneDependencyKeepsClean | crates/reproit-sdk-sentinel/src/sentinel.rs:120-164 | such an effect makes no operation incomplete and counts as owned by that operation alone |
| SentinelOwners.CleanNamesOwners | crates/reproit-sdk-sentinel/src/sentinel.rs:337-356 | a clean coverage names for every event of the lifetime the one observation that owns it |
| SentinelOwners.CleanExcludesNetwork | crates/reproit-sdk-sentinel/src/sentinel.rs:337-356 | a clean coverage excludes network effects on a thread without a dispatched database, HTTP or queue observation |
| SentinelOwners.CoverageExcludesNetwork | crates/reproit-sdk-sentinel/src/sentinel.rs:186-199 | the same of the controller object, whatever it was told before |
| SentinelOwners.DrainTellsAll | crates/reproit-sdk-sentinel/src/sentinel.rs:93-118 | a drain is recorded event by event in order, and is clean iff the runtime is healthy and every event is owned |
| SentinelOwners.UnhealthyNeverClean | crates/reproit-sdk-sentinel/src/sentinel.rs:93-118 | an unhealthy drain anywhere in a lifetime leaves no clean coverage |
| IgnoreTable.StepKeeps | crates/reproit-sdk-sentinel/src/sentinel_linux.rs:326-352 | every atomic instruction of every thread and of the tracer keeps the table invariant |
| IgnoreTable.SlotsAreExclusive | crates/reproit-sdk-sentinel/src/sentinel_linux.rs:326-352 | each nonzero thread id is in at most one slot at every instant, and the underflow branch of a guard's drop is unreachable |
| IgnoreTable.DepthCountsGuards | crates/reproit-sdk-sentinel/src/sentinel_linux.rs:183-193 | a slot's depth is the number of that thread's live guards, all of them on that slot |
| IgnoreTable.GuardedHasSlot | crates/reproit-sdk-sentinel/src/sentinel_linux.rs:326-352 | a thread with a guard has a slot |
| IgnoreTable.VerdictIsExact | crates/reproit-sdk-sentinel/src/sentinel_linux.rs:706-713 | `is_ignored` for a stopped thread is true iff it holds a guard, whatever other threads did during the scan |
| IgnoreTable.StoppedKeepsGuards | crates/reproit-sdk-sentinel/src/sentinel_linux.rs:706-713 | a stopped thread's guards stay as they are until it resumes |
| IgnoreTable.RunKeeps | crates/reproit-sdk-sentinel/src/sentinel_linux.rs:326-352 | the table invariant holds after every interleaving |
| IgnoreStory.FlaggedIffDenied | crates/reproit-sdk-sentinel/src/sentinel_linux.rs:326-352 | in every run each request for a guard got one, is under way or was denied, and the overflow flag is set iff one was denied |
| IgnoreStory.DeniedAfterAll | crates/reproit-sdk-sentinel/src/sentinel_linux.rs:326-352 | a request is denied only after it met each of the 64 slots taken |
| EventChannel.StepKeeps | crates/reproit-sdk-sentinel/src/sentinel_linux.rs:673-704 | every instruction of `emit_event` and `drain` keeps the channel invariant |
| EventChannel.RunKeeps | crates/reproit-sdk-sentinel/src/sentinel_linux.rs:288-313 | so it holds after every interleaving |
| EventChannel.PipeIsBounded | crates/reproit-sdk-sentinel/src/sentinel_linux.rs:673-704 | the pipe never holds more events than are counted, at most 65,536 bytes, and has room whenever a write starts |
| EventChannel.CountersNeverWrap | crates/reproit-sdk-sentinel/src/sentinel_linux.rs:288-313 | the counter of queued events never underflows and no counter wraps |
| EventChannel.DrainedIsGapFree | crates/reproit-sdk-sentinel/src/sentinel_linux.rs:288-313 | what was drained is a gap-free prefix of what was written, numbered from 1 |
| EventChannel.HealthyIsComplete | crates/reproit-sdk-sentinel/src/sentinel_linux.rs:673-704 | without the overflow flag the numbers 1..sequence are exactly all emitted effects in order |
| EventChannel.LossIsFlagged | crates/reproit-sdk-sentinel/src/sentinel_linux.rs:673-704 | a missing effect implies the flag |
| EventChannel.FlagIsSticky | crates/reproit-sdk-sentinel/src/sentinel_linux.rs:315-320 | the flag is never cleared |
| EventChannel.FlaggedIffLost | crates/reproit-sdk-sentinel/src/sentinel_linux.rs:673-704 | at rest, and unless someone else sets the flag, it is set iff an effect that the tracer was asked to emit was not written |
| EventChannel.RoomDecides | crates/reproit-sdk-sentinel/src/sentinel_linux.rs:673-704 | an effect is numbered iff fewer than 4096 events are in the pipe or being drained |
| TracedThreads.ThreadArray.Add | crates/reproit-sdk-sentinel/src/sentinel_linux.rs:715-725 | true iff the thread is traced afterwards; the set gains exactly this thread |
| TracedThreads.ThreadArray.Remove | crates/reproit-sdk-sentinel/src/sentinel_linux.rs:727-735 | the set loses exactly this thread; the array stays distinct with cleared slots behind it |
| TracedThreads.ThreadArray.Position | crates/reproit-sdk-sentinel/src/sentinel_linux.rs:715-735 | finds the thread iff it is traced |
| IdentityFiles.RunKeeps | crates/reproit-sdk-rust/src/managed_identity.rs:277-324 | every interleaving of processes, crashes and power losses keeps the file protocol |
| IdentityFiles.StepKeeps | crates/reproit-sdk-rust/src/managed_identity.rs:277-324 | every file-system call of every process keeps it |
| IdentityFiles.Agreement | crates/reproit-sdk-rust/src/managed_identity.rs:188-203 | all processes that succeed got the same bytes, which are one process's whole proposal and what the target holds; across a power loss, all that flushed the directory |
| IdentityFiles.TargetIsComplete | crates/reproit-sdk-rust/src/managed_identity.rs:297-324 | the target, once present, holds one process's whole proposal, of an accepted size |
| IdentityFiles.TargetIsImmutable | crates/reproit-sdk-rust/src/managed_identity.rs:297-324 | no later step replaces or changes the target, unless a power loss drops an entry that was never flushed |
| IdentityFiles.SmoothProcessAnswers | crates/reproit-sdk-rust/src/managed_identity.rs:277-324 | a process none of whose calls fails ends with the bytes of the target, also when it lost the race for the link, unless the stored file has a size that it does not accept |
| IdentityFiles.FailureIsNoticed | crates/reproit-sdk-rust/src/managed_identity.rs:277-324 | a failing call at any point makes the process give up |
| IdentityFiles.FailedNeverAnswers | crates/reproit-sdk-rust/src/managed_identity.rs:277-324 | a process that met a failed call never answers, however the run goes on |
| IdentityFiles.AnswerLeavesNoFile | crates/reproit-sdk-rust/src/managed_identity.rs:297-324 | a process that answers has left no temporary file behind |
| IdentityFiles.CleanupRemoves | crates/reproit-sdk-rust/src/managed_identity.rs:291-294 | the error path removes the temporary file unless that fails too |
| IdentityProgress.EveryProcessEnds | crates/reproit-sdk-rust/src/managed_identity.rs:188-324 | whatever the others do, a process makes at most as many calls as its proposal and the largest file it accepts have bytes, and eleven; then it has ended |
| IdentityFiles.SignedAtAgreement | crates/reproit-sdk-rust/src/managed_identity.rs:106-138 | all successful callers get one time of signing, and a scope mismatch occurs iff the stored binding is another one |
| IdentityFiles.ReceiptAgreement | crates/reproit-sdk-rust/src/managed_identity.rs:156-185 | a receipt is accepted iff it is the one stored first |
| IdentityFiles.StoredParses | crates/reproit-sdk-rust/src/managed_identity.rs:378-419 | a stored value is never reported as corrupt |
| IdentityFiles.UnsyncedReaderCanBeContradicted | crates/reproit-sdk-rust/src/managed_identity.rs:341-356 | a run in which a reader that did not flush is contradicted after a power loss |
| IdentityFiles.RepeatedNameBreaksAgreement | crates/reproit-sdk-rust/src/managed_identity.rs:277-295 | a run in which a repeated temporary name makes two processes disagree |
| CanonicalJson.Bytes | sdks/dotnet/ReproIt.Sdk/CanonicalJson.cs:20-25 | fails iff the value is not encodable; otherwise a parser recovers the value from the bytes |
| CanonicalJson.ParseRecovers | sdks/dotnet/ReproIt.Sdk/CanonicalJson.cs:20-72 | parse(Bytes(v)) = v up to property order and integer spelling |
| CanonicalJson.SameBytesIffEquivalent | sdks/dotnet/ReproIt.Sdk/CanonicalJson.cs:20-72 | two values have the same bytes iff they are equal up to property order |
| CanonicalJson.InsertionOrderIsIrrelevant | sdks/dotnet/ReproIt.Sdk/CanonicalJson.cs:34-50 | all insertion orders of the same properties have the same bytes |
| CanonicalJson.SucceedsIffEncodable | sdks/dotnet/ReproIt.Sdk/CanonicalJson.cs:27-102 | the writer succeeds iff all numbers are 64-bit integers and all text is well-formed UTF-16 |
| CanonicalJson.RoundTrip | sdks/dotnet/ReproIt.Sdk/CanonicalJson.cs:27-148 | the parser reads back what was written, whatever follows it |
| CanonicalJson.OrderAscends | sdks/dotnet/ReproIt.Sdk/CanonicalJson.cs:34-50 | the ordinal sort of distinct names is strictly ascending |
| CanonicalJson.AscendingUnique | sdks/dotnet/ReproIt.Sdk/CanonicalJson.cs:34-50 | a set of properties has one ascending order |
| CanonicalJson.LessIsOrdinal | sdks/dotnet/ReproIt.Sdk/CanonicalJson.cs:34-50 | names are ordered at the first unit in which they differ, and a proper prefix comes first |
| CanonicalJson.ErrorHasCause | sdks/dotnet/ReproIt.Sdk/CanonicalJson.cs:27-102 | an invalid number is reported only for a value with a number that is not a 64-bit integer, unsupported text only for one with a lone surrogate |
| CanonicalJson.WriteString | sdks/dotnet/ReproIt.Sdk/CanonicalJson.cs:104-148 | the loop that flushes runs equals escaping each character by itself, in its shortest spelling (CanonicalText.BodyIsShortest), followed by UTF-8; it fails iff the text has a lone surrogate |
| CanonicalJson.WriteRaw | sdks/dotnet/ReproIt.Sdk/CanonicalJson.cs:150-164 | appends the UTF-8 of a slice, or fails iff it is not well formed |
| CanonicalJson.WriteValue | sdks/dotnet/ReproIt.Sdk/CanonicalJson.cs:74-102 | appends the canonical bytes of a scalar, or its error |
| CanonicalJson.WriteArray | sdks/dotnet/ReproIt.Sdk/CanonicalJson.cs:51-64 | appends the canonical bytes of an array, or the first error |
| CanonicalJson.WriteObject | sdks/dotnet/ReproIt.Sdk/CanonicalJson.cs:34-50 | appends the canonical bytes of an object with sorted names, or the first error |
| CanonicalJson.Write | sdks/dotnet/ReproIt.Sdk/CanonicalJson.cs:27-72 | appends the canonical bytes of any value, or its first error |
| CanonicalJson.RunThenEscape | sdks/dotnet/ReproIt.Sdk/CanonicalJson.cs:104-148 | a run of plain characters and an escape may be written separately |
| CanonicalText.BodyRoundTrip | sdks/dotnet/ReproIt.Sdk/CanonicalJson.cs:104-148 | decoding inverts escaping and UTF-8 for all well-formed text |
| CanonicalText.BodySplit | sdks/dotnet/ReproIt.Sdk/CanonicalJson.cs:104-148 | text may be encoded in parts wherever no surrogate pair is cut |
| CanonicalText.BodyIsUtf8 | sdks/dotnet/ReproIt.Sdk/CanonicalJson.cs:150-164 | text without characters to escape is plain UTF-8 |
| CanonicalText.DecimalRoundTrip | sdks/dotnet/ReproIt.Sdk/CanonicalJson.cs:87-97 | every 64-bit integer is read back from its decimal text |
| CanonicalText.ChunkIsShortest | sdks/dotnet/ReproIt.Sdk/CanonicalJson.cs:104-148 | no spelling of a character that RFC 8259 allows is shorter than the one written |
| CanonicalText.PlainIsRaw | sdks/dotnet/ReproIt.Sdk/CanonicalJson.cs:104-148 | a character stays raw whenever section 7 of RFC 8259 lets it: all but controls, quotation mark and backslash |
| CanonicalText.BodyIsShortest | sdks/dotnet/ReproIt.Sdk/CanonicalJson.cs:104-148 | whatever byte sequence decodes to the text of a string is at least as long as the one written |
| CanonicalText.DecimalIsShortest | sdks/dotnet/ReproIt.Sdk/CanonicalJson.cs:87-97 | no decimal text of an integer is shorter than the one written |
| Upload.UploadMissing | crates/reproit-sdk-rust/src/managed.rs:541-597 | ends within ceil(n/100)+1 pages; succeeds iff the pages come to an end within that bound, announce only this candidate's objects, each once, and every one is delivered |
| Upload.UploadPage | crates/reproit-sdk-rust/src/managed.rs:564-585 | a page is done iff each of its objects is delivered; batches of eight in order: what is tried ends with the batch of the first failure, and all of that batch is tried |
| Upload.AdmitPage | crates/reproit-sdk-rust/src/managed.rs:553-563 | a page is admitted iff it is not too long and every object is this candidate's and was never announced before |
| Upload.UploadWithBound | crates/reproit-sdk-rust/src/managed.rs:643-666 | at most five attempts; accepted iff one is accepted with only retryable answers before it |
| Upload.UploadMissingObject | crates/reproit-sdk-rust/src/managed.rs:600-611 | an unreadable ciphertext is not sent at all |
| Upload.HonestCompletes | crates/reproit-sdk-rust/src/managed.rs:541-597 | a server with full pages that announces each missing object once always completes |
| Upload.AnnouncesNoMore | crates/reproit-sdk-rust/src/managed.rs:551-563 | a complete upload never announces more than the candidate's objects |
| Upload.BoundIsReached | crates/reproit-sdk-rust/src/managed.rs:541-551 | for every number of objects there is a server whose upload completes on exactly the last page allowed |
| Upload.Stuck | crates/reproit-sdk-rust/src/managed.rs:541-597 | where one page cannot be processed, no number of pages completes the upload |
| Upload.Upload | crates/reproit-sdk-rust/src/managed.rs:385-479 | which calls are made and what is returned for each server state, answer and remaining time, in the unbounded and the bounded variant |
| Upload.CommitIsOurs | crates/reproit-sdk-rust/src/managed.rs:385-479 | outside the shortcut a commit is asked for only after a complete upload, and an accepted one has this candidate's identity |
| Upload.CommittedShortcut | crates/reproit-sdk-rust/src/managed.rs:426-440 | in state Committed a foreign commit is returned |
| SubjectCopy.CopyFile | crates/reproit-sdk-rust/src/subject.rs:488-514 | for every sizing of the reads the target is the whole file, the marker flag is true iff a marker occurs anywhere, and a file of another length is refused |
| SubjectCopy.WindowSuffices | crates/reproit-sdk-rust/src/subject.rs:509-513 | an occurrence that ends in a new chunk lies within the chunk and the 32 bytes before it |
| SubjectCopy.MarkerWindow | crates/reproit-sdk-rust/src/subject.rs:509-513 | so checking the window finds every marker |
| SubjectCopy.ContainsDwarfMarker | crates/reproit-sdk-rust/src/subject.rs:919-927 | finds a marker iff one occurs |
| RequestResponse.Classification.RecordBodyChunk | crates/reproit-sdk-rust/src/request_response.rs:85-99 | after every chunk the classifier is armed iff the body so far is a prefix of the expected one |
| RequestResponse.Classification.Finish | crates/reproit-sdk-rust/src/request_response.rs:101-107 | fires iff the status matched and the concatenated body is the expected one |
| RequestResponse.Operation.RecordInputChunk | crates/reproit-sdk-rust/src/request_response.rs:157-165 | succeeds iff at most 1024 records are needed and all are accepted; the records concatenate to the body, all but the last of a chunk are full, the stored indices are 0..n-1; a failure abandons the operation |
| RequestResponse.Operation.FinishInput | crates/reproit-sdk-rust/src/request_response.rs:167-177 | an empty body is recorded as one empty input |
| RequestResponse.Operation.BeginResponse | crates/reproit-sdk-rust/src/request_response.rs:184-219 | starts the classifier iff the input is complete and the headers are within bounds |
| RequestResponse.Operation.RecordResponseChunk | crates/reproit-sdk-rust/src/request_response.rs:221-230 | the classifier sees every chunk of the body in order |
| RequestResponse.Operation.FinishResponse | crates/reproit-sdk-rust/src/request_response.rs:232-244 | the operation is consumed once, as failed iff the classifier fires |
| RequestResponse.Operation.Abandon | crates/reproit-sdk-rust/src/request_response.rs:246-251 | an operation is consumed at most once |
| EncryptedObject.EncryptObject | crates/reproit-sdk-rust/src/managed.rs:1038-1106 | the chunks are exactly the source, their sizes sum to the plain size, all but the last are full, and `remaining` ends at zero; it succeeds iff size, digest and chunk count are as declared |
| EncryptedObject.ChunkCountFits | crates/reproit-sdk-rust/src/managed.rs:1046-1054 | the planned number of chunks is exactly enough |

## Left out

- TLS, HTTP and DNS, the Axum body plumbing, the native ABI and the P/Invoke bridge, process control.
- The ptrace loop of the tracer and the system-call number tables; events enter as effects of a thread.
- Ed25519, AES-GCM, HKDF and SHA-256: digests are injective constructors, ciphertext is the chunk itself.
- The schemas of reproit_core, reproit_backend and reproit_cloud_api: codecs are abstract functions with a
  stated round trip, validators are inputs, and object identifiers, timestamps and URIs beyond their
  distinguishing parts do not appear.
- `capture_ambient` and its encoding of the process environment; its sessions are ordinary sessions of
  `World`, except that an environment beyond its bounds also counts as a drop.
- The lookup of a recorded response in replay: the response, or its absence, is an input of a dispatch.
- Campaign contexts, discovery sources and the comparison of the payload's context with the caller's in
  `Sdk::begin`; the processing mode of a deployment.
- Deadlines and clocks other than the storm gate's: whether a deadline has passed is an input of each step.
- SinkQueue, FailureTask, IgnoreTable, EventChannel and IdentityFiles as methods: other threads and processes
  run between any two of their instructions, so each instruction is a step on a value; aliasing of the shared
  memory does not appear.
- Liveness: nothing says that a worker runs or that a wait ends before its timeout.
- File permissions, owner checks and state-root paths; on Windows the directory flush does nothing, so only
  the statements without power loss apply there.
- The check that a subject file did not change version while it was copied, and the naming and packaging of
  subject objects.
- The registration of observation adapters and the validation of adapter implementations.
- StormGate: `u64` wrap-around of the clock in milliseconds; time is nondecreasing, as `Instant` promises.
- SinkQueue.StepKeeps: a capture identifier enters one sink once, because identifiers are random; entries of
  other sinks and recorders change at any time.
- CaptureLaws.StepKeeps: a capture identifier belongs to one failing operation, because identifiers are random;
  sinks other than recorders may claim any capture that the ledger has room for.
- CaptureSdk.Sdk.Send: the sink of the class is a local recorder; Sdks over other sinks are in CaptureRuns only.
- EventChannel.CountersNeverWrap: one tracer emits events one after another, as its single-threaded loop does.
- IgnoreTable.DepthCountsGuards: a guard is dropped on the thread that made it, as its type enforces, and a
  thread has fewer than 2^64 guards.
- ContextStack: `AutomaticOperationContext::current` with an empty stack, which invalidates all registered
  operations, and the registration table it uses.
- WorldLaws.CommittedEvidenceMatchesFiles: what a file holds after its session identifier was opened a second
  time, because the second session empties it.
- RequestResponse.Operation.FinishResponse: the error that the failing operation itself may return.
