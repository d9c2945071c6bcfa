# gopls-lazy in Dafny

gopls-lazy sits between an editor and gopls, keeps gopls's workspace narrow, and
widens it just before a request needs more. This project models the parts of it
that have to be right under every interleaving, and the algorithms they rely on,
and proves what each promises.

Five pieces are modelled.

* **The generation barrier and held requests** (`ScopeState`, `Proxy`, `ProxySystem`
  and the proofs `BarrierProofs`, `RequestProofs`, `ScopeProofs`, `HeldProofs`,
  `ParkProofs`, `TimerProofs`, `ProgressProofs`, `WireProofs`). `ScopeState` gives each
  critical section of `p.mu` as a function on the state that lock guards; the class
  `Proxy` performs them on mutable fields and is proved equal to those functions.
  `ProxySystem` is a step system with one step for each critical section and one for
  each write to gopls. The client pump, the server pump, `pushScope` callers, the
  eviction loop, waiting goroutines and fallback timers take steps in any order, and
  the theorems are about every state any run reaches, about what a run's steps alone
  bring about, and about what can still happen from any reachable state.
* **The worker process** (`Worker`, `WorkerSystem`, `WorkerProofs`, `ServiceProofs`,
  `MirrorProofs`, `SnapshotProofs`), in the same two layers: the class `WorkerHandle`,
  and a step system over `h.mu`'s critical sections with the process's documents on
  the other side. The replay under `h.mu` is several steps, so the client pump can
  track an edit between any two of them.
* **Document text and framing** (`Utf8`, `Utf16`, `Documents`, `Framing`), on bytes, with
  Go's decoding of invalid UTF-8, against the encodings of the Unicode standard.
* **The reverse-import index and scope units** (`Paths`, `ModRoot`, `ScopeUnits`,
  `RevIndex`, `UnitAgreement`), joined to the barrier in `References`: from the imports
  ever indexed to the filters gopls has when a reference is forwarded.
* **The package-graph cache** (`CacheKey`, `RootRewrite`, `GraphCache`, `GraphSystem`,
  `GraphProofs`, `AnswerProofs`, `FlightProofs`, `GraphRaces`).

Bookkeeping in the step systems (the filters last written, confirmed and unconfirmed
generations, surviving units, replayed generations, reservations ever taken, messages
sent, marks) is carried in ordinary fields that no step reads to decide what to do.

## Where the code and its documentation differ

The model follows the code.

* `byteOffsetForUTF16Position` rejects a column past the end of a line and ends lines
  only at `\n` (documents.go:110-144). Section "Position" of the Language Server
  Protocol 3.17 clamps the column and knows two more line ends.
* `workerHandle.holds` is documented to protect a worker from eviction (worker.go:58),
  but `evictIfIdle` gives up `h.mu` before `shutdown` takes it again (worker.go:443-450):
  `OvertakenEvictionStopsHeldWorker` shows a held worker stopped,
  `SupersededEvictionStopsNextWorker` a later generation than the documented current
  one, `UnovertakenEvictionIsIdle` and `EvictionStopsCurrentGeneration` exactly when
  each cannot happen.
* A worker's snapshot takes in the documents of modules nested in its own, whose later
  notifications go to the owning worker only (worker.go:481-512, proxy.go:163-187):
  `MirrorConverges` is about a worker's own documents, `ForeignDocumentGoesStale` shows
  the others it is given, and `OutsideDocumentsStayClosed` settles the rest.
* A configuration answer that is not a non-empty array carries no filters, yet its
  generation is applied (proxy.go:304-305, proxy.go:680-684):
  `UnusableAnswerReleasesTooEarly`. The barrier theorems therefore speak of confirmed
  generations; `ReachedReferenceIsConfirmed` says which reached ones are not.
* A held reference is documented to see at least the scope of its generation
  (resolve.go:178-185). `ensureUnitsLocked` does not renew the activity of entries it
  finds, so the eviction loop can take them back meanwhile: `EvictedUnitIsMissing`.
  `CrossReferenceIsCovered` covers every unit that was not evicted.
* `answerNestedSlot` serves what the slot holds after its own build, whoever built it
  (graph.go:802-811): `NestedMissMayServeOtherFlags`, and `MissServesItsOwnByKey` for
  exactly when the flags agree.
* A rebuild timer or a revalidation that falls into a build is dropped, whether or not
  that build has seen the change, and the build then clears the stale mark
  (graph.go:330-333, graph.go:952, graph.go:1022-1027): `DroppedMarkLooksFresh`. A mark
  made during a slot's first build is ignored (graph.go:1012-1014), and the graph then
  stored is called fresh: `FirstBuildMarkLooksFresh`. `MarksAreFollowedUp` says exactly
  which marks have no rebuild or later build to come.
* A module lookup that straddles a go.mod change stores a stale answer after the
  invalidation (modroot.go:28-46): `StraddlingLookupIsStale`, and
  `UndisturbedAnswersAreExact` for every run without one.
* `canonicalKey` is documented to be collision-free for any non-empty pattern list
  (graph.go:161-164); an empty pattern in it breaks that (`EmptyPatternCollides`);
  for patterns and flags without NULs nothing else does (`CanonicalKeyIsInjective`).

## Model

| member | source | states |
|---|---|---|
| `Proxy.Proxy.FiltersLocked` | scope.go:21-44 | the filters are none when the root unit is in scope, else everything excluded and each unit in scope included, in order and once |
| `Proxy.Proxy.StampScopeGenLocked` | scope.go:160-168 | the generation goes up by one and exactly the unpublished entries get it |
| `Proxy.Proxy.EnsureUnitsLocked` | scope.go:176-191 | absent units are added unpublished, nothing else changes, and the result is the highest generation and whether one unit is unpublished |
| `Proxy.Proxy.AppliedChLocked` | scope.go:195-200 | the open channel is returned, or a new one is made and kept |
| `Proxy.Proxy.AdvanceAppliedLocked` | scope.go:211-220 | the applied generation never goes back, and an advance closes and forgets the channel |
| `Proxy.Proxy.PollApplied` | scope.go:226-233 | one turn of awaitApplied: reached exactly when the generation is applied, else the channel for the next advance |
| `Proxy.Proxy.PollUnitApplied` | scope.go:258-266 | one turn of awaitUnitApplied: reached exactly when the unit is published and its generation applied |
| `Proxy.Proxy.FallbackFires` | scope.go:313-337 | one fallback tick finishes, re-arms with the shorter of delay and remaining time, or applies its generation |
| `Proxy.Proxy.RestoreScope` | scope.go:425-438 | saved units whose directory exists and that are not in scope are added unpublished; existing entries keep their state |
| `Proxy.Proxy.StampInitial` | proxy.go:651-657 | initialize's filters list every entry stamped by its generation, which is applied at once |
| `Proxy.Proxy.ObserveOpen` | proxy.go:779-812 | the document joins its unit's open set, made unpublished if absent; no other entry changes |
| `Proxy.Proxy.ObserveClose` | proxy.go:814-827 | the document leaves its unit's open set; nothing else changes |
| `Proxy.Proxy.EvictIdleUnits` | proxy.go:845-860 | exactly the units with nothing open for longer than the TTL leave the scope, and the result says whether any did |
| `Proxy.Proxy.HandleConfigPull` | proxy.go:473-490 | the pull is remembered with the generation live on its arrival |
| `Proxy.Proxy.TakeAnswer` | proxy.go:295-303 | the answer's pull is looked up and forgotten |
| `Proxy.Proxy.RegisterHeldDef` | proxy.go:383-390 | the request is appended to its document's list |
| `Proxy.Proxy.UnregisterHeldDef` | proxy.go:393-406 | the first occurrence of the request is removed, and an empty list with it |
| `Proxy.Proxy.DetachHeldDefs` | proxy.go:412-416 | the document's whole list is taken and its key removed |
| `ScopeState.FiltersCoverScope` | scope.go:21-44 | the filters cover a unit if and only if it or the root unit is in scope |
| `ScopeState.FiltersExcludeFirst` | scope.go:21-44 | the filters are none exactly when the root unit is in scope, and else exclude everything first and then only include |
| `ScopeState.EnsureUnitsIsEnough` | scope.go:170-191 | without a push every unit is published no later than the generation returned, which is one of theirs |
| `BarrierProofs.RunsKeepBarrier` | proxy.go:284-310 | along every run no generation is ahead of scopeGen, the filters last written and those on their way cover what they confirm, and each reference's surviving units are published no later than the generation it waits for |
| `BarrierProofs.BarrierIsSound` | scope.go:145-158 | in every reachable state the filters last written cover each unit in scope whose generation is confirmed |
| `BarrierProofs.AppliedUnitIsCovered` | scope.go:248-266 | a unit found applied is covered once its generation is confirmed; until then a timer or an unusable answer released it, or initialize is still to be written |
| `BarrierProofs.ForwardedRequestIsCovered` | proxy.go:358-370 | a held request about to be written by its goroutine finds its unit covered, if that is in scope under a confirmed generation |
| `BarrierProofs.CrossReferenceIsCovered` | resolve.go:173-198 | whenever a reference is about to be written and the generation it waited for is confirmed, every requested unit not evicted since is covered, whoever stamped it and whatever timers released |
| `BarrierProofs.ReachedReferenceIsConfirmed` | resolve.go:186-198 | a reference whose barrier was reached waited for a confirmed generation, or for one a timer or an unusable answer released, or initialize is still to be written; without those its units are covered |
| `References.IndexedReferencesArePublished` | resolve.go:137-171 | whatever files of the module are indexed, each file of the workspace whose directory imports the definition's package through a chain of them has its unit among those asked for |
| `References.EnsuredUnitsAreKept` | resolve.go:186-189 | once the asked units are ensured the reference has all of them |
| `References.ReferencesAreCovered` | resolve.go:173-198 | end to end: in any run that ensures the units asked for, whatever else it does, the filters cover the unit of each file that refers to the definition when the held request is about to be written with its generation confirmed, unless that unit was evicted |
| `RequestProofs.AskHoldsUnappliedUnits` | proxy.go:341-355 | a request is held if and only if its file's unit is in scope and either unpublished or of a generation not yet applied |
| `RequestProofs.InlineRequestIsCovered` | proxy.go:341-355 | a request not held for a unit in scope finds, in any continuation of the run that keeps the unit in scope, its generation unchanged and applied, and the unit covered once that is confirmed; until then a timer or an unusable answer released it or initialize is still to be written |
| `RequestProofs.InlineUnitMayBeUnpublished` | proxy.go:351-354 | a run in which a reference brings the unit of a request not held into scope, unpublished, before the request is written |
| `RequestProofs.PollPassesAppliedUnits` | scope.go:248-282 | a held request's goroutine goes on to forward it if and only if the unit is in scope, published and of an applied generation; else it parks on the current channel |
| `RequestProofs.HeldRequestIsCovered` | proxy.go:330-381 | after a held request has found its unit applied, in any continuation of the run that keeps the unit in scope its generation stands; the filters cover it once that is confirmed, and until then a timer or an unusable answer released it or initialize is still to be written |
| `ScopeProofs.OpenDocumentsKeepTheirUnit` | proxy.go:779-827 | in every run a unit with a document opened and not closed again is in scope, and a unit in scope knows exactly those documents and when the last opening or closing, or its coming into scope, was |
| `ScopeProofs.SweepIsExact` | proxy.go:829-860 | after any run a sweep takes out of scope exactly the units whose documents are all closed and which have been so, and in scope, for longer than the TTL |
| `ScopeProofs.AnswersApplyTheirPull` | proxy.go:284-310 | whatever happens between a configuration pull, its answer and the end of its handling, the generation live at the pull is then applied, and confirmed if the answer carried filters |
| `ScopeProofs.AnsweredPullCoversUnits` | proxy.go:680-720 | so each unit published by the time of the pull and still in scope is covered once a usable answer to it has been handled |
| `ScopeProofs.SecondAnswerIsPlain` | proxy.go:295-303 | until gopls asks again under the same id a second answer passes through unpatched and applies nothing |
| `ScopeProofs.PullsAreSeen` | proxy.go:473-490 | a pull has been seen if and only if one has arrived in the run |
| `ScopeProofs.RestoredUnitsAreLoaded` | proxy.go:607-660 | once initialize is written the filters cover every restored unit that stayed in scope |
| `ProgressProofs.PumpIsNeverStuck` | proxy.go:260-425 | from every reachable state the client pump can get back to reading the editor's next message |
| `ProgressProofs.EveryMessageCanBeWritten` | proxy.go:330-425 | from every reachable state each request and each edit received is written or can still be |
| `ProgressProofs.AppliedRequestForwards` | scope.go:248-282 | a parked request whose unit is applied can be written without a timeout and without anybody else |
| `ProgressProofs.ArmedIsAnnounced` | scope.go:123-143 | a generation whose fallback is armed has been announced to gopls |
| `ProgressProofs.EveryReferenceCanBeWritten` | resolve.go:186-198 | from every reachable state each cross-reference on its way can still be written |
| `ProgressProofs.AppliedReferenceIsWritten` | scope.go:222-246 | a reference whose generation is applied needs no timeout |
| `WireProofs.WireCoversConfirmed` | scope.go:145-158 | the same read off the wire: the last filters sent cover every confirmed unit in scope |
| `WireProofs.UnusableAnswerReleasesTooEarly` | proxy.go:680-684 | a run in which an answer without filters makes an excluded unit count as applied |
| `WireProofs.EvictedUnitIsMissing` | resolve.go:178-198 | a run in which a requested unit is evicted while its reference waits, and is excluded when the reference's confirmed barrier is reached |
| `HeldProofs.RunsKeepHeld` | proxy.go:341-420 | along every run held requests are registered or being released, written exactly when forwarded, once, and in order |
| `HeldProofs.WrittenAtMostOnce` | proxy.go:369-379 | no request or edit is written twice, however waiter and releasing pump race |
| `HeldProofs.NoRequestIsLost` | proxy.go:381-420 | each request received is written, in the pump's hands, or registered or being released with somebody left to forward it, and it is written exactly when forwarded |
| `HeldProofs.RequestsPrecedeEdits` | proxy.go:228-234 | every request received before an edit of its document is on the wire before that edit |
| `ParkProofs.RunsKeepParks` | scope.go:195-220 | along every run all waiters on open channels wait on the current one for something that has not happened |
| `ParkProofs.NoReferenceSleepsThroughItsGeneration` | scope.go:222-246 | a reference parked on an open channel waits for an unapplied generation; otherwise its channel is closed and it can wake |
| `ParkProofs.NoRequestSleepsThroughItsUnit` | scope.go:248-282 | a held request parked on a channel can look again, and the channel is closed as soon as its unit is in scope, published and of an applied generation |
| `TimerProofs.RunsKeepClock` | scope.go:298-338 | along every run each unapplied armed generation has its timer running within its bounds, and each generation is applied, armed or being pushed |
| `TimerProofs.EveryGenerationIsReleased` | scope.go:284-338 | every generation not still being pushed is applied, or was armed no longer ago than the larger of delay and cap, or than the delay if no pull has arrived in the run; by default a minute and ten seconds |
| `TimerProofs.NoEarlyRelease` | scope.go:287-338 | a fallback applies a generation no sooner than the delay, and after any pull in the run no sooner than the cap |
| `TimerProofs.FiringIsExact` | scope.go:310-338 | a firing drops the timer of an applied generation, looks again after the delay or at the cap while a pull has arrived and the cap is not reached, and otherwise applies the generation |
| `TimerProofs.RearmingEnds` | scope.go:310-338 | in any run a generation's fallback fires at most once more than the cap exceeds the delay |
| `Worker.WorkerHandle.CloseReadyLocked` | worker.go:409-415 | the generation's ready channel is closed unless it already is |
| `Worker.WorkerHandle.ArmEvictLocked` | worker.go:431-439 | the old timer is stopped and a new one armed for this generation, unless the TTL is not positive or there is no client |
| `Worker.WorkerHandle.EnsureStartedLocked` | worker.go:130-188 | a live client is reused; else a new generation with a fresh channel and buffer starts, or nothing changes |
| `Worker.WorkerHandle.Acquire` | worker.go:100-111 | on success one reservation more and no timer; on failure nothing changes |
| `Worker.WorkerHandle.Release` | worker.go:116-124 | one reservation less, and the timer armed when it was the last |
| `Worker.WorkerHandle.FinishInit` | worker.go:198-220 | nothing for a superseded generation, teardown on failure, else the replay |
| `Worker.WorkerHandle.ReplayLiveLocked` | worker.go:229-238 | the snapshot is opened, then the buffered notes are mirrored in order, then the channel is closed |
| `Worker.WorkerHandle.OnExit` | worker.go:281-296 | only the current generation is torn down, and a loading one fails and closes its channel |
| `Worker.WorkerHandle.Observe` | worker.go:303-330 | a note is dropped without a client, buffered while loading, dropped after failure, else for the live client |
| `Worker.WorkerHandle.Shutdown` | worker.go:381-399 | a live worker is torn down whatever it is doing, and a dead one is left alone |
| `Worker.WorkerClient.Mirror` | worker.go:336-358 | an open or change is sent with the tracked document, a close for any named document, nothing for an untracked one |
| `WorkerSystem.OwnedAreInSnapshot` | worker.go:492-520 | every document routed to a worker passes its snapshot's filter |
| `WorkerProofs.RunsKeepWorker` | worker.go:50-78 | along every run generations, reservations, the gate and the idle watch are in order |
| `WorkerProofs.ReadyIsClosedOnce` | worker.go:407-415 | no ready channel is closed twice, every generation but the live one has it closed, and the current one exactly when readyDone |
| `WorkerProofs.NoWaiterIsStranded` | worker.go:258-262 | a waiting request can wake unless its generation is alive and loading |
| `WorkerProofs.UsableExactlyWhenReplayed` | worker.go:190-238 | a generation is ready without error if and only if its replay ran |
| `WorkerProofs.GateOpensAfterReplay` | worker.go:240-277 | a request is forwarded only to a generation that was initialized and fully replayed |
| `ServiceProofs.CheckServesReplayedGenerations` | worker.go:247-278 | a request whose wait is over is served if and only if its generation is the current one and was replayed; a superseded or failed one refuses it |
| `ServiceProofs.AcquireReserves` | worker.go:93-124 | an acquire succeeds exactly when a process is live or can be started, and reserves the live generation or a new one that is not ready |
| `ServiceProofs.ExitEndsItsGeneration` | worker.go:281-298 | an exit takes down the current generation and lets its waiters go, or changes nothing |
| `ServiceProofs.LockIsLetGo` | worker.go:190-238 | in every reachable state h.mu is free or can be let go with the replay done |
| `ServiceProofs.EveryRequestCanEnd` | worker.go:239-278 | from every reachable state each reservation can be given back |
| `ServiceProofs.WaitingRequestCanBeServed` | worker.go:239-278 | from every reachable state a request waiting for the live generation can be served by it |
| `WorkerProofs.HoldsCountRequests` | worker.go:93-124 | holds is the number of requests between acquire and release |
| `WorkerProofs.IdleWorkerIsWatched` | worker.go:426-451 | a live worker with no request and a positive TTL has a timer armed or a callback on its way |
| `ServiceProofs.DecisionIsExact` | worker.go:443-449 | an idle timer goes on to stop the worker if and only if that is still the one it was armed for, alive, with no request between acquire and release |
| `ServiceProofs.IdleWorkerCanBeStopped` | worker.go:426-451 | with a positive TTL, from every reachable state an idle live worker can be stopped |
| `ServiceProofs.NoTtlNoEviction` | worker.go:426-436 | without a positive TTL there is never an idle timer or its callback |
| `WorkerProofs.UnovertakenEvictionIsIdle` | worker.go:441-451 | an eviction no acquire has overtaken since it was decided finds a worker nothing holds, of the generation it was decided for or a later one |
| `WorkerProofs.EvictionStopsCurrentGeneration` | worker.go:441-451 | the shutdown of an eviction stops whichever worker is alive: its own if and only if no later generation was started, a later one otherwise |
| `WorkerProofs.OvertakenEvictionStopsHeldWorker` | worker.go:441-451 | a run in which an acquire between decision and shutdown loses its worker |
| `WorkerProofs.SupersededEvictionStopsNextWorker` | worker.go:441-451 | a run in which the worker exits and a warm start replaces it between decision and shutdown, and the new one is stopped |
| `MirrorProofs.TellingCatchesUp` | documents.go:15-78 | if mirroring the notes leads to the editor's document it still does after one more editor event, once that is mirrored too |
| `MirrorProofs.SnapshotStarts` | worker.go:229-232 | opening the snapshot gives a fresh process exactly the editor's owned documents |
| `MirrorProofs.RunsKeepMirror` | worker.go:222-238 | along every run the loading, replaying or live worker is on its way to the editor's documents |
| `MirrorProofs.MirrorConverges` | worker.go:190-238 | a ready worker, with the client pump between messages, has exactly the editor's documents of its module, with text, version and language |
| `MirrorProofs.ForeignDocumentGoesStale` | worker.go:492-520 | for every Go document a worker's snapshot takes in without owning it, a run after which the worker still has it open though the editor closed it |
| `SnapshotProofs.RunsStayInside` | worker.go:492-520 | along every run what is open in a worker, and everything on its way there, passed its snapshot filter |
| `SnapshotProofs.OutsideDocumentsStayClosed` | worker.go:507-512 | a nested module's worker never has a document open that does not lie in the module's directory |
| `ServiceProofs.NotificationsArriveInOrder` | worker.go:350-357 | whenever the worker is ready and the pump between messages, it has been sent every workspace notification it was shown, buffered or live, once and in order |
| `ServiceProofs.WorkspaceIsShown` | worker.go:300-330 | the pump shows the worker every workspace notification of the editor |
| `MirrorProofs.ReplayIsItsSteps` | worker.go:229-238 | what replayLiveLocked sends takes a fresh process where the replay steps take it |
| `Documents.ByteOffsetForUTF16Position` | documents.go:104-145 | the offset of the only boundary at that position, or failure when there is none |
| `Utf16.CodeUnitsAreUtf16` | documents.go:147-152 | what is counted for a code point is the length of its UTF-16 encoding |
| `Utf16.Decode16Inverts` | documents.go:147-152 | decoding UTF-16 inverts that encoding |
| `Utf16.PositionsAreUtf16` | documents.go:104-145 | a position is the number of newlines and the UTF-16 length of what precedes it on its line |
| `Utf16.PositionsResolve` | documents.go:104-145 | on any text of code points exactly the positions after its first so many resolve, each to the length of their UTF-8 |
| `Utf16.AcceptsExactlyEncodings` | documents.go:104-145 | ranging over a string accepts a code point's UTF-8 and nothing else, and yields U+FFFD for one byte elsewhere |
| `Utf16.ValidTextIsCodePoints` | documents.go:85-145 | every valid text is the UTF-8 of the code points ranging yields |
| `Documents.PositionIsUnique` | documents.go:104-145 | no two code-point boundaries share a position |
| `Documents.PositionsIncrease` | documents.go:104-145 | positions strictly increase along the boundaries |
| `Documents.OffsetAt` | documents.go:104-145 | the position of a boundary resolves to the width of the text before it |
| `Documents.OffsetsAreMonotone` | documents.go:104-145 | among positions that resolve, the earlier position has the smaller offset and conversely |
| `Documents.OnlyBoundariesResolve` | documents.go:122-144 | a column inside a surrogate pair or past the end of its line resolves to nothing |
| `Documents.NegativeIsNowhere` | documents.go:104-109 | negative positions resolve to nothing |
| `Documents.ApplyContentChanges` | documents.go:85-102 | the changes are applied in order up to the first whose range does not resolve or is reversed |
| `Utf16.EditSplices` | documents.go:85-102 | a change with a range replaces exactly the code points between its two positions by the inserted ones |
| `Utf16.FullTextReplaces` | documents.go:87-90 | a change without a range, last in a list that applies, is all the text there is |
| `Documents.UndoRestores` | documents.go:85-145 | a change followed by the change that puts the removed text back over the inserted text's range restores the text |
| `Documents.UndoAllRestores` | documents.go:85-145 | the same for a list of changes undone in reverse |
| `Documents.UndoNeedsValidText` | documents.go:85-145 | on a text that is not valid UTF-8, which JSON decoding never delivers, undoing can fail |
| `Documents.DocStore.TrackDidOpen` | documents.go:15-42 | a Go document is stored under its URI with a language, any other event changes nothing |
| `Documents.DocStore.TrackDidChange` | documents.go:44-68 | a tracked document takes the new text and version exactly when all changes apply |
| `Documents.DocStore.TrackDidClose` | documents.go:70-78 | the document is forgotten |
| `Documents.TrackingIsExact` | documents.go:15-78 | which documents each notification tracks, changes or forgets, what it makes of them, and that every other document stays |
| `Documents.TrackingKeepsValid` | documents.go:15-78 | every tracked text stays valid UTF-8 when notifications carry valid text, as JSON decoding makes them |
| `Documents.TrackedEditsUndo` | documents.go:44-68 | an edit notification of a tracked document followed by the one undoing it leaves the tracked documents as they were |
| `Framing.Stream.Write` | proxy.go:1100-1106 | the header with the decimal length and the body are appended |
| `Framing.Stream.ReadFrame` | proxy.go:1108-1131 | one frame is taken from the stream as the reading function says, errors included |
| `Framing.DecimalValue` | proxy.go:1103 | the printed length reads back as the length |
| `Framing.OtherHeadersAreSkipped` | proxy.go:1110-1124 | header lines other than Content-Length do not matter |
| `Framing.AnySpellingCounts` | proxy.go:1110-1124 | a length header counts in whatever case, with blanks around its name and value, a sign and anything after its digits, exactly when a Go int holds the number |
| `Framing.FrameOnTheWire` | proxy.go:1100-1106 | one frame byte by byte |
| `Framing.TruncatedFrameFails` | proxy.go:1125-1131 | a stream that ends inside a body yields no frame |
| `Framing.FrameReads` | proxy.go:1108-1131 | a frame with any other headers around its length is read back if and only if its body is not empty |
| `Framing.RoundTrip` | proxy.go:1100-1131 | reading what any number of non-empty bodies were written as yields them in order with nothing left over |
| `ModRoot.NestedModuleRoot` | modroot.go:59-73 | the loop finds what the upward walk finds |
| `ModRoot.WalkIsInnermost` | modroot.go:57-73 | the walk finds exactly the innermost go.mod ancestor that the root does not cut off |
| `ModRoot.WalkInWorkspace` | modroot.go:57-73 | below the root it finds the innermost go.mod ancestor strictly below the root, or nothing exactly when there is none |
| `ModRoot.ModuleRootCache.RootFor` | modroot.go:28-46 | the memoised answer, or the walk's answer which is then remembered |
| `ModRoot.ModuleRootCache.Invalidate` | modroot.go:51-55 | everything is forgotten |
| `ModRoot.MemoisedAnswersAreExact` | modroot.go:22-55 | once each go.mod change is followed by its invalidation the cache answers as the walk does, except where a lookup stored that had walked before the change |
| `ModRoot.UndisturbedAnswersAreExact` | modroot.go:22-55 | without such a store every answer is the walk's |
| `ModRoot.StraddlingLookupIsStale` | modroot.go:28-46 | a lookup that straddles a change and its invalidation leaves a stale answer |
| `ScopeUnits.ScopeUnitCuts` | scope.go:342-348 | cutting the string keeps the first granularity segments |
| `ScopeUnits.PrefixUnitJoins` | scope.go:107-116 | prefixing a unit is joining its segments, with the module's own root as the bare prefix |
| `Paths.InsideTest` | scope.go:68 | the string test for lying inside a directory is the segment test |
| `RevIndex.RevIndex.UpdateFile` | revindex.go:144-184 | the file's imports replace its old ones, the directory it lies in joins the importers of each package of the module it imports and no other edge is added; outside the root nothing happens |
| `RevIndex.RevIndex.UpdateFiles` | revindex.go:117-130 | indexing files makes the updates of those readable and below the root, each under the directory the file lies in |
| `RevIndex.FilesAreIndexed` | revindex.go:144-184 | after any files are indexed a directory is an importer of a package if and only if one of them lies in it and imports the package |
| `RevIndex.RevIndex.ClosureUnits` | revindex.go:207-232 | the sorted, duplicate-free units of exactly the directories that reach relDir through imports |
| `RevIndex.RevIndex.Search` | revindex.go:207-222 | the queue search visits exactly the closure |
| `RevIndex.AddEdgesIsExact` | revindex.go:172-181 | an update adds exactly its own edges |
| `RevIndex.IndexIsExact` | revindex.go:121-184 | after any updates the importers are exactly the union of all edges ever indexed |
| `RevIndex.IndexIgnoresOrder` | revindex.go:117-134 | the order in which workers apply updates does not matter |
| `RevIndex.ClosureGrows` | revindex.go:205-232 | later updates only enlarge a closure |
| `RevIndex.ClosureIsImports` | revindex.go:121-232 | the closure is exactly the directories from which the updates recorded a chain of imports |
| `UnitAgreement.ClosureUnitsForModule` | resolve.go:145-171 | the closure's units, prefixed for a nested module, or failure exactly when the definition lies outside its module |
| `UnitAgreement.UnitIsADirectoryPrefix` | scope.go:51-95 | a file's unit is a segment prefix of its directory below the root |
| `UnitAgreement.UnitExists` | scope.go:64-95 | a file has a unit exactly when it lies in the workspace, in a directory of its module whose relative name does not begin with two dots |
| `UnitAgreement.RootUnitIsTheRoot` | scope.go:51-95 | the root unit is the unit of exactly the files directly in the workspace root |
| `UnitAgreement.ReferencesArePublished` | resolve.go:137-171 | every file of the module in a directory that transitively imports the definition's package has its unit among those published |
| `UnitAgreement.PublishedAreReached` | resolve.go:145-171 | each unit published is that of a directory that transitively imports the package, with the module prefix |
| `Strings.SortStrings` | scope.go:26 | sorting lists the same strings in order |
| `Strings.AtMostIsLexicographic` | scope.go:26 | the order is that of the first difference, a proper prefix first |
| `Strings.ListingIsUnique` | scope.go:26 | a set has only one sorted listing |
| `CacheKey.CanonicalKeyIsInjective` | graph.go:149-170 | queries with non-empty NUL-free patterns and NUL-free flags share a key only if they agree in both |
| `CacheKey.EmptyPatternCollides` | graph.go:161-170 | any patterns and flags share their key with a flagless query whose patterns spell the marker with an empty pattern |
| `CacheKey.NestedKeyIsInjective` | graph.go:741-757 | nested keys are equal only for equal flags |
| `RootRewrite.RewriteIsStructural` | graph.go:370-378 | the byte rewrite moves exactly the strings equal to or below the old root, for every response, if and only if the old root is not strictly below the new one |
| `RootRewrite.MovedTwice` | graph.go:370-378 | the response that shows it otherwise |
| `RootRewrite.RewritingBackRestores` | graph.go:370-378 | for roots apart, rewriting back restores the bytes if and only if no string was at or below the new root |
| `RootRewrite.RetargetMoves` | graph.go:351-368 | a saved graph is retargeted exactly when its directory is at or below its root, and then response and directory are moved |
| `RootRewrite.RootlessRetargetMoves` | graph.go:351-368 | a saved graph without a root is taken to be of its directory, and without a current root nothing moves |
| `RootRewrite.RetargetRoundTrip` | graph.go:351-368 | retargeting there and back gives the saved response and directory |
| `GraphCache.ResolveModRootForQuery` | graph.go:598-608 | the directory's module, else the first one owning a file the query names |
| `GraphCache.QueryFileTargets` | graph.go:612-620 | the files named by file= patterns, in order |
| `GraphCache.DispatchIsExact` | graph.go:585-620 | a query goes to the main slot if and only if no nested module owns its directory or any file it names |
| `GraphCache.CompatibleIsInside` | graph.go:842-852 | on clean directories the compatibility test is lying at or below the cached directory |
| `GraphCache.GraphSlot.AnswerLocked` | graph.go:676-726 | what is served and which build starts, and that nothing but the building flag changes |
| `AnswerProofs.AnsweredIsExact` | graph.go:676-738 | the slot's graph is yielded if and only if there is one under the query's key for a compatible directory, stale or not, building or not; a build is started, unless one runs, of the same when that is stale, or of the query when nothing is held and it is recursive |
| `AnswerProofs.ReadMainIsExact` | graph.go:676-738 | the same as a step: what a main-slot query has in hand and which build is then running |
| `AnswerProofs.CachedQueryIsServed` | graph.go:676-738 | a query with the patterns, flags and directory of the graph in the main slot is served that graph whenever its overlay changes no imports, whatever happens meanwhile |
| `AnswerProofs.FinishedBuildIsHeld` | graph.go:936-960 | a finished build leaves its graph in the slot, fresh, as the answer to the query it was for; the main slot's is to be saved |
| `AnswerProofs.FailedBuildIsForgotten` | graph.go:913-918 | a failed build leaves the slot as it was, stale if it was, and free for the next |
| `AnswerProofs.TimerRebuilds` | graph.go:1021-1032 | a rebuild timer builds what the slot holds unless a build is running; the slot stays stale until a build is done |
| `AnswerProofs.MarkedSlotIsRefreshed` | graph.go:713-738 | the first query after a mark is answered with what the slot holds and rebuilds just that |
| `AnswerProofs.ReadNestedIsExact` | graph.go:776-786 | a nested query gets the slot's graph exactly when that has the query's flags, and otherwise misses |
| `AnswerProofs.NestedHitIsServed` | graph.go:820-845 | a nested hit is served unless its overlay changes imports, first starting a rebuild if it is stale and none runs |
| `AnswerProofs.NestedMissIsBuilt` | graph.go:788-811 | a nested miss builds the module with the query's flags and serves the result, or is not handled while a build runs |
| `AnswerProofs.DroppedSlotStartsOver` | graph.go:636-671 | after a module's slot is dropped its next query finds an empty one |
| `AnswerProofs.SavedGraphIsServedNextSession` | graph.go:278-339 | a graph saved in a checkout is held for its query from the start of the next session there, with a revalidation to come |
| `AnswerProofs.OtherDisksAreIgnored` | graph.go:282-301 | a missing, incomplete or foreign cache loads nothing |
| `AnswerProofs.EveryQueryCanEnd` | graph.go:552-845 | from every reachable state each query can still be served or told that it is not handled |
| `GraphCache.GraphSlot.Claim` | graph.go:792-801 | a build is claimed exactly when none is running |
| `GraphCache.GraphSlot.FinishBuild` | graph.go:947-955 | a finished build replaces the slot's graph, key, directory and flags and is no longer running; a failed one only stops running |
| `GraphCache.GraphSlot.MarkStale` | graph.go:1009-1021 | a slot that was ever built is stale with its timer armed, any other is left alone |
| `GraphCache.GraphSlot.TimerFires` | graph.go:1021-1032 | the rebuild of what the slot holds starts unless a build is running |
| `GraphCache.Subslots.SubslotFor` | graph.go:651-667 | the module's slot is the one already there, or a new empty one that stays |
| `GraphCache.Subslots.RemoveSlot` | graph.go:642-646 | only that module's slot is forgotten |
| `GraphProofs.RunsKeepProvenance` | graph.go:552-961 | along every run each slot's key is the key of what its graph was loaded with |
| `GraphProofs.MainServesItsOwn` | graph.go:540-565 | the main slot serves only graphs of the query's own patterns and flags, for a compatible directory that is in no nested module unless the disk cache was loaded there, to queries no nested module owns |
| `GraphProofs.NestedHitServesItsOwn` | graph.go:776-786 | a nested cache hit serves the whole graph of the query's own module, loaded with its own flags |
| `GraphProofs.MissServesItsOwnByKey` | graph.go:802-811 | after a nested build the graph is the module's, and has the query's flags if and only if the slot's key is the query's |
| `GraphProofs.SessionsHandOver` | graph.go:498-529 | what a session saves has the provenance the next session starts from |
| `GraphRaces.NestedMissMayServeOtherFlags` | graph.go:802-811 | a run in which a nested query is served the graph of other flags |
| `FlightProofs.RunsKeepFlights` | graph.go:902-961 | along every run each slot has at most one build, building is set exactly then, and marks are followed up |
| `FlightProofs.BuildingIsOneBuild` | graph.go:902-961 | a slot is building if and only if exactly one build runs for it |
| `FlightProofs.MarksAreFollowedUp` | graph.go:1006-1033 | a graph older than its slot's last mark has its rebuild timer armed, the revalidation of the loaded cache or a later build to come, if and only if, since the last build was started, neither the mark of a slot never built nor the last rebuild to come fell into a build older than the mark, and no build begun after it failed with none to come |
| `GraphRaces.DroppedMarkLooksFresh` | graph.go:1021-1027 | a run that ends with an outdated graph called fresh and nothing left to rebuild it |
| `GraphRaces.FirstBuildMarkLooksFresh` | graph.go:1012-1014 | a run in which a change marked during the first build is in no graph, and nothing is left to rebuild it |

## Left out

- Processes, pipes, sockets, JSON, logging, `showMessage` and files: a build, a parse and a file read are parameters, time is a number, timers are ideal (time does not pass one that is due).
- `main.go`, `driver.go`, `lsp.go`, `cmd/`: plumbing.
- `symbols.go`: ranking and capping of symbols would add only easy members.
- The two-stage rescope after `didOpen` and its debounce (proxy.go:766-812, proxy.go:963-986): a `pushScope` call may come at any time instead.
- `evictIdleModules` (proxy.go:882-926): removing a module's slot may happen at any time instead, and its choice of modules is not modelled.
- `saveScope`, the git common directory key, `graphFresh` and the embed footprint: files and heuristics without a property of their own here.
- `workspace/configuration` answers inside the worker (worker.go:767-791), and the single-flight sharing of worker requests in resolve.go:280-283.
- `lastUsed` and `warned` of the worker handle: nothing decides by them but one message.
- Pointers to scope entries and held requests: entries are values in a map and held requests are numbers, so aliasing of `*scopeEntry` and `*heldReq` is not modelled.
- Generation and index counters are unbounded where Go's `int` is 64 bits wide; `Content-Length` is bounded as Go parses it.
- `overlayDirty` and `SameImports` (graph.go:965-984, revindex.go:186-203): whether a query's overlay changes imports is a parameter of its step.
- Unicode white space in header lines: the bytes of ASCII white space are trimmed.
- Directories whose names begin with `..`, and file system roots as workspace roots other than as the code treats them.
- Worker.WorkerHandle.ReplayLiveLocked: takes the tracked documents as fixed during the replay; `WorkerSystem` lets them change between any two of its messages, and `ReplayIsItsSteps` connects the two.
- Worker.WorkerHandle.FinishInit: likewise states the section for tracked documents that do not change meanwhile.
- Worker.WorkerHandle.EnsureStartedLocked: does not tell an unset workspace root from a process that cannot be started; both are a start that fails.
- Worker.WorkerHandle.Shutdown: leaves out the graceful stop of the process that follows the section.
- Proxy.Proxy.RestoreScope: leaves out reading the saved file.
- Proxy.Proxy.ObserveOpen: leaves out `pendingDiag` and the timers of the two-stage rescope.
- Proxy.Proxy.EvictIdleUnits: leaves the `pushScope` call that follows a change to its caller.
- ModRoot.ModuleRootCache.RootFor: is one step; the lock is free between lookup and store, which the runs behind `MemoisedAnswersAreExact` allow, but there a whole walk is one step, where the source looks at one directory after another.
- RevIndex.RevIndex.UpdateFile: leaves out the file's symbols.
- GraphCache.GraphSlot.FinishBuild: leaves out the embed footprint; the save to disk is a step of `GraphSystem`.
- GraphCache.GraphSlot.TimerFires: a slot re-marked has one timer; in Go a callback that had already fired and waits for the lock may still follow, and so a second one.
- GraphCache.Subslots.SubslotFor: leaves out the reverse-import index returned beside the slot.
- RootRewrite.RewriteIsStructural: its strings are as JSON holds them; a root with `&`, `<`, `>` or a backslash in it is escaped there, and the byte rewrite does not find it.
- UnitAgreement.ReferencesArePublished: is about any importers; `References` composes it with the updates that made them.
- References.ReferencesAreCovered: takes the files indexed when the units are asked for, and units not evicted until the request is written.
- MirrorProofs.MirrorConverges: says nothing of snapshot documents another module's worker owns, because snapshots take in nested modules' documents and later notifications do not reach them (worker.go:492-520, proxy.go:172-187; `ForeignDocumentGoesStale`), and takes the module layout as fixed during a run.
- BarrierProofs.CrossReferenceIsCovered: leaves out units evicted since `ensureUnitsLocked`, because existing entries do not get a new activity time (scope.go:178-189); `EvictedUnitIsMissing` shows one.
- GraphProofs.MainServesItsOwn: takes queries with NUL-free non-empty patterns and NUL-free flags, a disk cache written by this program, and the module layout as fixed during a run; of the directory a disk cache is loaded at it does not say the module, because the cache may come from another checkout.
- TimerProofs.EveryGenerationIsReleased: counts from the arming of the fallback, after the notification of the new configuration is written.
