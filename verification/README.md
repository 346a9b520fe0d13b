# Filament coordination and its neighbours, modelled in Dafny

HelixScreen drives filament changers, sound and print cancellation from one screen, against
firmware that answers late, reports only what changed, and is also driven by others. These are
the protocols that keep the screen right under that: small machines of commands, late replies,
partial frames and timers. Each file holds one of them, as a step function over its state, the
class whose methods are proved against the steps, and theorems over every run.

- `AbortManager.dfy`: progressive cancellation, from the heater interrupt to M112 and the
  reconnect, with the event loop's timers kept apart from the guards that own them.
- `AlsaHandoff.dfy`: the render thread's idle park and the resume handoff, one access to shared
  memory at a time, for any number of callers.
- `AlsaStream.dfy`: frames written, played, queued and discarded by the playback device.
- `OwnWrite.dfy`: telling the echo of an own spool-id write from another writer's change, against
  firmware that applies writes late.
- `SeatedStamp.dfy`: the LOADED status written over the parsed one, against a parser that never
  stamps.
- `AfcEject.dfy`, `AfcAction.dfy`, `AfcDrain.dfy`, `AfcBuffer.dfy`, `AfcLane.dfy`: AFC's serialized
  ejects, its published action (stuck-action latch, toolchange hold, dispatch generations), the
  draining of its message queue, and buffer and lane deltas folded into records.
- `IfsRunout.dfy`: the AD5X IFS unattended-runout detector.
- `CfsRunoutStrip.dfy`, `CfsPrintMap.dfy`: the CFS runout strip, and the fork firmware's print map.
- `MultiAce.dfy`: the bay load that waits for its head to be seen empty.
- `MediaRetry.dfy`: the thumbnail retry ladder and its generations.
- `QidiThumbs.dfy`: extracting and pruning plate thumbnails.

`Wrappers.dfy` holds optional values and the keys of a partial frame.

Sections that hold a mutex are one step. The ALSA handoff is the exception, since there the
interleaving is the point. Times are integers carried by the events.

## Where the code and its documentation part

The model follows the code. Each point below is a lemma.

- `include/abort_manager.h:291-304` has the shutdown flag outlive the run; `complete_abort()`
  clears it (`src/abort/abort_manager.cpp:454-506`), so handling ends with the run
  (`HandlingEndsWithTheRun`). A failed probe and an escalated cancel error make a timer guard
  let go without disarming (`OrphansExactly`). A timer moves an abort that did not arm it exactly
  if it is stray (`StrayTimersExactly`, over whole runs `OwnTimersExactly`), and a refused cancel
  reaches that (`AbandonedTimerStopsTheNextAbort`). With escalation off a cancel that never answers does not
  complete (`UnattendedRunCompletes`); with it on every fair behaviour does (`FairRunsComplete`).
- `include/alsa_sound_backend.h:96-110` has a whole pass follow each resume. A number issued
  between the write and the load of `resume_seq_` is acknowledged with no rendering after it
  (`HandoffExactly` gives the three cases, `HandedOffWithoutAPass` a run of the last one).
- `include/ams_backend_ad5x_ifs.h:1078-1083` attributes a head-empty window that opens within
  thirty seconds of a dispatch to that dispatch. A dispatch also drops the candidate, so the guard
  never decides (`SuppressionIsIdle`) and such a window is reported
  (`WindowAfterADispatchIsReported`).
- `include/ams_backend.h:3746-3753` has a chained re-link stay suppressed. The original id does;
  an id in the middle, reported on its own, breaks the declaration, whatever the length of the
  chain (`ChainSurvivesExactly`, `ChainBreaksOnItsMiddle`). A stale "no spool" frame ejects a fresh link of an empty lane
  where ids are reported and ejects clear (`LinkOfAnEmptyLaneIsEjected`).
- `include/ams_backend_cfs.h:916-924` has undoing the stamp restore the parse. It does, edits and
  size changes included, save in one family: a lane record painted while the seat is a bay of a
  box off the bus that was last sensed to hold filament (`AlwaysUndoneExactly`,
  `AbsentSeatIsLost`). The next frame that names the bays heals it (`RebuildHeals`).
- `include/ams_backend_afc.h:1327-1345` has the drain advance on each frame that carries a
  message. Two equal neighbouring messages produce no such frame, and the drain stops there
  (`FaultClearEmptiesExactly`).
- `include/ams_backend_afc.h:1036-1047` has the reading land on the right unit. A buffer whose
  lanes move leaves the old reading behind until a rebuild, which a single unit never gets
  (`MovedBufferLeavesItsReading`, `ViewIsDerived`).
- `src/printer/afc_status_parse.cpp:306-325` works a lane's status out from one frame, so a frame
  that names only the prep sensor unseats a loaded lane (`PrepAloneUnseats`), and the two weights
  depend on what the frames before said (`LaneSplitsExactly`; for any number of frames
  `CutsAgreeExactly`).
- `include/ams_backend_cfs.h:352-360`: a print loaded from elsewhere does take a map left over: that
  of the last start whose text reached the firmware, unless it printed (`ElsewhereTakesExactly`,
  `ElsewhereTakesTheLeftover`).
- `config/qidi_3mf_thumbs.py:40-45`: an archive whose name is dots and the extension loses its
  thumbnails to the prune (`PresentArchivesKeepTheirPlates`) and gets them again on every run
  (`SecondRunIsIdleExactly`, `ALoneExtensionComesBack`).
- `src/print/active_print_media_manager.cpp:1056-1069`: a file loaded from where it moved to is
  never retried (`MovedFilesAreTriedOnce`).

## Model

| member | source | states |
|---|---|---|
| AbortManager.RunInv | src/abort/abort_manager.cpp:107-870 | the guards held, the generation of their timers and the shutdown flag match the state in every reachable state |
| AbortManager.MovesForward | src/abort/abort_manager.cpp:361-452 | a step never goes back in escalation order, except that the emergency button returns to M112 from SENT_RESTART and WAITING_RECONNECT |
| AbortManager.HandlingEndsWithTheRun | src/abort/abort_manager.cpp:171-180 | the shutdown dialog is suppressed exactly in SENT_ESTOP, SENT_RESTART and WAITING_RECONNECT |
| AbortManager.EstopCause | src/abort/abort_manager.cpp:361-388 | M112 goes out in a step exactly on a blocked probe or failed cancel with escalation on, the emergency entry, or the button |
| AbortManager.OneEstopPerRun | src/abort/abort_manager.cpp:361-388 | the button aside, M112 is sent at most once between two starts, and not again once past SENT_ESTOP |
| AbortManager.StaleRepliesChangeNothing | src/abort/abort_manager.cpp:107-160 | deleting every reply issued under an earlier start leaves the trajectory of machines and the final state unchanged |
| AbortManager.ReadyAloneNeverCompletes | src/abort/abort_manager.cpp:652-685 | while waiting for the reconnect, no number of READY reports completes the run before a SHUTDOWN was seen |
| AbortManager.ReconnectCompletesExactly | src/abort/abort_manager.cpp:652-685 | after any run a klippy notification completes the abort if and only if it waits for the reconnect, the notification says READY, and a SHUTDOWN was delivered since the wait began, at registration or later; otherwise it changes no state |
| AbortManager.PathExactly | src/abort/abort_manager.cpp:107-870 | over every event the abort moves, and sends, exactly by these causes: a cause of M112, a cancel, the end of the heater interrupt, a probing start, a conclusion, the answer to M112, an unverified recovery; otherwise it stays and sends nothing |
| AbortManager.SupportAndCounts | src/abort/abort_manager.cpp:107-160 | over every event: heater-interrupt support is resolved by the first probing start and corrected by what the interrupt does; starts are numbered, and each counts its own escalations from nothing |
| AbortManager.ForcedAdvances | src/abort/abort_manager.cpp:822-870 | if the armed timer fires or the M112 send is answered, the rank of the state grows |
| AbortManager.UnattendedRunCompletes | src/abort/abort_manager.cpp:572-622 | left alone, a fresh run can complete if and only if escalation is on, the print has ended, or it entered by M112 |
| AbortManager.OrphansExactly | include/ui_timer_guard.h:61-75 | which timers are left armed with no guard holding them after a step: exactly those a failed probe or an escalated cancel error lets go of, and a second firing |
| AbortManager.CleanRunsLeaveNoTimer | src/abort/abort_manager.cpp:744-753 | a run in which no reply lets go of an armed timer leaves none behind |
| AbortManager.StrayTimersExactly | src/abort/abort_manager.cpp:822-870 | after any run a timer of an earlier one can move the abort if and only if it is armed, held by no guard, and a probe timer while probing or a cancel timer while cancelling |
| AbortManager.AnotherMovesExactly | src/abort/abort_manager.cpp:572-622 | under given surroundings: a stray probe timer always does, a stray cancel timer exactly where the run may escalate |
| AbortManager.OwnTimersExactly | src/abort/abort_manager.cpp:822-870 | over every run, each abort is moved by its own timers alone if and only if no such stray timer fires |
| AbortManager.OwnTimersOnly | src/abort/abort_manager.cpp:744-753 | in particular after a run in which no reply let go of an armed timer |
| AbortManager.AbandonedTimerStopsTheNextAbort | src/abort/abort_manager.cpp:606-622 | a run of the other kind: a refused cancel leaves its timer armed, and that timer escalates the next abort |
| AbortManager.FairRunsComplete | src/abort/abort_manager.cpp:822-870 | with escalation on and the button untouched, every endless behaviour in which the due timer or M112 answer is not put off for ever completes, whatever the printer answers and in whatever order |
| AbortManager.Manager.ArmTimer | src/abort/abort_manager.cpp:295-360 | disarms the timer its guard holds and arms a new one under the current generation |
| AbortManager.Manager.CancelAllTimers | src/abort/abort_manager.cpp:744-753 | disarms every guarded timer and empties the guards |
| AbortManager.Manager.CompleteAbort | src/abort/abort_manager.cpp:454-506 | clears the timers and the shutdown flag and ends in COMPLETE |
| AbortManager.Manager.EscalateToEstop | src/abort/abort_manager.cpp:361-388 | cancels the timers, raises the flag, counts the escalation and sends M112 |
| AbortManager.Manager.StartAbort | src/abort/abort_manager.cpp:107-160 | does nothing while aborting; otherwise a new generation and the entry asked for |
| AbortManager.Manager.HeaterOrProbe | src/abort/abort_manager.cpp:107-160 | resolves heater-interrupt support once, then interrupts or probes |
| AbortManager.Manager.SendCancelPrint | src/abort/abort_manager.cpp:297-359 | sends the cancel, with a print that already ended completing the run at once |
| AbortManager.Manager.WaitForReconnection | src/abort/abort_manager.cpp:427-452 | waits with its timer armed, taking the klippy state delivered on registration |
| AbortManager.Manager.KlippyStateChanged | src/abort/abort_manager.cpp:652-685 | completes only on READY after SHUTDOWN |
| AbortManager.Manager.ProbeBlocked | src/abort/abort_manager.cpp:572-590 | escalates or cancels, letting go of the probe timer |
| AbortManager.Manager.CancelBlocked | src/abort/abort_manager.cpp:606-622 | escalates if allowed, letting go of the cancel timer |
| AbortManager.Manager.RestartAnswered | src/abort/abort_manager.cpp:633-650 | completes on a verified recovery, else waits for the reconnect |
| AbortManager.Manager.Answered | src/abort/abort_manager.cpp:508-650 | ignores a reply of an earlier generation, else the transition of that reply |
| AbortManager.Manager.TimerFired | src/abort/abort_manager.cpp:822-870 | a one-shot timer leaves the loop and its callback makes the guard of its kind let go |
| AlsaHandoff.HandoffExactly | src/system/alsa_sound_backend.cpp:318-346 | acknowledgements never pass requests; between a resume's number and its acknowledgement lies exactly one whole pass, the rest of one, or no rendering, by where the number was issued |
| AlsaHandoff.HandedOffWithoutAPass | include/alsa_sound_backend.h:96-110 | a reachable run of two callers in which a resume returns handed off with no pass started or written after its number was issued |
| AlsaHandoff.NoLostWakeUp | src/system/alsa_sound_backend.cpp:387-397 | in every interleaving a render thread that sleeps unnotified was asked to, or a caller still owes it a notification |
| AlsaHandoff.SuspendIsAnswered | src/system/alsa_sound_backend.cpp:348-397 | after any run in which a suspend stands, at most eleven own steps of the render thread park it |
| AlsaHandoff.SuspendStopsRendering | src/system/alsa_sound_backend.cpp:391-394 | while a suspend stands, whatever callers and spurious wake-ups do, no pass is begun but one the thread had passed its test for, and none once it has parked |
| AlsaHandoff.ShutdownIsAnswered | src/system/alsa_sound_backend.cpp:200-226 | once the loop is to stop and no notification is owed, at most six own steps of the render thread leave it |
| AlsaHandoff.OnlyNotificationsWake | src/system/alsa_sound_backend.cpp:387-397 | a sleeping thread wakes by a resume's or a shutdown's notification or spuriously, and by nothing else |
| AlsaHandoff.ResumeCall | src/system/alsa_sound_backend.cpp:318-346 | a whole resume with the mutex free lifts the suspend, issues the next number, wakes the sleeper and waits only on a live thread; a second one finds nothing suspended |
| AlsaHandoff.WaitsEnd | src/system/alsa_sound_backend.cpp:339-346 | a waiting resume returns on its acknowledgement or a stopped thread, its timer always ends the wait, and who has returned may call again |
| AlsaHandoff.ShutdownCall | src/system/alsa_sound_backend.cpp:200-213 | a whole shutdown with the mutex free clears the running flag and the suspend and wakes the sleeper |
| AlsaHandoff.ResumeIsAnswered | src/system/alsa_sound_backend.cpp:348-500 | with no suspend standing and no notification owed, at most eight own steps of the render thread acknowledge every resume |
| AlsaHandoff.KeepAliveNeverParks | src/system/alsa_sound_backend.cpp:302-316 | on a sink that re-locks the thread never parks and resume is a no-op |
| AlsaHandoff.RunKeepsHandoff | src/system/alsa_sound_backend.cpp:318-500 | the handoff invariant is kept by every step of every caller and of the render thread |
| AlsaHandoff.RunKeepsWake | src/system/alsa_sound_backend.cpp:302-405 | the wake-up invariant is kept by every step |
| AlsaStream.WrittenIsPlayedOrQueued | src/system/alsa_sound_backend.cpp:370-405 | frames accepted equal frames played, queued and discarded, for any sizes, writes, ticks, parks and resumes, underruns included; none is discarded if and only if no resumed park failed to start a stream that needed it |
| AlsaStream.HandedIsAcceptedOrRefused | src/system/alsa_sound_backend.cpp:470-484 | over any operations every frame handed over is accepted or refused |
| AlsaStream.TicksPlay | src/system/alsa_sound_backend.cpp:130-150 | a running stream plays what is queued as time passes, and underruns as it plays the last frame |
| AlsaStream.ParkLeavesItStill | src/system/alsa_sound_backend.cpp:370-405 | after a park the device is drained and still unless a start it needed failed, and a resume has it prepared with nothing queued |
| AlsaStream.StartIsNeededExactly | src/system/alsa_sound_backend.cpp:557-559 | the start is asked for if and only if draining alone would leave frames for the next prepare, always fewer than the start threshold |
| AlsaStream.ParkDiscardsOnlyOnFailedStart | src/system/alsa_sound_backend.cpp:374-405 | a park and resume discards frames if and only if a start was needed and failed |
| AlsaStream.OnlyAPlayingStreamBlocks | src/system/alsa_sound_backend.cpp:130-150 | a write can block only on a stream that is playing |
| AlsaStream.DrainAloneSwallows | include/alsa_sound_backend.h:62-73 | without the start a sound below the threshold is swallowed whole, with it played whole |
| AlsaStream.RenderThread.WritePass | src/system/alsa_sound_backend.cpp:470-484 | a write queues its frames, starting the stream at the threshold, or recovers from an underrun |
| AlsaStream.RenderThread.ParkDevice | src/system/alsa_sound_backend.cpp:370-386 | the park starts a stream that needs it and drains; nothing is queued after it |
| AlsaStream.RenderThread.DrainDevice | src/system/alsa_sound_backend.cpp:383-386 | a running stream is played out, one never started is left |
| AlsaStream.RenderThread.PrepareDevice | src/system/alsa_sound_backend.cpp:398-403 | whatever is queued is discarded and counted |
| OwnWrite.ReboundExactly | src/printer/lane_binding.cpp:39-54 | a frame is a re-bind if and only if it names a spool other than the declared one and not the stale id of an expected write |
| OwnWrite.DeclarationSurvivesExactly | src/printer/ams_backend.cpp:367-397 | a declaration survives a series of frames if and only if each names the written id, the original id before the first echo, or no spool where that is no eject |
| OwnWrite.EchoIsSpentOnce | src/printer/ams_backend.cpp:367-386 | the echo ends the expectation, and the next frame with another id is a re-bind |
| OwnWrite.ExpectationEndsExactly | src/printer/ams_backend.cpp:367-386 | over any frames, the expectation ends with the first that names the id written or any spool but the original, and not before |
| OwnWrite.OthersAreSeen | src/printer/ams_backend.cpp:387-398 | another writer's id drops the declaration unless it is the declared one or the stale one of a write still expected; an emptied lane exactly where that is an eject |
| OwnWrite.EditsReachTheFirmware | src/printer/ams_backend.cpp:348-365 | an edit of a settled lane reaches the firmware; only an unlink of a lane that shows nothing sends nothing |
| OwnWrite.OwnWritesAreNeverRebinds | include/ams_backend.h:3721-3766 | one write under way at a time and no other writer: no late frame is ever a re-bind, and the lane declares the last edit wherever an empty lane is no eject |
| OwnWrite.LoneRun | src/printer/ams_backend.cpp:348-397 | the invariant behind it over every such run |
| OwnWrite.ChainKeepsTheOriginal | src/printer/ams_backend.cpp:348-365 | a series of links of any length made on any lane leaves the expectation running from the original id to the last one |
| OwnWrite.DeliveryIsReadings | src/printer/ams_backend.cpp:387-398 | while writes land and frames come, only what the frames read decides the declaration |
| OwnWrite.ChainSurvivesExactly | include/ams_backend.h:3746-3753 | a chain of any length survives its delivery if and only if each frame reads the last id, the original before the last was first seen, or no spool where that is no eject |
| OwnWrite.ChainBreaksOnItsMiddle | include/ams_backend.h:3746-3753 | an instance: 42 to 169 to 180, and 169 reported on its own drops the declaration of 180 |
| OwnWrite.LinkOfAnEmptyLaneIsEjected | src/printer/lane_binding.cpp:56-66 | a link of an empty lane is dropped by the first frame exactly where ids are reported and ejects clear |
| OwnWrite.Backend.RecordOwnSpoolWrite | src/printer/ams_backend.cpp:348-365 | records, chains or drops this slot's expectation and no other's |
| OwnWrite.Backend.OwnWriteExpectation | src/printer/ams_backend.cpp:367-386 | consults and possibly ends this slot's expectation, returning the pair left |
| OwnWrite.Backend.ReconcileLaneBinding | src/printer/ams_backend.cpp:387-398 | the verdict of the frame, with the declaration dropped when it no longer holds |
| SeatedStamp.UndoesExactly | src/printer/ams_backend_cfs.cpp:2033-2048 | an event keeps "undoing gives the parsed slots" if and only if it is not a lane record painted under the stamp on the bay of an absent box last sensed to hold filament; an edit never breaks it |
| SeatedStamp.AlwaysUndoneExactly | src/printer/ams_backend_cfs.cpp:1074-1144 | over any run of either backend undoing gives at every moment what a parser that never stamps holds, if and only if no record was painted so |
| SeatedStamp.UndoneIsWhatWasParsed | src/printer/ams_backend_ace.cpp:2236-2332 | with no condition on an ACE, resizes and resets under the stamp included, and on a CFS for any frames, optimistic writes, edits and records for bays whose box is on the bus |
| SeatedStamp.PaintingAReportingBay | src/printer/ams_backend_cfs.cpp:1399-1417 | a bay that reports was sensed as its status says, so painting it from its lane changes nothing the parser holds |
| SeatedStamp.RunIsTold | src/printer/ams_backend_cfs.cpp:1399-1417 | and that holds in every reachable state, placeholders of absent boxes being empty or painted |
| SeatedStamp.ConvergingChangesNothing | src/printer/ams_backend_cfs.cpp:1917-1981 | the pass over the lanes at the end of a frame states nothing the frame did not |
| SeatedStamp.TheDroppedSeat | src/printer/cfs_status_parse.cpp:214-245 | a reachable run: a box drops off the bus during the load of its bay, which stays the seat |
| SeatedStamp.AbsentSeatIsLost | src/printer/ams_subscription_backend.cpp:346-394 | the failing case: its stored record is read again, the parser shows filament and undoing brings EMPTY back |
| SeatedStamp.RebuildHeals | src/printer/ams_backend_cfs.cpp:1074-1144 | whatever was lost, the next frame that names the bays makes undoing exact again |
| SeatedStamp.OnlyTheSeatIsStamped | src/printer/ams_backend_cfs.cpp:2050-2070 | after a frame only the aggregate's seated slot differs from the parse, and it is stamped exactly when filament is published as loaded |
| SeatedStamp.RebuildStates | src/printer/ams_backend_cfs.cpp:1074-1144 | a frame that describes the bays states every one: those of an absent box are empty and keep their reading |
| SeatedStamp.PaintStates | src/printer/ams_subscription_backend.cpp:388-394 | painting a slot from its lane empties it if sensed empty and makes an empty or unknown one available if sensed to hold filament; a frame paints no absent bay |
| SeatedStamp.SizesState | src/printer/ams_backend_ace.cpp:2236-2332 | a resize keeps the slots that stay, makes new ones unknown and drops the rest; a count that differs makes all unknown |
| SeatedStamp.EditShowsExactly | src/printer/ams_backend.cpp:530-532 | an edit changes what is shown if and only if it is of the stamped bay that reported itself empty, which then shows EMPTY until the next frame |
| SeatedStamp.Backend.ClearSeatedSlotStamp | src/printer/ams_backend_ace.cpp:1250-1265 | restores the saved status only over a stamp still visible |
| SeatedStamp.Backend.ApplySeatedSlotStamp | src/printer/ams_backend_ace.cpp:1267-1288 | undoes, publishes the seat, saves and stamps; reports whether the published seat changed |
| SeatedStamp.Backend.RepaintSlotFromLane | src/printer/ams_subscription_backend.cpp:388-394 | narrows the status by the lane's sensed reading, an absent box's bay included |
| SeatedStamp.Backend.EditSlot | src/printer/ams_backend_cfs.cpp:2378-2392 | refused off the range and on an absent box, else painted from the lane |
| AfcEject.OneAtATime | src/printer/ams_backend_afc.cpp:4990-5065 | in every interleaving at most one LANE_UNLOAD is under way, and an idle line has nothing waiting |
| AfcEject.EveryRequestHasOneFate | src/printer/ams_backend_afc.cpp:4990-5092 | each request is in exactly one place exactly once: waiting, claiming, dispatched, unsent, merged or discarded |
| AfcEject.FirstAskedFirstServed | src/printer/ams_backend_afc.cpp:4996-5062 | dispatched, claiming and waiting requests are in the order asked |
| AfcEject.EverythingIsServed | src/printer/ams_backend_afc.cpp:5052-5064 | if dispatches complete, everything accepted is dispatched in order and the line falls idle |
| AfcEject.MergedExactly | src/printer/ams_backend_afc.cpp:4996-5002 | over any run a request is merged if and only if the last one waiting when it was made was for the same lane |
| AfcEject.EveryAskIsDispatched | src/printer/ams_backend_afc.cpp:4990-5065 | a run that asks for no lane twice in a row merges nothing, and with a connection and no discard every request asked for is dispatched exactly once, in the order asked |
| AfcEject.DiscardDropsTheWaiting | src/printer/ams_backend_afc.cpp:5075-5092 | what waits when the queue is discarded is never dispatched, and the one in flight keeps the line |
| AfcEject.NoConnectionStrandsNobody | src/printer/ams_backend_afc.cpp:5013-5018 | without a connection the completions inside the dispatch empty the whole queue |
| AfcEject.EjectQueue.EnqueueLaneUnload | src/printer/ams_backend_afc.cpp:4991-5011 | queues behind the one in flight, merging a repeat tap, or claims and dispatches |
| AfcEject.EjectQueue.DispatchLaneUnload | src/printer/ams_backend_afc.cpp:5013-5050 | dispatches, or completes at once without a connection |
| AfcEject.EjectQueue.OnLaneUnloadDone | src/printer/ams_backend_afc.cpp:5052-5064 | hands the line on, or lets it fall idle |
| AfcEject.EjectQueue.LaneUnloadAnswered | src/printer/ams_backend_afc.cpp:5022-5045 | a response, error or timeout completes the dispatch |
| AfcEject.EjectQueue.DiscardPending | src/printer/ams_backend_afc.cpp:5075-5091 | cancel and fault clear drop what waits and leave the one in flight |
| AfcAction.LatchEndsExactly | src/printer/ams_backend_afc.cpp:1537-1560 | the stuck-action latch ends if and only if another token is reported, the fault is cleared or a dispatch begins, and until then every frame publishes ERROR |
| AfcAction.RepeatsPublishError | src/printer/ams_backend_afc.cpp:1537-1560 | over any run: once latched, each frame repeating the state publishes ERROR whatever came between |
| AfcAction.OnlyABusyStateIsLatched | src/printer/ams_backend_afc.cpp:1624-1637 | in every reachable state a latched token is AFC's own busy state, never Idle |
| AfcAction.AStuckStateIsLatched | src/printer/ams_backend_afc.cpp:1562-1637 | a state AFC repeats past its budget ends up latched: no frame, poll or late ack restarts its clock |
| AfcAction.SupersededAcksChangeNothing | src/printer/ams_backend_afc.cpp:1684-1735 | acks and failures of superseded dispatches can be deleted from any run without changing its end |
| AfcAction.TakenOverAcksChangeNothing | src/printer/ams_backend_afc.cpp:1457-1470 | after AFC reported a busy state the ack of the dispatch changes nothing |
| AfcAction.ChangeInProgressExactly | src/printer/ams_backend_afc.cpp:2076-2096 | after any run a change is in progress if and only if some frame newly named a lane other than the one then at the toolhead with no error standing, and since then no frame cleared or emptied the next lane, newly named the lane at the toolhead or carried an error, and no hold ran out; all by the keys of the frames |
| AfcAction.IdleIsPublishedExactly | src/printer/ams_backend_afc.cpp:1487-1526 | after any run an Idle frame over a working action publishes IDLE if and only if, by the keys of the frames, no change is under way after it; otherwise the action held or standing is published |
| AfcAction.NoIdleMidChange | include/ams_backend_afc.h:758-783 | between the legs of one change IDLE is never published, over any number of legs, whatever is dispatched meanwhile and whatever acks come that answer nothing still pending |
| AfcAction.FrameFailsExactly | src/printer/ams_backend_afc.cpp:1450-1637 | a frame inside a change publishes ERROR or PAUSED if and only if it repeats a latched state, reports one of the two, or finds a busy state of AFC past its budget |
| AfcAction.HoldsExactly | src/printer/ams_backend_afc.cpp:1487-1526 | a frame takes a hold exactly on AFC's Idle inside a change over a working action, keeps it exactly while AFC stays Idle inside the change, and one that ends so publishes IDLE |
| AfcAction.StuckExactly | src/printer/ams_backend_afc.cpp:1562-1637 | an action AFC drives is latched at a poll exactly once it has stood for its budget: 300, 240, 180 or 120 seconds by action |
| AfcAction.ADispatchTimesOut | src/printer/ams_backend_afc.cpp:1605-1637 | a dispatch AFC never took up shows ERROR exactly once its budget is spent, latches nothing, and its late ack or failure changes nothing |
| AfcAction.ClearingRestartsTheClock | src/printer/ams_backend_afc.cpp:1537-1560 | a fault clear lets go of the latch and starts the clock anew |
| AfcAction.DispatchIsAnswered | src/printer/ams_backend_afc.cpp:1639-1735 | a dispatch shows its action under a new generation; its own ack, failure, failed send or a restart make it Idle, and those of another generation do nothing |
| AfcAction.FailureOfAHiddenDispatch | src/printer/ams_backend_afc.cpp:1684-1696 | a failure is of the pending dispatch even where its action no longer shows, an ack is not |
| AfcAction.RestartEndsTheBusy | src/printer/ams_backend_afc.cpp:5066-5073 | a restart of Klipper ends what is busy, leaves the rest, and no dispatch survives it |
| AfcAction.SilentFrameKeeps | src/printer/ams_backend_afc.cpp:1761-2198 | a frame that says nothing of the state, outside a change, leaves an action within its budget and its clock alone |
| AfcAction.RunKeeps | src/printer/ams_backend_afc.cpp:1450-1735 | hold, latch and pending dispatch agree about who drives the action in every reachable state |
| AfcAction.Backend.ApplyStateString | src/printer/ams_backend_afc.cpp:1450-1484 | the mapped action, the raw token, and a pending dispatch handed over unless Idle |
| AfcAction.Backend.ApplyToolchangeHold | src/printer/ams_backend_afc.cpp:1487-1526 | holds, keeps or releases |
| AfcAction.Backend.ApplyTimeoutLatch | src/printer/ams_backend_afc.cpp:1537-1560 | re-asserts ERROR or releases |
| AfcAction.Backend.CheckActionTimeout | src/printer/ams_backend_afc.cpp:1562-1637 | the hold's own bound, then the action's budget, latching only what AFC drives |
| AfcAction.Backend.ApplyAfcState | src/printer/ams_backend_afc.cpp:1761-2198 | one frame, its clock stamped only if the action changed across it |
| AfcAction.Backend.BeginDispatch | src/printer/ams_backend_afc.cpp:1639-1682 | a new generation supersedes the pending dispatch and the latch |
| AfcAction.Backend.FinalizeDispatch | src/printer/ams_backend_afc.cpp:1698-1734 | an ack resolves its own untouched dispatch and nothing else |
| AfcDrain.AtMostTenClears | include/ams_backend_afc.h:1339-1371 | one fault clear sends at most ten clears, however frames fall |
| AfcDrain.SentExactly | src/printer/ams_backend_afc.cpp:531-610 | from a fault clear on, whatever came before: one clear at once and one for each frame in time that names a message, up to ten in all |
| AfcDrain.NothingAfterTheEnd | src/printer/ams_backend_afc.cpp:1886-1903 | nothing is sent after the queue was seen empty, or after a message past the deadline, until the next fault clear |
| AfcDrain.LateFramesSendNothing | src/printer/ams_backend_afc.cpp:587-591 | frames past the deadline send nothing |
| AfcDrain.FaultClearEmptiesExactly | src/printer/ams_backend_afc.cpp:512-576 | against a FIFO queue one fault clear empties it if and only if it is at most ten deep and no two neighbours are equal |
| AfcDrain.ExchangeLeaves | src/printer/ams_backend_afc.cpp:578-610 | otherwise what is left is the queue past the budget |
| AfcDrain.Backend.FaultClear | src/printer/ams_backend_afc.cpp:531-574 | arms budget and deadline and sends the first clear |
| AfcDrain.Backend.NoteMessage | src/printer/ams_backend_afc.cpp:1880-1903 | a message re-arms, an empty one disarms |
| AfcDrain.Backend.MaybeDrainMessageQueue | src/printer/ams_backend_afc.cpp:578-610 | sends one clear, or retires a stale arm |
| AfcBuffer.ApplyMerges | src/printer/afc_status_parse.cpp:532-577 | applying two deltas is applying their merge |
| AfcBuffer.SplitReportsAgree | include/afc_status_parse.h:228-254 | a report split into any sequence of partial frames leaves the same record |
| AfcBuffer.RecordIsWhatWasSaid | src/printer/ams_backend_afc.cpp:2801-2826 | after any run a buffer has a record if and only if some frame named it, and the record is what all its frames said put together, rebuilds or not |
| AfcBuffer.MotionFollowsState | src/printer/afc_status_parse.cpp:532-577 | over any deltas the motion is the one the state names |
| AfcBuffer.StepDerivedExactly | src/printer/ams_backend_afc.cpp:2904-2942 | after a step the unit view equals the re-derivation from the records if and only if the step leaves no unit with a reading nobody leads to |
| AfcBuffer.ViewIsDerived | include/ams_backend_afc.h:1036-1047 | after any run, the view is the derived one after a rebuild of two or more units, and after a frame exactly if every unit that showed a reading is still led to; a rebuild of one unit changes nothing |
| AfcBuffer.DerivedViewIsUnique | include/ams_backend_afc.h:1478-1491 | with one buffer to a unit the view is a function of the records alone |
| AfcBuffer.MovedBufferLeavesItsReading | src/printer/ams_backend_afc.cpp:2801-2826 | a buffer whose lanes move to another unit leaves its old reading on the first |
| AfcBuffer.Backend.ApplyBuffer | src/printer/ams_backend_afc.cpp:2801-2826 | folds the delta into the record and re-attaches every record |
| AfcBuffer.Backend.ApplyBufferHealthToUnits | src/printer/ams_backend_afc.cpp:2904-2942 | each record goes to the unit of its first known lane, later ones over earlier |
| AfcBuffer.Backend.FindUnit | src/printer/ams_backend_afc.cpp:2910-2920 | the first lane that belongs to a unit decides |
| AfcBuffer.Backend.ReorganizeSlots | src/printer/ams_backend_afc.cpp:4286-4415 | with two or more units they are made anew and the view derived from the records; with fewer everything stays |
| AfcLane.LaneSplitsExactly | src/printer/ams_backend_afc.cpp:2240-2420 | two partial frames leave the lane as their merged frame would if and only if the later does not speak of the filament without repeating the earlier, and no zero weight or full weight is cut from what admits it |
| AfcLane.StatusSplitsExactly | src/printer/afc_status_parse.cpp:306-325 | the status part: exactly when the later frame loses neither the toolhead nor the hub |
| AfcLane.RemainingSplitsExactly | src/printer/ams_backend_afc.cpp:2350-2370 | the remaining weight: exactly when no zero is cut from the colour or material that makes it a reading |
| AfcLane.TotalSplitsExactly | src/printer/ams_backend_afc.cpp:2372-2392 | the full weight: exactly when it is not cut from the link it needs |
| AfcLane.IdentityAndSensorsSplit | src/printer/ams_backend_afc.cpp:3738-3800 | identity, link, sensors and temperatures come out the same however a report is cut |
| AfcLane.TextsAreLastSaid | src/printer/ams_backend_afc.cpp:3738-3800 | after any frames material, spool name and brand are the last ones said |
| AfcLane.NumbersAreLastSaid | src/printer/ams_backend_afc.cpp:2240-2420 | the link and the temperatures are the last ones said, 0 for null, and the spool id is a link that is positive |
| AfcLane.ColorIsLastSaid | src/printer/ams_backend_afc.cpp:3738-3800 | the colour is the last one read, a frame with no reading saying nothing |
| AfcLane.SensorsAreLastSaid | src/printer/ams_backend_afc.cpp:2240-2420 | the switches are the last ones said |
| AfcLane.StatusIsRead | src/printer/afc_status_parse.cpp:291-325 | a frame that speaks of the filament says it is at the toolhead, at the hub or a switch, or gone; any other leaves the status |
| AfcLane.WeightsAreTaken | src/printer/ams_backend_afc.cpp:2350-2392 | a weight is taken unless it is a zero on a lane with neither material nor colour; a full weight only beside a link |
| AfcLane.CutsAgreeExactly | include/afc_status_parse.h:53-56 | any number of frames leave the lane as their merged frame would if and only if none of the three parts below shows the cuts |
| AfcLane.StatusCutExactly | src/printer/afc_status_parse.cpp:306-325 | the status of any number of frames: exactly unless the last that speaks of the filament loses what the ones before it told |
| AfcLane.RemainingCutExactly | src/printer/ams_backend_afc.cpp:2350-2370 | the remaining weight: exactly unless what follows the last weight flips its zero |
| AfcLane.TotalCutExactly | src/printer/ams_backend_afc.cpp:2372-2392 | the full weight: exactly unless the one last taken is not what the merged frame takes or keeps |
| AfcLane.PrepAloneUnseats | src/printer/afc_status_parse.cpp:291-292 | a lane at the toolhead whose prep sensor alone is reported next is shown as available |
| AfcLane.LaneRecord.ApplyLaneIdentity | src/printer/ams_backend_afc.cpp:3738-3800 | omitted keys keep, cleared ones reset |
| AfcLane.LaneRecord.ApplyLaneStatus | src/printer/ams_backend_afc.cpp:2240-2420 | one frame, weights admitted by the record as it then stands |
| IfsRunout.FaultExactly | src/printer/ams_backend_ad5x_ifs.cpp:6232-6385 | the fault is shown if and only if a seen present-to-absent edge armed it with nothing under way, it was confirmed long enough later on a paused quiet print, and nothing has ended it since |
| IfsRunout.FaultNeedsFilamentFirst | src/printer/ams_backend_ad5x_ifs.cpp:6245-6252 | a printer that starts with an empty head reports nothing until filament was seen |
| IfsRunout.CandidateIsAnEdge | src/printer/ams_backend_ad5x_ifs.cpp:6232-6260 | while nothing disarms it, the candidate is the time of its edge |
| IfsRunout.ActionFollowsTheFault | src/printer/ams_backend_ad5x_ifs.cpp:6283-6385 | over every step a fault raised publishes ERROR, one that ends takes back only its own, and a recovery makes it IDLE |
| IfsRunout.SuppressionIsIdle | src/printer/ams_backend_ad5x_ifs.cpp:6322-6330 | the dispatch guard never decides: a confirmed candidate is always past it |
| IfsRunout.WindowAfterADispatchIsReported | include/ams_backend_ad5x_ifs.h:1078-1083 | a window opening one second after a dispatch is raised thirty seconds later |
| IfsRunout.Detector.NoteHeadSwitchReading | src/printer/ams_backend_ad5x_ifs.cpp:6232-6260 | arms on the edge only, and returning filament clears candidate and fault |
| IfsRunout.Detector.NoteFilamentOpDispatch | src/printer/ams_backend_ad5x_ifs.cpp:6262-6267 | stamps the dispatch and drops the candidate |
| IfsRunout.Detector.EvaluateRunout | src/printer/ams_backend_ad5x_ifs.cpp:6283-6364 | raises or clears the fault, telling whether it did |
| IfsRunout.Detector.ClearFault | src/printer/ams_backend_ad5x_ifs.cpp:6366-6385 | drops the fault back to idle |
| CfsRunoutStrip.CapturedExactly | src/printer/ams_backend_cfs.cpp:4961-5001 | a lane is captured if and only if an episode is open: a witnessed rise with a bay active, no clear and no strip since; never the bypass |
| CfsRunoutStrip.LinkedExactly | src/printer/ams_backend_cfs.cpp:5003-5069 | after any run a bay is linked if and only if its last link stands: no clear of its record and no strip of it since |
| CfsRunoutStrip.StripsExactly | src/printer/ams_backend_cfs.cpp:5003-5069 | a pass strips a lane if and only if it is the open episode's, reads empty and has a link; no other, and once |
| CfsRunoutStrip.StripsInjectIntoRises | include/ams_backend_cfs.h:1011-1032 | different strips have different rises, the later one's after the earlier strip |
| CfsRunoutStrip.EachStripHasItsRise | include/ams_backend_cfs.h:1034-1055 | each strip has exactly one rise |
| CfsRunoutStrip.NoClearNoStrip | src/printer/ams_backend_cfs.cpp:4978-4984 | a session that starts tripped and never sees the latch clear captures nothing |
| CfsRunoutStrip.PassExactly | src/printer/ams_backend_cfs.cpp:1917-1981 | a pass over the bays in any order strips at most the captured lane |
| CfsRunoutStrip.Backend.UpdateRunoutEpisode | src/printer/ams_backend_cfs.cpp:4961-5001 | captures on a witnessed rise, ends the episode on a clear |
| CfsRunoutStrip.Backend.StripSpoolmanLink | src/printer/ams_backend_cfs.cpp:5003-5069 | drops the link of the captured empty lane and consumes the episode |
| CfsRunoutStrip.Backend.ConvergeLanes | src/printer/ams_backend_cfs.cpp:1917-1981 | the pass over present bays whose record was not cleared |
| CfsPrintMap.PrintMapGcode | src/printer/ams_backend_cfs.cpp:3287-3311 | the text reads back, in ascending order, to exactly the used tools routed by remap over identity; "" exactly when there is nothing to map |
| CfsPrintMap.TextReadsBack | src/printer/ams_backend_cfs.cpp:3306-3310 | printing and reading the entries undo each other |
| CfsPrintMap.Resolve | src/printer/ams_backend_cfs.cpp:3289-3302 | the ordered map routed, and whether an entry is off its own slot |
| CfsPrintMap.CheckPreprintRemap | src/printer/ams_backend_cfs.cpp:3265-3281 | refuses if and only if a carried off-own-slot entry names a slot unknown or disconnected |
| CfsPrintMap.RefusalIsOfACarriedEntry | include/ams_backend_cfs.h:361-367 | what is refused for would have been in the map |
| CfsPrintMap.BuildPreprintGcode | src/printer/ams_backend_cfs.cpp:3251-3263 | nothing without map support, the clear when refused or empty, else the map |
| CfsPrintMap.MapInForceIsItsOwn | src/ui/ui_print_start_controller.cpp:404-480 | whatever is left pending, the map in force for a print started here is its own or none, without map support exactly if nothing is pending |
| CfsPrintMap.NoStaleMap | include/ams_backend_cfs.h:352-360 | over any sequence of starts the map in force is the last printing start's own |
| CfsPrintMap.FailedStartsTouchNoPrint | src/ui/ui_print_start_controller.cpp:426-436 | a start that does not print leaves the print under way alone |
| CfsPrintMap.ElsewhereTakesExactly | include/ams_backend_cfs.h:369-382 | after any starts, a print loaded from elsewhere takes the map of the last start whose text reached the firmware, answered or not, and none if that start printed; with no such start, what was pending before |
| CfsPrintMap.ElsewhereTakesTheLeftover | include/ams_backend_cfs.h:352-360 | an instance: tool 0 sent to bay 1, its answer lost, and the next print from elsewhere is fed from bay 1 |
| MultiAce.EachLoadHasOneFate | src/printer/ams_backend_multiace.cpp:1037-1114 | every load asked for is waiting or has one fate, never both or neither |
| MultiAce.FatesStand | src/printer/ams_backend_multiace.cpp:1037-1114 | a fate once reached stays |
| MultiAce.SendsExactly | src/printer/ams_backend_multiace.cpp:1048-1114 | a step sends a load if and only if it is a frame showing the head's source null and latch clear, under a driving engine, in time, with no print holding the heads |
| MultiAce.EverySendHasItsFrame | include/ams_backend_multiace.h:174-190 | over any run each load sent was released by such a frame |
| MultiAce.NoLoadIsSentTwice | src/printer/ams_backend_multiace.cpp:1048-1114 | each load is sent at most once, in order |
| MultiAce.AnsweredLoadsEnd | include/ams_backend_multiace.h:187-190 | an answer sends nothing, and any frame after its window ends the load unsent |
| MultiAce.LoadBayExactly | src/printer/ams_backend_multiace.cpp:853-1011 | a load of a bay waits behind an unload exactly if the head has another source on record, goes out at once exactly if the head shows neither filament nor source, and is refused otherwise; the load before it is dropped only when something went out |
| MultiAce.DropsExactly | src/printer/ams_backend_multiace.cpp:1037-1046 | outside a frame a waiting load is dropped exactly by another operation that went out, a restart, or the failure of its own unload |
| MultiAce.WindowIsTheAnswers | src/printer/ams_backend_multiace.cpp:983-1003 | over any run a waiting load's window is open if and only if its unload was answered, counted from the last answer |
| MultiAce.DroppedLoadsEndTheBar | src/printer/ams_backend_multiace.cpp:529-555 | the progress bar follows the waiting load, and every drop ends it |
| MultiAce.BarIsHistory | src/printer/ams_backend_multiace.cpp:529-548 | over any run, while the bar shows a swap it has seen progress, its load sent, and the load half exactly if frames and sends since it began say so |
| MultiAce.BarEndsExactly | src/printer/ams_backend_multiace.cpp:529-555 | the bar ends exactly with a drop of its load, a new load whose unload did not go out, an error, or a rest after the load half |
| MultiAce.Backend.LoadBayIntoHead | src/printer/ams_backend_multiace.cpp:853-1011 | for a load that names a bay: refuses, loads at once, or waits behind the unload, superseding an earlier wait |
| MultiAce.Backend.UnloadAnswered | src/printer/ams_backend_multiace.cpp:983-1003 | opens the window, or drops the load on a failure |
| MultiAce.Backend.TrackSwap | src/printer/ams_backend_multiace.cpp:529-548 | which half runs, and its end |
| MultiAce.Backend.AdvancePendingLoad | src/printer/ams_backend_multiace.cpp:1048-1114 | sends, drops or goes on waiting |
| MultiAce.Backend.CancelPendingLoad | src/printer/ams_backend_multiace.cpp:1037-1046 | drops the waiting load and ends its bar |
| MultiAce.Backend.HandleStatus | src/printer/ams_backend_multiace.cpp:1013-1030 | frame, tracking, then release |
| MediaRetry.AtMostTenAttempts | src/print/active_print_media_manager.cpp:828-874 | at most ten loads between refunds of the budget, whatever fails in whatever order |
| MediaRetry.OnlyTheTimerLoads | src/print/active_print_media_manager.cpp:916-931 | between refunds a load starts if and only if a retry fires for the current file and newest load, unfetched |
| MediaRetry.LoadsExactly | src/print/active_print_media_manager.cpp:420-463 | over every event: who loads, for which file, and with the image left out exactly if one is shown for it |
| MediaRetry.LadderExactly | src/print/active_print_media_manager.cpp:900-935 | over every event that is no failure: the budget is given back by those that refund it, and the armed retry goes with it, with the file or as it fires |
| MediaRetry.StaleCallbacksPublishNothing | src/print/active_print_media_manager.cpp:226-234 | a superseded load's callback publishes, schedules and claims nothing |
| MediaRetry.ShownExactly | src/print/active_print_media_manager.cpp:183-205 | the shown image changes only by a path handed over, the newest load's image, or the placeholder for a new file |
| MediaRetry.NeverPublishesEmpty | include/active_print_media_manager.h:55-66 | over any run the published path is never empty if and only if no fetch of a newest load completes with an empty one |
| MediaRetry.FetchedExactly | src/print/active_print_media_manager.cpp:190-205 | only a completed fetch claims one, and a pre-set path withdraws the claim |
| MediaRetry.OriginExactly | src/print/active_print_media_manager.cpp:183-463 | over every event the origin changes by a completed fetch, a path set directly, a released identity, a new file, and a load that finds its image shown |
| MediaRetry.ExtractionExactly | src/print/active_print_media_manager.cpp:226-285 | over every event the extraction under way begins by one begun and ends by its own end, a load made or a clean slate |
| MediaRetry.DownloadsExactly | src/print/active_print_media_manager.cpp:252-285 | over every event a header is asked for exactly as an extraction begins, never while one of the file is on record as under way |
| MediaRetry.KnownEmptyExactly | src/print/active_print_media_manager.cpp:252-336 | a header is known to hold nothing from its permanent failure until a new file, a confirmed print that loads again or a completed fetch |
| MediaRetry.RetriggerLoadsExactly | src/print/active_print_media_manager.cpp:1079-1089 | a notification starts a fresh load unless the image was fetched; a pre-set path does not stop it |
| MediaRetry.NothingIsSupersededSilently | src/print/active_print_media_manager.cpp:843-858 | a pending retry always belongs to the current file and newest load, and a pending extraction's success always publishes |
| MediaRetry.RetryIsArmedExactly | src/print/active_print_media_manager.cpp:828-874 | over every event, a retry is armed if and only if the newest load fails for the file that is current, with budget left and none armed; it names that file and load |
| MediaRetry.MovedFilesAreTriedOnce | src/print/active_print_media_manager.cpp:1056-1069 | a file loaded from where it moved to gets no retry |
| MediaRetry.Manager.SetThumbnailPath | src/print/active_print_media_manager.cpp:190-205 | publishes the path or the placeholder, recovery still armed |
| MediaRetry.Manager.LoadThumbnailForFile | src/print/active_print_media_manager.cpp:420-463 | a new generation, the image skipped when one is shown for the file |
| MediaRetry.Manager.SelfServeFromGcode | src/print/active_print_media_manager.cpp:252-285 | starts one extraction, never for a file known to hold nothing |
| MediaRetry.Manager.ScheduleThumbnailRetry | src/print/active_print_media_manager.cpp:828-874 | arms one retry, or gives up to the header, or defers to one under way |
| MediaRetry.Manager.ProcessFilename | src/print/active_print_media_manager.cpp:338-417 | a new file gets a clean slate and a fresh budget |
| MediaRetry.Manager.RetryTimerFired | src/print/active_print_media_manager.cpp:908-931 | reloads only for the file and load it was asked for |
| MediaRetry.Manager.RetriggerThumbnailLoad | src/print/active_print_media_manager.cpp:1079-1089 | refunds and reloads |
| MediaRetry.Manager.ImageArrived | src/print/active_print_media_manager.cpp:220-249 | publishes and disarms, if not superseded |
| QidiThumbs.PlateHoldsItsMember | config/qidi_3mf_thumbs.py:48-85 | a stale plate gets the data of the last archive member that maps to it |
| QidiThumbs.PlateOfItsName | config/qidi_3mf_thumbs.py:58-66 | for every k and every size within the limit, the member named plate k is plate k |
| QidiThumbs.ThumbPathsDiffer | config/qidi_3mf_thumbs.py:40-45 | two plates of one archive go to two files |
| QidiThumbs.DestinationBearsTheName | config/qidi_3mf_thumbs.py:40-66 | a member is a plate exactly if its name is the plate pattern and it is small enough; without leading zeros its file bears its name, but for a newline at the end |
| QidiThumbs.WritesMakeParents | config/qidi_3mf_thumbs.py:75-84 | writing makes the directories a file needs and no others |
| QidiThumbs.ExtractTouchesPlatesOnly | config/qidi_3mf_thumbs.py:88-111 | extraction changes nothing but plate files below .thumbs |
| QidiThumbs.WalkTakesExactly | config/qidi_3mf_thumbs.py:92-98 | the walk takes exactly the files named like an archive, in either case, below no hidden directory |
| QidiThumbs.UnreadableExactly | config/qidi_3mf_thumbs.py:99-111 | the archives left for the retry are exactly those that cannot be read, where no two share a thumbnail directory |
| QidiThumbs.LateArchivesAreRetried | config/qidi_3mf_thumbs.py:102-111 | an archive that could not be read at its turn is settled by the retry, whatever tree that finds, if by then readable and not newer than the clock |
| QidiThumbs.ARunSettlesExactly | config/qidi_3mf_thumbs.py:88-111 | after a run every plate of a readable archive is there and no older than it, if and only if the archive is not newer than the clock or needed nothing before; archives that share a thumbnail directory are to be readable in full and not newer |
| QidiThumbs.WrittenIsFreshExactly | config/qidi_3mf_thumbs.py:65-68 | what is written is fresh if and only if the archive is not newer than the clock |
| QidiThumbs.StemGivesNameBack | config/qidi_3mf_thumbs.py:40-45 | a stem with a character other than a dot gives the archive's name back but for case; one of dots alone is the whole name |
| QidiThumbs.PresentArchivesAreFound | config/qidi_3mf_thumbs.py:114-124 | a present archive's thumbnails find it if and only if its stem holds more than dots or another entry bears the longer name |
| QidiThumbs.PresentArchivesKeepTheirPlates | config/qidi_3mf_thumbs.py:127-152 | pruning keeps a present archive's thumbnail exactly then |
| QidiThumbs.PruneExactly | config/qidi_3mf_thumbs.py:127-152 | over any tree and any walk a file goes if and only if it is a plate and a visit of its directory finds no source in the tree as it is by then |
| QidiThumbs.PruneDirDropsExactly | config/qidi_3mf_thumbs.py:146-151 | a visited directory goes exactly if plates were removed there and they were all it held |
| QidiThumbs.RemovalsCount | config/qidi_3mf_thumbs.py:127-152 | the count reported is the number of files that went |
| QidiThumbs.PruneOutsideExactly | config/qidi_3mf_thumbs.py:127-152 | outside a nested .thumbs the order does not matter: the visited plates whose archive is gone from the mirrored directory |
| QidiThumbs.PruneKeepsTheRest | config/qidi_3mf_thumbs.py:127-152 | everything that is no plate below .thumbs stays |
| QidiThumbs.EveryPlateLeftHasASource | config/qidi_3mf_thumbs.py:127-152 | every plate left in a visited directory has a matching entry, but for case, in the mirrored directory outside .thumbs |
| QidiThumbs.SecondRunIsIdleExactly | config/qidi_3mf_thumbs.py:155-169 | a second run writes nothing if and only if it visits no readable archive of dots that nothing in its directory answers for, and none newer than the first run's clock that had plates to write; it removes nothing where no plates lie below a nested .thumbs; archives that share a thumbnail directory are to be readable in full and not newer than the clock |
| QidiThumbs.ALoneExtensionComesBack | config/qidi_3mf_thumbs.py:40-45 | such an archive: a file named .3mf alone, with one plate |
| QidiThumbs.Gcodes.ReadPlates | config/qidi_3mf_thumbs.py:48-73 | the jobs of an archive, or that it could not be read |
| QidiThumbs.Gcodes.ExtractFile | config/qidi_3mf_thumbs.py:48-85 | one archive extracted, counting what was written |
| QidiThumbs.Gcodes.ExtractAllThumbs | config/qidi_3mf_thumbs.py:88-111 | one pass, and one more over what could not be read |
| QidiThumbs.Gcodes.HasSource | config/qidi_3mf_thumbs.py:114-124 | whether a matching entry is listed |
| QidiThumbs.Gcodes.PruneThumbs | config/qidi_3mf_thumbs.py:127-152 | the prune, counting what was removed |

## Left out

- AbortManager: a null API and state, the modal, subjects and progress texts, teardown, and the recovery dialog a timeout of the restart opens.
- AlsaHandoff: the device calls between the steps, which touch no shared variable of the handoff; sequence numbers are unbounded, where the source wraps at 32 bits. Memory is sequentially consistent here; the source uses relaxed accesses to some of these variables.
- AlsaStream: a device suspend (ESTRPIPE) and a prepare that fails; a blocked write is a step that changes nothing until the device has played enough.
- OwnWrite: AFC's persisted unlink marker and its re-assert on insert; ranking between the sources of a declaration, which is one declared id here.
- OwnWrite.OwnWritesAreNeverRebinds: one edit at a time, because overlapping edits break it; ChainSurvivesExactly says exactly when for any chain.
- SeatedStamp: how the four ACE signals are arbitrated into one seat, and how a CFS frame names it: a frame says which seat it leaves or that it keeps the old one (ams_backend_cfs.cpp:1892-1915); the units are one flat list of slots, so a unit that changes size under a stamp on a later unit is not told from one that does not.
- AfcAction: detail texts, the state vocabulary (a raw state carries its action), and everything else a frame parses.
- AfcBuffer: unit names, hub sensors and environment, which the one-unit rebuild still refreshes.
- AfcLane: user declarations painted over the lane, the unlink marker, tool mapping, scanner readings, errors and the other sensors, which keep or replace a value.
- IfsRunout: which lane is named in the fault, and the operations that move the action, which may do anything at any time here.
- CfsRunoutStrip: the other clears of a bay's record, which are events that drop its link.
- CfsPrintMap: the ten-minute expiry of a pending map, which only ever leaves fewer maps pending; the decimal text is ASCII.
- MultiAce: the U1's own load paths, eligibility of feeder heads, and the busy gate of the dispatch: a load handed to the dispatch counts as sent.
- MultiAce.Backend.LoadBayIntoHead: only the path that names a bay; a load of a head alone is one command, and to a waiting load it is an operation of another kind (OtherOp).
- MediaRetry: layer heights, materials and times, the .3mf reader, and the ESP32 build; attempts count metadata loads, not header extractions.
- QidiThumbs: failing file operations, links, concurrent changes, names outside ASCII, and a clock that moves within one run.
- QidiThumbs.SecondRunIsIdleExactly: archives that share a thumbnail directory are to be readable in full and not newer than the clock, because otherwise the outcome depends on the order of the walks; so it does for what is removed below a nested .thumbs.
- QidiThumbs.EveryPlateLeftHasASource: not of a plate mirrored inside .thumbs itself, because there the prune changes what it looks in; PruneExactly covers those visit by visit.
- QidiThumbs.ARunSettlesExactly: the same of archives that share a thumbnail directory, which overwrite each other.
- Insert probes, phase trackers, endless-spool routing, deferred lane saves and the other backends: not part of this model.
- JSON decoding, transport, widgets, translations, audio synthesis and gcode scripts other than the print map: not part of this model.
