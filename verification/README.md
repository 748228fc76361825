# Walkie bridge: a verified model

Walkie joins three worlds: a room whose pitch set, tuning and pieces live in replicated
histories; a round-table board reached over Bluetooth LE; and a host (a DAW, a desktop
shell) that plays notes and watches events. The plugin bridge and the small network
protocols around it are hand-written state machines joined by bounded queues. This project
models them in Dafny and proves what they promise over every run.

| part | files |
|---|---|
| BLE transmit scheduler, delivery, fairness | `BleFragments`, `BleScheduler`, `BleDelivery`, `BleEndToEnd`, `BleMessageIds`, `BleFairness` |
| BLE driver loop and write reservations | `BleDriver`, `BleConnections`, `TxReservations` |
| Board leg, composite routing | `BoardLeg`, `BoardSession`, `BleLinkTransport`, `CompositeTransport` |
| Three-leg repair | `RepairLog`, `RepairBoard`, `RepairProtocol`, `RepairRouting`, `RepairWorker`, `RepairCausality`, `RepairQuiet`, `RepairSwitch`, `RepairSuccess` |
| Room leg and its bounded channels | `RoomLeg` |
| Pitch intents, board reconciliation, input modes | `HeldNotes`, `PitchState`, `PitchIntents`, `IntentLifecycle`, `PitchBoard`, `BoardPattern`, `GateMode`, `ToggleMode`, `BridgePitchState` |
| Host MIDI output | `HostOutput`, `HostEndpoint` |
| Desktop runtime snapshot and events | `KeyedSeq`, `PeerSync`, `DesktopRuntime`, `DesktopEvents`, `DesktopHistory`, `AppRuntime` |
| Rendezvous | `Incarnations`, `Discovery`, `Rendezvous` |
| Wire formats | `Bytes`, `WireCodecs`, `RepairFraming` |

Every component has the same shape. A datatype holds its state, functions give its steps,
and a run is a sequence of steps in which everything outside the component (platform
answers, transport refusals, timers, short reads, who receives when) is a parameter of the
step. Lemmas prove an invariant step by step and read the main result off it. Beside that a
class holds the fields the program updates in place; each of its methods is proved to
change those fields as the step function says, so the results hold of the object too.

Some of the stronger claims one might make are false, and the model keeps the code as it
is and says exactly when they hold:

- Ready does not always mean that the attempt it is announced for carried the repair: a
  room switched while a finished carrier is still closing hands the old close to the new
  attempt. `RepairCausality.ReadyMeansRepairedIff` says which Ready is earned,
  `RepairQuiet.EveryReadyIsEarned` when every one is, and `RepairSwitch.RoomSwitchBreaksReady`
  is a run with one that is not.
- Draining releases before note-ons lets a release overtake the note-on it was meant to
  end. `HostOutput.PassIsSafeIff` says before a pass whether that can happen,
  `HostOutput.SafeRunsAreHeard` lifts it to whole runs, and
  `HostOutput.OvertakingStrandsANote` is the stranded note.
- The board is not always being brought to the room's configuration.
  `PitchBoard.CoverIsKeptIff` names the three kinds of event that let go of it;
  `PitchBoard.LostEditHappens` and `PitchBoard.SilentRetirementHappens` are runs in which a
  refused board edit and an unchanged room set do.
- Trusting a connected board again after forgetting it restarts authentication over a
  keyed session. `BoardLeg.LifecycleHoldsIff` shows that nothing else breaks the lifecycle,
  `BoardLeg.ForgettingBreaksTheLifecycle` is the run.
- Discovery the driver started can run on after the driver. `BleDriver.DiscoveryOutlivesIff`
  says when, `BleDriver.DiscoveryCanOutlive` is a run.
- A message id can come round while its message is still queued.
  `BleMessageIds.IdIsReusedIff` says when, `BleMessageIds.StallReuses` is a run.
- A desired board is not always pursued: a connect the platform refuses, or a scan it
  refuses after a lost link, leaves it with nothing under way. `BoardSession.IdleIff` says
  exactly when, and what moves it again.
- A ticket whose endpoint makes it longer than 64 KiB is encoded and then refused, and a
  live record with an empty encoding is refused. `WireCodecs.TicketRoundTrip` and
  `WireCodecs.LiveRoundTrip` say so for every value.

## Model

| member | source | states |
|---|---|---|
| `BleFragments.PushNext` | src/bridge/ble_transport.rs:1220-1227 | the receiver fed a message's next fragment, with room for one more partial message, holds exactly the bytes sent so far and delivers the whole wire at the last fragment |
| `BleScheduler.DriverTxScheduler.EnqueueReserved` | src/bridge/ble_btleplug.rs:169-184 | a faulted stream or an unplannable message is refused and changes nothing; otherwise the message is appended to its own priority's queue |
| `BleScheduler.DriverTxScheduler.NextPriority` | src/bridge/ble_btleplug.rs:198-216 | control first, then realtime and repair in turn while both wait; the turn passes only when both wait |
| `BleScheduler.DriverTxScheduler.Prepare` | src/bridge/ble_btleplug.rs:218-246 | a pending fragment is offered again unchanged; otherwise the picked head's next fragment becomes pending |
| `BleScheduler.DriverTxScheduler.Confirm` | src/bridge/ble_btleplug.rs:248-255 | the pending fragment is retired, and its message with it exactly when it was the last; only then is the id reported |
| `BleScheduler.DriverTxScheduler.FaultStream` | src/bridge/ble_btleplug.rs:257-267 | queues and pending fragment are dropped and the stream refuses from then on |
| `BleScheduler.DriverTxScheduler.OpenFresh` | src/bridge/ble_btleplug.rs:269-273 | a fresh connection starts empty, open, realtime first |
| `BleDelivery.RunKeepsHistory` | src/bridge/ble_btleplug.rs:168-274 | over every interleaving of enqueue, prepare, retry, confirm, fault and fresh connection, each queue is the accepted sequence without its completed prefix, only its head is started, and the confirmed fragments are those of the completed messages followed by the head's |
| `BleDelivery.EveryRunDelivers` | src/bridge/ble_btleplug.rs:168-274 | in every connection epoch and lane the confirmed fragments are a prefix of the accepted messages' fragments, and ids are reported once, in acceptance order, exactly when their last fragment is confirmed |
| `BleDelivery.MessageBytes` | src/bridge/ble_transport.rs:217-235 | once a fragment of a message is out, every earlier message of its lane is complete (a FIN cannot overtake its repair frames), the bytes out are a prefix of its wire and the whole wire once it is reported |
| `BleEndToEnd.ReceiverRebuildsCompletedMessages` | src/bridge/ble_transport.rs:142-146 | if no queued id is reused, the receiver accepts every interleaved fragment with at most three partial messages and delivers exactly the messages reported complete, byte for byte, in that order |
| `BleEndToEnd.OnlyHeadsInProgress` | src/bridge/ble_btleplug.rs:218-255 | in every run only a queue's head is ever partly sent |
| `BleFairness.PrepareServes` | src/bridge/ble_btleplug.rs:198-246 | with nothing pending the next fragment is the next one of the control queue's head while control has work, else of the preferred bulk lane's while both have, else of the one lane's that has; the preference passes on exactly when both bulk lanes competed |
| `BleFairness.ControlMessageCompletesInTime` | src/bridge/ble_btleplug.rs:198-255 | a control message with r fragments owed up to and including it is reported within r confirmed fragments, plus one if a bulk fragment was pending, whatever is enqueued meanwhile on any lane |
| `BleMessageIds.IdIsReusedIff` | src/bridge/ble_transport.rs:465-480 | in every run the next message id is that of a message still queued iff the two counts of sends agree modulo 65536; where sessions restart with nothing queued, iff a queued message was sent a multiple of 65536 sends ago, refused sends counted |
| `BleMessageIds.ReceiverRebuildsUnlessReused` | src/bridge/ble_transport.rs:465-480 | with the ids the wrapping counter really gives, the receiver delivers exactly the messages reported complete as long as none is taken while the counter stands on a queued one |
| `BleMessageIds.ShortSessionsNeverCollide` | src/bridge/ble_transport.rs:374-388 | that never happens in sessions of at most 65536 sends that start with nothing queued |
| `BleMessageIds.StallReuses` | src/bridge/ble_transport.rs:465-480 | a run in which 65535 refused sends behind one waiting message bring its id round again |
| `BleFairness.BulkMessageCompletesInTime` | src/bridge/ble_btleplug.rs:198-255 | a realtime or repair message with r fragments owed up to and including it is reported within 2r confirmed bulk fragments, plus one if the other bulk lane's fragment was pending, whatever is enqueued meanwhile; only control fragments come on top |
| `BleFairness.AcceptedIff` | src/bridge/ble_btleplug.rs:169-184 | in every run a message is accepted, behind all of its lane, iff it can be fragmented and the connection was opened anew since the last fault; otherwise nothing changes |
| `BleFairness.FirstBulkFragmentIsRealtime` | src/bridge/ble_btleplug.rs:269-273 | on a fresh connection with control empty the first fragment is a realtime one whenever a realtime message waits |
| `BleDriver.DriverLoopIsSafe` | src/bridge/ble_btleplug.rs:449-816 | at every loop head the stream is open iff a connection is installed, a pending connect excludes a connection, a faulted stream is empty, every fragment written to a connection belongs to a message accepted for it, and only discovery this driver started is ever stopped |
| `BleDriver.FinishIsSafe` | src/bridge/ble_btleplug.rs:721-727 | leaving the loop closes the stream, drops the connection and stops only owned discovery |
| `BleDriver.DiscoveryOutlivesIff` | src/bridge/ble_btleplug.rs:792-816 | discovery the driver started runs on after it iff its last stop fails while it owns it, or some connect succeeded over owned discovery with a failing stop and nothing after that started it anew or dropped the adapter proxy |
| `BleDriver.DiscoveryCanOutlive` | src/bridge/ble_btleplug.rs:806-812 | a run in which one failed stop after a connect leaves discovery on although the driver leaves its loop cleanly |
| `BleConnections.ConnectedIff` | src/bridge/ble_btleplug.rs:470-719 | over any run a connection is installed iff some connect attempt succeeded and nothing after it was a connect, a disconnect, a failed write, a framing fault or a lost link |
| `BleConnections.DisconnectEnds` | src/bridge/ble_btleplug.rs:562-569 | after any run ending in a disconnect there is no connection, no pending connect and nothing queued, the stream refuses, and nothing is accepted or put until a later connect succeeds |
| `BleConnections.EveryConnectionIsServed` | src/bridge/ble_btleplug.rs:570-630 | in every run, what was put to any connection on a lane is a prefix of the fragments of the messages accepted for it; for the installed one all that was put is confirmed and what remains is queued |
| `BleConnections.WrittenIsAccepted` | src/bridge/ble_btleplug.rs:570-579 | in every run a message is accepted for a connection iff it is written while that connection is installed and can be fragmented |
| `BleConnections.SlotPutsOne` | src/bridge/ble_btleplug.rs:583-630 | in every run exactly one fragment is put, to the installed connection, by a writable slot with something queued that can be framed, and none by anything else |
| `BleConnections.ReportIsCompletion` | src/bridge/ble_btleplug.rs:583-630 | the id a writable slot reports is that of the message it completed, if it completed one |
| `BleConnections.PendingIff` | src/bridge/ble_btleplug.rs:632-717 | in every run a connect stays pending iff the last attempt left it so and neither deadline nor disconnect ended it; discovery runs all the while and there is no connection |
| `BleConnections.ScanIff` | src/bridge/ble_btleplug.rs:730-790 | in every run discovery is owned, or shared, exactly from the answer that made it so until it is stopped, a connection is made or the adapter reopened; only own discovery is told to stop |
| `BleDriver.DriverLoop.EnsureScanActive` | src/bridge/ble_btleplug.rs:730-758 | discovery is started once and owned, or adopted when it was already active |
| `BleDriver.DriverLoop.StopOwnedScan` | src/bridge/ble_btleplug.rs:774-790 | only owned discovery is stopped; adopted discovery is let go |
| `BleDriver.DriverLoop.TryConnectVisible` | src/bridge/ble_btleplug.rs:792-816 | the four answers of a connect attempt and what each does to scan, pending connect and stream |
| `BleDriver.DriverLoop.InstallConnection` | src/bridge/ble_btleplug.rs:818-836 | a connection is installed together with a fresh stream |
| `BleDriver.DriverLoop.OnWriteMessage` | src/bridge/ble_btleplug.rs:570-579 | a message is accepted iff a connection is installed and it can be fragmented |
| `BleDriver.DriverLoop.OnWritable` | src/bridge/ble_btleplug.rs:583-630 | one fragment is written and confirmed, or a failed write faults the stream and drops the connection |
| `BleDriver.DriverLoop.OnRefreshTick` | src/bridge/ble_btleplug.rs:632-717 | a pending connect is retried or expires; a lost link faults the stream |
| `BleDriver.DriverLoop.HandleEvent` | src/bridge/ble_btleplug.rs:470-719 | one turn of the loop, keeping the loop invariant |
| `TxReservations.CountersMatchReservations` | src/bridge/ble_btleplug.rs:65-130 | under every interleaving of reserve steps and drops, rollbacks included, both counters equal the live reservations, half-finished ones counted, and stay within their maxima |
| `TxReservations.SubtractionsAreCovered` | src/bridge/ble_btleplug.rs:110-116 | no subtraction ever takes a counter below zero |
| `TxReservations.NothingLeaks` | src/bridge/ble_btleplug.rs:72-116 | once every reservation is refused or dropped both counters are zero again |
| `TxReservations.TicketsProceed` | src/bridge/ble_btleplug.rs:73-116 | whichever step a reservation is at, its thread's next step moves it on, a refused one giving back its slot, a dropped one its slot and then its bytes |
| `TxReservations.ReserveAllCounts` | src/bridge/ble_btleplug.rs:73-95 | an uninterrupted reserve succeeds iff both budgets allow it and leaves no trace otherwise |
| `TxReservations.Counters.Reserve` | src/bridge/ble_btleplug.rs:73-130 | reserving takes one slot and the bytes, or neither |
| `TxReservations.Counters.Drop` | src/bridge/ble_btleplug.rs:110-116 | dropping a live reservation gives back its slot and its bytes, as the two steps of any pool with these counters do |
| `BoardLeg.LifecycleHolds` | src/bridge/ble_transport.rs:161-300 | in every run without that trust (see `BoardLeg.TrustOverKeyedSession`): the deadline is armed iff a carrier attempt is open or a closed one awaits confirmation, never both; both are for the current placement; a tracked ACK implies an open attempt; an agreed profile implies a keyed session |
| `BoardLeg.LifecycleHoldsIff` | src/bridge/ble_transport.rs:161-300 | over any run that invariant holds after every prefix iff no input trusts the connected, keyed board after it was forgotten |
| `BoardLeg.AbandonedAckIsUnreachable` | src/bridge/ble_transport.rs:580-603 | in runs without that trust the failure for an ACK completed after its attempt was abandoned cannot happen |
| `BoardLeg.TrustOverKeyedSession` | src/bridge/ble_transport.rs:938-974 | trusting a board keeps the session invariant iff it is not the connected, keyed board after it was forgotten |
| `BoardLeg.ForgettingBreaksTheLifecycle` | src/bridge/ble_transport.rs:938-980 | one closed run: an open carrier attempt, the board forgotten and trusted again, then one valid answer, leaves an open attempt for a placement that is no longer current |
| `BoardLeg.HostKeeps` | src/bridge/ble_transport.rs:520-860 | every host event keeps the lifecycle invariant |
| `BoardLeg.CommandKeepsIff` | src/bridge/ble_transport.rs:871-1038 | a command keeps the lifecycle invariant iff it is not that trust |
| `BoardLeg.StepKeepsIff` | src/bridge/ble_transport.rs:520-1070 | so does any input at all, the deadline and polling included |
| `BoardSession.AuthenticationBeginsTrusted` | src/bridge/ble_transport.rs:428-459 | authentication begins only over a live link with a board trusted at that moment that speaks the realtime lane |
| `BoardSession.OnlyTrustedBoardsAreKeyed` | src/bridge/ble_transport.rs:428-459 | in every run without the trust over a keyed session, a board under authentication or keyed was trusted at some point of the run |
| `BoardSession.KeyedOnlyByAnswer` | src/bridge/ble_transport.rs:663-698 | a session is keyed only by a valid answer to an authentication that had begun, and with the answer's session |
| `BoardSession.TrustStep` | src/bridge/ble_transport.rs:915-974 | the set of trusted boards changes only as the user says, a board seen being added, one forgotten taken out, a whole set configured only between sessions |
| `BoardSession.FailedEventsGiveUp` | src/bridge/ble_transport.rs:520-623 | which host events cannot be accepted, for each kind; such an event ends the session, gives up the desired board and says so, and any other leaves the desired board desired |
| `BoardSession.AdmitsIff` | src/bridge/ble_transport.rs:871-1038 | which commands are carried out, for each kind |
| `BoardSession.AdmittedAchieves` | src/bridge/ble_transport.rs:871-1038 | what each command that is carried out leaves behind, and what it announces last |
| `BoardSession.FrameIsHandedOn` | src/bridge/ble_transport.rs:817-862 | an accepted repair frame is handed on behind everything queued, and an ACK it makes due is tracked |
| `BoardSession.AnswerKeys` | src/bridge/ble_transport.rs:663-698 | a valid answer keys the pending session and nothing else of it is there yet |
| `BoardSession.ProfileAnnounces` | src/bridge/ble_transport.rs:731-798 | the first agreed profile asks for provisioning of the placement just keyed; a refusal is announced and changes nothing |
| `BoardSession.CapabilityProvisions` | src/bridge/ble_transport.rs:710-728 | the board's acknowledgement of the bundle it was sent announces its placement as provisioned and uses the bundle up |
| `BoardSession.ControlMayClose` | src/bridge/ble_transport.rs:700-709 | an accepted repair control closes the carrier iff the local side is done and the close is confirmed, and tracks an ACK it makes due |
| `BoardSession.CompletedAckMayClose` | src/bridge/ble_transport.rs:580-603 | the tracked ACK's completion closes the carrier iff the local side is done and the close is confirmed |
| `BoardSession.OtherWritesDoNothing` | src/bridge/ble_transport.rs:580-603 | the completion of any other write changes nothing |
| `BoardSession.HelloContinues` | src/bridge/ble_transport.rs:625-655 | a new hello is authenticated if the link is up and its board trusted, and only proposed to the user otherwise |
| `BoardSession.LinkStartsOver` | src/bridge/ble_transport.rs:540-565 | a new link starts over with an early hello alone, authenticating a trusted board at once |
| `BoardSession.FoundBoardIsConnected` | src/bridge/ble_transport.rs:521-536 | a scan result connects to exactly the desired board while no connect is under way; a refused connect gives it up |
| `BoardSession.NoticesArePassedOn` | src/bridge/ble_transport.rs:604-607 | a platform diagnostic is passed on and changes nothing |
| `BoardSession.DeadlineGivesUp` | src/bridge/ble_transport.rs:1046-1055 | an overdue repair is given up; without one the deadline does nothing |
| `BoardSession.PollsHandOver` | src/bridge/ble_transport.rs:1046-1070 | polling hands over one report of losses and then every queued event in order |
| `BoardSession.PollReportsFirst` | src/bridge/ble_transport.rs:1046-1070 | a poll reports losses before anything else, once, and then the oldest event |
| `BoardSession.OverdueIsGivenUpFirst` | src/bridge/ble_transport.rs:1046-1055 | a poll past the deadline ends the session before it hands anything over |
| `BoardSession.LostLinkIsResumed` | src/bridge/ble_transport.rs:566-578 | a lost link ends the session whatever its state, and a desired board is scanned for again |
| `BoardSession.IdleIff` | src/bridge/ble_transport.rs:413-430 | in every such run a desired board is left with nothing under way exactly by a refused connect or by a scan refused after a lost link, until the user, a scan or the platform moves it or it is given up |
| `BoardSession.QueueKeepsTheNewest` | src/bridge/ble_transport.rs:356-372 | however much is published the queue holds the newest 256 events in order and each one lost is counted |
| `BoardSession.PollsForMore` | src/bridge/ble_transport.rs:1046-1070 | polling hands over the first event there is once just enough of the platform's arrivals, at most 64, are handled |
| `BleLink.BleLinkTransport.SendBoardRepairFrame` | src/bridge/ble_transport.rs:161-203 | the first frame for the current placement opens an attempt and arms the deadline; a frame for any other is refused |
| `BleLink.BleLinkTransport.FinishBoardRepair` | src/bridge/ble_transport.rs:205-238 | it succeeds only for the open attempt of the placement named, which is then finished, and closed and awaiting confirmation if the board's side was already done |
| `BleLink.BleLinkTransport.CompleteBoardRepair` | src/bridge/ble_transport.rs:982-994 | it succeeds iff the current placement is this one and awaits confirmation; nothing awaits afterwards, the deadline is disarmed and the last event queued is Ready |
| `BleLink.BleLinkTransport.ResetSession` | src/bridge/ble_transport.rs:374-388 | every per-session field is cleared |
| `BleLink.BleLinkTransport.FailSession` | src/bridge/ble_transport.rs:390-411 | a failure ends the session, announces it and gives up the desired board |
| `BleLink.BleLinkTransport.HandleConnected` | src/bridge/ble_transport.rs:540-565 | a new link starts from an empty session and continues with a hello that came early |
| `BleLink.BleLinkTransport.HandleWriteComplete` | src/bridge/ble_transport.rs:580-603 | the tracked ACK's completion is the one that may close the attempt; any other changes nothing |
| `BleLink.BleLinkTransport.HandleHostEvent` | src/bridge/ble_transport.rs:520-623 | one host event, its failure ending the session, keeping the lifecycle invariant where it held |
| `BleLink.BleLinkTransport.HandleCommand` | src/bridge/ble_transport.rs:871-1038 | one command, as the board leg's step says |
| `BleLink.BleLinkTransport.PollEvent` | src/bridge/ble_transport.rs:1046-1070 | an expired deadline fails the session first, then losses are reported, then events in order, the platform being asked for up to 64 more while there are none |
| `RepairLog.EarnedIff` | src/bridge/ble_transport.rs:982-994 | in a lawful log a Ready is earned iff its attempt was synchronized while the carrier closed last was the one that attempt had finished |
| `RepairBoard.HostInv` | src/bridge/ble_transport.rs:520-860 | every host event leaves the log a true record of the session: what is keyed, which carrier is open, finished or closed, and for which placement |
| `RepairBoard.CompleteInv` | src/bridge/ble_transport.rs:982-994 | confirming a repair logs Ready only over a closed carrier for the keyed placement, and keeps the record true |
| `RepairCausality.RunInv` | src/bridge/composite.rs:188-340 | every run of board leg, composite and room leg keeps all commands and events in flight backed by what happened, and the log lawful |
| `RepairCausality.ReadyMeansRepairedIff` | src/bridge/native_room.rs:506-626 | in every run each Ready follows the synchronization of one room attempt for its placement; and that same attempt alone accounts for it (keyed, provisioned, attempt started, carrier finished by its terminal, that carrier closed, attempt synchronized, Ready, one session throughout and no carrier opened after the finish) iff, as the room confirmed the close, the carrier closed last was the one this attempt had finished |
| `RepairQuiet.EveryReadyIsEarned` | src/bridge/native_room.rs:506-626 | in every run in which the room starts an attempt for a placement only once nothing of an earlier attempt for it is in flight, every Ready is earned in that sense |
| `RepairSwitch.RoomSwitchBreaksReady` | src/bridge/native_room.rs:1105-1136 | one allowed run, from the start, in which switching rooms inside one session ends in an unearned Ready |
| `RepairSuccess.RepairSucceeds` | src/bridge/native_room.rs:506-626 | for any number there is an allowed run from a cold start in which the board sends more repair frames than that and becomes Ready, earned, the session at rest |
| `RepairProtocol.OnlyTheAnnouncedPlacementCrosses` | src/bridge/composite.rs:270-340 | in every run, every command the composite hands to either leg names the placement of the provisioning request it routed last, with neither a link-down nor another request in between |
| `RepairProtocol.StalePlacementsAreIgnored` | src/bridge/composite.rs:188-268 | in every run, a room event about any other placement is dropped and changes nothing else |
| `RepairRouting.CommandsFollowEvents` | src/bridge/composite.rs:188-340 | in every run the repair commands handed to the two legs are exactly the orders of the events taken from them, one for each event about the placement then announced and none for any other, in the order of the events |
| `RepairRouting.BoardEventReachesTheRoom` | src/bridge/composite.rs:270-340 | in every run a provisioned, inbound or closed event about the announced placement is at once the last command in the room's queue, or it was refused and both legs are fenced |
| `RepairRouting.RoomEventReachesTheBoard` | src/bridge/composite.rs:188-268 | in every run a bundle, frame, terminal or synchronized event about the announced placement is carried out by the board leg at once; if that fails both legs are fenced, except that a bundle is only asked for again |
| `RepairRouting.BundleIsAskedFor` | src/bridge/composite.rs:127-141 | in every run, when a placement is announced, the room becomes ready or another room is selected, a ready room is asked for the announced placement's bundle |
| `RepairRouting.LinkDownCrosses` | src/bridge/composite.rs:312-326 | in every run, when the board's link goes down the room is told to give up the placement announced till then, and none is announced any more |
| `RepairRouting.RoomFailureCrosses` | src/bridge/composite.rs:242-251 | in every run a failure the room reports of the announced placement's repair is given up by the board |
| `RepairWorker.EveryRepairCommandSettles` | src/bridge/native_room.rs:506-626 | a start, observe or confirm whose attempt is there and accepts it reports exactly its frames and what became of the attempt, in order; otherwise, or if its frames do not fit, the attempt for the placement is gone and the failure reported |
| `RepairWorker.RoomChangesEndTheAttempt` | src/bridge/native_room.rs:1105-1150 | leaving, joining another room, the room stopping and the worker dying end the attempt and announce the link; joining the room one is in leaves the attempt alone |
| `RepairWorker.SwitchAnnounces` | src/bridge/native_room.rs:1105-1136 | joining another room takes the old link down before the new one is announced |
| `RepairWorker.BundleIsAnswered` | src/bridge/native_room.rs:1149-1162 | a request for a bundle is answered with it, or with its failure if there is no room or it cannot be prepared |
| `RepairWorker.AbortDropsItsOwn` | src/bridge/native_room.rs:617-626 | giving up drops the attempt of the placement named and of no other |
| `RepairWorker.OthersLeaveTheRepair` | src/bridge/native_room.rs:1217-1225 | any other command leaves the repair alone |
| `RepairRouting.RequestIsRemembered` | src/bridge/composite.rs:127-152 | in every run the request for a bundle counted as made is the one the room last took, unless since then it failed, could not be sent on, or a link went |
| `CompositeRouting.CompositeTransport.RequestBoardProvisioning` | src/bridge/composite.rs:127-141 | provisioning is asked for once per placement and only of a ready room |
| `CompositeRouting.CompositeTransport.FenceBoardRepair` | src/bridge/composite.rs:154-170 | a failure aborts the current placement's repair on both legs |
| `CompositeRouting.CompositeTransport.RouteRoom` | src/bridge/composite.rs:188-268 | one room event crosses to the board leg, or fences the repair |
| `CompositeRouting.CompositeTransport.RouteBoard` | src/bridge/composite.rs:270-340 | one board event crosses to the room leg, or fences the repair |
| `RoomLeg.EveryAcceptedIntentIsSettled` | src/bridge/native_room.rs:199-295 | for any queue saturation, once polling drains, every accepted token has a delivered outcome or is covered by a delivered reset |
| `RoomLeg.ResetsNeverCoverUnprocessedIntents` | src/bridge/native_room.rs:272-295 | apart from the reset after the worker stopped, no reset covers a token the worker had not yet taken |
| `RoomLeg.PollingDrains` | src/bridge/native_room.rs:272-295 | polling gives exactly as many deliveries as are waiting, then none |
| `RoomLeg.DeliveriesKeepOrder` | src/bridge/native_room.rs:272-333 | in every run what the worker sent while there was room is delivered in that order, none left out and none twice, and every other event but an outcome that met a full channel is counted in one report |
| `RoomLeg.CommandsKeepOrder` | src/bridge/native_room.rs:185-266 | while the worker lives the commands taken are worked off in order, none lost and none twice |
| `RoomLeg.FinalResetIsOnce` | src/bridge/native_room.rs:283-295 | the one reset that may cover unprocessed intents comes after the worker's death and only once |
| `RoomLeg.NativeRoomTransport.HandleCommand` | src/bridge/native_room.rs:185-266 | a full or dead command channel refuses and remembers nothing; otherwise the greatest queued token is kept |
| `RoomLeg.NativeRoomTransport.SendEvent` | src/bridge/native_room.rs:321-333 | a full event channel turns an outcome into an abandoned token and counts anything else as lost |
| `RoomLeg.NativeRoomTransport.WorkOnce` | src/bridge/native_room.rs:1235-1272 | a pitch command always ends in one outcome |
| `RoomLeg.NativeRoomTransport.PollEvent` | src/bridge/native_room.rs:272-295 | an abandoned token is delivered as a reset before queued events; a stopped worker yields one final reset |
| `HeldNotes.PackedUpdate` | src/bridge/mod.rs:666-677 | writing one bit of the two packed words adds or removes exactly one note of 0..127 |
| `PitchIntents.RunKeepsIntents` | src/bridge/mod.rs:712-755 | every event of every run keeps tokens ordered, pending classes newest, and issued tokens increasing |
| `PitchIntents.PendingIsNewest` | src/bridge/mod.rs:712-736 | in every run each pending class carries the newest intent tracked for it, with a token below the next one |
| `PitchIntents.AnswersSpareNewerIntents` | src/bridge/mod.rs:738-755 | rejecting t or resetting through t never removes an intent newer than t, and withdraws one whose token is t |
| `PitchIntents.IssuedTokensIncrease` | src/bridge/mod.rs:712-718 | tokens leave strictly increasing from 1 even when the transport refuses the command |
| `PitchIntents.RoomSetKeepsOptimism` | src/bridge/mod.rs:789-802 | an authoritative set, stale or not, keeps the optimistic level of every class with a pending intent, decides all others, and retires exactly the intents it agrees with |
| `IntentLifecycle.PendingOnceDrainedWasApplied` | src/bridge/mod.rs:712-755 | in every joint run of worker and room leg, an intent still pending was accepted by the leg, and once the leg is drained the worker was told that the room applied it |
| `PitchBoard.BoardStateIsHonest` | src/bridge/mod.rs:839-932 | between any two events a staged target is the canonical configuration and no board-sourced intent is pending; the confirmed configuration was reported by the board in this session; accepted revisions strictly increase |
| `PitchBoard.BoardWritesAreCanonical` | src/bridge/mod.rs:1532-1541 | every configuration sent to the board is the canonical one of that moment and races no board edit |
| `PitchBoard.OnlyExplicitFramesAuthor` | src/bridge/mod.rs:1394-1472 | only an explicit board frame that differs from what is confirmed, or meets a staged target, authors a room edit |
| `PitchBoard.SnapshotsAreFenced` | src/bridge/mod.rs:902-932 | a passive snapshot sends nothing and is taken in iff its revision exceeds all taken in this session; otherwise it changes nothing |
| `PitchBoard.EditsAreTheDifference` | src/bridge/mod.rs:766-787 | a board edit plan gives each class of 48..59 whose level differs the board's level, and no other class anything |
| `PitchBoard.EditsAreAscending` | src/bridge/mod.rs:766-787 | the plan names its classes in strictly ascending order, so each at most once |
| `PitchBoard.PlanIsEmptyIff` | src/bridge/mod.rs:766-787 | a board configuration asks nothing of the room iff it agrees on settings and on the twelve classes |
| `PitchBoard.StagedTargetIsSentAndEchoed` | src/bridge/mod.rs:877-932 | in any run a due target is sent as the canonical configuration, and its echo under a fresh revision leaves the board confirmed in step with nothing staged |
| `PitchBoard.LostBoardSparesHostIntents` | src/bridge/mod.rs:1386-1393 | losing the board withdraws exactly its own intents and forgets what it showed |
| `PitchBoard.BoardEditTakesEffect` | src/bridge/mod.rs:1406-1455 | an accepted board edit makes every changed class optimistically what the board shows and leaves the other classes' intents alone |
| `PitchBoard.CoverIsKeptIff` | src/bridge/mod.rs:856-932 | the board stays targeted, in step or fenced by an intent across an event iff the event is not a lost link, a board edit that leaves no intent behind, or an unchanged set that settles the last intents |
| `PitchBoard.LostEditHappens` | src/bridge/mod.rs:1406-1455 | a run in which the transport refuses an edit of a board in step: it then shows settings the room never heard of, with nothing staged and nothing pending |
| `PitchBoard.SilentRetirementHappens` | src/bridge/mod.rs:1497-1502 | a run in which an unchanged room set leaves the board behind with nothing staged |
| `BoardPattern.PatternShowsTheRoom` | src/bridge/mod.rs:839-850 | the canonical pattern has note n iff n is below 128, the room projects onto it and the lower notes shown leave room for it |
| `BoardPattern.RoomyPatternShowsAll` | src/bridge/mod.rs:815-850 | a pattern that takes every note shows exactly the room's notes, a present twelve-tone class c as 48 + c |
| `BoardPattern.PresentClassShows` | src/bridge/mod.rs:815-850 | a present twelve-tone class c of 0..11 lights 48 + c iff the pattern takes it over the lower notes shown |
| `BoardPattern.BoardIsSentTheRoom` | src/bridge/mod.rs:1532-1541 | in every run whatever is sent to the board has the room's settings and shows exactly the notes the room projects onto that the pattern leaves room for |
| `BoardPattern.RoomIsTheLastHeard` | src/bridge/mod.rs:1497-1521 | in every run the room set and configuration worked from are the ones heard last |
| `BoardPattern.PublishedSettingsAreTheBoards` | src/bridge/mod.rs:766-787 | published settings are those of the board's frame, without a pattern, and only if the room's differ |
| `BoardPattern.BoardEditIsPublished` | src/bridge/mod.rs:1406-1455 | an explicit board frame that differs from what is confirmed, or meets a staged target, is published under the next token, and is what the board is then believed to show |
| `BoardPattern.LeavingWithdrawsIntents` | src/bridge/mod.rs:1355-1375 | losing the room or choosing another withdraws every pending intent and stages the board afresh |
| `BoardPattern.SnapshotTeaches` | src/bridge/mod.rs:902-932 | a fresh snapshot settles a staged target only by echoing it; with none staged it is believed, and what differs from the canonical configuration is staged once no intent is in flight |
| `BoardPattern.BoardEditRoundTrip` | src/bridge/mod.rs:766-850 | once a twelve-tone room has applied the edits and settings a published board edit asks for, the canonical configuration is the board's own, note for note |
| `BoardPattern.KeyLightsItsNote` | src/bridge/mod.rs:815-850 | a class a host key belongs to is projected as 48 plus its degree |
| `GateMode.GateModeTracksHeldClasses` | src/bridge/mod.rs:1199-1238 | however gate-mode keys are played with commands accepted, every held class is optimistically present, commands per class strictly alternate, additions are sent with a key of the class held and removals only when the last octave went up |
| `GateMode.ReleasedClassesLeave` | src/bridge/mod.rs:1199-1217 | releasing the last held octave takes the class out of the optimistic set |
| `ToggleMode.ToggleParity` | src/bridge/mod.rs:1219-1238 | however toggle-mode keys are played with commands accepted, a class is back at its starting level iff it was freshly pressed an even number of times |
| `BridgePitch.BridgePitchState.SetHostHeld` | src/bridge/mod.rs:666-677 | the packed words change by exactly this note, and the old level is returned |
| `BridgePitch.BridgePitchState.HasHeldPitchClass` | src/bridge/mod.rs:804-813 | whether any held key has the pitch's degree, whatever its tuning |
| `BridgePitch.BridgePitchState.ContainsOptimisticPitchClass` | src/bridge/mod.rs:697-710 | the pending level if there is one, else the room's |
| `BridgePitch.BridgePitchState.AllocateIntentToken` | src/bridge/mod.rs:712-718 | tokens count up; exhaustion is an error that changes nothing |
| `BridgePitch.BridgePitchState.TrackPitchIntent` | src/bridge/mod.rs:720-736 | each edit replaces the pending intent of its class, later edits winning |
| `BridgePitch.BridgePitchState.ApplyConfirmedRoom` | src/bridge/mod.rs:789-802 | the set is installed, agreeing intents are retired, and whether the set changed is reported |
| `BridgePitch.BridgePitchState.RoomMidiNotes` | src/bridge/mod.rs:815-837 | the array marks exactly the notes the room projects onto |
| `BridgePitch.BridgePitchState.CurrentBoardConfig` | src/bridge/mod.rs:839-850 | room settings with the pattern of the room's notes taken in ascending order |
| `BridgePitch.BridgePitchState.PlanBoardEdit` | src/bridge/mod.rs:766-787 | settings only when they differ, and the pitch differences in ascending order |
| `BridgePitch.BridgePitchState.StageBoardTarget` | src/bridge/mod.rs:856-875 | nothing is staged while an intent is pending or the board already shows the target |
| `BridgePitch.BridgePitchState.BoardTargetDue` | src/bridge/mod.rs:877-887 | a staged target is offered once its deadline passed and re-armed |
| `BridgePitch.BridgePitchState.ObserveBoardConfig` | src/bridge/mod.rs:889-900 | an explicit configuration confirms or is an edit that clears the target |
| `BridgePitch.BridgePitchState.ObserveBoardSnapshot` | src/bridge/mod.rs:902-932 | the five outcomes of a passive snapshot |
| `BridgePitch.BridgePitchState.ApplySharedPitchIntent` | src/bridge/mod.rs:1183-1197 | a token is used up by the offer; the intent is tracked only if the transport took it |
| `BridgePitch.BridgePitchState.HandleHostNoteOn` | src/bridge/mod.rs:1219-1238 | a first press toggles, adds or does nothing by mode; a repeated press does nothing |
| `BridgePitch.BridgePitchState.HandleHostNoteRelease` | src/bridge/mod.rs:1199-1217 | only gate mode, a held key and the last octave of a present class send a removal |
| `BridgePitch.BridgePitchState.HandleBoardFrame` | src/bridge/mod.rs:1394-1472 | one board frame: edits are published and tracked, other runs and pulses forwarded, snapshots neither |
| `BridgePitch.BridgePitchState.HandleEvent` | src/bridge/mod.rs:1244-1541 | one event of the worker loop |
| `HostOutput.RunKeepsShadow` | src/bridge/mod.rs:1570-1627 | over every run and any capacities, folding accepted edges from all-off gives the shadow, edges of a note alternate, queues stay bounded, and no edge is lost or duplicated on its way to the callback |
| `HostOutput.PassShrinksDistance` | src/bridge/mod.rs:1570-1627 | a pass emits a prefix of releases-then-additions, stops only at a full queue, shrinks the distance by exactly the accepted edges, and adds nothing unless every release was accepted |
| `HostOutput.AmpleCapacityReaches` | src/bridge/mod.rs:1570-1627 | with room for the plan one pass reaches the target and the next changes nothing |
| `HostOutput.PassIsHeardIff` | src/bridge/mod.rs:1017-1020 | a drained host in agreement stays so across a pass iff no accepted release was pushed behind a queued note-on of its note |
| `HostOutput.PassIsSafeIff` | src/bridge/mod.rs:1017-1020 | known before the pass: a host in agreement stays so however the callback interleaves iff no release to be made has its note-on still queued, or no release can be queued at all |
| `HostOutput.SafeRunsAreHeard` | src/bridge/mod.rs:1570-1627 | in any run in which no pass was risky when it began, at every point a drained host sounds exactly the shadow |
| `HostOutput.HostReachesTheRoom` | src/bridge/mod.rs:1017-1020 | from empty queues and agreement, one pass with room and a releases-first drain bring the host to exactly the room's notes |
| `HostOutput.OvertakingStrandsANote` | src/bridge/mod.rs:1017-1020 | a note switched on and off before the callback runs stays sounding, and later passes are silent |
| `HostEndpoint.Endpoint.Receive` | src/bridge/mod.rs:1017-1020 | releases are received before anything else |
| `HostEndpoint.Endpoint.ReconcileHostOutput` | src/bridge/mod.rs:1570-1627 | the two loops carry out one pass of the plan, with the callback running in between, counting what they queued and what was refused |
| `PeerSync.SynchronizedMeansEveryLane` | src-tauri/src/lib.rs:59-87 | the flag is up iff some lane is required and, for each, the last event that settled it was a success with no disconnect or withdrawal since |
| `PeerSync.SupportNamesLanes` | src-tauri/src/lib.rs:59-87 | a support value is valid iff it is what some of the lanes, at least one, add up to |
| `DesktopEvents.FlagMeansLanesDone` | src-tauri/src/lib.rs:1180-1261 | in every run a listed peer is shown synchronised iff lanes are required of it and each was last settled by a success since the peer was last forgotten |
| `DesktopEvents.UpdateKeepsRoundTrip` | src-tauri/src/lib.rs:1180-1217 | an update keeps the measured round trip, sets path and source, and touches no other peer |
| `DesktopEvents.VoicesNeverGoBack` | src-tauri/src/lib.rs:1145-1178 | within a room a session's voice only moves to a greater sequence |
| `DesktopEvents.EventsReproduceTheSnapshot` | src-tauri/src/lib.rs:1081-1261 | in every run, whoever subscribes and whichever channels fail, each live subscriber's events give exactly the current snapshot, its sequence numbers strictly increase below saturation, and each listed peer's flag equals its lane state |
| `DesktopEvents.OperationIsSummarised` | src-tauri/src/lib.rs:692-739 | the events of any operation, read over the old snapshot, give the new one |
| `DesktopEvents.EqualViewsEmitNothing` | src-tauri/src/lib.rs:1081-1143 | a room view emits nothing iff a subscriber could not tell it from the snapshot, and never twice |
| `DesktopEvents.OperationKeepsPeers` | src-tauri/src/lib.rs:1180-1261 | peers stay sorted by author with flags equal to their lane state |
| `DesktopHistory.SnapshotIsTheHistory` | src-tauri/src/lib.rs:692-1261 | in every run each field of the snapshot is what the last operation about it said: room, the last materialisation's tuning, shared set, pieces and rules, each session's greatest voice in the room, each peer's last update, ports |
| `DesktopHistory.SubscribersKnowTheMusic` | src-tauri/src/lib.rs:1081-1143 | in every run each live subscriber's events alone give the last materialisation |
| `DesktopHistory.OperationReachesSubscribers` | src-tauri/src/lib.rs:1661-1670 | in any run an operation leaves subscribed exactly those whose channels took all its events, each having been sent just these, in order, under the next numbers one by one |
| `DesktopHistory.SubscriptionAdds` | src-tauri/src/lib.rs:150-167 | a subscription adds exactly one subscriber, with the whole snapshot under the next number, if that gets out |
| `DesktopHistory.ReportsGoOut` | src-tauri/src/lib.rs:1262-1275 | a diagnostic goes out once and changes nothing a subscriber knows |
| `AppRuntime.RuntimeState.RegisterSubscriber` | src-tauri/src/lib.rs:150-167 | a subscriber starts from the whole snapshot or is not kept |
| `AppRuntime.RuntimeState.EmitLocked` | src-tauri/src/lib.rs:1661-1670 | one more sequence number, saturating, and only subscribers that took the event stay |
| `AppRuntime.RuntimeState.EnterRoom` | src-tauri/src/lib.rs:692-708 | joining clears peers, lane states and voices and announces the room |
| `AppRuntime.RuntimeState.LeaveRoom` | src-tauri/src/lib.rs:715-739 | leaving clears everything of the room but its tuning |
| `AppRuntime.RuntimeState.ApplyView` | src-tauri/src/lib.rs:1081-1143 | the view is installed and its differences are emitted in order |
| `AppRuntime.RuntimeState.Presence` | src-tauri/src/lib.rs:1145-1178 | a voice replaces an older one of its session; a stale sequence is ignored |
| `AppRuntime.RuntimeState.PeerChanged` | src-tauri/src/lib.rs:1180-1217 | requirements are updated, the round trip is kept, the peer is placed and announced |
| `AppRuntime.RuntimeState.PeerGone` | src-tauri/src/lib.rs:1219-1227 | peer and lane state go together |
| `AppRuntime.RuntimeState.LaneMarked` | src-tauri/src/lib.rs:1229-1261 | the lane is recorded even for an unlisted peer, and announced only when the flag changes |
| `Incarnations.MemoryIsTheWindow` | src/net/rendezvous.rs:202-227 | after any hellos each peer's memory is the last min(8, length) values newly accepted, without duplicates; Known iff in that window; at most 64 peers; a refused 65th changes nothing |
| `Incarnations.RtcIncarnationTracker.ObserveHello` | src/net/rendezvous.rs:208-227 | one observation, as the bounded memory says |
| `Discovery.RepliesAreBounded` | src/net/rendezvous.rs:529-693 | with reconnects included no peer announces an id twice and replies total at most n * min(n - 1, 64) |
| `Discovery.DiscoveryQuiesces` | src/net/rendezvous.rs:529-693 | with timers and reconnects quiet, the number of hellos that can still be read is bounded and every read uses some of it up |
| `Discovery.NewcomerAndSubscriberMeet` | src/net/rendezvous.rs:390-693 | with at most 65 peers, once a newcomer and a subscriber that had not seen it have read their sockets empty, each has joined the other |
| `Discovery.RepeatedHelloHeals` | src/net/rendezvous.rs:390-425 | with at most 65 peers, of two subscribers one of which missed the other, once that one repeats its hello and both have read their sockets empty, each has joined the other |
| `Discovery.ConnectedIff` | src/net/rendezvous.rs:390-425 | in every run a peer is subscribed iff it connected last, and otherwise has nothing to read |
| `Rendezvous.Session.HandleMessage` | src/net/rendezvous.rs:461-693 | only a valid hello of somebody else counts: a new id below the cap is stored, announced, joined by gossip and answered, a known one has its address refreshed |
| `WireCodecs.NoticeRoundTrip` | src/net/replica.rs:95-129 | hint decoding accepts exactly the image of encoding and recovers it; probes, the same with their own domain |
| `WireCodecs.DecodeNotice` | src/net/replica.rs:147-181 | the decoder returns a notice iff the bytes are its encoding |
| `WireCodecs.EncodeNotice` | src/net/replica.rs:147-156 | domain, generation, lane, source and digest in order |
| `WireCodecs.LiveRoundTrip` | src/net/replica.rs:184-222 | a live record survives the wire iff its own encoding is not empty |
| `WireCodecs.LiveDecodesItsHeader` | src/net/replica.rs:197-222 | an accepted live record starts with exactly its header |
| `WireCodecs.EncodeLive` | src/net/replica.rs:184-195 | the live record laid out field by field, which decodes to what was sent iff its record's encoding is not empty |
| `WireCodecs.DecodeLive` | src/net/replica.rs:197-222 | the cursor decoder of a live record |
| `WireCodecs.RealtimeRoundTrip` | src/net/realtime.rs:37-101 | a signed realtime message decodes to what was sent in its own room and is refused as foreign in any other |
| `WireCodecs.EncodeRealtime` | src/net/realtime.rs:37-61 | refused iff the frame cannot be encoded in 65535 bytes; otherwise signed bytes that decode in the room to what was sent |
| `WireCodecs.DecodeRealtime` | src/net/realtime.rs:63-101 | the cursor decoder, with its errors in order |
| `WireCodecs.TakeArray` | src/net/realtime.rs:104-116 | a cursor read returns exactly the next n bytes or fails without moving |
| `WireCodecs.OneKindOnly` | src/net/replica.rs:18-26 | no byte string decodes as two kinds of gossip message |
| `WireCodecs.TicketRoundTrip` | src/net/iroh_common.rs:350-403 | a ticket survives the wire iff it fits in 64 KiB |
| `WireCodecs.EncodeTicket` | src/net/iroh_common.rs:350-363 | the ticket laid out field by field, accepted again iff at most 64 KiB long |
| `WireCodecs.AcceptedTicketHead` | src/net/iroh_common.rs:364-403 | an accepted ticket has one spelling of everything but its endpoint |
| `WireCodecs.TicketSupportNamesLanes` | src/net/iroh_common.rs:382-385 | the support a ticket may name is what some of the peer lanes, at least one, add up to |
| `RepairFraming.FramesAreReadBack` | src/net/repair.rs:170-232 | every sequence of fitting frames is read back exactly |
| `RepairFraming.CutStreamYieldsWholeFrames` | src/net/repair.rs:198-232 | a stream cut after any number of bytes yields exactly its whole frames and ends cleanly iff the cut lies between two frames |
| `RepairFraming.ReadFramesWereWritten` | src/net/repair.rs:201-232 | whatever is read as a frame is the one encoding of that frame |
| `RepairFraming.SendStream.WriteFrame` | src/net/repair.rs:171-186 | a fitting frame is appended with its length; an oversize one sends nothing |
| `RepairFraming.SendStream.WriteFrames` | src/net/repair.rs:189-197 | frames go out in order up to the first that does not fit |
| `RepairFraming.RecvStream.ReadFrame` | src/net/repair.rs:201-232 | however the length prefix is delivered in pieces, reading gives the frame, a clean end, or the error the bytes call for; it fails for the carrier iff its last read did, and no earlier one |

## Left out

- Bluetooth, Iroh, gossip, mDNS, MIDI ports and websockets: only success, failure, drop and order appear, as parameters of a step.
- The fragment planner and the reassembler are external: a message is a list of non-empty chunks whose concatenation is its wire, and the receiver holds at most three partial messages.
- Key exchange, signatures and digests are external: only the answers the code asks of them appear, session keys are assumed fresh, and own signatures are assumed to verify.
- The repair close handshake is external, with two assumptions: a close is confirmed only after the local side was marked terminal, and no local frame is accepted after that.
- The stepwise repair attempt is external, with three: a terminal attempt stays terminal, it emits no more frames, and only a terminal attempt is synchronized by a confirmed close.
- Round-table patterns are external: a pattern is a set of notes and may refuse a note by any rule; the rest of a configuration is one opaque value.
- The note an absolute pitch rounds to is an arbitrary function; twelve-tone degrees are taken to be the note number modulo 12, as the projection onto 48..59 needs.
- Clocks: a deadline is present or absent and expires when the environment says so; intervals and backoffs have no length.
- Stopping the room worker is one atomic step that closes both of its channels.
- The board leg's message id for a tracked ACK comes with the answer of the step; the wrapping counter it comes from is the subject of `BleMessageIds` alone.
- RepairCausality.ReadyMeansRepairedIff: covers runs without the trust command of `BoardLeg.TrustOverKeyedSession`, after which the session invariant no longer holds.
- RepairQuiet.EveryReadyIsEarned: its condition is sufficient, not necessary; the exact one for a single Ready is in `RepairCausality.ReadyMeansRepairedIff`.
- RepairProtocol.OnlyTheAnnouncedPlacementCrosses: commands the editor sends are outside it.
- BleScheduler.DriverTxScheduler.Prepare: the external cursor fails only when it was already complete; any other failure of it is not modelled.
- BleEndToEnd.ReceiverRebuildsCompletedMessages: assumes that no queued id is reused; `BleMessageIds.IdIsReusedIff` says when one is.
- BleMessageIds.ShortSessionsNeverCollide: assumes that a session restarts with nothing queued; a connect command refused by a full command channel restarts the counter over what is still queued.
- BleLink.BleLinkTransport.ResetSession: the reassembler, the id counter and the negotiated frame limit, whose effects appear only as answers of a step, are not among its fields.
- CompositeRouting.CompositeTransport.RouteRoom: MIDI forwarding and diagnostics, which touch neither leg's repair, are not modelled.
- CompositeRouting.CompositeTransport.RouteBoard: MIDI forwarding, the renaming of round-table events and diagnostics are not modelled, and the room leg is held as a value, not as a second object.
- TxReservations.Counters.Reserve: one caller without interference; interference is the subject of the lemmas beside it.
- GateMode.GateModeTracksHeldClasses: needs the transport to take the commands and tokens not to run out, since a refused command leaves a held class absent.
- ToggleMode.ToggleParity: needs the same.
- PitchBoard.CoverIsKeptIff: says when the board is looked after, not that it converges; a full room event queue can lose a pitch set for good.
- Discovery.NewcomerAndSubscriberMeet: replies are assumed to get out, and the server to deliver in order to connected peers; browser-only WebRTC signalling, which defers joins and re-announces reincarnated peers, is not modelled.
- HostEndpoint.Endpoint.ReconcileHostOutput: other events a transport may push into the same queues in Perform mode are not part of the run.
- AppRuntime.RuntimeState.ApplyView: the MIDI ledger refreshed afterwards is not modelled.
- WireCodecs.LiveRoundTrip: the record's own codec is assumed to undo itself for the record at hand.
- WireCodecs.RealtimeRoundTrip: the frame codec is assumed to undo itself for the frame at hand, and the sender's own signature to verify.
- WireCodecs.TicketRoundTrip: the endpoint codec is assumed to undo itself for the endpoint at hand.
- Diagnostics, status words and UI queues: events that carry only text, and atomics that only mirror a link state.
- Liveness of the room mesh, replica admission, capability evaluation, the editor, plugin parameters, audio, web code, word lists, relay wrapper and build scripts.
- Repair initiator choice, ALPN lookup and other one-line total functions: they would only add easy members.
