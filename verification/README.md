# HopTalk relay: verified core

The HopTalk relay passes messages between users over a radio mesh. A client's device sends a message
part by part (`M`); the relay assembles it, delivers it part by part to the devices its recipient uses,
hears back what each device holds (`K`), what was read (`R`) and which receipts arrived (`C`), and
re-delivers missed conversations on request (`F`). This project models the relay's core in Dafny and
proves what it relies on across modules.

How it is laid out:

- **The delivery engine.** `Tables` holds the rows, `DeliveryRows` and `ReceiptRows` the state machine of
  one row, `Transitions` every service transaction as a function from the tables before to the tables
  after, and `RelayEngines` the same transactions as the relay runs them: one object whose methods update
  rows in place, loop by loop, each proved to leave exactly what its transition function says.
  `Invariants` states what holds, `SessionProofs`, `RowProofs`, `ReceiptProofs`, `MessageProofs`,
  `PacketProofs` and `StepProofs` prove that every step keeps it, and `RowEffects`, `MessageEffects`, `Scheduling`,
  `Ledgers`, `SilentDelivery`, `SilentReceipts`, `SettledReceipts`, `RefreshReplies`, `Runs`,
  `AcceptanceOrder`, `EqualTimes` and `Uploads` draw the conclusions over whole runs. `PartAnswers`,
  `ReportAnswers`, `RefreshScope`, `PacketLife`, `DueWork` and `WorkOrder` say what each request and outcome
  must do, in terms of the request and the tables alone, and `RelayEngines` promises the same of its methods.
- **The HT1 text protocol.** `Decimals`, `FieldGrammar`, `ProtocolMessages`, `Parsing`, `Formatting`,
  `RoundTrips`, `WireFormat`, `Replies`, `GrammarAnswers`, `ReceivedSets` and `Splitting`. Texts are
  sequences of code points with the UTF-8 lengths of section 3 of RFC 3629.
- **The setup protocol.** `SetupTables` (runs, commands, relay mode), `SetupDesks` (the same in place),
  `SetupCoherence`, `SetupLaws`, `SetupProtocol` (operator, panel, worker and one board as a state machine),
  `SetupSafety`, `RelayModes` (what the relay mode shows meanwhile), `SetupReadings` and `SetupRoutes` (there
  is always a way on).
- **Two self-contained pieces.** `ReplyQueues` and `TrafficLog`.

A run is a list of transactions, each under a valid configuration and at a time no earlier than the one
before (`Runs`, `TransitionSystems`). A service call is one atomic step. What a query returns in an order
the database may choose freely (due candidates with equal due times, the peers of an `F *`) is a parameter
of the step, constrained to be a possible answer; a username arrives already looked up. Times are reals.

Where code and documentation disagree: the service tests state that no message queued in a refresh session
comes before the head by (acceptance time, id) (`src/tests/invariants.py:213-240`). The code breaks that in
one case only: a part completes an upload begun before the head's message, at the very time that message was
accepted. `StepKeepsOrderIff` proves for every transaction, and `RunKeepsOrderIff` for every run, that the
order is kept if and only if this does not happen, and `StrictOrderFailsOnTie` gives a run from empty tables in
which it does. What holds in every reachable state is the order by acceptance time (`NoGap`).

## Model

| member | source | states |
|---|---|---|
| `StepProofs.StepKeepsInv` | src/messaging/refresh_sessions.py:193-329 | every service transaction (M, K, R, C, F, preparing, outcomes, ACK, deadline, restart, relink) keeps the whole invariant and only lets rows evolve |
| `Runs.ReachableInv` | src/tests/invariants.py:37-50 | the delivery engine's invariants hold in every state reachable from empty tables |
| `Runs.RunEvolves` | src/messaging/deliveries.py:1-14 | along every run held parts, acceptances, levels, arms and attempts never fall back, and delivered rows and ended sessions never change |
| `Runs.SingleHead` | src/messaging/refresh_sessions.py:193-315 | an active session owns exactly one pending delivery and counts all it owns; an ended one owns nothing pending or queued; one active session per device and peer |
| `Runs.NoGap` | src/messaging/refresh_sessions.py:266-277 | whatever an active session owns is delivered, queued or the head; everything accepted before the head is delivered and nothing queued was accepted before it |
| `Scheduling.NoGapOnTheAir` | src/messaging/outbound_scheduling.py:141-219 | when a part of a session's message is prepared, the row is the active session's head and every owned message accepted earlier was delivered |
| `Scheduling.HeadComesFirst` | src/messaging/refresh_sessions.py:266-277 | a pending owned row belongs to an active session and everything the session owns from earlier is delivered |
| `SessionProofs.AdvanceGivesHead` | src/messaging/reads_and_acknowledgements.py:165-193 | a session that lost its head gets exactly one new head, the earliest queued row, or completes owning nothing outstanding |
| `SessionProofs.FanOutAppends` | src/messaging/fan_out.py:19-42 | a session refreshing the conversation keeps its head and owns exactly one row more, the new one, queued, and counts it |
| `SessionProofs.OpenKeepsSessions` | src/messaging/refresh_sessions.py:207-235 | opening a session over its scope and arming its first head leaves every session with one head, one total, one per conversation |
| `RefreshReplies.RefreshAnnouncesWhatFollows` | src/messaging/refresh_sessions.py:193-252 | the count announced for one conversation is exactly the number of outstanding deliveries of its session afterwards |
| `RefreshReplies.RefreshOfAllAnnouncesWhatFollows` | src/messaging/refresh_sessions.py:71-114 | the total announced for an `F *` is exactly the sum, over its conversations, of what is outstanding in the final tables |
| `RefreshReplies.OpenedScopeIsOutstanding` | src/messaging/refresh_sessions.py:207-235 | a new session's outstanding deliveries are exactly the rows taken over and the missed messages |
| `RefreshScope.RefreshTakesAll` | src/messaging/refresh_sessions.py:151-235 | refreshing a conversation without a session: every accepted message of it delivered nowhere, or failed, cancelled or pending unowned on the device, is pending or queued under one active session afterwards, each from its first attempt on in a new arm; no row of it is idle, and the count is the number of exactly those messages |
| `RefreshScope.RefreshOfOneTakesAll` | src/messaging/refresh_sessions.py:71-114 | the same of a whole "F peer", its receipts included |
| `RefreshScope.RefreshOfAllTakesAll` | src/messaging/refresh_sessions.py:121-134 | the same of an "F *": exactly the conversations that run a session or lack something are listed, each without a session is taken as a whole, and the total is the sum of what each has to come |
| `RefreshScope.RefreshOfAllStartsHeadsOver` | src/messaging/refresh_sessions.py:71-114 | an "F *" starts the head of every session of the device over |
| `RefreshScope.OtherRowsStay` | src/messaging/refresh_sessions.py:193-252 | refreshing a conversation changes no row of another |
| `RefreshScope.RefreshStartsHeadOver` | src/messaging/refresh_sessions.py:238-252 | an F for a running session makes its head due now with every attempt before it, in a new arm if it had made any, keeps every other row and announces what is outstanding |
| `RefreshScope.RefreshStartsReceiptsOver` | src/messaging/receipts.py:201-252 | an F for one peer starts exactly the receipts of what this device sent to the peer over, any other F none: confirmed ones stay, cancelled ones come back at the message's level, the rest are due now in a new arm |
| `AcceptanceOrder.ArmedHeadComesFirst` | src/messaging/refresh_sessions.py:266-277 | the armed head comes before every queued message by (acceptance time, id) |
| `AcceptanceOrder.StepKeepsOrderIff` | src/messaging/fan_out.py:19-42 | every transaction keeps all sessions in (acceptance time, id) order if and only if it is not a part that completes an upload with a smaller id than the head of a session it joins, at the time the head's message was accepted |
| `AcceptanceOrder.RunKeepsOrderIff` | src/tests/invariants.py:213-240 | over every run, the sessions are in that order after each event if and only if no event of the run is such a part |
| `AcceptanceOrder.DistinctTimesKeepOrder` | src/tests/invariants.py:213-240 | a run in which no two transactions share a time keeps the order |
| `EqualTimes.StrictOrderFailsOnTie` | src/tests/invariants.py:213-240 | for every valid configuration, a reachable state in order and a part after which it is not |
| `Runs.RoundsStayInside` | src/messaging/deliveries.py:85-188 | a live row's round is a set of missing parts of its message, its received set is never full, attempts stay within the maximum, and the branch that completes an already reported round is unreachable |
| `Scheduling.AttemptComesWithPacket` | src/messaging/outbound_scheduling.py:187-250 | whatever transaction raises a row's attempt count is the sender loop counting one attempt and preparing the packet of the row's lowest missing part |
| `Scheduling.PreparedPacketInTurn` | src/messaging/outbound_scheduling.py:187-302 | a prepared packet carries the lowest part left of a pending row with its current arm and attempt, or a receipt's current target level |
| `Scheduling.PrepareMakesProgress` | src/messaging/outbound_scheduling.py:141-269 | with anything due and eligible, preparing yields a packet or strictly shrinks the pending work |
| `Scheduling.PacketsGoToTheRightUser` | src/messaging/deliveries.py:302-316 | a part only goes to a device of the message's recipient, a receipt only to a device of its sender |
| `Scheduling.StepKeepsCap` | src/messaging/outbound_scheduling.py:48-69 | no step lets a device have more deliveries in progress than the limit |
| `Runs.CapFromEmpty` | src/messaging/outbound_scheduling.py:227-250 | for a fixed limit, no device ever has more deliveries in progress than that, in every run |
| `DueWork.AcceptedMessageIsDue` | src/messaging/fan_out.py:19-42 | an accepted message is due at once on every device of the recipient with no attempt made, or queued in the session that refreshes the conversation there |
| `DueWork.NewHeadIsDue` | src/messaging/refresh_sessions.py:266-277 | the row that turns head is due at once, from its first attempt on, in a new arm |
| `DueWork.OnlyDueWorkIsPrepared` | src/messaging/outbound_scheduling.py:48-69 | a packet is prepared only for a device on the node and a row that was pending and due, with a place for it if it starts |
| `DueWork.DueWorkIsListed` | src/messaging/outbound_scheduling.py:141-178 | whatever may be prepared is a candidate, unless twenty of its kind are, all due no later |
| `WorkOrder.EarliestWorkGoesFirst` | src/messaging/outbound_scheduling.py:141-178 | with a listed row that has something to send, a packet is prepared, for a row due no later than any such row, and a part before a receipt due at the same time |
| `DueWork.GivingUpStopsTheSession` | src/messaging/outbound_scheduling.py:253-258 | giving up a row fails it and, if it heads a refresh, stops that session and fails what is queued in it, and leaves every other row and session |
| `SilentDelivery.SilentDeviceCost` | src/messaging/outbound_scheduling.py:141-269 | over every run in which only the sender loop touches a fresh delivery and each send counts: every visit of the loop to the row adds one packet to the table, parts 1..n in round after round, each round after the previous one's acknowledgement deadline and pause, until the table holds maximum attempts times n of them; the next visit fails the row, and only that one |
| `SilentDelivery.SilentDeliveryFails` | src/messaging/outbound_scheduling.py:227-258 | after every such run with more visits than that product, the row is failed and exactly that many packets of it exist |
| `SilentDelivery.VisitedRowEmitsOrFails` | src/messaging/outbound_scheduling.py:187-258 | a walk over the candidates that comes to the row emits its next packet if and only if fewer than that product were sent, and otherwise fails it |
| `SilentReceipts.UnconfirmedReceiptCost` | src/messaging/outbound_scheduling.py:272-302 | over every run in which only the sender loop touches a fresh receipt and each send counts: every visit adds one packet at the target level with the next attempt number, each after the previous one's acknowledgement deadline and pause, until the table holds maximum attempts of them; the next visit fails the receipt, and only that one |
| `RetrySchedule.PausesGrow` | src/messaging/retry_schedule.py:16-20 | pauses never shrink and stay between the initial and the maximum pause |
| `RetrySchedule.PausesMultiply` | src/messaging/retry_schedule.py:16-20 | the first pause is the initial one and each next one the previous times the multiplier, up to the maximum |
| `RetrySchedule.WaitIsClamped` | src/messaging/retry_schedule.py:23-33 | the acknowledgement wait is 1.2 times the suggestion within its bounds, and the fixed time without one |
| `RetrySchedule.DueAfterAcknowledgementDeadline` | src/messaging/retry_schedule.py:36-57 | a round completed by a send is due no earlier than that packet's acknowledgement deadline and retry pause |
| `RowProofs.MissingPartsSoon` | src/messaging/deliveries.py:153-188 | with an empty round, the parts a status still misses are due within the short delay |
| `Runs.ArmsOnlyGrow` | src/messaging/deliveries.py:224-288 | along every run (arm generation, attempt count) of a delivery never falls back lexicographically |
| `Runs.StalePacketsChangeNothing` | src/messaging/outbound_packets.py:119-196 | once its row, a delivery or a receipt, moved to another arm or round, a packet's outcome changes no delivery and no receipt, after any further run |
| `Runs.OutcomeRemovesOwnPart` | src/messaging/outbound_packets.py:119-196 | an outcome changes at most the packet's own row, if it counts and the row is still in the packet's arm and round: the packet's part leaves the round, the send is noted, a new due time is set only with the last part, nothing else changes |
| `Runs.OutcomeSettles` | src/messaging/outbound_packets.py:119-131 | a recorded outcome leaves its packet prepared no more |
| `Runs.OutcomeCountsOnce` | src/messaging/outbound_packets.py:119-131 | after any run, restart recovery included, a second outcome of the same packet changes nothing |
| `PacketLife.OutcomeAtEveryReceipt` | src/messaging/outbound_packets.py:182-196 | for every receipt: a counting outcome of a prepared packet of its current arm and attempt ends that attempt, with the next one due exactly after the longer of pause and acknowledgement wait; any other outcome leaves it |
| `PacketLife.OutcomeAtEveryDelivery` | src/messaging/outbound_packets.py:167-181 | for every delivery: such an outcome takes exactly the packet's part out of the round, and the last one sets the next due time; any other outcome leaves it |
| `PacketLife.OutcomeAtPacketsAndDevices` | src/messaging/outbound_packets.py:119-164 | an outcome settles its packet and no other, and marks a contact missing on the node exactly when the node reports it unknown |
| `PacketLife.AcknowledgementMarks` | src/messaging/outbound_packets.py:249-281 | a firmware ACK marks exactly the packets with its code, awaited or timed out, queued within ten minutes; nothing else changes |
| `PacketLife.WaitingEnds` | src/messaging/outbound_packets.py:294-339 | a deadline times out its packet if it is still awaited and no other; a lost link times out every awaited one |
| `PacketLife.RestartLeavesNothingOpen` | src/messaging/outbound_packets.py:350-367 | after a restart no packet is prepared or awaited: the first kind is unknown, the second timed out, the rest as it was |
| `PacketLife.RoundGoesByLatestPacket` | src/messaging/deliveries.py:133-144 | the suggestion of a round is that of its latest packet of the row's arm and attempt whose outcome is known |
| `PacketLife.NoSuggestionWithoutPacket` | src/messaging/deliveries.py:133-144 | without such a packet there is no suggestion |
| `Runs.DeliveryHasItsReport` | src/messaging/reads_and_acknowledgements.py:83-193 | every delivered row turned delivered at one event of the run, undelivered right before it: a single all-ones K of that device, or its R |
| `RowEffects.DeliveredOnlyByReport` | src/messaging/outbound_packets.py:249-281 | no other step delivers: no firmware ACK, time-out, refresh or relink |
| `Runs.DeliveredIsFinal` | src/messaging/deliveries.py:191-211 | a delivered row never changes again in any run |
| `Runs.ReceivedSetOverRun` | src/messaging/deliveries.py:153-188 | an undelivered row's received set is exactly the latest accepted K of the run, or empty after the revival of a cancelled row, never a union |
| `RowEffects.StatusAtItsRow` | src/messaging/reads_and_acknowledgements.py:132-162 | a K replaces its row's received set, and delivers it exactly when it reports every part |
| `ReportAnswers.StatusTakesEffect` | src/messaging/reads_and_acknowledgements.py:132-162 | a K of the right length from a device of the recipient about a live row becomes its received set and, all ones, delivers row and message; any other K changes nothing |
| `ReportAnswers.IncompleteStatusChanges` | src/messaging/deliveries.py:153-188 | an incomplete K changes its row alone: the received set, what the round has left and, once that is nothing, the due time, soon with an attempt left and otherwise when pause and acknowledgement wait since the last send are over |
| `ReportAnswers.ReadTakesEffect` | src/messaging/reads_and_acknowledgements.py:83-118 | an R for a message of the device's user leaves it read and delivered, first times kept, and nothing of it live there; any other changes nothing |
| `ReportAnswers.LevelRisesByReport` | src/messaging/reads_and_acknowledgements.py:196-209 | over all transactions, a message rises only by a full K or an R of a device of its recipient, and to read only by an R |
| `Runs.ReceiptLevels` | src/messaging/receipts.py:38-264 | confirmed level <= target level <= message level; short of cancelling, a receipt is confirmed if and only if both levels meet; a live one concerns a device of the sender |
| `Runs.LevelsNeverFall` | src/messaging/receipts.py:126-194 | along every run neither level of a receipt falls |
| `ReportAnswers.ConfirmationTakesEffect` | src/messaging/receipts.py:180-194 | a C for an open receipt of this device leaves its confirmed level at the maximum of the old one and the reported level capped by the target, confirmed if and only if that meets the target; any other C changes nothing |
| `SettledReceipts.ConfirmationSilences` | src/messaging/receipts.py:180-194 | after a C at the target level no packet of the receipt is prepared in any run, until it is re-armed |
| `SettledReceipts.SettledReceiptIsQuiet` | src/messaging/outbound_scheduling.py:272-302 | a confirmed or cancelled receipt gets no further packet in its arm, over every run |
| `MessageEffects.RiseTellsEverySenderDevice` | src/messaging/receipts.py:83-107 | whatever transaction raises a message's level, right afterwards each device its sender has owns a pending receipt that targets exactly that level, before its first attempt; a read is due at once, a new delivered receipt held back by its delay |
| `Scheduling.ReceiptPacketIsTrue` | src/messaging/outbound_scheduling.py:272-302 | an s packet never claims a delivery or read that has not happened |
| `Runs.RelinkLeavesNothingLive` | src/directory/accounts.py:181-239 | after a relink no delivery, receipt or session of the device's previous user is live |
| `DueWork.LinkedDeviceIsUsers` | src/directory/accounts.py:181-239 | signing in makes the device its user's and changes no other device, message or packet |
| `DueWork.RelinkCancelsOpenRows` | src/directory/accounts.py:216-239 | a change of hands cancels, on that device alone, every delivery not delivered, every receipt but one whose read was confirmed, and every active session |
| `DueWork.FirstLinkCancelsNothing` | src/directory/accounts.py:181-193 | a first sign-in, or one as the same user, changes no delivery, receipt or session |
| `DueWork.DevicesComeAndSync` | src/directory/node_sync.py:60-95 | a new contact is nobody's and not on the node; syncing changes only whether the node knows it |
| `Uploads.EndToEnd` | src/messaging/incoming_messages.py:47-175 | parts of a split text sent by one device in any order with repeats, while other devices of the user send anything under the same id: the message holds exactly what was sent, is accepted exactly when every part was sent, and then its text is the original |
| `Uploads.OtherDeviceChangesNothing` | src/messaging/incoming_messages.py:135-147 | a request of another device under the id neither adds nor changes a part |
| `PartAnswers.PartIsAnswered` | src/messaging/incoming_messages.py:47-175 | every M: each error exactly in its own case, in the source's order, with nothing changed; ID_CONFLICT if and only if a proper request meets another recipient, count or text at its number, or another device's unfinished upload that lacks the part; otherwise the message has the request's recipient, count and text and the status tells exactly the parts held |
| `Uploads.OwnPartIsStored` | src/messaging/incoming_messages.py:135-167 | the uploading device's own part never conflicts and is held afterwards |
| `Uploads.OneDeliveryPerDevice` | src/messaging/fan_out.py:19-42 | at acceptance exactly the recipient's devices of that moment get a delivery, one each, and none existed before |
| `Uploads.AcceptedOnce` | src/messaging/incoming_messages.py:162-167 | after acceptance no run changes its time, text, recipient or parts |
| `Uploads.StoredPartsTravel` | src/messaging/outbound_scheduling.py:196-205 | every held part of a reachable state formats as an m of at most 150 bytes that parses back to the same part |
| `RelayEngines.RelayEngine.constructor` | src/messaging/models.py:11-48 | the engine starts with empty tables |
| `RelayEngines.RelayEngine.Run` | src/messaging/service_transactions.py:26-38 | any transaction on tables in order leaves what its transition function says, in order again |
| `RelayEngines.RelayEngine.ReceivePart` | src/messaging/incoming_messages.py:47-83 | one M: as its request and the tables demand, each error exactly in its case, or a status that tells exactly the parts held, the sent text among them |
| `RelayEngines.RelayEngine.BuildReceivedSet` | src/messaging/incoming_messages.py:170-175 | the status names exactly the parts held |
| `RelayEngines.RelayEngine.CreateDeliveries` | src/messaging/fan_out.py:19-42 | one row per recipient device, queued behind a refreshing session's head, totals raised by one |
| `RelayEngines.RelayEngine.ReceiveStatus` | src/messaging/reads_and_acknowledgements.py:132-162 | one K: unless it names a live row of the device and a set of the right length nothing changes; an incomplete set replaces the row's received set, a full one delivers the row, confirms the message and moves the session on; never an answer |
| `RelayEngines.RelayEngine.ReceiveRead` | src/messaging/reads_and_acknowledgements.py:83-118 | one R: the error it earns, and only then, with nothing changed; otherwise the message is read and delivered and nothing of it is live on the device |
| `RelayEngines.RelayEngine.ConfirmDelivery` | src/messaging/reads_and_acknowledgements.py:157-193 | delivering, confirming, raising receipts and completing the session last equals handing the session over first |
| `RelayEngines.RelayEngine.ReceiveConfirmation` | src/messaging/reads_and_acknowledgements.py:223-252 | one C: the device's open receipt of the message is confirmed exactly as far as reported and targeted; in every other case nothing changes |
| `RelayEngines.RelayEngine.RaiseReceiptsForMessage` | src/messaging/receipts.py:83-107 | a new or raised receipt for every device of the sender |
| `RelayEngines.RelayEngine.RearmReceiptsForRefresh` | src/messaging/receipts.py:201-252 | restarts or revives exactly the receipts of what the device itself sent to the peer |
| `RelayEngines.RelayEngine.ReceiveRefresh` | src/messaging/refresh_sessions.py:71-114 | one F, for one peer or all: the error it earns, and only then, with nothing changed; otherwise everything lacking is taken and the count tells how many messages were lacking or outstanding |
| `RelayEngines.RelayEngine.RefreshOnePeer` | src/messaging/refresh_sessions.py:193-252 | restarts an active session's head, or opens a session that takes all the device lacks of the conversation, counting exactly that, and arms the first head |
| `RelayEngines.RelayEngine.FindNextHead` | src/messaging/refresh_sessions.py:266-277 | finds the queued row that is first in acceptance order, if any is queued |
| `RelayEngines.RelayEngine.StopRefreshSession` | src/messaging/refresh_sessions.py:290-315 | fails everything queued behind the head and stops the session |
| `RelayEngines.RelayEngine.PrepareNextPacket` | src/messaging/outbound_scheduling.py:141-152 | walks the due candidates until one yields a packet |
| `RelayEngines.RelayEngine.PrepareDeliveryPacket` | src/messaging/outbound_scheduling.py:187-219 | the packet of the lowest part left, after completing, failing or starting a round |
| `RelayEngines.RelayEngine.AdvanceToNewRound` | src/messaging/outbound_scheduling.py:227-250 | completes, gives up, waits for a place or starts the next round |
| `RelayEngines.RelayEngine.PrepareReceiptPacket` | src/messaging/outbound_scheduling.py:272-302 | a pending receipt yields one packet at its target level, counting an attempt unless one is under way; without a packet it is pending no more, and it fails only with every attempt spent; no other receipt changes |
| `RelayEngines.RelayEngine.FindRoundSuggestion` | src/messaging/deliveries.py:133-144 | the timeout of the round's latest packet whose outcome is known |
| `RelayEngines.RelayEngine.RecordSendOutcome` | src/messaging/outbound_packets.py:119-150 | the packet is settled as its outcome says and no later outcome of it changes anything; the delivery or the receipt it was prepared for, if still in that round or attempt and the outcome counts, loses the part or ends the attempt, and every other row stays |
| `RelayEngines.RelayEngine.ReceiveNodeAcknowledgement` | src/messaging/outbound_packets.py:249-281 | marks exactly the packets the code concerns within ten minutes |
| `RelayEngines.RelayEngine.RecoverPackets` | src/messaging/outbound_packets.py:350-367 | leaves no packet prepared or awaited |
| `RelayEngines.RelayEngine.Relink` | src/directory/accounts.py:216-239 | cancels deliveries, receipts and sessions, then moves the device |
| `Splitting.SplitIsOptimal` | src/protocol/message_splitting.py:55-94 | the parts join to the text, each is a valid part text, and no split at code points has fewer |
| `Splitting.SplitKeepsClusters` | src/protocol/message_splitting.py:55-75 | the result keeps every grapheme cluster whole if and only if some equally short split does |
| `Splitting.TooLongExactly` | src/protocol/message_splitting.py:71-75 | a proper text is refused exactly when no split of it has at most ten parts |
| `Splitting.FillIsMinimal` | src/protocol/message_splitting.py:28-52 | greedy packing uses no more parts than any grouping of the same units |
| `Splitting.PackSplits` | src/protocol/message_splitting.py:78-94 | packing loses nothing, fills no part over the budget and leaves none empty |
| `Splitting.PartPacker.constructor` | src/protocol/message_splitting.py:31-35 | an empty packer |
| `Splitting.PartPacker.AddUnit` | src/protocol/message_splitting.py:37-42 | adding a unit leaves the outcome of the whole list as it was |
| `Splitting.PartPacker.Finish` | src/protocol/message_splitting.py:50-52 | returns the outcome of what was added |
| `Splitting.PackUnits` | src/protocol/message_splitting.py:78-94 | packs units greedily, cutting only one longer than a part |
| `Splitting.Split` | src/protocol/message_splitting.py:55-75 | the split, or the error, with the errors in the source's order |
| `RoundTrips.ParseOfFormat` | src/protocol/parsing.py:95-188 | parsing what was formatted gives the message back (a refresh count above 9999 as 9999) |
| `RoundTrips.FormatOfParse` | src/protocol/formatting.py:68-387 | formatting what was parsed gives the text back, for every message the formatter accepts |
| `RoundTrips.TextOfParsed` | src/protocol/parsing.py:95-188 | a text that parses to a message is the one text the formatter would write for it, tails with spaces included |
| `RoundTrips.OneTextPerMessage` | src/protocol/parsing.py:95-188 | no two texts parse to the same message |
| `WireFormat.FormattedIsWire` | src/protocol/formatting.py:68-387 | every formatted message is the text written out for its kind, and is read back from it |
| `WireFormat.ParsedIsWire` | src/protocol/parsing.py:95-188 | a text that parses is the text written out for its message |
| `GrammarAnswers.ParsesExactly` | src/protocol/parsing.py:95-188 | a text parses if and only if it is the text of some message in the grammar |
| `RoundTrips.BuildOfFields` | src/protocol/parsing.py:196-362 | the fields written for a message match its layout and build the same message |
| `RoundTrips.FieldsOfBuild` | src/protocol/parsing.py:196-362 | the message built from matching fields is in the grammar and writes the same fields |
| `RoundTrips.PartFitsBudget` | src/protocol/formatting.py:150-165 | a part is at most 46 bytes of header and 104 of text, so it always formats |
| `RoundTrips.BudgetIsReached` | src/protocol/constants.py:17-22 | all 150 bytes are used exactly by the longest username, id and numbering with a full part |
| `RoundTrips.WritableIsSendable` | src/protocol/formatting.py:366-387 | a message whose fields pass the formatter's rules formats, except exactly a sign-in whose password as given is too long or cannot travel |
| `FieldGrammar.SplitOfJoin` | src/protocol/parsing.py:136-160 | cutting joined fields at spaces gives them back, if only the last may hold spaces |
| `Decimals.DecimalOfValue` | src/protocol/field_grammar.py:34-49 | a number field without leading zero is the decimal text of its value |
| `Parsing.CheckHeader` | src/protocol/parsing.py:149-154 | the header loop stops at the first field that breaks the grammar with exactly the correlation fields before it |
| `Replies.NoReplyLoops` | src/messaging/request_processing.py:193-242 | whatever a relay answers to whatever text, no relay answers that answer |
| `Replies.NoReplyToServerText` | src/messaging/request_processing.py:193-242 | no text the server can format earns a reply |
| `Replies.NoReplyToServerTraffic` | src/protocol/error_replies.py:81-96 | no lower-case type of any version earns a reply |
| `Replies.NoReplyToAcknowledgement` | src/messaging/request_processing.py:338-350 | no K or C of version 1 earns a reply, even malformed |
| `Replies.KeyExactlyWhenAnswered` | src/messaging/reply_keys.py:56-76 | a text has a reply key if and only if a service or the grammar answers it |
| `GrammarAnswers.GrammarAnswersAsDue` | src/protocol/error_replies.py:41-96 | told from the text alone: VERSION with the version for an upper-case type of another version, UNSUPPORTED with the letter for an unknown upper-case type, SYNTAX for a request that is no message's text or for no letter at all, nothing otherwise |
| `GrammarAnswers.OtherTextIsIgnored` | src/protocol/parsing.py:95-133 | any text that is not "HT", one to three digits and a space is none of the protocol's and is not answered |
| `Replies.GrammarErrorsAreSendable` | src/protocol/error_replies.py:41-96 | every error the grammar answers formats without error |
| `Replies.RequestErrorsAreSendable` | src/protocol/error_replies.py:99-119 | every error a service answers to a parsed request formats without error |
| `Replies.RequestKeysAgree` | src/messaging/reply_keys.py:30-40 | two requests share a key if and only if they have one type and the same peer, id or target, case aside |
| `Replies.CorrectedRequestHasSameKey` | src/messaging/reply_keys.py:47-53 | a malformed request whose references parsed has the key of the corrected request and of no other, and the same reference |
| `Replies.UnreferencedKeysAreUnique` | src/messaging/reply_keys.py:43-44 | a key without reference is no request's and no other row's |
| `Replies.SameIdsInKeys` | src/messaging/reply_keys.py:30-40 | equal keys of part or read requests mean equal ids and peers |
| `ReceivedSets.ReceivedSetRoundTrip` | src/protocol/received_sets.py:30-47 | a received-set read as a mask is written as the same text |
| `ReceivedSets.MaskRoundTrip` | src/protocol/received_sets.py:30-47 | a mask that fits the message, written and read, is the same mask |
| `ReceivedSets.PartsDetermineMask` | src/protocol/received_sets.py:1-6 | masks and sets of part numbers correspond one to one |
| `ReceivedSets.AllPartsMask` | src/protocol/received_sets.py:24-27 | the all-ones mask is every part of the message |
| `ReceivedSets.AndNotIsDifference` | src/messaging/outbound_scheduling.py:222-224 | the mask operation of a round is set difference |
| `ReceivedSets.ConvertReceivedSetToMask` | src/protocol/received_sets.py:30-37 | the mask of a received-set; anything else is refused |
| `ReceivedSets.ConvertMaskToReceivedSet` | src/protocol/received_sets.py:40-47 | one character per part; a mask that does not fit is refused |
| `ReceivedSets.FindLowestPartNumber` | src/messaging/outbound_scheduling.py:261-269 | shifting finds the lowest part of the mask's set |
| `SetupSafety.NeverRelaysUnconfigured` | src/worker/relay_modes.py:67-99 | over every run with crashes, failures, expiry, lost imports, cancellations and retries, while the board holds the configured key unconfigured the mode is never running, whatever key was reported |
| `RelayModes.ModeIs` | src/worker/relay_modes.py:67-99 | each of the five modes if and only if its case holds, in terms of the attached key, the configured key and the runs |
| `RelayModes.SetupShowsInProgress` | src/worker/relay_modes.py:87-99 | over every run of the protocol: from the recorded reset until completion or cancellation the mode on the attached board is setup in progress; so it is while a run resets or configures, whatever key is attached, and on a key an active run restores |
| `SetupRoutes.RelayIsAlwaysInReach` | src/node/setup_runs.py:188-405 | no dead end: after every run of the protocol, whatever crashed, failed, expired or was cancelled, some continuation leaves a configured board attached and the relay running on it |
| `SetupRoutes.IdentityIsAlwaysRestorable` | src/worker/node_setup_steps.py:199-434 | after every run in which a key is configured, some continuation leaves the relay running on a configured board with that very key |
| `SetupRoutes.EverySetupCanFinish` | src/node/setup_runs.py:188-405 | no run is stuck: after every run of the protocol an active setup, wherever it stands, can still be completed, with the relay running on the board it set up |
| `SetupReadings.ActionKeepsReadings` | src/worker/node_setup_steps.py:199-260 | every action keeps this: a run that asks for the reset, or waits for one whose frame is not out, has read the very board that is attached |
| `SetupSafety.ActionKeepsInv` | src/worker/node_setup_steps.py:199-434 | every action of operator, panel and worker keeps the protocol's invariant |
| `SetupSafety.ImportKeepsInv` | src/worker/node_setup_steps.py:410-434 | once the restore is recorded the import may reach the board or not |
| `SetupSafety.ConfiguredBoardRelays` | src/node/setup_runs.py:331-353 | once a configuration is persisted the attached board relays at once |
| `SetupSafety.RunsAndCommandsAgree` | src/node/setup_runs.py:450-467 | after every run at most one run is active, exactly while its state is not final, at most one command runs, and a waiting run's latest command is of its kind and under way |
| `SetupCoherence.OperatorCanActAgain` | src/node/setup_runs.py:356-400 | however the awaited command ends without success, the run is back where the operator can act |
| `SetupCoherence.FallBackIsIdempotent` | src/node/setup_runs.py:356-400 | falling back twice for one command equals falling back once |
| `SetupCoherence.EndingKeepsCoherence` | src/node/node_commands.py:108-128 | ending any outstanding command without success keeps runs and commands in agreement |
| `SetupLaws.FailedRunGoesBack` | src/node/setup_runs.py:356-405 | a run whose awaited command ended without success goes back to the state before it with its keys and the error; after a reset frame that may be out the node is read again |
| `SetupLaws.ReplacedCommandMovesNothing` | src/node/setup_runs.py:356-383 | a command a later one replaced, or of no run, moves no run |
| `SetupLaws.MovingOnForgetsError` | src/node/setup_runs.py:211-353 | a run that is retried, confirmed, submitted, read, reset or completed shows no error any more |
| `SetupLaws.CommandsLive` | src/node/node_commands.py:27-40 | a queued command expires after its kind's lifetime: a minute for resets, configurations and other short ones, five minutes otherwise |
| `SetupLaws.RecordedStepIsShown` | src/node/node_commands.py:164-178 | a recorded step shows the state recorded wherever it stands, and every other step its own |
| `SetupDesks.RecordedStepStays` | src/node/node_commands.py:164-178 | recording a progress step adds it and forgets none |
| `SetupDesks.RebuildProgress` | src/node/node_commands.py:164-178 | the step is replaced wherever it occurs and appended if it occurs nowhere |
| `SetupDesks.SetupDesk.constructor` | src/node/models.py:21-73 | no runs, no commands, nothing configured; runs and commands agree |
| `SetupDesks.SetupDesk.Start` | src/node/setup_runs.py:188-208 | exactly one run is active afterwards; a new one, unless one was active, waits for its read command, with every other run as it was |
| `SetupDesks.SetupDesk.Retry` | src/node/setup_runs.py:211-226 | the node is read again unless it is being read: one new command, the only one pending for the run |
| `SetupDesks.SetupDesk.Confirm` | src/node/setup_runs.py:237-254 | a run is being reset afterwards if and only if it was or the typed confirmation was awaited and right; its reset command is then its latest and pending; no other run changes |
| `SetupDesks.SetupDesk.Submit` | src/node/setup_runs.py:257-271 | a run is being configured afterwards if and only if it was or a configuration was awaited; its command is then its latest and pending, and a key it began to restore stays noted |
| `SetupDesks.SetupDesk.Cancel` | src/node/setup_runs.py:274-287 | after an abandoned run no run is active, nothing of it is pending, its restored key stays and nothing relays on that key |
| `SetupDesks.SetupDesk.NoteRead` | src/node/setup_runs.py:290-309 | the operator can act afterwards: on a configuration if and only if the key changed since the first read, otherwise on the reset of the key read |
| `SetupDesks.SetupDesk.NoteReset` | src/node/setup_runs.py:312-319 | the reset is over if and only if the node came back under another key |
| `SetupDesks.SetupDesk.NoteRestore` | src/node/setup_runs.py:322-328 | while configuring, from the note on nothing relays on the key |
| `SetupDesks.SetupDesk.NoteCompleted` | src/node/setup_runs.py:331-353 | no run is active any more and the relay runs on the key at once |
| `SetupDesks.SetupDesk.MoveBack` | src/node/setup_runs.py:356-405 | the fall-back of a run whose command ended without success; a second one finds nothing to do |
| `SetupDesks.SetupDesk.ExpirePending` | src/node/node_commands.py:108-128 | given every pending command past its time, none is left afterwards, and runs and commands still agree |
| `SetupDesks.SetupDesk.Claim` | src/node/node_commands.py:131-153 | after expiry the oldest pending command, still in time, is the only one running, unless another one ran |
| `SetupDesks.SetupDesk.NoteProgress` | src/node/node_commands.py:156-161 | a progress step is recorded and runs and commands still agree |
| `SetupDesks.SetupDesk.Finish` | src/node/node_commands.py:181-209 | ends a running command once; nothing runs afterwards, the run of a command ended without success is back with the operator unless it moved on, and runs and commands agree unless an awaited command is reported successful |
| `SetupDesks.SetupDesk.InterruptRunning` | src/node/node_commands.py:221-234 | given every command still running, none runs afterwards, and runs and commands still agree |
| `ReplyQueues.ReplyQueue.constructor` | src/worker/reply_queue.py:42-46 | an empty queue |
| `ReplyQueues.ReplyQueue.AddReply` | src/worker/reply_queue.py:51-67 | replaces any older reply to the request; an incomplete status waits |
| `ReplyQueues.ReplyQueue.AddFloodResend` | src/worker/reply_queue.py:69-82 | ready at once and exempt from suppression |
| `ReplyQueues.ReplyQueue.PutBack` | src/worker/reply_queue.py:84-90 | waits again exactly when no newer reply waits and its new ready time is before its expiry, whatever that time is |
| `ReplyQueues.ReplyQueue.TakeNextReadyReply` | src/worker/reply_queue.py:95-104 | takes a reply if and only if one is unexpired, ready and, unless a flood resend, not recorded as sent to the contact within the window, and then the first of those by (ready time, sequence); none newer to the same request was queued, for a contact never dropped |
| `ReplyQueues.ReplyQueue.RecordReplySent` | src/worker/reply_queue.py:106-110 | starts the window of the text, except for a flood resend |
| `ReplyQueues.ReplyQueue.NextReadyTime` | src/worker/reply_queue.py:112-116 | the earliest ready time of an unexpired reply |
| `ReplyQueues.ReplyQueue.DropContactsOtherThan` | src/worker/reply_queue.py:118-125 | exactly the replies to other contacts go |
| `ReplyQueues.ReplyQueue.ForgetOldTexts` | src/worker/reply_queue.py:142-149 | only texts whose window is over are forgotten |
| `ReplyQueues.WalkEndsTaking` | src/worker/reply_queue.py:95-104 | walking the sorted replies past ready repeats takes the first that may be taken, and leaves what comes after it |
| `TrafficLog.PagingShowsEverythingOnce` | src/panel/traffic_log.py:103-111 | following the cursor shows both tables newest first, of one time inbound before outbound and then the higher id, no row missing or twice |
| `TrafficLog.PagesFromCursor` | src/panel/traffic_log.py:103-147 | the pages from any cursor on are the sorted rows below it |
| `TrafficLog.PageIsNewest` | src/panel/traffic_log.py:103-111 | a page is the newest rows of the union, and the cursor is null exactly on the last page |
| `TrafficLog.BeforeCursorIsBelow` | src/panel/traffic_log.py:114-122 | the query's three cases are the one order on (time, direction, id) |
| `TrafficLog.MergePage` | src/panel/traffic_log.py:103-111 | merging, sorting and cutting the rows of both queries gives the page |

## Left out

- Row locks, lock order, SKIP LOCKED, savepoints and deadlock retries: a service call is one atomic step.
- Deleting contacts, users and messages, expiring incomplete uploads after 24 hours, and pruning logs and old commands: rows are never deleted, so `Evolves` says that a message, once begun, stays.
- Timestamps, error texts and counters that no decision reads, such as last_part_at, last_acknowledgement_received_at and outcome summaries.
- Reply packets in the packet table and the wording of replies: they touch no delivery or receipt.
- Usernames in the engine: a request carries the user its username was looked up as, or none; sign-in, throttling and password hashing only link a device here.
- Unicode NFC normalisation and grapheme segmentation: the first is a function parameter of the formatter, the second a list of pieces given to the splitter.
- MeshCore sender timestamps and route resets: they influence no modelled decision.
- The microsecond rounding of time differences and the floating point of retry pauses: times and pauses are reals.
- Several boards with one private key, and node settings besides the key: the setup model has one board that is configured or not; a factory reset gives it a key nobody has seen.
- The node gateway, connections, asyncio tasks, panel forms and views, cursor encoding in the traffic log, and cryptography of contact cards and backups.
- Which commands a relay mode refuses, except that a reset or configuration runs only while its active run waits for it.
- `ReplyQueues.ReplyQueue`: contacts, keys and texts are numbers there, since the queue only compares them.
