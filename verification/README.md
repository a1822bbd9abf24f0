# Verification model of the auto-speech narrator

auto-speech speaks lines on a Mac. Callers hand a line to a background daemon
over a socket; the daemon queues it, waits while other sound plays, speaks it
once, and keeps what could not be heard on a "missed" list. The files here
model that daemon and the algorithms around it in Dafny, and prove what it
keeps. The listener is whoever hears the lines, and can stop and resume them and
play missed ones again. `dafny verify dfyconfig.toml` checks everything.

## What is modelled

**One line id, one play.** `SpeechProtocol` is a step machine over the ledger,
the four bands of the queue, the line in the worker's hand, the missed list, the
stop, the run of the speech control and the clock. A dispatched request is one
step; the worker's pass is several (take, mark, begin, synthesis, the last look at
the stop, the gate with its first look, each round of a hold, the start, then one
of heard, set aside, queued again, with a wait for room where the queue is full, or
failed). `ProtocolInvariant` states what each
state satisfies, `ProtocolSteps` shows that each kind of step keeps it, and
`ProtocolTheorems`, `ProtocolEntries`, `ProtocolStops`, `ProtocolSends`,
`ProtocolCuts` and `ProtocolRecords` draw the conclusions over all runs: one carrier
and one play a day, one missed entry per line, what the stop keeps, how often an id
is queued, what a cut clip ends as, and that a line's words are never lost.
`ProtocolQueue`, `ProtocolEffects` and `ProtocolProgress` say what requests take out
of the queue, item by item, what steps do to the list, and what the worker can do next. A request may be delivered at any time and any number of times,
a replay too, whether or not its entry still stands. `orphans` and `log` in the state are history only; no step reads
them.

The four mutable components are classes whose fields the methods update in
place: `Ledger.LineLedger`, `Arbiter.PriorityArbiter`,
`MissedSpeech.MissedList`, and over them `Narrator.NarratorService`, whose
methods are proved to take exactly the protocol's steps. `DaemonClient` is the
caller's side: one call, of a new line or a replay, several attempts, replies that
may be lost.

**The algorithms around it**, each with its own meaning and theorems:
the queue facade's task count (`TaskAccounting`), the incremental event-log tail
(`EventTail`), the Fibonacci chunk planner and boundary snapper (`Chunks`), the
word timings (`WordTimings`, `WordSpans`), split-and-retry synthesis (`Splitter`,
`Resilient`), the wait for other sound (`SoundYield`), the playback stall watch
(`PlaybackWatch`), the size-bounded history (`History`), and the speech control's
rows and position (`ControlRows`, `PositionClock`).

Clocks, probes, the synthesis engine, the player and the disk are parameters:
every value, or every sequence of answers, is covered. The clock never goes
back. Writes to disk succeed, unless a flag says otherwise.

## Where the code does less than it says

Each of these keeps the code as it is. The exact condition, or a run that shows
it, is a lemma.

- A full queue that sheds a line does not tell the ledger, since the shed item
  comes back as its bare payload. The id stays "queued" and every resend is
  refused with nothing left to play it, until a restart
  (`AShedLineIsRefusedWithNothingToPlayIt`,
  `OrphansComeFromShedsAndLastToTheRestart`). Without sheds it never happens
  (`WithoutShedsNoOrphans`).
- A play can start while speech is stopped: one, and exactly when the line in hand
  was past its last look at the stop as the stop came, its hold, if any, not at the
  point of giving up (`PlayStartsWhileStoppedExactlyWhen`,
  `OnePlayAtMostAfterTheStop`). It happens with no hold at all, the stop falling
  before the gate opens, and in a hold whose other sound ends before the abort is
  looked at again (`APlayMayStartWhileStopped`).
- The missed list can come to hold two entries for one speech line: exactly when
  an entry is written that is one entry by its entry id and another by its line
  id (`OneEntryKeptExactlyWhen`, `TwoEntriesForOneLine`). Callers who add no line
  that is in the daemon already never cause it (`PoliteRunsKeepOneEntry`).
- A clip cut by a barge-in or a stop counts as heard; only when the shutdown has
  cut in is the line set aside (`ACutLineCountsAsHeardExactlyWhen`, and two runs in
  `ACutLineEndsEitherWay`).
- A line queued again after a time-out forgets its sender, run and time
  (`ARetryForgetsWhoSentIt`).
- The tries of one call queue its line at most once unless the line is let go in
  between (`OneCallOneCopy`, `LetGoBetweenTwoQueuings`). So a replay whose reply was
  lost, and which the stop set aside, is queued again by the next try, though nobody
  played it again (`AResentReplayIsQueuedAgain`): a line the stop set aside gets a
  carrier exactly when a replay of it is delivered, the first time or again, and no
  full queue has shed it (`PickedUpExactlyWhen`).
- A request for cached sound by its hash carries no id, so every try that arrives
  is queued (`WithoutAnIdEachDeliveryQueues`).
- A line queued again, for one more try or put back, waits for room exactly when it
  is a narration and the queue is full (`TheWorkerWaitsExactlyWhen`). The only worker
  then does nothing else (`ABlockedWorkerWaits`) until a request takes items out
  (`AFullQueueHoldsTheWorker`).
- An entry that a replay under another line id is set aside as comes to be about
  that other line (`AnEntryKeepsItsLineExactlyWhen`).
- With a clock set back, the history may keep a line older than what it pruned
  (`AnOlderLineMayStay`): exactly when there is room for it beside what stayed
  (`LateExportIsInTimeExactlyUnless`).
- Putting an item back while the machine is busy raises the count of unfinished items by one
  for good, and `clear` leaves it wrong unless nothing is in hand or in flight
  (`CountIsTheWork`, `ClearKeepsTheCountExactlyWhen`).
- Polls whose watermark could not be written are repeated after a restart: no
  line is left out, and each is handled once exactly when every restart goes back
  over nothing but blank lines (`NoLineIsLeftOut`, `HandledOnceExactlyWhen`); a tail without a watermark may start in the middle
  of a line (`StartAtTheEnd`).
- A rate set in the settings window shifts the position already shown
  (`SettingsRateJumpsExactlyWhen`).
- `daemon_client.py` and `narrator_service.py:471` say a done line is refused
  for ten minutes; the ledger refuses it for a day (`line_ledger.py:58-59`). The
  model follows the ledger.

## Model

| member | source | states |
|---|---|---|
| ProtocolTheorems.PlaysAreADayApart | plugin/scripts/python/line_ledger.py:143-163 | In every run two completed plays of one id are at least a day apart, unless a full ledger evicted the id between them |
| ProtocolTheorems.OneCarrierExactlyWhenActive | plugin/scripts/python/narrator_service.py:727-799 | In every reachable state at most one queued item or line in hand carries an id, and one does exactly when the ledger says queued or playing and the id was not shed |
| ProtocolTheorems.StepKeepsInv | plugin/scripts/python/narrator_service.py:1533-1697 | Every request and every step of the worker keeps the whole invariant: carriers, books, missed list, stop, hand |
| ProtocolTheorems.RunKeepsInv | plugin/scripts/python/narrator_service.py:1533-1697 | So does every run, of any interleaving |
| ProtocolTheorems.OrphansComeFromShedsAndLastToTheRestart | plugin/scripts/python/narrator_service.py:1244-1279 | Ids that read as queued with no carrier arise exactly from sheds and end exactly at a restart |
| ProtocolTheorems.AnOrphanIsRefusedWithNothingToPlayIt | plugin/scripts/python/line_ledger.py:247-251 | Such an id is refused at every later time, whatever is evicted, and nothing carries it |
| ProtocolTheorems.WithoutShedsNoOrphans | plugin/scripts/python/narrator_service.py:1244-1279 | In a run without sheds, queued or playing means a carrier: no id is refused with nothing to play it |
| ProtocolTheorems.AHeardLineHasNoEntry | plugin/scripts/python/narrator_service.py:2027-2039 | In every reachable state a done id has no missed entry, and the list is oldest first with unique entry ids |
| ProtocolTheorems.StepKeepsEntry | plugin/scripts/python/missed_speech.py:172-201 | A step takes an entry off the list only by its own play, a clear, a replay of a line already heard or with nothing to play, or its age once missed |
| ProtocolTheorems.AHeldLineNeverExpires | plugin/scripts/python/missed_speech.py:172-178 | Expiry never removes a held line, however old |
| ProtocolEntries.AnEntryKeepsItsLineExactlyWhen | plugin/scripts/python/missed_speech.py:259-287 | An entry that stays keeps its line id exactly unless the step writes its entry id for another line, and its words where nothing is written |
| ProtocolEntries.AnEntryStaysUntilItIsHeard | plugin/scripts/python/narrator_service.py:1977-2034 | In every run an entry is on the list, for the same line, in each later state, until a step that takes it off or writes it for another line |
| ProtocolStops.ASetAsideLineWaitsForAReplay | plugin/scripts/python/narrator_service.py:2376-2400 | In every reachable state, while the stop's entry for a line stands, whatever carries that line names an entry and does not hold, as only replays and their retries do: not a first send, a resend or a held line's retry |
| ProtocolStops.ASetAsideLineWaitsForItsOwnReplay | plugin/scripts/python/missed_speech.py:467-495 | In runs of polite requests it names that very entry |
| ProtocolStops.PickedUpExactlyWhen | plugin/scripts/python/narrator_service.py:717-744 | While the stop's entry for a line stands and nothing carries it, a step gives it a carrier exactly when it delivers a replay of it, for the first time or again, and the id was not shed |
| ProtocolStops.ALineSetAsideDoesNotPlayByItself | plugin/scripts/python/narrator_service.py:717-726 | Once the stop has set a line aside and nothing carries it, no resend, resume, retry, control run, event or restart gives it a carrier, for as long as the entry stands and no replay of it is delivered, the first time or again |
| ProtocolStops.PlayStartsWhileStoppedExactlyWhen | plugin/scripts/python/narrator_service.py:1949-1956 | While the stop stands a play can start exactly when the line in hand is past its last look at the stop and not at an abort to be looked at; then exactly one starts |
| ProtocolStops.OnePlayAtMostAfterTheStop | plugin/scripts/python/native_audio_sink.py:477-511 | In every run that does not lift the stop at most one play starts, and none unless the line in hand was past that look |
| ProtocolStops.APlayMayStartWhileStopped | plugin/scripts/python/sound_yield.py:1047-1105 | Two runs from a fresh start that do it: stopped before the gate opens, with no hold and nothing on the missed list, and stopped in a hold's sleep |
| ProtocolEntries.OneEntryKeptExactlyWhen | plugin/scripts/python/missed_speech.py:259-287 | A step keeps one entry per speech line exactly unless it writes an entry that is one by entry id and another by line id |
| ProtocolEntries.PoliteRunsKeepOneEntry | plugin/scripts/python/narrator_service.py:2438-2483 | Runs whose added lines are not in the daemon already keep one entry per speech line throughout |
| ProtocolLimits.AShedLineIsRefusedWithNothingToPlayIt | plugin/scripts/python/priority_arbiter.py:459-468 | A run in which a shed line is left queued in the ledger, refused for good and carried by nothing |
| ProtocolSends.StepBalances | plugin/scripts/python/narrator_service.py:710-799 | An id comes to be queued or playing exactly when a delivery queues it, and ceases to be exactly when a step purges, clears, removes, drains, loses, sets aside, plays or gives it up |
| ProtocolSends.QueuedAsOftenAsLetGo | plugin/scripts/python/line_ledger.py:143-163 | In every run an id is queued as often as it is let go, and once more when it ends queued or playing |
| ProtocolSends.LetGoBetweenTwoQueuings | plugin/scripts/python/line_ledger.py:143-163 | Between two deliveries that queue one id the line is let go, once more often than it is queued besides |
| ProtocolCuts.CutsExactly | plugin/scripts/python/native_audio_sink.py:469-471 | A sounding clip is cut exactly by a barge-in, a stop or the shutdown, and only a restart ends the shutdown's cut |
| ProtocolCuts.ACutLineCountsAsHeardExactlyWhen | plugin/scripts/python/narrator_service.py:2009-2042 | When the player comes back, from the clip's end or a cut, the line is done, on no list and refused for a day exactly when the shutdown has not cut in; else it is set aside as the restart's and may be sent again |
| ProtocolCuts.ACutLineEndsEitherWay | plugin/scripts/python/narrator_service.py:567-592 | Two runs from a fresh start: a line cut by the stop ends as heard, a line cut by the shutdown on the missed list |
| ProtocolLimits.TwoEntriesForOneLine | plugin/scripts/python/missed_speech.py:259-287 | A run (an entry replayed, its line added by a caller, the replay set aside by the stop) that ends with two missed entries for one speech line |
| ProtocolLimits.AResentReplayIsQueuedAgain | plugin/scripts/python/daemon_client.py:263-312 | The traffic of one replay call whose first reply is lost: the stop sets the line aside, the second try queues it again under the stop's entry |
| ProtocolLimits.TheWorkerWaitsExactlyWhen | plugin/scripts/python/priority_arbiter.py:441-455 | A line queued again, after a synthesis or a playback time-out or put back before its retry, waits for room exactly when it is a narration and the queue is full, and goes on at once otherwise |
| ProtocolLimits.WaitingOnlyDelaysThePut | plugin/scripts/python/narrator_service.py:1341-1391 | Whatever came in between, the put then leaves what it would have left at once |
| ProtocolLimits.ABlockedWorkerWaits | plugin/scripts/python/priority_arbiter.py:441-455 | While the worker waits every step is a request, until there is room; the line stays in its hand through all but a restart |
| ProtocolLimits.AFullQueueHoldsTheWorker | plugin/scripts/python/narrator_service.py:1341-1391 | In every run without a request that takes items out, the queue stays full, the line stays in the waiting worker's hand, and every step is a request |
| ProtocolLimits.ARetryForgetsWhoSentIt | plugin/scripts/python/narrator_service.py:1351-1391 | A retried line has the same words, ids and priority, and is otherwise the same item exactly when it named no sender, run, history line or time |
| ProtocolRecords.ALineSetAsideIsOnTheList | plugin/scripts/python/narrator_service.py:1841-1875 | Whatever sets the line in hand aside, an entry has its words, its sound, its line id, session, file and sender and its time (or the earlier one the line had), with the reason, wait and holders of that step; the ledger drops the id and names the entry |
| ProtocolRecords.InEveryRunALineSetAsideIsOnTheList | plugin/scripts/python/narrator_service.py:1806-1823 | So it is in every run from a fresh start, with a hold before it or not |
| ProtocolRecords.AHeldLineIsOnTheList | plugin/scripts/python/narrator_service.py:1918-1930 | A hold puts the line on the list in the same way, as held and with its holders, and the hand remembers that entry |
| ProtocolRecords.ADrainedLineIsOnTheList | plugin/scripts/python/narrator_service.py:2398-2436 | So does the shutdown with each line still queued |
| ProtocolRecords.ARetryIsTheSameLine | plugin/scripts/python/narrator_service.py:1351-1391 | A line queued again, at once or after a wait, says the same words under the same ids, as it was asked for, one try more, last of its band |
| ProtocolRecords.NothingIsTakenUnheard | plugin/scripts/python/missed_speech.py:467-495 | In every run whose requests bring words or a sound, no entry is ever one that a replay takes off with nothing to play |
| ProtocolQueue.TheStopTakesHeardReplays | plugin/scripts/python/narrator_service.py:2309-2328 | After a stop the two lower bands are empty and no item names a history line; of the upper bands all others are there, as often and in their order; the first stop time is kept |
| ProtocolQueue.ABargeInTakesTheLowerBands | plugin/scripts/python/narrator_service.py:933-977 | A barge-in empties the two lower bands and leaves the others as they were |
| ProtocolQueue.AClearTakesEveryLine | plugin/scripts/python/narrator_service.py:2216-2241 | A clear takes every line, and the sentinels stay, in order |
| ProtocolQueue.ARemovalTakesWhatItNames | plugin/scripts/python/narrator_service.py:2216-2241 | A removal takes exactly the lines it names |
| ProtocolQueue.ANewRunReplacesTheOld | plugin/scripts/python/narrator_service.py:2254-2270 | A new run has the next number and takes exactly the heard lines that another run queued |
| ProtocolEffects.ARequestIsQueuedExactlyWhen | plugin/scripts/python/narrator_service.py:710-799 | A request is queued, last of its band, exactly when it has no line id, or the ledger does not refuse it and, replays aside, no entry says the stop set it aside within a day |
| ProtocolEffects.TheStopKeepsWhatItSetsAside | plugin/scripts/python/narrator_service.py:2376-2388 | A line the stop sets aside in hand is one whose resends are kept out |
| ProtocolEffects.AHeardLineLeavesTheList | plugin/scripts/python/narrator_service.py:2027-2039 | A heard line takes exactly its own entry and those of its line id off the list, and what is out of date |
| ProtocolEffects.ADeliveryOfAHeardLineTakesItOff | plugin/scripts/python/narrator_service.py:728-736 | So does a delivery of a line already heard, and no other delivery |
| ProtocolEffects.RequestsThatTakeEntriesOff | plugin/scripts/python/missed_speech.py:310-339 | A replay with nothing to play takes exactly its entry off, a clear all, an expiry what is out of date |
| ProtocolEffects.AnAddedLineIsOnTheList | plugin/scripts/python/narrator_service.py:2438-2483 | A line from outside is on the list as it came, as added now, unless it was heard or is there already |
| ProtocolEffects.OnlyAnAbortIsLeft | plugin/scripts/python/sound_yield.py:1073-1080 | At the top of a round, once told to give up, the worker can only give up |
| ProtocolEffects.AHoldIsToldToGiveUp | plugin/scripts/python/native_audio_sink.py:540-565 | A barge-in, a stop and the shutdown tell a hold at any look to give up |
| ProtocolEffects.AnAbortedHoldGivesUp | plugin/scripts/python/sound_yield.py:1073-1105 | Told to give up, a hold goes back to the top of its round with that |
| ProtocolEffects.AHoldsEndIsNoted | plugin/scripts/python/narrator_service.py:1717-1727 | The time of the last hold is set exactly by a hold that slept and expired or aborted, or that ended in a play |
| ProtocolEffects.ANarrationTakesThePlaceOfTheOldest | plugin/scripts/python/narrator_service.py:1244-1279 | A narration that finds the queue full takes the place of the oldest narration, else of the oldest autoplay line |
| ProtocolEffects.ASeenEventIsHeard | plugin/scripts/python/narrator_service.py:1096-1130 | An event handled here counts its line as heard, unless it is still to be played |
| ProtocolEffects.WhatARestartKeeps | plugin/scripts/python/missed_speech.py:341-353 | A restart keeps the stop and the list, held lines missed from then on, and nothing of the queue, the hand and the runs |
| ProtocolEffects.WhatChangesTheFlags | plugin/scripts/python/narrator_service.py:2309-2361 | Which step changes the stop, the clock, the shutdown and the runs, and how: the stop keeps its first moment, and a resume and a heard line played again lift it |
| ProtocolEffects.WhatLiftsTheStop | plugin/scripts/python/narrator_service.py:2102-2117 | A resume lifts the stop and no more; a heard line played again lifts it too and waits behind the explicit lines |
| ProtocolEffects.NothingToPlayExactlyWhen | plugin/scripts/python/missed_speech.py:467-495 | A replay drops an entry exactly where a live missed one of that id has neither words nor a sound |
| ProtocolProgress.TheNextLineCanBeHeard | plugin/scripts/python/narrator_service.py:1533-1697 | From every reachable state with nothing in hand, no stop and no shutdown, the next line can be heard to its end, with a hold on the way or without: it ends done and on no list |
| ProtocolProgress.AtTheLastLook | plugin/scripts/python/narrator_service.py:1729-1790 | At its last look a line goes on exactly when the stop does not stand, and is set aside for the stop, a meeting or an old hold exactly when there is one |
| ProtocolProgress.PastTheLastLook | plugin/scripts/python/native_audio_sink.py:477-511 | Past it a line that minds other sound goes to the gate and any other plays |
| ProtocolProgress.AtTheFirstLook | plugin/scripts/python/sound_yield.py:1047-1072 | At the gate it can play, be held, or be set aside for a meeting |
| ProtocolProgress.AtTheTopOfARound | plugin/scripts/python/sound_yield.py:1073-1088 | At the top of a round it gives up exactly when told to, else it goes on |
| ProtocolProgress.AfterASleep | plugin/scripts/python/sound_yield.py:1086-1105 | After a sleep it can play, hold on, or be set aside for a meeting or for its longest wait |
| ProtocolProgress.AtTheEnd | plugin/scripts/python/narrator_service.py:1977-2042 | A clip ends as heard unless the shutdown has cut in, and a pass ends exactly when it resolved or failed |
| ProtocolProgress.OnlyARequestTellsItToGiveUp | plugin/scripts/python/native_audio_sink.py:540-565 | A hold is told to give up by a barge-in, a stop or the shutdown's cut, and by nothing else |
| ProtocolProgress.ARequestIsTakenExactlyWhen | plugin/scripts/python/narrator_service.py:710-799 | A request becomes an item that is no retry and no line of the history; a replay only over other sound and explicitly; a narration once there is room |
| ProtocolProgress.WhatAReplayAndANarrationAre | plugin/scripts/python/narrator_service.py:2102-2117 | A heard line played again is an explicit line of the open run, over other sound and under no id; a narration a new one of the last band |
| ProtocolProgress.BeforeTheWork | plugin/scripts/python/narrator_service.py:1558-1600 | A line taken as the daemon shuts down is set aside, and only a retry may go on |
| DaemonClient.Client.Speak | plugin/scripts/python/daemon_client.py:114-157 | Every attempt of a call, replay or not, carries one non-empty id; what reaches the daemon is its deliveries and nothing after a reply; the call succeeds exactly when a reply was read |
| DaemonClient.AResendIsNotQueued | plugin/scripts/python/daemon_client.py:263-312 | A second delivery of a speak or a replay leaves queue, line in hand and missed list as the first left them |
| DaemonClient.ManyDeliveriesAreOne | plugin/scripts/python/daemon_client.py:114-157 | So does any number of deliveries in a row |
| DaemonClient.WithoutAnIdEachDeliveryQueues | plugin/scripts/python/daemon_client.py:159-179 | Deliveries of a request without a line id queue one item each |
| DaemonClient.OneCallOneCopy | plugin/scripts/python/daemon_client.py:114-157 | Whatever the daemon does between the attempts, the line is queued once at most unless it is let go in between; one copy at most is there to play; and when a reply was read the line is queued or playing, heard, or on the list by the stop |
| Narrator.NarratorService.StoppedEntry | plugin/scripts/python/narrator_service.py:2376-2388 | Finds exactly whether the stop's entry for the line stands unplayed |
| Narrator.NarratorService.Dispatch | plugin/scripts/python/narrator_service.py:693-799 | A request, sent once or again, becomes an item of the time it arrives, and is one protocol step |
| Narrator.NarratorService.Speak | plugin/scripts/python/narrator_service.py:710-799 | One speak request is one protocol step: kept out by the stop, refused, or queued, with the missed list told of a line already heard |
| Narrator.NarratorService.ForgetMissed | plugin/scripts/python/narrator_service.py:1825-1839 | A heard line leaves the missed list by its line id and by the entry it replayed |
| Narrator.NarratorService.HandleP1Interrupt | plugin/scripts/python/narrator_service.py:933-977 | A barge-in purges the lower bands, stops the sink and drops exactly the purged ids in the ledger |
| Narrator.NarratorService.StopSpeech | plugin/scripts/python/narrator_service.py:2309-2328 | The stop keeps its first moment, purges, and takes heard replays out of the queue |
| Narrator.NarratorService.ResumeSpeech | plugin/scripts/python/narrator_service.py:2330-2361 | Resume only ends the stop, and counts what the stop left on the missed list |
| Narrator.NarratorService.AddMissedLine | plugin/scripts/python/narrator_service.py:2438-2483 | A line already heard or already on the list is not added; any other is |
| Narrator.NarratorService.TakeOut | plugin/scripts/python/narrator_service.py:2216-2241 | Lines cleared or removed leave the queue and are dropped in the ledger |
| Narrator.NarratorService.BeginControlRun | plugin/scripts/python/narrator_service.py:2254-2270 | A new run of the control replaces what is left of the last one and nothing else |
| Narrator.NarratorService.EnqueueItem | plugin/scripts/python/narrator_service.py:1244-1279 | A narration is queued, if need be in place of the oldest low line, of which the ledger is not told |
| Narrator.NarratorService.TakeNext | plugin/scripts/python/narrator_service.py:1549-1557 | The worker takes the first line of the highest band |
| Narrator.NarratorService.SetAside | plugin/scripts/python/narrator_service.py:1841-1875 | A line set aside is on the missed list and dropped under that entry; a heard line played again is left alone |
| Narrator.NarratorService.Retry | plugin/scripts/python/narrator_service.py:1351-1391 | A timed-out line is queued again as a whole, one try more, or not at all when its tries are spent |
| Narrator.NarratorService.HoldStarts | plugin/scripts/python/narrator_service.py:1918-1930 | A hold records the line on the missed list as held |
| Narrator.NarratorService.HoldEnds | plugin/scripts/python/narrator_service.py:1990-2002 | A hold that ends without a play is noted, and the line set aside |
| Narrator.NarratorService.StaleBacklog | plugin/scripts/python/narrator_service.py:1717-1727 | Stale exactly when a hold ended after the line came and it is older than the longest wait |
| Narrator.NarratorService.DrainNext | plugin/scripts/python/narrator_service.py:2398-2436 | At the shutdown the next line of the queue goes on the missed list and is dropped under that entry, whatever is in hand |
| Narrator.NarratorService.PlayEnded | plugin/scripts/python/narrator_service.py:2027-2039 | A heard line is off the missed list, by entry and by line, and done in the ledger |
| Narrator.NarratorService.PassEnds | plugin/scripts/python/narrator_service.py:1669-1697 | A pass that resolved nothing lets the line be sent again |
| Ledger.AdmittedExactlyWhen | plugin/scripts/python/line_ledger.py:143-163 | A request is queued exactly when its id is new, dropped, evicted, or done a whole day ago |
| Ledger.AdmitTouchesOneLine | plugin/scripts/python/line_ledger.py:143-163 | Admitting changes one id: a refusal only counts the send, an admission starts the line afresh |
| Ledger.OnlyAPlayMakesALineDone | plugin/scripts/python/line_ledger.py:179-243 | Heard is final: only a play makes a line done, nothing undoes it or moves its time, and no move touches another id |
| Ledger.DroppedOrQueuedAgain | plugin/scripts/python/line_ledger.py:205-251 | A dropped line may be sent again, a requeued one may not, and a pass that ends lets go exactly of the line it left unresolved |
| Ledger.WhatTheMovesNote | plugin/scripts/python/line_ledger.py:179-243 | What each move leaves on a record: its state, the one moment it notes, the reason, the entry, the tries, and nothing else |
| Ledger.ANewRecordIs | plugin/scripts/python/line_ledger.py:143-163 | A line that comes is kept as queued now, by its first sixty characters |
| Ledger.WhatAnAdmissionNotes | plugin/scripts/python/line_ledger.py:143-163 | Its sends and plays go on from what the ledger still had of it |
| Ledger.ForgottenExactlyWhen | plugin/scripts/python/line_ledger.py:263-270 | A record is forgotten when it is done with and none of its moments is within a day |
| Ledger.GivesWayExactlyWhen | plugin/scripts/python/line_ledger.py:263-270 | Of two records that are done with, the one whose last moment is older gives way, and at one moment the one with the smaller id |
| Ledger.EvictsSoMany | plugin/scripts/python/line_ledger.py:263-270 | Beyond two thousand ids the prune lets go of the excess, or of all that are done with |
| Ledger.PruneKeepsWithinLimit | plugin/scripts/python/line_ledger.py:263-270 | After a prune the ledger is within its limit or all its ids are active, and no active id is lost |
| Ledger.EvictionIsUnique | plugin/scripts/python/line_ledger.py:263-270 | What a prune evicts is determined: the oldest settled ids, ties by id |
| Ledger.OldestMakeAnEviction | plugin/scripts/python/line_ledger.py:263-270 | The first so many in that order are such an eviction |
| Ledger.LineLedger.Prune | plugin/scripts/python/line_ledger.py:263-270 | Drops the outdated ids, then exactly the eviction |
| Ledger.LineLedger.Admit | plugin/scripts/python/line_ledger.py:143-163 | Prunes, then refuses with the record or queues the id afresh |
| Ledger.LineLedger.MarkTaken | plugin/scripts/python/line_ledger.py:179-180 | The worker's pass over the id is open |
| Ledger.LineLedger.MarkPlaying | plugin/scripts/python/line_ledger.py:188-192 | One more play starts, and its time is kept |
| Ledger.LineLedger.MarkDone | plugin/scripts/python/line_ledger.py:194-198 | Heard, with its time, and the pass over |
| Ledger.LineLedger.MarkDropped | plugin/scripts/python/line_ledger.py:205-212 | May be sent again; a line already done stays done |
| Ledger.LineLedger.ForMissed | plugin/scripts/python/line_ledger.py:214-223 | An id set aside as that entry, or none when there is none |
| Ledger.LineLedger.MarkRequeued | plugin/scripts/python/line_ledger.py:225-233 | Queued again, the pass over |
| Ledger.LineLedger.EndPass | plugin/scripts/python/line_ledger.py:235-243 | Drops the line only when its pass resolved nothing |
| Ledger.LineLedger.Load | plugin/scripts/python/line_ledger.py:272-292 | After a restart no id is queued or playing, then the prune |
| Arbiter.WaitingIsWhatDequeuesReturn | plugin/scripts/python/priority_arbiter.py:304-309 | The waiting list is what repeated dequeues return, sentinels left out |
| Arbiter.RemovalIsAStablePartition | plugin/scripts/python/priority_arbiter.py:288-302 | Removal splits the queue in two: exactly the matches go, in play order, and the others keep theirs |
| Arbiter.MoveKeepsTheRestInOrder | plugin/scripts/python/priority_arbiter.py:311-334 | A move keeps the item's band and all others' order; the place returned is its index in the play order, cut to its band |
| Arbiter.EveryBandIsFirstInFirstOut | plugin/scripts/python/priority_arbiter.py:133-180 | Over every run of enqueues and dequeues each band gives its items in the order they came, less those shed from its front |
| Arbiter.EveryBandKeepsItsLine | plugin/scripts/python/priority_arbiter.py:182-302 | Over every run of enqueues, dequeues, sheds, purges, removals and requeues at the head, what waits in a band is in line order, and every item that entered waits or has left, as often |
| Arbiter.HigherBandsGoFirst | plugin/scripts/python/priority_arbiter.py:384-394 | A dequeue takes the first item of the highest band that has one |
| Arbiter.PriorityArbiter.Enqueue | plugin/scripts/python/priority_arbiter.py:133-180 | Puts at its band's tail, shedding first when a low item meets a full queue |
| Arbiter.PriorityArbiter.ShedOldestLowPriority | plugin/scripts/python/priority_arbiter.py:182-209 | Takes the oldest narration, else the oldest autoplay line, and counts it |
| Arbiter.ShedsExactlyWhen | plugin/scripts/python/priority_arbiter.py:133-180 | A narration sheds an older line exactly when the narrations alone fill the queue, and no other item does |
| Arbiter.PriorityArbiter.RequeueAtHead | plugin/scripts/python/priority_arbiter.py:215-239 | Puts at its band's head |
| Arbiter.PriorityArbiter.Dequeue | plugin/scripts/python/priority_arbiter.py:241-269 | Takes the first in play order and marks it active |
| Arbiter.PriorityArbiter.PurgeLowerQueues | plugin/scripts/python/priority_arbiter.py:271-286 | Empties the two lower bands and counts what went |
| Arbiter.PriorityArbiter.RemoveWhere | plugin/scripts/python/priority_arbiter.py:288-302 | Removes and returns exactly the matching items |
| Arbiter.PriorityArbiter.MoveItem | plugin/scripts/python/priority_arbiter.py:311-334 | Moves the item inside its band, or reports that it does not wait |
| TaskAccounting.CountIsTheWork | plugin/scripts/python/priority_arbiter.py:430-504 | In every run without clear the count is queued, in hand, puts in flight and unreported removals, plus one for each put back without task_done |
| TaskAccounting.MoveKeepsExcess | plugin/scripts/python/priority_arbiter.py:406-410 | No move but a put back changes how far the count is above the work, so the clamp at zero never bites |
| TaskAccounting.JoinReturnsWhenAllIsDone | plugin/scripts/python/priority_arbiter.py:500-504 | A count of zero means nothing is queued, in hand or under way |
| TaskAccounting.ClearKeepsTheCountExactlyWhen | plugin/scripts/python/priority_arbiter.py:506-510 | Clear leaves the count right exactly when nothing is in hand or under way |
| TaskAccounting.SettledStays | plugin/scripts/python/priority_arbiter.py:430-504 | Calls that leave nothing under way leave a right count right |
| TaskAccounting.WhenAMoveCanBe | plugin/scripts/python/priority_arbiter.py:473-498 | A get needs an item that waits, a task done or put back one in hand, and a task done counts down as long as it can |
| TaskAccounting.AtTheStart | plugin/scripts/python/priority_arbiter.py:397-424 | A facade just made counts nothing and has nothing |
| TaskAccounting.QueueProxyFacade.PutNowait | plugin/scripts/python/priority_arbiter.py:430-471 | Full, or the machine's moves: counted, enqueued, and a shed item reported back |
| TaskAccounting.QueueProxyFacade.GetNowait | plugin/scripts/python/priority_arbiter.py:473-481 | One get of the machine, when there is an item |
| TaskAccounting.QueueProxyFacade.MarkTaskDone | plugin/scripts/python/priority_arbiter.py:492-498 | One task done of the machine, never below zero; when it wakes join with a right count, nothing is queued or in hand |
| TaskAccounting.QueueProxyFacade.ShedOldest | plugin/scripts/python/priority_arbiter.py:459-468 | A shed of the machine and its report; gives the shed item's payload alone |
| TaskAccounting.QueueProxyFacade.ClearAll | plugin/scripts/python/priority_arbiter.py:506-510 | One clear of the machine |
| MissedSpeech.KeepProperties | plugin/scripts/python/missed_speech.py:172-201 | Leaving entries out keeps order, unique ids and one entry per line |
| MissedSpeech.UpsertProperties | plugin/scripts/python/missed_speech.py:259-287 | An upsert keeps the list oldest first with unique ids, keeps every other id and holds what it stored |
| MissedSpeech.StoredExactly | plugin/scripts/python/missed_speech.py:259-287 | Stored as it is under an id on the list or without a live entry of its line; else as the first entry of its line, with the earlier of their times and what only that entry knew of source, session, sender and file |
| MissedSpeech.ExpiresExactlyWhen | plugin/scripts/python/missed_speech.py:172-178 | A missed line expires when it was asked for and missed over a day ago; a held line never |
| MissedSpeech.OneEntryExactlyUnlessCrossed | plugin/scripts/python/missed_speech.py:259-287 | An upsert keeps one entry per speech line exactly unless it names one entry by id and another by line |
| MissedSpeech.SortOfSorted | plugin/scripts/python/missed_speech.py:180-188 | Writing a list already in order changes nothing |
| MissedSpeech.MissedList.Put | plugin/scripts/python/missed_speech.py:259-287 | Replaces by entry id, else merges by line id, else adds, and writes in order |
| MissedSpeech.MissedList.Hold | plugin/scripts/python/missed_speech.py:295-296 | The entry is held, with what held it |
| MissedSpeech.MissedList.Miss | plugin/scripts/python/missed_speech.py:298-308 | The entry is missed, with reason, wait and time |
| MissedSpeech.MissedList.Find | plugin/scripts/python/missed_speech.py:289-293 | The first live entry of that line, or none exactly when there is none |
| MissedSpeech.MissedList.Remove | plugin/scripts/python/missed_speech.py:310-318 | Exactly the entry of that id goes |
| MissedSpeech.MissedList.RemoveLineEntries | plugin/scripts/python/missed_speech.py:320-331 | Exactly the entries of that line go |
| MissedSpeech.MissedList.Expire | plugin/scripts/python/missed_speech.py:226-236 | Exactly the out-of-date missed entries go |
| MissedSpeech.MissedList.Settle | plugin/scripts/python/missed_speech.py:341-353 | Held entries become missed with that reason; others stay |
| MissedSpeech.MissedList.TakeMeetingSummary | plugin/scripts/python/missed_speech.py:238-257 | Returns exactly the unannounced meeting misses and marks them announced |
| EventTail.EveryLineIsHandledOnce | plugin/scripts/python/narrator_service.py:987-1021 | Under every interleaving of appends, saved polls and restarts (none before a watermark is saved) the offset is at a line start and the lines handled are those of the stretch read, once and in order |
| EventTail.PollCatchesUp | plugin/scripts/python/narrator_service.py:1005-1021 | After a poll no complete line is unread |
| EventTail.APollReadsFrom | plugin/scripts/python/narrator_service.py:995-1021 | A log cut to less than was read is read from its start, any other from the offset, up to its last newline |
| EventTail.ToldExactlyWhen | plugin/scripts/python/narrator_service.py:1082-1094 | All lines but those of white space only are told, as often and in order |
| EventTail.LinesAreTheStretch | plugin/scripts/python/narrator_service.py:1082-1094 | The lines of a stretch, each with its newline, are the stretch |
| EventTail.LinesAreWhole | plugin/scripts/python/narrator_service.py:1082-1094 | No line has a newline inside |
| EventTail.LinesOfSum | plugin/scripts/python/narrator_service.py:1005-1017 | Cut at a line start, the lines are those before and those after |
| EventTail.NoLineIsLeftOut | plugin/scripts/python/narrator_service.py:987-1021 | Whatever saves are lost, in every run the lines of the stretch read are among those handled, in order, and what is handled besides is exactly what the restarts go back over |
| EventTail.HandledOnceExactlyWhen | plugin/scripts/python/narrator_service.py:1018-1021 | In every run each line is handled once exactly when every restart goes back over nothing but blank lines |
| EventTail.UnsavedPollThenRestart | plugin/scripts/python/narrator_service.py:1018-1021 | A poll whose watermark was lost is handled again after a restart: harmless exactly when it had only blank lines |
| EventTail.StartAtTheEnd | plugin/scripts/python/narrator_service.py:990-993 | Without a watermark the tail starts at a line start exactly when the log ends with a newline |
| EventTail.Tail.Look | plugin/scripts/python/narrator_service.py:995-1021 | One look is one poll: rewind a truncated log, read to the last newline, process, save |
| EventTail.RFind | plugin/scripts/python/narrator_service.py:1013-1013 | The last newline, or -1 exactly when there is none |
| Chunks.LastMatchIsLast | plugin/scripts/python/boundary_snapper.py:53-80 | A match of the class ends there and none starts at or after it; none at all exactly when there is none |
| Chunks.LastMatchEndsLast | plugin/scripts/python/boundary_snapper.py:61-80 | For sentences, clauses and words it is the match that ends last |
| Chunks.WhatABoundaryIs | plugin/scripts/python/boundary_snapper.py:13-16 | The four classes, character by character |
| Chunks.FindLast | plugin/scripts/python/boundary_snapper.py:53-60 | The loop keeps the last of the non-overlapping matches |
| Chunks.Snap | plugin/scripts/python/boundary_snapper.py:40-89 | The end of the chunk, by the classes in order, the backward scan and the hard cut |
| Chunks.SnapAdvances | plugin/scripts/python/boundary_snapper.py:40-89 | For every tolerance and target of at least one, the snap moves on and stays in the text |
| Chunks.SnapIsNoLonger | plugin/scripts/python/boundary_snapper.py:45-51 | Every chunk, the last one too, is within its window or one past its target |
| Chunks.SnapEndsAtTheBestBoundary | plugin/scripts/python/boundary_snapper.py:53-80 | It ends at the last match of the first class in the window, or the window has none |
| Chunks.NoBoundaryIsAHardCut | plugin/scripts/python/boundary_snapper.py:82-89 | With a window past the target and no boundary in it, the cut is at exactly the target: the backward scan finds nothing |
| Chunks.NoBoundaryScansBack | plugin/scripts/python/boundary_snapper.py:82-89 | Without a boundary the cut is behind the last white space up to the target, else at the target |
| Chunks.FibonacciSeq.NextTarget | plugin/scripts/python/fibonacci.py:14-23 | The n-th call gives the n-th Fibonacci number |
| Chunks.FibIs | plugin/scripts/python/fibonacci.py:14-23 | One, one, and then each the sum of the two before |
| Chunks.MakePlan | plugin/scripts/python/chunk_planner.py:27-70 | Errors for an empty text or a rate not above zero; else chunks that tile the text, each with its Fibonacci target, its snapped end and its duration |
| Chunks.PlanKeepsTheText | plugin/scripts/python/chunk_planner.py:40-65 | The chunks' texts, in order, are the transcript |
| Chunks.DurationsAddUp | plugin/scripts/python/chunk_planner.py:54-70 | The estimated durations add up to the total |
| Chunks.EachChunkHasItsSize | plugin/scripts/python/chunk_planner.py:40-50 | Every chunk has a character and is within its window or one past the target, and only the last ends the text |
| Chunks.EachChunkEndsWell | plugin/scripts/python/chunk_planner.py:40-50 | With the default tolerance and targets of at least four, every chunk but the last ends at a best boundary or exactly at its target |
| WordTimings.WordsAndSilences | plugin/scripts/python/speech_history.py:257-275 | The words outside `say` commands and the silence stated after each |
| WordTimings.TimedWordsAreTheHeardWords | plugin/scripts/python/speech_history.py:245-275 | The timed words are exactly the words of the text with its commands stripped |
| WordTimings.CommandAtExactlyWhen | plugin/scripts/python/speech_history.py:242-242 | A command is found at a place exactly when one is spelled there: brackets, a name of letters, an argument without a bracket, white space around |
| WordTimings.NextCommandIsTheFirst | plugin/scripts/python/speech_history.py:257-275 | The next command is the first one spelled from there on |
| WordTimings.WhatACommandSays | plugin/scripts/python/speech_history.py:262-273 | A `slnc` in any case, with a number above zero, adds so many milliseconds behind the words so far; no other command adds anything |
| WordTimings.StrippedIsTidy | plugin/scripts/python/speech_history.py:245-254 | A text without commands stays as it is; one with commands has no two blanks in a row and none beside a newline |
| WordTimings.SilencesArePlaced | plugin/scripts/python/speech_history.py:266-273 | Every silence is positive and stands before the first word or after one |
| WordSpans.EstimateWordTimings | plugin/scripts/python/speech_history.py:285-313 | Empty without words or duration; else the rounded spans, the end set on the last being where the running sum ends |
| WordSpans.TimingsOf | plugin/scripts/python/speech_history.py:278-313 | The spans carry exactly the words of the stripped text |
| WordSpans.ScaleIsPositive | plugin/scripts/python/speech_history.py:288-304 | Under the nine-tenths rule every word gets time |
| WordSpans.TheLastEndsTheClip | plugin/scripts/python/speech_history.py:303-312 | The running sum ends exactly at the clip's duration |
| WordSpans.SpansAreInOrder | plugin/scripts/python/speech_history.py:306-311 | Words start after the one before ends, with at least the stated silence between |
| WordSpans.SpansAreByTheLetter | plugin/scripts/python/speech_history.py:291-311 | Any two words last as long, to each other, as they have word characters, and the pause after a word, its stated silence aside, is six letters after a sentence, three after a clause, else none |
| WordSpans.StatedSilencesCount | plugin/scripts/python/speech_history.py:285-290 | The stated silences count, the last word aside, unless they take nine tenths of the clip |
| WordSpans.RoundedSpansAreInOrder | plugin/scripts/python/speech_history.py:307-312 | Any rounding that keeps order keeps them in order and in the clip |
| Splitter.Split | plugin/scripts/python/span_splitter.py:24-40 | Never empty; a single part is the trimmed text, and then it is at most one word |
| Splitter.SplitKeepsLetters | plugin/scripts/python/span_splitter.py:24-40 | The parts in order are the text, but for white space and clause marks |
| Text.TheSpaces | plugin/scripts/python/span_splitter.py:19-20 | The characters that are white space, one by one |
| Splitter.SplitIsAtTheCoarsestLevel | plugin/scripts/python/span_splitter.py:24-40 | The parts are exactly the stretches between the ends of sentences when the text has one inside, else between its clause marks when one stands between words, with none left inside; else the words in two halves, the first rounded down; else the text |
| Resilient.LeavesKeepTheText | plugin/scripts/python/resilient_synthesizer.py:75-96 | The spans played, skipped and dropped, in order, are the text, but for white space and clause marks |
| Resilient.LeavesHaveTheirOwnFiles | plugin/scripts/python/resilient_synthesizer.py:92-96 | Every span has a file name of its own |
| Resilient.TheWalkIsBounded | plugin/scripts/python/resilient_synthesizer.py:80-96 | Whatever the engine and the file, the walk goes no deeper than allowed |
| Resilient.DroppedOnlyAtTheFloor | plugin/scripts/python/resilient_synthesizer.py:78-87 | A span is dropped only at the depth cap or as a single word, and its fate is what the engine made of it |
| Resilient.Synthesizer.SynthesizeParts | plugin/scripts/python/resilient_synthesizer.py:61-96 | Returns the files of the spans heard, in order, and writes those files only |
| Resilient.Synthesizer.SynthesizeOne | plugin/scripts/python/resilient_synthesizer.py:98-122 | One file that sounds as all that could be spoken, in order, or none; no part file is left, and no other file is touched |
| Resilient.WrittenIsKept | plugin/scripts/python/resilient_synthesizer.py:92-96 | No part is written over by another |
| SoundYield.Assess | plugin/scripts/python/sound_yield.py:945-987 | Each process goes to the one list its own flags say, in order; held for a meeting, found or set by hand, else, while switched on, exactly when some process keeps a line waiting: not ours, not in a meeting, not only listening, and always held for or no exception and (unless any app holds) a player |
| SoundYield.AssessFallback | plugin/scripts/python/sound_yield.py:1002-1028 | Without a process list the device alone decides: busy with another app holds, busy with our own player or idle does not, and no answer is no hold |
| SoundYield.Finish | plugin/scripts/python/sound_yield.py:989-1000 | A meeting wins over sound; held exactly when there is a reason |
| SoundYield.WaitUntilClear | plugin/scripts/python/sound_yield.py:1047-1105 | The loop's outcome and sleeps, for every run of answers |
| SoundYield.TheOutcomeIsRight | plugin/scripts/python/sound_yield.py:1047-1105 | How the wait ended, as its last look, the abort and the budget say; the time it took, sleeps and all; and whether the line was ever held |
| SoundYield.TheLastLookDecides | plugin/scripts/python/sound_yield.py:1086-1105 | The line may play exactly when the last look is free; every look before it held for sound, so nothing sleeps after a meeting is seen |
| SoundYield.TheWaitIsBounded | plugin/scripts/python/sound_yield.py:1073-1088 | With steady settings the sleeps are at most the budget over the poll, rounded up, their sum within the budget, and then the wait is over |
| SoundYield.SetAsideOnlyAfterItsWait | plugin/scripts/python/sound_yield.py:1078-1085 | A line is given up for sound only when it waited out its budget |
| PlaybackWatch.WaitForExit | plugin/scripts/python/native_audio_sink.py:319-366 | Ends at the first event that is an exit, a stall or a time-out, each exactly as defined on the trace |
| PlaybackWatch.AliveIsNotCut | plugin/scripts/python/native_audio_sink.py:319-326 | A clip that advanced or was paused within the stall window, or whose position was never read before the time-out, is neither stalled nor timed out |
| PlaybackWatch.WatchALiveClip | plugin/scripts/python/native_audio_sink.py:332-366 | Over every trace of a clip that is alive all along the watch ends with the player gone, or goes on |
| History.PrunedIsTheLongestSuffix | plugin/scripts/python/speech_history.py:578-597 | What stays is within the limit or the newest line alone, and no shorter prefix would have done |
| History.RunningPruneIsOnePrune | plugin/scripts/python/speech_history.py:483-495 | Lines exported one by one as time goes on, each put in its place with its prune, leave exactly the longest suffix of all that fits |
| History.LateExportIsInTimeExactlyUnless | plugin/scripts/python/speech_history.py:578-597 | A line exported late leaves what one prune of all lines leaves, exactly unless a newer line was pruned before and there is room for it beside what stayed |
| History.AnOlderLineMayStay | plugin/scripts/python/speech_history.py:578-597 | It happens: an older line than what was pruned stays |
| History.WithIsInOrder | plugin/scripts/python/speech_history.py:483-495 | A line takes its place in time, in the place of one of the same name |
| History.SpeechHistory.Prune | plugin/scripts/python/speech_history.py:578-597 | The loop deletes exactly the needed prefix |
| History.SpeechHistory.Export | plugin/scripts/python/speech_history.py:440-495 | Keeps the line and prunes; nothing when switched off |
| History.SpeechHistory.Load | plugin/scripts/python/speech_history.py:556-562 | The newest lines up to the limit, oldest first, those that can be read |
| History.TheNewestAreLoaded | plugin/scripts/python/speech_history.py:556-562 | A limit keeps so many lines of the newest end |
| ControlRows.TheItems | plugin/scripts/python/speech_control.py:669-725 | The rows: heard records, missed entries, the line playing now |
| ControlRows.OneRowPerSpokenLine | plugin/scripts/python/speech_control.py:679-693 | Shown heard records share no key, and each hidden one shares a key with a shown one heard no earlier |
| ControlRows.OneLineExactlyWhen | plugin/scripts/python/speech_control.py:679-684 | Two heard records are one line when they share a line id or a file, or are the same record with neither |
| ControlRows.HeardAndMissedAreOneExactlyWhen | plugin/scripts/python/speech_control.py:694-698 | A missed entry is a heard record's line by the same rule |
| ControlRows.EachRowStandsAtItsTime | plugin/scripts/python/speech_control.py:685-707 | Each row is the one playing now, a shown record at the time it was said, or an unheard entry at the time it was asked for |
| ControlRows.MissedIsListedExactlyUnlessHeard | plugin/scripts/python/speech_control.py:694-707 | Whatever plays now, a missed entry's id has a row exactly when an entry of that id shares no key with a shown heard record, or it is what plays |
| ControlRows.HeardIsListedExactlyWhenShown | plugin/scripts/python/speech_control.py:679-693 | Whatever plays now, a heard record's id has a row exactly when a record of that id is shown for its line, or it is what plays |
| ControlRows.RowsAreUniqueAndNewestFirst | plugin/scripts/python/speech_control.py:708-725 | Row ids are unique and rows newest first, the line playing now on top unless it has its row |
| ControlRows.SortedIsNewestFirst | plugin/scripts/python/speech_control.py:708-708 | The sort is a permutation, newest first |
| ControlRows.SortedIsStable | plugin/scripts/python/speech_control.py:708-708 | Rows of one time stay in the order they came |
| PositionClock.ShownIsTheRunningTime | plugin/scripts/python/speech_control.py:375-392 | After every run of the control's events the position shown is the rate-weighted running time plus the seeks, clamped at each, then and at every later moment |
| PositionClock.AFreshControlShowsTheRunningTime | plugin/scripts/python/speech_control.py:375-392 | So it is for every run of a control just made |
| PositionClock.StepAgrees | plugin/scripts/python/speech_control.py:873-927 | Each event keeps the shown position and the running time the same |
| PositionClock.NoJump | plugin/scripts/python/speech_control.py:386-392 | A pause, a resume and a rate set at the control show the same position before and after |
| PositionClock.APausedLineGoesOn | plugin/scripts/python/speech_control.py:878-893 | A pause and a play, and the line goes on from where it was |
| PositionClock.AnEndedLineDoesNotGoOn | plugin/scripts/python/speech_control.py:852-872 | A line that ended or was stopped does not go on |
| PositionClock.APlayingLineHasAPosition | plugin/scripts/python/speech_control.py:375-384 | In every run a line that plays, or can go on, has a position to show |
| PositionClock.SettingsRateJumpsExactlyWhen | plugin/scripts/python/speech_control.py:852-853 | A rate set in the settings window shifts the position exactly while the line runs, at a new rate, some time after its clock started |
| PositionClock.HeldInTheMiddle | plugin/scripts/python/speech_control.py:394-396 | Were a line held in its middle, its clock would run on and a rate set then would stop it |
| PositionClock.SpeechControl.Position | plugin/scripts/python/speech_control.py:375-384 | Nothing without a line; the player's own position before the estimate |
| PositionClock.SpeechControl.PressHold | plugin/scripts/python/speech_control.py:891-893 | Freezes the position and pauses |
| PositionClock.SpeechControl.PressPlay | plugin/scripts/python/speech_control.py:878-890 | Lifts the stop and no more, else resumes from the frozen position |
| PositionClock.SpeechControl.PressSkip | plugin/scripts/python/speech_control.py:902-913 | Moves within the line, never before its start, its clock running on unless held |
| PositionClock.SpeechControl.SetRate | plugin/scripts/python/speech_control.py:786-796 | The position so far is kept at the old rate, the rest runs at the new |

## Left out

- PlaysAreADayApart: an id evicted from a full ledger (2000 ids, all newer) may play again sooner; the lemma says exactly that.
- Ledger.LineLedger.ForMissed: which of several ids set aside as one entry is found first depends on the order of a dictionary; any of them is allowed here.
- ShownIsTheRunningTime: asks that the narrator holds the next line only between lines and that no rate is set in the settings window while a line runs; the lemmas beside it say what happens otherwise.
- ALineSetAsideDoesNotPlayByItself: asks that nothing carries the line to begin with, as when its pass has just set it aside; a replay of it queued before the stop still plays, and one delivered again is queued again.
- RunningPruneIsOnePrune: asks that each line is newer than those before, as the clock gives; the lemmas beside it say what a clock set back does.
- TheWaitIsBounded: asks that the longest wait and the poll do not change during the hold; a longest wait that keeps growing keeps a line waiting.
- LeavesKeepTheText: an engine that hangs ends the walk with its own time-out error, which this code does not catch; the model's engine speaks, finds nothing to speak, or faults.
- EveryBandKeepsItsLine: a move inside a band changes the line itself; MoveKeepsTheRestInOrder says how.
- LateExportIsInTimeExactlyUnless: asks that the late line has a name of its own, as the random part of each name gives.
- NothingIsTakenUnheard: asks that every request brings words or a sound, as the daemon asks of the requests it takes.
- StrippedIsTidy: says where blanks are closed up, and the words stay; which of several blanks is left is not said.
- Float rounding: times, positions and waits are reals; word timings are rounded by any function that keeps order. Infinite numbers in a `slnc` command are not modelled.
- Failed writes of the ledger, the missed list and the stop, and a daemon without a missed list.
- Priorities below 1, the shutdown sentinel in a full queue, and the `_preempted` flag, which nothing sets.
- The ledger's mark of a play and the player's start are one step (a stop between the two is as one just before them), and so are a retry's place in the queue and the ledger's word of it.
- The clip that names a speaker before a cached line, with a hold of its own.
- A line is stale by some longest wait, which is a setting; the protocol asks only that it waited.
- The ledger's lookup of a replay's line id is not a step: a replay may carry any line id. A new missed entry's id is new; an event's id names no line on the missed list.
- Voices, speeds, request ids, sessions' names and labels.
- Sockets, subprocesses, mpv, `say`, Core Audio, JSON and TOML: their outcomes are parameters. Regular expressions are modelled for the fixed patterns of the snapper, the splitter and the `say` commands only.
- Event-log lines hold no line separator but the newline.
- The history's leftovers of an export cut short, its sidecars' other fields, and ids of its lines.
- The idle shutdown, the meeting watch's timing, the phase classifier and its summarizers, the load watch's scale.
- The speech control's connection, its worker and its queue tab.
- The older producer and consumer pipeline, and the registries, gates and doctors around the daemon.
