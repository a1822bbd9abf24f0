/** What steps do to the list, the stop and the queue, on the fields themselves. */
module ProtocolEffects {
  import opened Options
  import opened Ledger
  import opened Arbiter
  import opened MissedSpeech
  import opened SpeechProtocol
  import opened ProtocolInvariant
  import opened ProtocolSteps
  import opened ProtocolTheorems

  // ------------------------------------------------------- leaving the list

  /** The entry the line in hand was held as, or replays. */
  function HeardEntry(h: Hand): string
    requires h.InHand?
  {
    if h.held.Some? then h.held.value.id else h.item.missedId
  }

  /** A line that was heard takes its entry and every entry of its line id off
      the list, and but for what is out of date nothing else. */
  lemma AHeardLineLeavesTheList(s: State, m: MissedLine)
    requires HandleCan(s, PlayEnds) && HandInOrder(s.hand)
    ensures m in Handled(s, PlayEnds).missed <==>
              && m in s.missed
              && (HeardEntry(s.hand) != "" ==> m.id != HeardEntry(s.hand) && !Expired(m, s.now))
              && (s.hand.item.lineId != "" ==> m.lineId != s.hand.item.lineId)
  {
    var id := HeardEntry(s.hand);
    KeepElements(s.missed, Unexpired(s.now));
    KeepElements(Live(s.missed, s.now), NotId(id));
    KeepElements(if id != "" then RemoveId(s.missed, id, s.now) else s.missed, NotLine(s.hand.item.lineId));
  }

  /** The daemon has heard the line before, and the ledger says so. */
  predicate WasHeard(s: State, item: QueueItem, evicted: set<string>) {
    && item.lineId != "" && !(item.missedId == "" && KeptByStop(s, item.lineId))
    && Refused(s.lines, item.lineId, s.now, evicted) && DoneIn(s.lines, item.lineId)
  }

  lemma HeardIsTakenOff(s: State, item: QueueItem, evicted: set<string>)
    ensures DoSpeak(s, item, evicted).missed
         == if WasHeard(s, item, evicted) then Forget(s.missed, item.lineId, item.missedId, s.now) else s.missed
  {
  }

  /** So does a delivery of a line already heard, and no other delivery does. */
  lemma ADeliveryOfAHeardLineTakesItOff(s: State, item: QueueItem, evicted: set<string>, m: MissedLine)
    ensures m in DoSpeak(s, item, evicted).missed <==>
              && m in s.missed
              && (WasHeard(s, item, evicted) ==>
                    m.lineId != item.lineId && (item.missedId != "" ==> m.id != item.missedId && !Expired(m, s.now)))
  {
    HeardIsTakenOff(s, item, evicted);
    KeepElements(s.missed, NotLine(item.lineId));
    var a := RemoveLine(s.missed, item.lineId);
    KeepElements(a, Unexpired(s.now));
    KeepElements(Live(a, s.now), NotId(item.missedId));
  }

  /** A replay with nothing to play takes its entry off, a clear all of them,
      an expiry those out of date. */
  lemma RequestsThatTakeEntriesOff(s: State, m: MissedLine, id: string)
    ensures m in RemoveId(s.missed, id, s.now) <==> m in s.missed && m.id != id && !Expired(m, s.now)
    ensures Asked(s, ClearMissed).missed == []
    ensures m in Asked(s, ExpireMissed).missed <==> m in s.missed && !Expired(m, s.now)
  {
    KeepElements(s.missed, Unexpired(s.now));
    KeepElements(Live(s.missed, s.now), NotId(id));
  }

  // -------------------------------------------------------- onto the list

  /** A line from outside is on the list as it came, missed now and as added,
      unless it was heard or is there already; then nothing changes. */
  lemma AnAddedLineIsOnTheList(s: State, line: MissedLine)
    requires UniqueIds(s.missed) && FreshEntry(s, line.id)
    ensures var known := line.lineId != ""
                         && (DoneIn(s.lines, line.lineId) || exists m :: m in s.missed && m.lineId == line.lineId && !Expired(m, s.now));
            && (known ==> DoAddMissed(s, line) == s)
            && (!known ==> line.(status := MissedSpeech.Missed, reason := Added, waitedSeconds := 0.0, heldFor := [],
                                 missedAt := Some(s.now)) in DoAddMissed(s, line).missed)
  {
    KeepElements(s.missed, Unexpired(s.now));
    var added := AsMissed(line, Added, 0.0, [], s.now);
    UpsertProperties(s.missed, added, s.now);
    StoredExactly(s.missed, added, s.now);
  }

  // -------------------------------------------------------------- the stop

  /** The stop's live entry for a line, on its own fields. */
  predicate WaitsForTheListener(s: State, lineId: string) {
    exists m :: m in s.missed && m.lineId == lineId && m.status == MissedSpeech.Missed && m.reason == MissedSpeech.Stopped
                && (WithinADay(s.now, m.queuedAt) || WithinADay(s.now, if m.missedAt.Some? then m.missedAt.value else 0.0))
  }

  /** No more than a day ago. */
  predicate WithinADay(now: real, at: real) { now - at <= 86400.0 }

  lemma TheStopKeepsExactly(s: State, lineId: string)
    requires lineId != ""
    ensures KeptByStop(s, lineId) <==> WaitsForTheListener(s, lineId)
  {
    if KeptByStop(s, lineId) {
      var m :| m in s.missed && SetAsideByStop(m, s.now) && m.lineId == lineId;
      ExpiresExactlyWhen(m, s.now);
    }
    if WaitsForTheListener(s, lineId) {
      var m :| m in s.missed && m.lineId == lineId && m.status == MissedSpeech.Missed && m.reason == MissedSpeech.Stopped
               && (WithinADay(s.now, m.queuedAt) || WithinADay(s.now, if m.missedAt.Some? then m.missedAt.value else 0.0));
      ExpiresExactlyWhen(m, s.now);
    }
  }

  /** A request is queued, last of its band, exactly when it has no line id, or
      the ledger does not refuse its id and, unless it is a replay, the stop did
      not set it aside within a day. */
  lemma ARequestIsQueuedExactlyWhen(s: State, item: QueueItem, evicted: set<string>)
    ensures var queued := item.lineId == ""
                          || ((item.missedId != "" || !WaitsForTheListener(s, item.lineId))
                              && !Refused(s.lines, item.lineId, s.now, evicted));
            && DoSpeak(s, item, evicted).bands.Band(item.priority) == s.bands.Band(item.priority) + (if queued then [item] else [])
            && (!queued ==> DoSpeak(s, item, evicted).bands == s.bands)
            && (queued <==> Queues(s, item, evicted))
  {
    if item.lineId != "" { TheStopKeepsExactly(s, item.lineId); }
  }

  /** The line the stop sets aside in hand is one it keeps. */
  lemma TheStopKeepsWhatItSetsAside(s: State, newId: string, waited: real, heldFor: seq<string>)
    requires UniqueIds(s.missed) && s.hand.InHand? && s.hand.item.historyId == "" && s.hand.item.lineId != "" && HandInOrder(s.hand)
    ensures WaitsForTheListener(DoSetAside(s, MissedSpeech.Stopped, waited, heldFor, newId), s.hand.item.lineId)
  {
    var line := AsMissed(EntryInHand(s.hand, newId), MissedSpeech.Stopped, waited, heldFor, s.now);
    UpsertProperties(s.missed, line, s.now);
  }

  /** A hold told to give up, by a barge-in, the stop or the shutdown, gives up:
      it goes back to the top of its round, and there an abort (or the shutdown's
      set-aside) is all that is left for the worker. */
  lemma AHoldIsToldToGiveUp(s: State)
    requires s.hand.InHand? && s.hand.phase.AtTheGate()
    ensures Asked(s, Barge).hand.InHand? && Asked(s, Barge).hand.phase.AtTheGate() && Asked(s, Barge).hand.phase.aborted
    ensures Asked(s, Stop).hand == Asked(s, Barge).hand
    ensures s.stopping ==> Edited(s, CutAtShutdown).hand == Asked(s, Barge).hand
  {
  }

  lemma AnAbortedHoldGivesUp(s: State, newId: string)
    requires FreshEntry(s, newId)
    ensures In(s, Polling(true)) ==> MoveOnCan(s, HoldStands) && In(MovedOn(s, HoldStands), Holding(true))
    ensures In(s, Looking(true)) ==> HandleCan(s, HoldBegins(newId, [])) && In(Handled(s, HoldBegins(newId, [])), Holding(true))
  {
  }

  lemma OnlyAnAbortIsLeft(s: State, a: Action)
    requires In(s, Holding(true)) && Enabled(s, a)
    ensures Asks(a) || Edits(a) || a.HoldAborts? || a.PlayCutByShutdown?
  {
  }

  /** When a hold last ended, after this step. */
  function HoldEndedAfter(s: State, a: Action): Option<real> {
    if ((a.HoldExpires? || a.HoldAborts?) && a.slept > 0.0) || (a.PlayEnds? && s.hand.InHand? && s.hand.held.Some?) then Some(s.now)
    else if a.Restart? then None
    else s.holdEnded
  }

  /** The end of a hold that slept is noted, and that is all that sets that time. */
  lemma AHoldsEndIsNoted(s: State, a: Action)
    requires Enabled(s, a)
    ensures Step(s, a).holdEnded == HoldEndedAfter(s, a)
  {
    if Asks(a) {
      AskingNotesNoHold(s, a);
    } else if Edits(a) {
      EditingNotesNoHold(s, a);
    } else if LetsGo(a) {
      LettingGoNotesAHold(s, a);
    } else if Handles(a) {
      HandlingNotesAHold(s, a);
    }
  }

  lemma AskingNotesNoHold(s: State, a: Action)
    requires Asks(a) && AskCan(s, a)
    ensures Asked(s, a).holdEnded == HoldEndedAfter(s, a)
  {
    if a.Speak? { SpeakNotesNoHold(s, Arriving(s, a.said), a.evicted); }
  }

  lemma SpeakNotesNoHold(s: State, item: QueueItem, evicted: set<string>)
    ensures DoSpeak(s, item, evicted).holdEnded == s.holdEnded
  {
  }

  lemma EditingNotesNoHold(s: State, a: Action)
    requires Edits(a) && EditCan(s, a)
    ensures Edited(s, a).holdEnded == HoldEndedAfter(s, a)
  {
  }

  lemma LettingGoNotesAHold(s: State, a: Action)
    requires LetsGo(a) && LetGoCan(s, a)
    ensures LetGo(s, a).holdEnded == HoldEndedAfter(s, a)
  {
  }

  lemma HandlingNotesAHold(s: State, a: Action)
    requires Handles(a) && HandleCan(s, a)
    ensures Handled(s, a).holdEnded == HoldEndedAfter(s, a)
  {
  }

  // ---------------------------------------------------------- the other requests

  /** A narration goes to the tail of the last band; on a full queue the oldest
      narration, else the oldest autoplay line, gives way, and without one, or
      with the queue over its limit, the narration does. */
  lemma ANarrationTakesThePlaceOfTheOldest(s: State, item: QueueItem)
    requires item.priority == 4
    ensures var b, after := s.bands, DoNarrate(s, item).bands; var n := |b.p1| + |b.p2| + |b.p3| + |b.p4|;
            && after.p1 == b.p1 && after.p2 == b.p2
            && (s.maxQueue <= 0 || n < s.maxQueue ==> after.p3 == b.p3 && after.p4 == b.p4 + [item])
            && (0 < s.maxQueue <= n && b.p4 != [] ==> after.p3 == b.p3 && after.p4 == b.p4[1..] + if n == s.maxQueue then [item] else [])
            && (0 < s.maxQueue <= n && b.p4 == [] && b.p3 != [] ==> after.p3 == b.p3[1..] && after.p4 == if n == s.maxQueue then [item] else [])
            && (0 < s.maxQueue <= n && b.p4 == b.p3 == [] ==> after == b)
  {
  }

  /** An event's line is heard from then on, unless it was to be played here. */
  lemma ASeenEventIsHeard(s: State, id: string, evicted: set<string>)
    requires id != "" && WellKept(s.lines, s.now) && Evicts(s, evicted)
    ensures DoneIn(DoSeeEvent(s, id, evicted).lines, id) <==> !ActiveIn(s.lines, id)
  {
    AdmittedExactlyWhen(s.lines, id, s.now, evicted);
    if Refused(s.lines, id, s.now, evicted) {
      AdmitTouchesOneLine(s.lines, id, "", s.now, evicted);
    } else {
      AnAdmittedEventIsDone(s, id, evicted);
    }
  }

  lemma AnAdmittedEventIsDone(s: State, id: string, evicted: set<string>)
    requires id != "" && !Refused(s.lines, id, s.now, evicted)
    ensures DoneIn(DoSeeEvent(s, id, evicted).lines, id)
  {
  }

  /** A restart forgets the queue, the hand and the runs, and keeps the stop and
      the list: what was held is missed from then on. */
  lemma WhatARestartKeeps(s: State, evicted: set<string>, m: MissedLine)
    requires m in s.missed
    ensures var after := DoRestart(s, evicted);
            && after.stoppedSince == s.stoppedSince && after.now == s.now && !after.stopping && !after.shutdownCut
            && after.hand.Empty? && after.bands.Depth() == 0 && after.runs == 0 && after.runOpen == 0
            && (m.status.Held? ==> m.(status := MissedSpeech.Missed, reason := Restarted, missedAt := Some(s.now)) in after.missed)
            && (m.status.Missed? && !Expired(m, s.now) ==> m in after.missed)
  {
    KeepElements(s.missed, Unexpired(s.now));
    var live := Live(s.missed, s.now);
    ChangePointwise(live, Settler(Restarted, s.now));
    var settled := Change(live, Settler(Restarted, s.now));
    if m in live {
      var k :| 0 <= k < |live| && live[k] == m;
      assert settled[k] in settled;
    }
    KeepElements(settled, Unexpired(s.now));
  }

  // ------------------------------------------------------------ the clock and flags

  /** Only these requests change the stop, the clock, the shutdown and the runs:
      a stop keeps its first moment, a resume and a heard line played again lift
      it, and a restart keeps it. */
  predicate FlagsAfter(s: State, a: Action, after: State) {
    && after.stoppedSince == (if a.Stop? then Some(if s.stoppedSince.Some? then s.stoppedSince.value else s.now)
                              else if a.Resume? || a.ReplayHeard? then None
                              else s.stoppedSince)
    && after.now == (if a.Tick? then s.now + a.seconds else s.now)
    && (after.stopping <==> a.BeginShutdown? || (s.stopping && !a.Restart?))
    && after.runs == (if a.BeginRun? then s.runs + 1 else if a.Restart? then 0 else s.runs)
    && after.runOpen == (if a.BeginRun? then s.runs + 1 else if a.EndRun? || a.Restart? then 0 else s.runOpen)
    && after.maxQueue == s.maxQueue && after.maxRetries == s.maxRetries
  }

  lemma WhatChangesTheFlags(s: State, a: Action)
    requires Enabled(s, a)
    ensures FlagsAfter(s, a, Step(s, a))
  {
    if Asks(a) {
      AskingChangesTheStop(s, a);
    } else if Edits(a) {
      EditingChangesTheRest(s, a);
    } else if LetsGo(a) {
      LettingGoChangesNoFlag(s, a);
    } else if Handles(a) {
      HandlingChangesNoFlag(s, a);
    }
  }

  lemma AskingChangesTheStop(s: State, a: Action)
    requires Asks(a) && AskCan(s, a)
    ensures FlagsAfter(s, a, Asked(s, a))
  {
    if a.Speak? { SpeakChangesNoFlag(s, Arriving(s, a.said), a.evicted, a); }
  }

  lemma SpeakChangesNoFlag(s: State, item: QueueItem, evicted: set<string>, a: Action)
    requires a.Speak?
    ensures FlagsAfter(s, a, DoSpeak(s, item, evicted))
  {
  }

  lemma EditingChangesTheRest(s: State, a: Action)
    requires Edits(a) && EditCan(s, a)
    ensures FlagsAfter(s, a, Edited(s, a))
  {
  }

  lemma LettingGoChangesNoFlag(s: State, a: Action)
    requires LetsGo(a) && LetGoCan(s, a)
    ensures FlagsAfter(s, a, LetGo(s, a))
  {
    LettingGoOnlyLetsGo(s, a);
    NoFlagIsChanged(s, a, LetGo(s, a));
  }

  lemma NoFlagIsChanged(s: State, a: Action, after: State)
    requires (LetsGo(a) || Handles(a)) && OnlyLetsGo(s, after)
    ensures FlagsAfter(s, a, after)
  {
  }

  lemma HandlingChangesNoFlag(s: State, a: Action)
    requires Handles(a) && HandleCan(s, a)
    ensures FlagsAfter(s, a, Handled(s, a))
  {
  }

  /** A resume only lifts the stop; a heard line played again lifts it too, and
      waits behind the explicit lines. */
  lemma WhatLiftsTheStop(s: State, heard: QueueItem)
    requires AskCan(s, ReplayHeard(heard))
    ensures Asked(s, Resume) == s.(stoppedSince := None)
    ensures Asked(s, ReplayHeard(heard)) == s.(stoppedSince := None, bands := s.bands.(p2 := s.bands.p2 + [heard]))
  {
  }

  /** A replay finds nothing to play exactly where a missed entry of that id,
      not a day old, has neither words nor a sound. */
  lemma NothingToPlayExactlyWhen(s: State, id: string)
    ensures AskCan(s, ReplayNothing(id)) <==>
              exists m :: m in s.missed && m.id == id && m.status == MissedSpeech.Missed && m.text == "" && m.sourceHash == ""
                          && (WithinADay(s.now, m.queuedAt) || WithinADay(s.now, if m.missedAt.Some? then m.missedAt.value else 0.0))
  {
    KeepElements(s.missed, Unexpired(s.now));
    forall m | m in s.missed ensures Expired(m, s.now) <==>
      m.status == MissedSpeech.Missed && !WithinADay(s.now, m.queuedAt)
      && !WithinADay(s.now, if m.missedAt.Some? then m.missedAt.value else 0.0)
    {
      ExpiresExactlyWhen(m, s.now);
    }
  }
}
