/** What the missed list and a retry keep of a line: its words, its sound, its
    time and who said it. */
module ProtocolRecords {
  import opened Options
  import opened Ledger
  import opened Arbiter
  import opened MissedSpeech
  import opened SpeechProtocol
  import opened ProtocolInvariant
  import opened ProtocolTheorems
  import opened ProtocolEntries
  import opened ProtocolSends

  // ------------------------------------------------------------- the entry's line

  /** These are the words to be heard: the ones to synthesize, or the ones a
      finished clip was made of. */
  predicate Says(item: QueueItem, words: string) {
    && (item.payload.Words? ==> words == item.payload.words)
    && (item.payload.Wav? ==> words == item.lineText)
    && (item.payload.Sentinel? ==> words == "")
  }

  /** The entry is this item's: its words and its sound under its line id, its
      time or an earlier one, and who said it where and in which session; no
      meeting's summary has counted it. */
  predicate Records(item: QueueItem, m: MissedLine) {
    && Says(item, m.text) && m.sourceHash == item.sourceHash && m.lineId == item.lineId
    && m.queuedAt <= item.enqueuedAt && !m.announced
    && (item.sessionId != "" ==> m.sessionId == item.sessionId)
    && (item.originFile != "" ==> m.originFile == item.originFile)
    && (item.sender != "" ==> m.sender == item.sender)
  }

  /** The time is `at`, or the earlier one of an entry the same line had. */
  predicate IsTimeOf(missed: Entries, lineId: string, at: real, time: real) {
    time == at || (time < at && exists e :: e in missed && e.lineId == lineId && e.queuedAt == time)
  }

  /** What a held line was recorded as is still what its hand holds. */
  predicate HeldIsRecorded(h: Hand) { h.InHand? && h.held.Some? ==> Records(h.item, h.held.value) }

  /** When the line in hand was asked for, as far as its hold has found out. */
  function TimeInHand(h: Hand): real
    requires h.InHand?
  {
    if h.held.Some? then h.held.value.queuedAt else h.item.enqueuedAt
  }

  lemma EntryInHandRecords(h: Hand, newId: string)
    requires h.InHand? && HeldIsRecorded(h)
    ensures Records(h.item, EntryInHand(h, newId)) && EntryInHand(h, newId).queuedAt == TimeInHand(h)
  {
  }

  lemma UpsertRecords(missed: Entries, line: MissedLine, now: real, item: QueueItem)
    requires UniqueIds(missed) && Records(item, line)
    ensures var (after, stored) := Upsert(missed, line, now);
            && stored in after && Records(item, stored)
            && stored.status == line.status && stored.reason == line.reason && stored.missedAt == line.missedAt
            && stored.waitedSeconds == line.waitedSeconds && stored.heldFor == line.heldFor
            && IsTimeOf(missed, item.lineId, line.queuedAt, stored.queuedAt)
  {
    UpsertProperties(missed, line, now);
    StoredExactly(missed, line, now);
    KeepElements(missed, Unexpired(now));
  }

  /** The line is on the list as missed now, for this reason and wait, and the
      ledger knows under which entry. */
  ghost predicate IsOnTheList(s: State, item: QueueItem, at: real, why: Reason, waited: real, heldFor: seq<string>, after: State) {
    exists m :: m in after.missed && Records(item, m) && IsTimeOf(s.missed, item.lineId, at, m.queuedAt)
                && IsMissedFor(m, why, waited, heldFor, s.now) && IsKnownAs(s.lines, after.lines, item.lineId, m.id)
  }

  predicate IsMissedFor(m: MissedLine, why: Reason, waited: real, heldFor: seq<string>, now: real) {
    m.status.Missed? && m.reason == why && m.waitedSeconds == waited && m.heldFor == heldFor && m.missedAt == Some(now)
  }

  /** A line that was not heard is dropped, and its record names the entry. */
  predicate IsKnownAs(was: Lines, after: Lines, lineId: string, entryId: string) {
    ActiveIn(was, lineId) && lineId != "" ==>
      lineId in after && after[lineId].state.Dropped? && (entryId != "" ==> after[lineId].missedId == entryId)
  }

  lemma SetAsideRecords(s: State, why: Reason, waited: real, heldFor: seq<string>, newId: string)
    requires s.hand.InHand? && s.hand.item.historyId == "" && HeldIsRecorded(s.hand) && UniqueIds(s.missed)
    ensures IsOnTheList(s, s.hand.item, TimeInHand(s.hand), why, waited, heldFor, DoSetAside(s, why, waited, heldFor, newId))
  {
    var line := AsMissed(EntryInHand(s.hand, newId), why, waited, heldFor, s.now);
    EntryInHandRecords(s.hand, newId);
    UpsertRecords(s.missed, line, s.now, s.hand.item);
    var stored := Upsert(s.missed, line, s.now).1;
    assert IsKnownAs(s.lines, DropNow(s.lines, s.hand.item.lineId, s.now, ReasonText(why), stored.id), s.hand.item.lineId, stored.id);
  }

  // ------------------------------------------------------------- in every step

  /** Why this step sets the line in hand aside, if it does. */
  function WhyAside(s: State, a: Action): Option<Reason> {
    if a.AsideEarly? || a.HoldExpires? then Some(a.why)
    else if a.HoldAborts? then Some(Interrupted)
    else if a.PlayCutByShutdown? || a.AsideAtShutdown? then Some(Restarted)
    else if a.SynthTimesOut? && a.spent then Some(TimedOut)
    else if a.PlayStalls? && s.hand.InHand? && s.hand.item.retries >= s.maxRetries then Some(TimedOut)
    else None
  }

  function WaitedIn(a: Action): real {
    if a.AsideEarly? || a.HoldExpires? || a.HoldAborts? || a.PlayCutByShutdown? || a.PlayStalls? then a.waited else 0.0
  }

  function HeldForIn(a: Action): seq<string> { if a.AsideEarly? || a.HoldExpires? || a.HoldAborts? then a.heldFor else [] }

  /** Whatever sets the line in hand aside, the missed list has its words, its
      sound and its time, with the reason, and the ledger names the entry. */
  lemma ALineSetAsideIsOnTheList(s: State, a: Action)
    requires UniqueIds(s.missed) && HandIsTrue(s.hand) && Enabled(s, a)
    requires WhyAside(s, a).Some? && s.hand.InHand? && s.hand.item.historyId == ""
    ensures IsOnTheList(s, s.hand.item, TimeInHand(s.hand), WhyAside(s, a).value, WaitedIn(a), HeldForIn(a), Step(s, a))
  {
    if a.AsideAtShutdown? {
      ShutdownPutsItOnTheList(s, a);
    } else {
      LetGoIsOnTheList(s, a);
    }
  }

  lemma ShutdownPutsItOnTheList(s: State, a: Action)
    requires UniqueIds(s.missed) && HandIsTrue(s.hand) && a.AsideAtShutdown? && HandleCan(s, a) && s.hand.item.historyId == ""
    ensures IsOnTheList(s, s.hand.item, TimeInHand(s.hand), Restarted, 0.0, [], Handled(s, a))
  {
    SetAsideRecords(s, Restarted, 0.0, [], a.newId);
    var after := DoSetAside(s, Restarted, 0.0, [], a.newId);
    var m :| m in after.missed && Records(s.hand.item, m) && IsTimeOf(s.missed, s.hand.item.lineId, TimeInHand(s.hand), m.queuedAt)
             && IsMissedFor(m, Restarted, 0.0, [], s.now) && IsKnownAs(s.lines, after.lines, s.hand.item.lineId, m.id);
  }

  lemma LetGoIsOnTheList(s: State, a: Action)
    requires UniqueIds(s.missed) && HandIsTrue(s.hand) && LetsGo(a) && LetGoCan(s, a)
    requires WhyAside(s, a).Some? && s.hand.item.historyId == ""
    ensures IsOnTheList(s, s.hand.item, TimeInHand(s.hand), WhyAside(s, a).value, WaitedIn(a), HeldForIn(a), LetGo(s, a))
  {
    if a.HoldExpires? || a.HoldAborts? {
      HoldEndIsOnTheList(s, WhyAside(s, a).value, a.slept, a.waited, a.heldFor);
    } else {
      SetAsideRecords(s, WhyAside(s, a).value, WaitedIn(a), HeldForIn(a), a.newId);
    }
  }

  lemma HoldEndIsOnTheList(s: State, why: Reason, slept: real, waited: real, heldFor: seq<string>)
    requires UniqueIds(s.missed) && HandIsTrue(s.hand) && s.hand.InHand? && s.hand.item.historyId == ""
    ensures var after := DoSetAside(Noted(s, slept), why, waited, heldFor, "");
            IsOnTheList(s, s.hand.item, TimeInHand(s.hand), why, waited, heldFor, after)
  {
    var noted := Noted(s, slept);
    SetAsideRecords(noted, why, waited, heldFor, "");
    var after := DoSetAside(noted, why, waited, heldFor, "");
    var m :| m in after.missed && Records(s.hand.item, m) && IsTimeOf(s.missed, s.hand.item.lineId, TimeInHand(s.hand), m.queuedAt)
             && IsMissedFor(m, why, waited, heldFor, s.now) && IsKnownAs(s.lines, after.lines, s.hand.item.lineId, m.id);
  }

  /** A hold puts the line on the list as held, with what holds it, and the
      hand remembers that entry. */
  lemma AHeldLineIsOnTheList(s: State, newId: string, heldFor: seq<string>)
    requires UniqueIds(s.missed) && HandleCan(s, HoldBegins(newId, heldFor))
    ensures var item, after := s.hand.item, Handled(s, HoldBegins(newId, heldFor));
            exists m :: m in after.missed && Records(item, m) && IsTimeOf(s.missed, item.lineId, item.enqueuedAt, m.queuedAt)
                        && m.status.Held? && m.heldFor == heldFor && m.waitedSeconds == 0.0 && m.missedAt.None?
                        && after.hand.InHand? && after.hand.held == Some(m)
  {
    var line := AsHeld(EntryFor(s.hand.item, newId), heldFor);
    UpsertRecords(s.missed, line, s.now, s.hand.item);
  }

  /** So does the shutdown with each line still queued. */
  lemma ADrainedLineIsOnTheList(s: State, newId: string)
    requires UniqueIds(s.missed) && s.bands.Depth() > 0 && Next(s.bands).historyId == ""
    ensures var item := Next(s.bands);
            IsOnTheList(s, item, item.enqueuedAt, Restarted, 0.0, [], DoDrainOne(s, newId))
  {
    var item, line := Next(s.bands), DrainedEntry(Next(s.bands), newId, s.now);
    UpsertRecords(s.missed, line, s.now, item);
    var stored := Upsert(s.missed, line, s.now).1;
    assert IsKnownAs(s.lines, DropNow(s.lines, item.lineId, s.now, ReasonText(Restarted), stored.id), item.lineId, stored.id);
  }

  // ------------------------------------------------------------------- a retry

  /** Queued again: the same words, under the same ids and as it was asked for,
      one more try spent, last of its band. */
  predicate IsRetryOf(h: Hand, before: Items, after: Items)
    requires h.InHand?
  {
    && |after| == |before| + 1 && after[..|before|] == before
    && var q := after[|before|];
    && (forall words :: words in {q.lineText} + (if q.payload.Words? then {q.payload.words} else {}) ==> Says(h.item, words))
    && !q.payload.Sentinel?
    && q.lineId == h.item.lineId && q.priority == h.item.priority && q.hold == h.item.hold && q.retries == h.item.retries + 1
    && q.enqueuedAt == h.item.enqueuedAt && q.sourceHash == h.item.sourceHash && q.sessionId == h.item.sessionId
    && q.originFile == h.item.originFile
    && q.missedId == if h.held.Some? then h.held.value.id else h.item.missedId
  }

  /** The ledger has it queued again, one retry counted. */
  predicate IsCountedAgain(was: Lines, after: Lines, id: string) {
    id != "" && ActiveIn(was, id) ==> id in after && after[id].state == Queued && after[id].retries == was[id].retries + 1
  }

  predicate Retries(s: State, a: Action) {
    (a.SynthTimesOut? && !a.spent) || (a.PlayStalls? && s.hand.InHand? && s.hand.item.retries < s.maxRetries)
    || (a.GetsRoom? && s.hand.InHand? && s.hand.phase.Blocked? && s.hand.phase.retry.Some?)
  }

  lemma ARetryIsTheSameLine(s: State, a: Action)
    requires HandIsTrue(s.hand) && Enabled(s, a) && Retries(s, a)
    ensures s.hand.InHand?
    ensures IsRetryOf(s.hand, s.bands.Band(s.hand.item.priority), Step(s, a).bands.Band(s.hand.item.priority))
    ensures IsCountedAgain(s.lines, Step(s, a).lines, s.hand.item.lineId)
  {
    if a.GetsRoom? { RetryWithRoom(s); } else { RetryAtOnce(s, a); }
  }

  lemma RetryWithRoom(s: State)
    requires HandIsTrue(s.hand) && HandleCan(s, GetsRoom) && s.hand.phase.retry.Some?
    ensures IsRetryOf(s.hand, s.bands.Band(s.hand.item.priority), Handled(s, GetsRoom).bands.Band(s.hand.item.priority))
    ensures IsCountedAgain(s.lines, Handled(s, GetsRoom).lines, s.hand.item.lineId)
  {
    RetrySaysTheSame(s, s.hand.phase.retry.value, s.hand.phase.queueId);
  }

  lemma RetryAtOnce(s: State, a: Action)
    requires LetsGo(a) && LetGoCan(s, a) && Retries(s, a)
    ensures IsRetryOf(s.hand, s.bands.Band(s.hand.item.priority), LetGo(s, a).bands.Band(s.hand.item.priority))
    ensures IsCountedAgain(s.lines, LetGo(s, a).lines, s.hand.item.lineId)
  {
    if a.SynthTimesOut? {
      RetrySaysTheSame(s, Words(LineText(s.hand.item)), a.queueId);
    } else {
      RetrySaysTheSame(s, Wav(a.kept), a.queueId);
    }
  }

  lemma RetrySaysTheSame(s: State, payload: Payload, queueId: string)
    requires s.hand.InHand? && (payload.Wav? || (payload.Words? && Says(s.hand.item, payload.words)))
    ensures IsRetryOf(s.hand, s.bands.Band(s.hand.item.priority), DoRetry(s, payload, queueId).bands.Band(s.hand.item.priority))
    ensures IsCountedAgain(s.lines, DoRetry(s, payload, queueId).lines, s.hand.item.lineId)
  {
  }

  // ----------------------------------------------------------- in every run

  /** What the hand holds beside its item is of that item: the entry it was
      held as, and the words it waits to queue again. */
  predicate HandIsTrue(h: Hand) {
    && HeldIsRecorded(h)
    && (h.InHand? && h.phase.Blocked? && h.phase.retry.Some? ==>
          h.phase.retry.value.Wav? || (h.phase.retry.value.Words? && Says(h.item, h.phase.retry.value.words)))
  }

  /** The hand still has the line it had, or none. */
  predicate KeepsTheLine(h: Hand, after: Hand) {
    after.InHand? ==> h.InHand? && after.item == h.item && after.held == h.held && (after.phase.Blocked? ==> after.phase == h.phase)
  }

  lemma AskingKeepsTheLine(s: State, a: Action)
    requires Asks(a) && AskCan(s, a)
    ensures KeepsTheLine(s.hand, Asked(s, a).hand)
  {
    if a.Speak? { SpeakKeepsTheHand(s, Arriving(s, a.said), a.evicted); }
  }

  lemma SpeakKeepsTheHand(s: State, item: QueueItem, evicted: set<string>)
    ensures DoSpeak(s, item, evicted).hand == s.hand
  {
  }

  lemma EditingKeepsTheLine(s: State, a: Action)
    requires Edits(a) && EditCan(s, a)
    ensures KeepsTheLine(s.hand, Edited(s, a).hand)
  {
  }

  lemma LettingGoKeepsTheLine(s: State, a: Action)
    requires LetsGo(a) && LetGoCan(s, a)
    ensures KeepsTheLine(s.hand, LetGo(s, a).hand)
  {
    LettingGoOnlyLetsGo(s, a);
  }

  lemma HandlingKeepsTheLine(s: State, a: Action)
    requires Handles(a) && HandleCan(s, a) && !a.Take? && !a.HoldBegins?
    ensures KeepsTheLine(s.hand, Handled(s, a).hand)
  {
  }

  /** Only a take, a hold and a wait for room change more than the phase. */
  lemma AStepKeepsTheLine(s: State, a: Action)
    requires Enabled(s, a) && !a.Take? && !a.HoldBegins? && !a.FindsItFull?
    ensures KeepsTheLine(s.hand, Step(s, a).hand)
  {
    if Asks(a) {
      AskingKeepsTheLine(s, a);
    } else if Edits(a) {
      EditingKeepsTheLine(s, a);
    } else if LetsGo(a) {
      LettingGoKeepsTheLine(s, a);
    } else if Handles(a) {
      HandlingKeepsTheLine(s, a);
    }
  }

  lemma StepKeepsTheHandTrue(s: State, a: Action)
    requires UniqueIds(s.missed) && HandIsTrue(s.hand) && Enabled(s, a)
    ensures HandIsTrue(Step(s, a).hand)
  {
    if a.HoldBegins? {
      AHeldLineIsOnTheList(s, a.newId, a.heldFor);
    } else if !a.Take? && !a.FindsItFull? {
      AStepKeepsTheLine(s, a);
    }
  }

  /** A run that starts with what it holds true ends so. */
  lemma {:induction false} RunsKeepTheHandTrue(s: State, acts: seq<Action>)
    requires Inv(s) && HandIsTrue(s.hand) && IsRun(s, acts)
    ensures Inv(After(s, acts)) && HandIsTrue(After(s, acts).hand)
    decreases acts
  {
    if acts != [] {
      StepKeepsInv(s, acts[0]);
      StepKeepsTheHandTrue(s, acts[0]);
      RunsKeepTheHandTrue(Step(s, acts[0]), acts[1..]);
    }
  }

  /** In every run from a fresh start a line set aside is on the list as above. */
  lemma InEveryRunALineSetAsideIsOnTheList(now: real, maxQueue: int, maxRetries: nat, acts: seq<Action>, a: Action)
    requires IsRun(Initial(now, maxQueue, maxRetries), acts)
    ensures var s := After(Initial(now, maxQueue, maxRetries), acts);
            Enabled(s, a) && WhyAside(s, a).Some? && s.hand.InHand? && s.hand.item.historyId == "" ==>
              IsOnTheList(s, s.hand.item, TimeInHand(s.hand), WhyAside(s, a).value, WaitedIn(a), HeldForIn(a), Step(s, a))
  {
    InitialInv(now, maxQueue, maxRetries);
    RunsKeepTheHandTrue(Initial(now, maxQueue, maxRetries), acts);
    var s := After(Initial(now, maxQueue, maxRetries), acts);
    if Enabled(s, a) && WhyAside(s, a).Some? && s.hand.InHand? && s.hand.item.historyId == "" { ALineSetAsideIsOnTheList(s, a); }
  }

  // --------------------------------------------- nothing to hear is ever taken

  /** There is something to hear: words, or a sound's hash. */
  predicate CanBeHeard(item: QueueItem) {
    item.sourceHash != "" || (item.payload.Words? && item.payload.words != "") || (item.payload.Wav? && item.lineText != "")
  }

  predicate EntryCanBeHeard(m: MissedLine) { m.text != "" || m.sourceHash != "" }

  /** A request brings in no line with nothing to hear. */
  ghost function BringsWords(): (State, Action) -> bool {
    (t: State, a: Action) =>
      && (a.Speak? ==> CanBeHeard(a.said)) && (a.ReplayHeard? ==> CanBeHeard(a.heard))
      && (a.Narrate? ==> CanBeHeard(a.narration)) && (a.AddMissed? ==> EntryCanBeHeard(a.line))
  }

  ghost predicate BandsCanBeHeard(b: Bands) { forall q :: b.Has(q) ==> CanBeHeard(q) }

  predicate HandCanBeHeard(h: Hand) { h.InHand? ==> CanBeHeard(h.item) && (h.held.Some? ==> EntryCanBeHeard(h.held.value)) }

  predicate EntriesCanBeHeard(missed: Entries) { forall m :: m in missed ==> EntryCanBeHeard(m) }

  ghost predicate AllCanBeHeard(s: State) {
    BandsCanBeHeard(s.bands) && HandCanBeHeard(s.hand) && EntriesCanBeHeard(s.missed)
  }

  lemma TailCanBeHeard(b: Bands, item: QueueItem)
    requires BandsCanBeHeard(b) && CanBeHeard(item)
    ensures BandsCanBeHeard(AtTail(b, item))
  {
    TailHas(b, item);
  }

  lemma RemovalCanBeHeard(b: Bands, match_: QueueItem -> bool)
    requires BandsCanBeHeard(b)
    ensures BandsCanBeHeard(AfterRemoval(b, match_))
  {
    RemovalHas(b, match_);
  }

  lemma AgainCanBeHeard(s: State, payload: Payload, queueId: string)
    requires s.hand.InHand? && CanBeHeard(s.hand.item) && BandsCanBeHeard(s.bands)
    requires payload.Wav? || (payload.Words? && Says(s.hand.item, payload.words))
    ensures BandsCanBeHeard(DoRetry(s, payload, queueId).bands)
  {
    TailCanBeHeard(s.bands, Again(s.hand, payload, queueId));
  }

  lemma AskingCanBeHeard(s: State, a: Action)
    requires Asks(a) && AskCan(s, a) && BringsWords()(s, a) && BandsCanBeHeard(s.bands)
    ensures BandsCanBeHeard(Asked(s, a).bands)
  {
    if a.Speak? {
      SpeakCanBeHeard(s, Arriving(s, a.said), a.evicted);
    } else if a.ReplayHeard? {
      TailCanBeHeard(s.bands, a.heard);
    } else if a.Stop? || a.Barge? {
      StopCanBeHeard(s);
    } else {
      OtherRequestsLeaveTheQueue(s, a);
    }
  }

  lemma OtherRequestsLeaveTheQueue(s: State, a: Action)
    requires Asks(a) && AskCan(s, a) && !a.Speak? && !a.ReplayHeard? && !a.Stop? && !a.Barge?
    ensures Asked(s, a).bands == s.bands
  {
  }

  lemma StopCanBeHeard(s: State)
    requires BandsCanBeHeard(s.bands)
    ensures BandsCanBeHeard(DoStop(s).bands) && BandsCanBeHeard(DoBarge(s).bands)
  {
    RemovalCanBeHeard(AfterPurge(s.bands), IsHeardReplay());
  }

  lemma SpeakCanBeHeard(s: State, item: QueueItem, evicted: set<string>)
    requires BandsCanBeHeard(s.bands) && CanBeHeard(item)
    ensures BandsCanBeHeard(DoSpeak(s, item, evicted).bands)
  {
    TailCanBeHeard(s.bands, item);
  }

  lemma NarrateCanBeHeard(s: State, item: QueueItem)
    requires BandsCanBeHeard(s.bands) && CanBeHeard(item)
    ensures BandsCanBeHeard(DoNarrate(s, item).bands)
  {
    assert BandsCanBeHeard(Shed(s.bands).0);
    TailCanBeHeard(s.bands, item);
    TailCanBeHeard(Shed(s.bands).0, item);
  }

  lemma QueueEditCanBeHeard(s: State, a: Action)
    requires (a.QueueClear? || a.QueueRemove? || a.QueueMove? || a.BeginRun?) && BandsCanBeHeard(s.bands)
    ensures BandsCanBeHeard(Edited(s, a).bands)
  {
    if a.QueueClear? {
      RemovalCanBeHeard(s.bands, IsLine());
    } else if a.QueueRemove? {
      RemovalCanBeHeard(s.bands, IsNamed(a.queueIds));
    } else if a.QueueMove? {
      MoveHas(s.bands, a.queueId, a.to);
    } else {
      RemovalCanBeHeard(s.bands, OfOtherRun(s.runs + 1));
    }
  }

  lemma EditingCanBeHeard(s: State, a: Action)
    requires Edits(a) && EditCan(s, a) && BringsWords()(s, a) && BandsCanBeHeard(s.bands)
    ensures BandsCanBeHeard(Edited(s, a).bands)
  {
    if a.QueueClear? || a.QueueRemove? || a.QueueMove? || a.BeginRun? {
      QueueEditCanBeHeard(s, a);
    } else if a.Narrate? {
      NarrateCanBeHeard(s, a.narration);
    } else {
      OtherEditCanBeHeard(s, a);
    }
  }

  lemma OtherEditCanBeHeard(s: State, a: Action)
    requires Edits(a) && EditCan(s, a) && !a.QueueClear? && !a.QueueRemove? && !a.QueueMove? && !a.BeginRun? && !a.Narrate?
    requires BandsCanBeHeard(s.bands)
    ensures BandsCanBeHeard(Edited(s, a).bands)
  {
    if a.DrainOne? { DrainCanBeHeard(s, a.drainedId); } else { OtherEditsLeaveTheQueue(s, a); }
  }

  lemma OtherEditsLeaveTheQueue(s: State, a: Action)
    requires Edits(a) && EditCan(s, a) && !a.QueueClear? && !a.QueueRemove? && !a.QueueMove? && !a.BeginRun?
    requires !a.Narrate? && !a.DrainOne?
    ensures Edited(s, a).bands == s.bands || Edited(s, a).bands == EMPTY
  {
  }

  lemma DrainCanBeHeard(s: State, newId: string)
    requires BandsCanBeHeard(s.bands) && s.bands.Depth() > 0
    ensures BandsCanBeHeard(DoDrainOne(s, newId).bands)
  {
    NextHas(s.bands);
  }

  lemma LettingGoCanBeHeard(s: State, a: Action)
    requires LetsGo(a) && LetGoCan(s, a) && BandsCanBeHeard(s.bands) && HandCanBeHeard(s.hand)
    ensures BandsCanBeHeard(LetGo(s, a).bands)
  {
    if a.SynthTimesOut? {
      AgainCanBeHeard(s, Words(LineText(s.hand.item)), a.queueId);
    } else if a.PlayStalls? {
      AgainCanBeHeard(s, Wav(a.kept), a.queueId);
    }
  }

  lemma HandlingCanBeHeard(s: State, a: Action)
    requires Handles(a) && HandleCan(s, a) && HandIsTrue(s.hand) && BandsCanBeHeard(s.bands) && HandCanBeHeard(s.hand)
    ensures BandsCanBeHeard(Handled(s, a).bands)
  {
    if a.Take? {
      NextHas(s.bands);
    } else if a.PutBack? {
      TailCanBeHeard(s.bands, s.hand.item);
    } else if a.GetsRoom? {
      if s.hand.phase.retry.Some? {
        AgainCanBeHeard(s, s.hand.phase.retry.value, s.hand.phase.queueId);
      } else {
        TailCanBeHeard(s.bands, s.hand.item);
      }
    }
  }

  lemma QueueCanBeHeard(s: State, a: Action)
    requires Enabled(s, a) && BringsWords()(s, a) && HandIsTrue(s.hand) && BandsCanBeHeard(s.bands) && HandCanBeHeard(s.hand)
    ensures BandsCanBeHeard(Step(s, a).bands)
  {
    if Asks(a) {
      AskingCanBeHeard(s, a);
    } else if Edits(a) {
      EditingCanBeHeard(s, a);
    } else if LetsGo(a) {
      LettingGoCanBeHeard(s, a);
    } else if Handles(a) {
      HandlingCanBeHeard(s, a);
    }
  }

  predicate LineCanBeHeard(line: Option<MissedLine>) { line.Some? ==> EntryCanBeHeard(line.value) }

  /** What a step writes on the list was brought, or is of the line it writes. */
  lemma WhatIsWrittenCanBeHeard(s: State, a: Action)
    requires Enabled(s, a) && BringsWords()(s, a) && BandsCanBeHeard(s.bands) && HandCanBeHeard(s.hand)
    ensures LineCanBeHeard(Writes(s, a))
  {
    if Asks(a) {
      assert LineCanBeHeard(AskWrites(s, a));
    } else if Edits(a) {
      DrainedCanBeHeard(s, a);
    } else if LetsGo(a) {
      AsideCanBeHeard(s, a);
    } else if Handles(a) {
      HandledCanBeHeard(s, a);
    }
  }

  lemma DrainedCanBeHeard(s: State, a: Action)
    requires Edits(a) && EditCan(s, a) && BandsCanBeHeard(s.bands)
    ensures LineCanBeHeard(EditWrites(s, a))
  {
    if a.DrainOne? {
      NextHas(s.bands);
      assert CanBeHeard(Next(s.bands));
    }
  }

  lemma AsideCanBeHeard(s: State, a: Action)
    requires LetsGo(a) && LetGoCan(s, a) && HandCanBeHeard(s.hand)
    ensures LineCanBeHeard(LetGoWrites(s, a))
  {
  }

  lemma HandledCanBeHeard(s: State, a: Action)
    requires Handles(a) && HandleCan(s, a) && HandCanBeHeard(s.hand)
    ensures LineCanBeHeard(HandleWrites(s, a))
  {
  }

  lemma ListCanBeHeard(s: State, line: Option<MissedLine>, after: Entries)
    requires UniqueIds(s.missed) && EntriesCanBeHeard(s.missed) && WritesOrFewer(s, line, after)
    requires line.Some? ==> EntryCanBeHeard(line.value)
    ensures EntriesCanBeHeard(after)
  {
    if line.Some? {
      UpsertProperties(s.missed, line.value, s.now);
      KeepElements(s.missed, Unexpired(s.now));
    }
  }

  lemma TheHandCanBeHeard(s: State, a: Action)
    requires UniqueIds(s.missed) && Enabled(s, a) && BandsCanBeHeard(s.bands) && HandCanBeHeard(s.hand)
    ensures HandCanBeHeard(Step(s, a).hand)
  {
    if a.Take? {
      NextHas(s.bands);
    } else if a.HoldBegins? {
      AHeldLineIsOnTheList(s, a.newId, a.heldFor);
    } else if !a.FindsItFull? {
      AStepKeepsTheLine(s, a);
    }
  }

  lemma StepCanBeHeard(s: State, a: Action)
    requires UniqueIds(s.missed) && HandInOrder(s.hand) && HandIsTrue(s.hand) && AllCanBeHeard(s) && Enabled(s, a) && BringsWords()(s, a)
    ensures AllCanBeHeard(Step(s, a))
  {
    QueueCanBeHeard(s, a);
    TheHandCanBeHeard(s, a);
    WhatIsWrittenCanBeHeard(s, a);
    EveryStepWritesOrFewer(s, a);
    ListCanBeHeard(s, Writes(s, a), Step(s, a).missed);
  }

  lemma {:induction false} RunsCanBeHeard(s: State, acts: seq<Action>)
    requires Inv(s) && HandIsTrue(s.hand) && AllCanBeHeard(s) && IsRun(s, acts) && AllOfKind(BringsWords(), s, acts)
    ensures AllCanBeHeard(After(s, acts))
    decreases acts
  {
    if acts != [] {
      StepKeepsInv(s, acts[0]);
      StepKeepsTheHandTrue(s, acts[0]);
      StepCanBeHeard(s, acts[0]);
      RunsCanBeHeard(Step(s, acts[0]), acts[1..]);
    }
  }

  /** Where every request brings words or a sound, no entry is ever one that a
      replay takes off the list with nothing to play. */
  lemma NothingIsTakenUnheard(now: real, maxQueue: int, maxRetries: nat, acts: seq<Action>, id: string)
    requires IsRun(Initial(now, maxQueue, maxRetries), acts) && AllOfKind(BringsWords(), Initial(now, maxQueue, maxRetries), acts)
    ensures !Enabled(After(Initial(now, maxQueue, maxRetries), acts), ReplayNothing(id))
  {
    InitialInv(now, maxQueue, maxRetries);
    RunsCanBeHeard(Initial(now, maxQueue, maxRetries), acts);
    var s := After(Initial(now, maxQueue, maxRetries), acts);
    KeepElements(s.missed, Unexpired(s.now));
  }
}
