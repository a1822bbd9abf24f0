/** One speech line, one entry on the missed list: exactly when each step keeps
    it, which line an entry stays about, and the runs that keep both. */
module ProtocolEntries {
  import opened Options
  import opened Ledger
  import opened Arbiter
  import opened MissedSpeech
  import opened SpeechProtocol
  import opened ProtocolInvariant
  import opened ProtocolSteps
  import opened ProtocolTheorems

  /** The line a step writes on the missed list, when it writes one. */
  function Writes(s: State, a: Action): Option<MissedLine>
    requires Enabled(s, a)
  {
    if Asks(a) then AskWrites(s, a)
    else if Edits(a) then EditWrites(s, a)
    else if LetsGo(a) then LetGoWrites(s, a)
    else if Handles(a) then HandleWrites(s, a)
    else None
  }

  function AskWrites(s: State, a: Action): Option<MissedLine> {
    if a.AddMissed? && DoAddMissed(s, a.line) != s then Some(AsMissed(a.line, Added, 0.0, [], s.now)) else None
  }

  function EditWrites(s: State, a: Action): Option<MissedLine>
    requires Edits(a) && EditCan(s, a)
  {
    if a.DrainOne? && Next(s.bands).historyId == "" then Some(DrainedEntry(Next(s.bands), a.drainedId, s.now)) else None
  }

  function LetGoWrites(s: State, a: Action): Option<MissedLine>
    requires LetsGo(a) && LetGoCan(s, a)
  {
    match a
    case AsideEarly(why, newId, waited, heldFor) => Aside(s, why, waited, heldFor, newId)
    case SynthTimesOut(newId, queueId, spent) => if spent then Aside(s, TimedOut, 0.0, [], newId) else None
    case HoldExpires(why, slept, waited, heldFor) => Aside(s, why, waited, heldFor, "")
    case HoldAborts(slept, waited, heldFor) => Aside(s, Interrupted, waited, heldFor, "")
    case PlayStalls(newId, queueId, kept, waited) =>
      if s.hand.item.retries >= s.maxRetries then Aside(s, TimedOut, waited, [], newId) else None
    case PlayCutByShutdown(newId, waited) => Aside(s, Restarted, waited, [], newId)
  }

  function HandleWrites(s: State, a: Action): Option<MissedLine>
    requires Handles(a) && HandleCan(s, a)
  {
    if a.HoldBegins? then Some(AsHeld(EntryFor(s.hand.item, a.newId), a.heldFor))
    else if a.AsideAtShutdown? then Aside(s, Restarted, 0.0, [], a.newId)
    else None
  }

  function Aside(s: State, reason: Reason, waited: real, heldFor: seq<string>, newId: string): Option<MissedLine>
    requires s.hand.InHand?
  {
    if s.hand.item.historyId != "" then None
    else Some(AsMissed(EntryInHand(s.hand, newId), reason, waited, heldFor, s.now))
  }

  predicate IsWritten(s: State, line: Option<MissedLine>, missed: Entries) {
    line.Some? ==> missed == Upsert(s.missed, line.value, s.now).0
  }

  lemma WhatAsksWrite(s: State, a: Action)
    requires Asks(a) && AskCan(s, a)
    ensures IsWritten(s, AskWrites(s, a), Asked(s, a).missed)
  {
  }

  lemma WhatEditsWrite(s: State, a: Action)
    requires Edits(a) && EditCan(s, a)
    ensures IsWritten(s, EditWrites(s, a), Edited(s, a).missed)
  {
  }

  /** Set aside, a line is written; a heard line played again is not. */
  lemma WhatSettingAsideWrites(s: State, reason: Reason, waited: real, heldFor: seq<string>, newId: string)
    requires s.hand.InHand?
    ensures var line, after := Aside(s, reason, waited, heldFor, newId), DoSetAside(s, reason, waited, heldFor, newId);
            IsWritten(s, line, after.missed) && (line.None? ==> after.missed == s.missed)
  {
  }

  lemma WhatLettingGoWrites(s: State, a: Action)
    requires LetsGo(a) && LetGoCan(s, a)
    ensures IsWritten(s, LetGoWrites(s, a), LetGo(s, a).missed)
    ensures LetGoWrites(s, a).None? ==> LetGo(s, a).missed == s.missed
  {
    match a
    case AsideEarly(why, newId, waited, heldFor) => WhatSettingAsideWrites(s, why, waited, heldFor, newId);
    case SynthTimesOut(newId, _, spent) => WhatSettingAsideWrites(s, TimedOut, 0.0, [], newId);
    case HoldExpires(why, slept, waited, heldFor) => WhatSettingAsideWrites(Noted(s, slept), why, waited, heldFor, "");
    case HoldAborts(slept, waited, heldFor) => WhatSettingAsideWrites(Noted(s, slept), Interrupted, waited, heldFor, "");
    case PlayStalls(newId, _, _, waited) => WhatSettingAsideWrites(s, TimedOut, waited, [], newId);
    case PlayCutByShutdown(newId, waited) => WhatSettingAsideWrites(s, Restarted, waited, [], newId);
  }

  lemma WhatHandlingWrites(s: State, a: Action)
    requires Handles(a) && HandleCan(s, a)
    ensures IsWritten(s, HandleWrites(s, a), Handled(s, a).missed)
    ensures HandleWrites(s, a).None? && !a.PlayEnds? ==> Handled(s, a).missed == s.missed
  {
  }

  lemma NoOtherStepDoubles(s: State, a: Action)
    requires Inv(s) && Enabled(s, a) && Writes(s, a).None? && OneEntryPerLine(s.missed)
    ensures OneEntryPerLine(Step(s, a).missed)
  {
    if Asks(a) {
      AskingStillOne(s, a);
    } else if Edits(a) {
      EditingStillOne(s, a);
    } else if LetsGo(a) {
      WhatLettingGoWrites(s, a);
    } else if Handles(a) {
      WhatHandlingWrites(s, a);
      if a.PlayEnds? { PlayEndStillOne(s); }
    }
  }

  lemma AskingStillOne(s: State, a: Action)
    requires Asks(a) && AskCan(s, a) && AskWrites(s, a).None? && OneEntryPerLine(s.missed)
    ensures OneEntryPerLine(Asked(s, a).missed)
  {
    if a.Speak? {
      SpeakStillOne(s, Arriving(s, a.said), a.evicted);
    } else if a.ReplayNothing? || a.ExpireMissed? || a.SummarizeMeeting? {
      ChoresKeepOne(s.missed, s.now, if a.ReplayNothing? then a.gone else "");
    }
  }

  lemma EditingStillOne(s: State, a: Action)
    requires Edits(a) && EditCan(s, a) && EditWrites(s, a).None? && OneEntryPerLine(s.missed)
    ensures OneEntryPerLine(Edited(s, a).missed)
  {
    if a.Restart? { RestartedStillOne(s.missed, s.now); } else { UnwrittenIsUnchanged(s, a); }
  }

  lemma UnwrittenIsUnchanged(s: State, a: Action)
    requires Edits(a) && EditCan(s, a) && EditWrites(s, a).None? && !a.Restart?
    ensures Edited(s, a).missed == s.missed
  {
  }

  lemma SpeakStillOne(s: State, item: QueueItem, evicted: set<string>)
    requires OneEntryPerLine(s.missed)
    ensures OneEntryPerLine(DoSpeak(s, item, evicted).missed)
  {
    FewerStillOne(s, item.lineId, item.missedId);
  }

  lemma PlayEndStillOne(s: State)
    requires s.hand.InHand? && HandInOrder(s.hand) && OneEntryPerLine(s.missed)
    ensures OneEntryPerLine(DoPlayEnds(s).missed)
  {
    FewerStillOne(s, s.hand.item.lineId, Target(s.hand));
  }

  lemma ChoresKeepOne(missed: Entries, now: real, gone: string)
    requires OneEntryPerLine(missed)
    ensures OneEntryPerLine(Live(missed, now)) && OneEntryPerLine(RemoveId(missed, gone, now)) && OneEntryPerLine(AfterSummary(missed, now))
  {
    KeepProperties(missed, Unexpired(now));
    KeepProperties(Live(missed, now), NotId(gone));
    SummaryKeepsOne(missed, now);
  }

  lemma SummaryKeepsOne(missed: Entries, now: real)
    requires OneEntryPerLine(missed) && OneEntryPerLine(Live(missed, now))
    ensures OneEntryPerLine(AfterSummary(missed, now))
  {
    ChangeProperties(Live(missed, now), Announcer());
  }

  lemma RestartedStillOne(missed: Entries, now: real)
    requires OneEntryPerLine(missed)
    ensures OneEntryPerLine(Live(SettleHeld(missed, Restarted, now), now))
  {
    KeepProperties(missed, Unexpired(now));
    ChangeProperties(Live(missed, now), Settler(Restarted, now));
    KeepProperties(SettleHeld(missed, Restarted, now), Unexpired(now));
  }

  lemma FewerStillOne(s: State, lineId: string, id: string)
    requires OneEntryPerLine(s.missed)
    ensures OneEntryPerLine(Forget(s.missed, lineId, id, s.now))
    ensures OneEntryPerLine(RemoveLine(if id != "" then RemoveId(s.missed, id, s.now) else s.missed, lineId))
  {
    KeepProperties(s.missed, NotLine(lineId));
    KeepProperties(RemoveLine(s.missed, lineId), Unexpired(s.now));
    KeepProperties(Live(RemoveLine(s.missed, lineId), s.now), NotId(id));
    KeepProperties(s.missed, Unexpired(s.now));
    KeepProperties(Live(s.missed, s.now), NotId(id));
    KeepProperties(RemoveId(s.missed, id, s.now), NotLine(lineId));
  }

  /** A step keeps one entry per line exactly unless it writes a line that is
      one entry by its entry id and another by its line id. */
  lemma OneEntryKeptExactlyWhen(s: State, a: Action)
    requires Inv(s) && Enabled(s, a) && OneEntryPerLine(s.missed)
    ensures OneEntryPerLine(Step(s, a).missed) <==>
            !(Writes(s, a).Some? && Crosses(Live(s.missed, s.now), Writes(s, a).value))
  {
    EveryStepWritesOrFewer(s, a);
    if Writes(s, a).Some? {
      OneEntryExactlyUnlessCrossed(s.missed, Writes(s, a).value, s.now);
    } else {
      NoOtherStepDoubles(s, a);
    }
  }

  // ------------------------------------------------- the line an entry is about

  /** The step writes the entry anew, by its entry id, for another line. */
  predicate Renames(s: State, a: Action, m: MissedLine)
    requires Enabled(s, a)
  {
    RenamesBy(Writes(s, a), m)
  }

  predicate RenamesBy(line: Option<MissedLine>, m: MissedLine) {
    line.Some? && line.value.id == m.id && line.value.lineId != m.lineId
  }

  /** Every entry was there before, for the same line and with the same words. */
  predicate OnlyFewer(was: Entries, after: Entries) {
    forall x :: x in after ==> exists y :: y in was && SameWords(x, y)
  }

  predicate SameWords(x: MissedLine, y: MissedLine) {
    x.id == y.id && x.lineId == y.lineId && x.text == y.text && x.sourceHash == y.sourceHash
  }

  lemma FewerByFilter(was: Entries, lines: Entries, p: MissedLine -> bool)
    requires OnlyFewer(was, lines)
    ensures OnlyFewer(was, Keep(lines, p))
  {
    KeepElements(lines, p);
  }

  lemma FewerByChange(was: Entries, lines: Entries, f: MissedLine -> MissedLine)
    requires OnlyFewer(was, lines) && forall m :: SameWords(f(m), m)
    ensures OnlyFewer(was, Change(lines, f))
  {
    ChangePointwise(lines, f);
    forall x | x in Change(lines, f) ensures exists y :: y in was && SameWords(x, y) {
      var k :| 0 <= k < |lines| && Change(lines, f)[k] == x;
      assert lines[k] in lines && SameWords(x, lines[k]);
    }
  }

  lemma FewerOfItself(was: Entries)
    ensures OnlyFewer(was, was)
  {
    forall x | x in was ensures exists y :: y in was && SameWords(x, y) { assert SameWords(x, x); }
  }

  lemma RemovingLeavesFewer(was: Entries, lineId: string, id: string, now: real)
    ensures OnlyFewer(was, was) && OnlyFewer(was, Live(was, now)) && OnlyFewer(was, RemoveId(was, id, now))
    ensures OnlyFewer(was, Forget(was, lineId, id, now))
    ensures OnlyFewer(was, RemoveLine(if id != "" then RemoveId(was, id, now) else was, lineId))
  {
    FewerOfItself(was);
    FewerByFilter(was, was, Unexpired(now));
    FewerByFilter(was, Live(was, now), NotId(id));
    FewerByFilter(was, was, NotLine(lineId));
    FewerByFilter(was, RemoveLine(was, lineId), Unexpired(now));
    FewerByFilter(was, Live(RemoveLine(was, lineId), now), NotId(id));
    FewerByFilter(was, RemoveId(was, id, now), NotLine(lineId));
  }

  lemma ChangingLeavesFewer(was: Entries, now: real)
    ensures OnlyFewer(was, AfterSummary(was, now)) && OnlyFewer(was, Live(SettleHeld(was, Restarted, now), now))
  {
    FewerOfItself(was);
    FewerByFilter(was, was, Unexpired(now));
    FewerByChange(was, Live(was, now), Announcer());
    FewerByChange(was, Live(was, now), Settler(Restarted, now));
    FewerByFilter(was, SettleHeld(was, Restarted, now), Unexpired(now));
  }

  /** The step writes this line, or leaves fewer of the entries there were. */
  predicate WritesOrFewer(s: State, line: Option<MissedLine>, after: Entries) {
    IsWritten(s, line, after) && (line.None? ==> OnlyFewer(s.missed, after))
  }

  lemma EveryStepWritesOrFewer(s: State, a: Action)
    requires Enabled(s, a) && HandInOrder(s.hand)
    ensures WritesOrFewer(s, Writes(s, a), Step(s, a).missed)
  {
    if Asks(a) {
      AskingWritesOrFewer(s, a);
    } else if Edits(a) {
      EditingWritesOrFewer(s, a);
    } else if LetsGo(a) {
      LettingGoWritesOrFewer(s, a);
    } else if Handles(a) {
      HandlingWritesOrFewer(s, a);
    } else {
      FewerOfItself(s.missed);
    }
  }

  lemma AskingWritesOrFewer(s: State, a: Action)
    requires Asks(a) && AskCan(s, a)
    ensures WritesOrFewer(s, AskWrites(s, a), Asked(s, a).missed)
  {
    WhatAsksWrite(s, a);
    if AskWrites(s, a).None? { AskingLeavesFewer(s, a); }
  }

  lemma EditingWritesOrFewer(s: State, a: Action)
    requires Edits(a) && EditCan(s, a)
    ensures WritesOrFewer(s, EditWrites(s, a), Edited(s, a).missed)
  {
    WhatEditsWrite(s, a);
    FewerOfItself(s.missed);
    ChangingLeavesFewer(s.missed, s.now);
  }

  lemma LettingGoWritesOrFewer(s: State, a: Action)
    requires LetsGo(a) && LetGoCan(s, a)
    ensures WritesOrFewer(s, LetGoWrites(s, a), LetGo(s, a).missed)
  {
    WhatLettingGoWrites(s, a);
    FewerOfItself(s.missed);
  }

  lemma HandlingWritesOrFewer(s: State, a: Action)
    requires Handles(a) && HandleCan(s, a) && HandInOrder(s.hand)
    ensures WritesOrFewer(s, HandleWrites(s, a), Handled(s, a).missed)
  {
    WhatHandlingWrites(s, a);
    FewerOfItself(s.missed);
    if a.PlayEnds? { RemovingLeavesFewer(s.missed, s.hand.item.lineId, Target(s.hand), s.now); }
  }

  lemma AskingLeavesFewer(s: State, a: Action)
    requires Asks(a) && AskCan(s, a) && AskWrites(s, a).None?
    ensures OnlyFewer(s.missed, Asked(s, a).missed)
  {
    FewerOfItself(s.missed);
    if a.Speak? {
      SpeakLeavesFewer(s, Arriving(s, a.said), a.evicted);
    } else if a.ReplayNothing? || a.ExpireMissed? {
      RemovingLeavesFewer(s.missed, "", if a.ReplayNothing? then a.gone else "", s.now);
    } else if a.SummarizeMeeting? {
      ChangingLeavesFewer(s.missed, s.now);
    }
  }

  lemma SpeakLeavesFewer(s: State, item: QueueItem, evicted: set<string>)
    ensures OnlyFewer(s.missed, DoSpeak(s, item, evicted).missed)
  {
    RemovingLeavesFewer(s.missed, item.lineId, item.missedId, s.now);
  }

  lemma WritingRenamesExactly(missed: Entries, line: MissedLine, now: real, m: MissedLine, x: MissedLine)
    requires UniqueIds(missed) && m in missed && !Expired(m, now) && x in Upsert(missed, line, now).0 && x.id == m.id
    ensures x.lineId == m.lineId <==> !RenamesBy(Some(line), m)
  {
    UpsertProperties(missed, line, now);
    KeepElements(missed, Unexpired(now));
  }

  /** The entry, where it stays, is the same line's unless it was renamed, and
      unless something was written it has the same words. */
  predicate KeepsLine(line: Option<MissedLine>, after: Entries, m: MissedLine) {
    forall x :: x in after && x.id == m.id ==>
      (x.lineId == m.lineId <==> !RenamesBy(line, m)) && (line.None? ==> x.text == m.text && x.sourceHash == m.sourceHash)
  }

  lemma WritesOrFewerKeepsLine(s: State, line: Option<MissedLine>, after: Entries, m: MissedLine)
    requires UniqueIds(s.missed) && m in s.missed && !Expired(m, s.now) && WritesOrFewer(s, line, after)
    ensures KeepsLine(line, after, m)
  {
    forall x | x in after && x.id == m.id
      ensures (x.lineId == m.lineId <==> !RenamesBy(line, m)) && (line.None? ==> x.text == m.text && x.sourceHash == m.sourceHash)
    {
      if line.Some? {
        WritingRenamesExactly(s.missed, line.value, s.now, m, x);
      } else {
        var y :| y in s.missed && SameWords(x, y);
        SameIdIsSame(s.missed, m, y);
      }
    }
  }

  /** An entry that stays is the same line's, exactly unless the step writes its
      entry id anew for another line, as when a replay of it under another line
      id is set aside. Where nothing is written its words stay too. */
  lemma AnEntryKeepsItsLineExactlyWhen(s: State, a: Action, m: MissedLine)
    requires UniqueIds(s.missed) && HandInOrder(s.hand) && Enabled(s, a) && m in s.missed && !Expired(m, s.now)
    ensures KeepsLine(Writes(s, a), Step(s, a).missed, m)
  {
    EveryStepWritesOrFewer(s, a);
    WritesOrFewerKeepsLine(s, Writes(s, a), Step(s, a).missed, m);
  }

  lemma SameIdIsSame(missed: Entries, m: MissedLine, y: MissedLine)
    requires UniqueIds(missed) && m in missed && y in missed && m.id == y.id
    ensures m == y
  {
  }

  /** The entry under this id leaves the list in this step, or comes to be
      about another line. */
  ghost predicate Loses(s: State, a: Action, id: string)
    requires Enabled(s, a) && HasId(s.missed, id)
  {
    Goes(s, a, EntryOf(s.missed, id)) || Renames(s, a, EntryOf(s.missed, id))
  }

  ghost function NotLost(id: string): (State, Action) -> bool {
    (t: State, a: Action) => Enabled(t, a) && !(HasId(t.missed, id) && Loses(t, a, id))
  }

  /** The entry under this id is this line's. */
  ghost function IsAbout(id: string, lineId: string): State -> bool {
    (t: State) => Inv(t) && HasId(t.missed, id) && EntryOf(t.missed, id).lineId == lineId
  }

  lemma StaysAbout(s: State, a: Action, id: string, lineId: string)
    requires IsAbout(id, lineId)(s) && Enabled(s, a) && NotLost(id)(s, a)
    ensures IsAbout(id, lineId)(Step(s, a))
  {
    var m := EntryOf(s.missed, id);
    StepKeepsInv(s, a);
    StepKeepsEntry(s, a, m);
    AnEntryKeepsItsLineExactlyWhen(s, a, m);
  }

  /** Once on the missed list, held or missed, a line is on it under its entry
      and its line id in every later state, until a step that plays it, clears
      it, finds it out of date or writes its entry for another line: through
      retries, aborts, meetings, stops, purges and restarts. */
  lemma AnEntryStaysUntilItIsHeard(s: State, acts: seq<Action>, id: string)
    requires Inv(s) && IsRun(s, acts) && HasId(s.missed, id) && AllOfKind(NotLost(id), s, acts)
    ensures AllAlong(IsAbout(id, EntryOf(s.missed, id).lineId), s, acts)
    ensures HasId(After(s, acts).missed, id) && EntryOf(After(s, acts).missed, id).lineId == EntryOf(s.missed, id).lineId
  {
    var lineId := EntryOf(s.missed, id).lineId;
    forall t: State, a: Action | IsAbout(id, lineId)(t) && Enabled(t, a) && NotLost(id)(t, a)
      ensures IsAbout(id, lineId)(Step(t, a))
    {
      StaysAbout(t, a, id, lineId);
    }
    HoldsAllAlong(IsAbout(id, lineId), NotLost(id), s, acts);
  }

  // -------------------------------------------- runs that keep one entry per line

  /** A caller puts on the missed list only a line nothing in the daemon
      carries, and a replay carries a line id no other entry has. */
  predicate Polite(s: State, a: Action) {
    && (a.AddMissed? && a.line.lineId != "" ==> Carriers(s.bands, s.hand, a.line.lineId) == 0)
    && (a.Speak? && IsReplay(a.said) && a.said.lineId != "" ==>
          forall m :: m in s.missed && m.lineId == a.said.lineId ==> m.id == a.said.missedId)
  }

  /** The entry a carrier would be set aside as is the only one its line has. */
  ghost predicate NoCrossing(missed: Entries, b: Bands, h: Hand) {
    && OneEntryPerLine(missed)
    && (forall q, m :: b.Has(q) && m in missed && q.lineId != "" && q.missedId != "" && q.lineId == m.lineId ==> m.id == q.missedId)
    && (h.Carries() ==> forall m :: m in missed && h.item.lineId != "" && Target(h) != "" && h.item.lineId == m.lineId ==> m.id == Target(h))
    && (h.InHand? && h.phase.Early() ==> h.held.None?)
  }

  function Target(h: Hand): string
    requires h.InHand?
  {
    if h.held.Some? then h.held.value.id else h.item.missedId
  }

  lemma AsideDoesNotCross(s: State, line: MissedLine, newId: string)
    requires Inv(s) && NoCrossing(s.missed, s.bands, s.hand) && s.hand.Carries()
    requires line.lineId == s.hand.item.lineId && line.id == if Target(s.hand) != "" then Target(s.hand) else newId
    requires Target(s.hand) == "" ==> !HasId(s.missed, newId)
    ensures !Crosses(Live(s.missed, s.now), line)
  {
    KeepElements(s.missed, Unexpired(s.now));
  }

  lemma EntryWritten(s: State, line: MissedLine)
    requires Inv(s) && OneEntryPerLine(s.missed) && line.id != "" && !Crosses(Live(s.missed, s.now), line)
    ensures var (after, stored) := Upsert(s.missed, line, s.now);
            && OneEntryPerLine(after) && stored in after && stored.lineId == line.lineId
            && (forall m :: m in after ==> m == stored || m in s.missed)
            && (line.lineId != "" ==> forall m :: m in after && m.lineId == line.lineId ==> m.id == stored.id)
  {
    OneEntryExactlyUnlessCrossed(s.missed, line, s.now);
    UpsertProperties(s.missed, line, s.now);
    KeepElements(s.missed, Unexpired(s.now));
    var (after, stored) := Upsert(s.missed, line, s.now);
    if line.lineId != "" {
      forall m | m in after && m.lineId == line.lineId ensures m.id == stored.id {
        var i :| 0 <= i < |after| && after[i] == m;
        var j :| 0 <= j < |after| && after[j] == stored;
        assert i == j || i < j || j < i;
      }
    }
  }

  lemma SetAsideStaysClear(s: State, reason: Reason, waited: real, heldFor: seq<string>, newId: string, hand: Hand)
    requires Inv(s) && NoCrossing(s.missed, s.bands, s.hand) && s.hand.Carries() && s.hand.item.historyId == ""
    requires Target(s.hand) == "" ==> FreshEntry(s, newId)
    requires hand.Empty? || hand == s.hand.(phase := Resolved)
    ensures NoCrossing(DoSetAside(s, reason, waited, heldFor, newId).missed, s.bands, hand)
  {
    var line := AsMissed(EntryInHand(s.hand, newId), reason, waited, heldFor, s.now);
    AsideDoesNotCross(s, line, newId);
    EntryWritten(s, line);
    if s.hand.item.lineId != "" { InHandIsAlone(s); }
    assert !hand.Carries();
  }

  lemma HoldStaysClear(s: State, newId: string, heldFor: seq<string>)
    requires Inv(s) && NoCrossing(s.missed, s.bands, s.hand) && HandleCan(s, HoldBegins(newId, heldFor))
    ensures NoCrossing(DoHoldBegins(s, newId, heldFor).missed, s.bands, DoHoldBegins(s, newId, heldFor).hand)
  {
    var line := AsHeld(EntryFor(s.hand.item, newId), heldFor);
    AsideDoesNotCross(s, line, newId);
    EntryWritten(s, line);
    if s.hand.item.lineId != "" { InHandIsAlone(s); }
    HeldIsClear(s, newId, heldFor);
  }

  lemma HeldIsClear(s: State, newId: string, heldFor: seq<string>)
    requires NoCrossing(s.missed, s.bands, s.hand) && s.hand.InHand?
    requires s.hand.item.lineId != "" ==> forall q :: s.bands.Has(q) ==> q.lineId != s.hand.item.lineId
    requires var (after, stored) := Upsert(s.missed, AsHeld(EntryFor(s.hand.item, newId), heldFor), s.now);
             && OneEntryPerLine(after) && stored.lineId == s.hand.item.lineId
             && (forall m :: m in after ==> m == stored || m in s.missed)
             && (s.hand.item.lineId != "" ==> forall m :: m in after && m.lineId == s.hand.item.lineId ==> m.id == stored.id)
    ensures NoCrossing(DoHoldBegins(s, newId, heldFor).missed, s.bands, DoHoldBegins(s, newId, heldFor).hand)
  {
  }

  lemma HoldEndStaysClear(s: State, why: Reason, slept: real, waited: real, heldFor: seq<string>)
    requires Inv(s) && NoCrossing(s.missed, s.bands, s.hand) && s.hand.InHand? && (s.hand.phase.Polling? || s.hand.phase.Holding?)
    ensures var after := DoSetAside(Noted(s, slept), why, waited, heldFor, "");
            NoCrossing(after.missed, after.bands, after.hand)
  {
    var noted := Noted(s, slept);
    assert Inv(noted);
    SetAsideStaysClear(noted, why, waited, heldFor, "", s.hand.(phase := Resolved));
  }

  /** The drained line's entry is its own, or new; no other line is touched. */
  lemma DrainStaysClear(s: State, newId: string)
    requires Inv(s) && s.bands.Depth() > 0 && FreshEntry(s, newId) && NoCrossing(s.missed, s.bands, s.hand)
    ensures var after := DoDrainOne(s, newId); NoCrossing(after.missed, after.bands, after.hand)
  {
    NextHas(s.bands);
    var q := Next(s.bands);
    if q.historyId == "" {
      var line := DrainedEntry(q, newId, s.now);
      KeepElements(s.missed, Unexpired(s.now));
      EntryWritten(s, line);
      DrainedIsAlone(s);
    }
  }

  lemma DrainedIsAlone(s: State)
    requires Inv(s) && s.bands.Depth() > 0
    ensures var q := Next(s.bands);
            q.lineId != "" ==> (forall p :: AfterNext(s.bands).Has(p) ==> p.lineId != q.lineId)
                               && (s.hand.Carries() ==> s.hand.item.lineId != q.lineId)
  {
    var q := Next(s.bands);
    NextHas(s.bands);
    if q.lineId != "" {
      CarriedIsActive(s, q);
      NextCount(s.bands, q.lineId);
      HasMeansCounted(AfterNext(s.bands), q.lineId);
    }
  }

  lemma LettingGoStaysClear(s: State, a: Action)
    requires Inv(s) && LetsGo(a) && LetGoCan(s, a) && NoCrossing(s.missed, s.bands, s.hand)
    ensures var after := LetGo(s, a); NoCrossing(after.missed, after.bands, after.hand)
  {
    if LetGoWrites(s, a).None? {
      LettingGoUnwrittenStaysClear(s, a);
    } else if a.HoldExpires? {
      HoldEndStaysClear(s, a.why, a.slept, a.waited, a.heldFor);
    } else if a.HoldAborts? {
      HoldEndStaysClear(s, Interrupted, a.slept, a.waited, a.heldFor);
    } else {
      SettingAsideStaysClear(s, a);
    }
  }

  lemma SettingAsideStaysClear(s: State, a: Action)
    requires Inv(s) && LetsGo(a) && LetGoCan(s, a) && NoCrossing(s.missed, s.bands, s.hand)
    requires LetGoWrites(s, a).Some? && !a.HoldExpires? && !a.HoldAborts?
    ensures var after := LetGo(s, a); NoCrossing(after.missed, after.bands, after.hand)
  {
    var hand := s.hand.(phase := Resolved);
    if a.AsideEarly? {
      SetAsideStaysClear(s, a.why, a.waited, a.heldFor, a.newId, hand);
    } else if a.SynthTimesOut? {
      SetAsideStaysClear(s, TimedOut, 0.0, [], a.newId, hand);
    } else if a.PlayStalls? {
      SetAsideStaysClear(s, TimedOut, a.waited, [], a.newId, hand);
    } else {
      SetAsideStaysClear(s, Restarted, a.waited, [], a.newId, hand);
    }
  }

  /** Queued again, or a heard line played again that is left alone. */
  lemma LettingGoUnwrittenStaysClear(s: State, a: Action)
    requires Inv(s) && LetsGo(a) && LetGoCan(s, a) && NoCrossing(s.missed, s.bands, s.hand) && LetGoWrites(s, a).None?
    ensures var after := LetGo(s, a); NoCrossing(after.missed, after.bands, after.hand)
  {
    if a.SynthTimesOut? && !a.spent {
      RetryStaysClear(s, Words(LineText(s.hand.item)), a.queueId);
    } else if a.PlayStalls? && s.hand.item.retries < s.maxRetries {
      RetryStaysClear(s, Wav(a.kept), a.queueId);
    } else {
      OtherPhaseStaysClear(s, Failed);
    }
  }

  lemma HandlingStaysClear(s: State, a: Action)
    requires Inv(s) && Handles(a) && HandleCan(s, a) && NoCrossing(s.missed, s.bands, s.hand)
    ensures var after := Handled(s, a); NoCrossing(after.missed, after.bands, after.hand)
  {
    if a.Take? {
      NextHas(s.bands);
    } else if a.PutBack? || (a.GetsRoom? && s.hand.phase.retry.None?) {
      QueueingStaysClear(s, s.hand.item, s.missed, Empty);
    } else if a.GetsRoom? {
      RetryStaysClear(s, s.hand.phase.retry.value, s.hand.phase.queueId);
    } else if a.HoldBegins? {
      HoldStaysClear(s, a.newId, a.heldFor);
    } else if a.PlayEnds? {
      PlayEndStaysClear(s);
    } else if a.AsideAtShutdown? && s.hand.item.historyId == "" {
      SetAsideStaysClear(s, Restarted, 0.0, [], a.newId, Empty);
    }
  }

  lemma AddingStaysClear(s: State, line: MissedLine)
    requires Inv(s) && NoCrossing(s.missed, s.bands, s.hand) && FreshEntry(s, line.id)
    requires line.lineId != "" ==> Carriers(s.bands, s.hand, line.lineId) == 0
    ensures NoCrossing(DoAddMissed(s, line).missed, s.bands, s.hand)
  {
    KeepElements(s.missed, Unexpired(s.now));
    var written := AsMissed(line, Added, 0.0, [], s.now);
    assert !Crosses(Live(s.missed, s.now), written);
    EntryWritten(s, written);
    HasMeansCounted(s.bands, line.lineId);
  }

  /** An item joins the queue, the line in hand gone or not. */
  lemma QueueingStaysClear(s: State, item: QueueItem, missed: Entries, hand: Hand)
    requires NoCrossing(s.missed, s.bands, s.hand) && OneEntryPerLine(missed) && forall m :: m in missed ==> m in s.missed
    requires hand.Empty? || (hand.InHand? && !hand.Carries() && s.hand.InHand? && hand == s.hand.(phase := Resolved)) || hand == s.hand
    requires item.lineId != "" && item.missedId != "" ==> forall m :: m in missed && m.lineId == item.lineId ==> m.id == item.missedId
    ensures NoCrossing(missed, AtTail(s.bands, item), hand)
  {
    TailHas(s.bands, item);
  }

  lemma FewerEntriesStayClear(s: State, missed: Entries)
    requires NoCrossing(s.missed, s.bands, s.hand) && OneEntryPerLine(missed) && forall m :: m in missed ==> m in s.missed
    ensures NoCrossing(missed, s.bands, s.hand)
  {
  }

  lemma SpeakingStaysClear(s: State, item: QueueItem, evicted: set<string>)
    requires ListInOrder(s.missed) && NoCrossing(s.missed, s.bands, s.hand)
    requires item.missedId != "" && item.lineId != "" ==> forall m :: m in s.missed && m.lineId == item.lineId ==> m.id == item.missedId
    ensures var after := DoSpeak(s, item, evicted); NoCrossing(after.missed, after.bands, after.hand)
  {
    var fewer := Forget(s.missed, item.lineId, item.missedId, s.now);
    FewerStillOne(s, item.lineId, item.missedId);
    FewerEntries(s, fewer, item.missedId, item.lineId);
    FewerEntriesStayClear(s, fewer);
    QueueingStaysClear(s, item, s.missed, s.hand);
  }

  lemma ChoresStayClear(s: State, a: Action)
    requires Inv(s) && NoCrossing(s.missed, s.bands, s.hand)
    requires (a.ReplayNothing? || a.ClearMissed? || a.ExpireMissed? || a.SummarizeMeeting?) && AskCan(s, a)
    ensures NoCrossing(Asked(s, a).missed, s.bands, s.hand)
  {
    AskingStillOne(s, a);
    if a.SummarizeMeeting? {
      SummarizedList(s.missed, s.now);
    } else {
      KeepElements(s.missed, Unexpired(s.now));
      if a.ReplayNothing? { KeepElements(Live(s.missed, s.now), NotId(a.gone)); }
    }
  }

  /** Nothing with a line id is queued that was not, and the hand is the same line. */
  lemma FewerCarriersStayClear(s: State, bands: Bands, hand: Hand)
    requires NoCrossing(s.missed, s.bands, s.hand)
    requires forall q :: bands.Has(q) ==> q.lineId == "" || s.bands.Has(q)
    requires hand == s.hand || hand == SinkInterrupted(s.hand)
    ensures NoCrossing(s.missed, bands, hand)
  {
  }

  lemma RemovalStaysClear(s: State, match_: QueueItem -> bool)
    requires NoCrossing(s.missed, s.bands, s.hand)
    ensures NoCrossing(s.missed, AfterRemoval(s.bands, match_), s.hand)
  {
    RemovalHas(s.bands, match_);
    FewerCarriersStayClear(s, AfterRemoval(s.bands, match_), s.hand);
  }

  lemma MoveStaysClear(s: State, id: string, to: int)
    requires NoCrossing(s.missed, s.bands, s.hand)
    ensures NoCrossing(s.missed, AfterMove(s.bands, id, to).0, s.hand)
  {
    MoveHas(s.bands, id, to);
    FewerCarriersStayClear(s, AfterMove(s.bands, id, to).0, s.hand);
  }

  lemma StoppingStaysClear(s: State)
    requires NoCrossing(s.missed, s.bands, s.hand)
    ensures NoCrossing(s.missed, DoBarge(s).bands, DoBarge(s).hand)
    ensures NoCrossing(s.missed, DoStop(s).bands, DoStop(s).hand)
  {
    RemovalHas(AfterPurge(s.bands), IsHeardReplay());
    FewerCarriersStayClear(s, AfterPurge(s.bands), SinkInterrupted(s.hand));
    FewerCarriersStayClear(s, AfterRemoval(AfterPurge(s.bands), IsHeardReplay()), SinkInterrupted(s.hand));
  }

  lemma NarrateStaysClear(s: State, item: QueueItem)
    requires NoCrossing(s.missed, s.bands, s.hand) && item.lineId == ""
    ensures NoCrossing(s.missed, DoNarrate(s, item).bands, s.hand)
  {
    TailHas(s.bands, item);
    TailHas(Shed(s.bands).0, item);
    assert forall q :: Shed(s.bands).0.Has(q) ==> s.bands.Has(q);
    FewerCarriersStayClear(s, DoNarrate(s, item).bands, s.hand);
  }

  lemma RetryStaysClear(s: State, payload: Payload, queueId: string)
    requires Inv(s) && NoCrossing(s.missed, s.bands, s.hand) && s.hand.Carries()
    ensures var after := DoRetry(s, payload, queueId); NoCrossing(after.missed, after.bands, after.hand)
  {
    QueueingStaysClear(s, Again(s.hand, payload, queueId), s.missed, s.hand.(phase := Resolved));
  }

  lemma PlayEndStaysClear(s: State)
    requires Inv(s) && IsSounding(s) && NoCrossing(s.missed, s.bands, s.hand)
    ensures var after := DoPlayEnds(s); NoCrossing(after.missed, after.bands, after.hand)
  {
    FewerStillOne(s, s.hand.item.lineId, Target(s.hand));
    FewerEntries(s, DoPlayEnds(s).missed, Target(s.hand), s.hand.item.lineId);
  }

  lemma OtherPhaseStaysClear(s: State, phase: Phase)
    requires NoCrossing(s.missed, s.bands, s.hand) && s.hand.Carries() && (phase.Early() ==> s.hand.phase.Early())
    ensures NoCrossing(s.missed, s.bands, s.hand.(phase := phase))
  {
  }

  lemma MarkingStaysClear(s: State, a: Action)
    requires Marks(a) && MarkCan(s, a) && NoCrossing(s.missed, s.bands, s.hand)
    ensures var after := Marked(s, a); NoCrossing(after.missed, after.bands, after.hand)
  {
    OtherPhaseStaysClear(s, Marked(s, a).hand.phase);
  }

  lemma AskingStaysClear(s: State, a: Action)
    requires Inv(s) && Asks(a) && AskCan(s, a) && NoCrossing(s.missed, s.bands, s.hand) && Polite(s, a)
    ensures var after := Asked(s, a); NoCrossing(after.missed, after.bands, after.hand)
  {
    if a.Speak? {
      SpeakingStaysClear(s, Arriving(s, a.said), a.evicted);
    } else if a.AddMissed? {
      AddingStaysClear(s, a.line);
    } else if a.ReplayHeard? {
      TailHas(s.bands, a.heard);
      FewerCarriersStayClear(s, AtTail(s.bands, a.heard), s.hand);
    } else if a.Barge? || a.Stop? {
      StoppingStaysClear(s);
    } else if !a.Resume? {
      ChoresStayClear(s, a);
    }
  }

  lemma EditingStaysClear(s: State, a: Action)
    requires Inv(s) && Edits(a) && EditCan(s, a) && NoCrossing(s.missed, s.bands, s.hand)
    ensures var after := Edited(s, a); NoCrossing(after.missed, after.bands, after.hand)
  {
    if a.QueueClear? || a.QueueRemove? || a.QueueMove? || a.BeginRun? {
      QueueEditsStayClear(s, a);
    } else {
      DaemonEditsStayClear(s, a);
    }
  }

  lemma QueueEditsStayClear(s: State, a: Action)
    requires NoCrossing(s.missed, s.bands, s.hand) && (a.QueueClear? || a.QueueRemove? || a.QueueMove? || a.BeginRun?)
    ensures var after := Edited(s, a); NoCrossing(after.missed, after.bands, after.hand)
  {
    match a
    case QueueClear => RemovalStaysClear(s, IsLine());
    case QueueRemove(ids) => RemovalStaysClear(s, IsNamed(ids));
    case QueueMove(id, to) => MoveStaysClear(s, id, to);
    case BeginRun => RemovalStaysClear(s, OfOtherRun(s.runs + 1));
  }

  lemma DaemonEditsStayClear(s: State, a: Action)
    requires Inv(s) && NoCrossing(s.missed, s.bands, s.hand)
    requires Edits(a) && EditCan(s, a) && !a.QueueClear? && !a.QueueRemove? && !a.QueueMove? && !a.BeginRun?
    ensures var after := Edited(s, a); NoCrossing(after.missed, after.bands, after.hand)
  {
    if a.Narrate? {
      NarrateStaysClear(s, a.narration);
    } else if a.CutAtShutdown? {
      FewerCarriersStayClear(s, s.bands, SinkInterrupted(s.hand));
    } else if a.DrainOne? {
      DrainStaysClear(s, a.drainedId);
    } else if a.Restart? {
      RestartStaysClear(s, a.evicted);
    }
  }

  lemma RestartStaysClear(s: State, evicted: set<string>)
    requires OneEntryPerLine(s.missed)
    ensures var after := DoRestart(s, evicted); NoCrossing(after.missed, after.bands, after.hand)
  {
    RestartedStillOne(s.missed, s.now);
  }

  lemma StepStaysClear(s: State, a: Action)
    requires Inv(s) && Enabled(s, a) && NoCrossing(s.missed, s.bands, s.hand) && Polite(s, a)
    ensures NoCrossing(Step(s, a).missed, Step(s, a).bands, Step(s, a).hand)
  {
    if Asks(a) {
      AskingStaysClear(s, a);
    } else if Edits(a) {
      EditingStaysClear(s, a);
    } else if OnlyMovesOn(a) {
      MovesOn(s, a);
      OtherPhaseStaysClear(s, PhaseAfter(s, a));
    } else if Marks(a) {
      MarkingStaysClear(s, a);
    } else if LetsGo(a) {
      LettingGoStaysClear(s, a);
    } else {
      HandlingStaysClear(s, a);
    }
  }

  /** In every run of polite requests a speech line has one entry at most,
      whichever paths set it aside, held it, added it or queued it again. */
  lemma {:induction false} PoliteRunsKeepOneEntry(s: State, acts: seq<Action>)
    requires Inv(s) && NoCrossing(s.missed, s.bands, s.hand) && IsRun(s, acts)
    requires forall k :: 0 <= k < |acts| ==> Polite(Before(s, acts, k), acts[k])
    ensures var after := After(s, acts); NoCrossing(after.missed, after.bands, after.hand) && OneEntryPerLine(after.missed)
    decreases acts
  {
    if acts != [] {
      var next := Step(s, acts[0]);
      assert Before(s, acts, 0) == s;
      StepKeepsInv(s, acts[0]);
      StepStaysClear(s, acts[0]);
      forall k | 0 <= k < |acts[1..]| ensures Polite(Before(next, acts[1..], k), acts[1..][k]) {
        assert Before(s, acts, k + 1) == Before(next, acts[1..], k);
      }
      PoliteRunsKeepOneEntry(next, acts[1..]);
    }
  }
}
