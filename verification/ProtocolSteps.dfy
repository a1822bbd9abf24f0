/** Every step of the protocol keeps the invariant. */
module ProtocolSteps {
  import opened Options
  import opened Ledger
  import opened Arbiter
  import opened MissedSpeech
  import opened SpeechProtocol
  import opened ProtocolInvariant

  /** A line something carries is active, and carried once. */
  lemma CarriedIsActive(s: State, q: QueueItem)
    requires Inv(s) && CarriedBy(s.bands, s.hand, q) && q.lineId != ""
    ensures ActiveIn(s.lines, q.lineId) && q.lineId !in s.orphans && Carriers(s.bands, s.hand, q.lineId) == 1
  {
    HasMeansCounted(s.bands, q.lineId);
    assert Carriers(s.bands, s.hand, q.lineId) == Owed(s.lines, s.orphans, q.lineId);
  }

  lemma InHandIsAlone(s: State)
    requires Inv(s) && s.hand.Carries() && s.hand.item.lineId != ""
    ensures ActiveIn(s.lines, s.hand.item.lineId) && s.hand.item.lineId !in s.orphans
    ensures BandsCount(s.bands, s.hand.item.lineId) == 0
    ensures forall q :: s.bands.Has(q) ==> q.lineId != s.hand.item.lineId
  {
    CarriedIsActive(s, s.hand.item);
    HasMeansCounted(s.bands, s.hand.item.lineId);
  }

  /** Nothing about who carries what changed. */
  lemma SameCarriers(s: State, after: State)
    requires Inv(s) && after.bands == s.bands && after.orphans == s.orphans
    requires forall k :: k != "" ==> HandCount(after.hand, k) == HandCount(s.hand, k)
    requires forall k :: k != "" ==> (ActiveIn(after.lines, k) <==> ActiveIn(s.lines, k))
    ensures Carry(after.lines, after.bands, after.hand, after.orphans)
  {
    forall k | k != "" ensures Carriers(after.bands, after.hand, k) == Owed(after.lines, after.orphans, k) {
      assert Carriers(s.bands, s.hand, k) == Owed(s.lines, s.orphans, k);
    }
  }

  /** The line in hand is let go of, and its id with it. */
  lemma HandLetGo(s: State, after: State)
    requires Inv(s) && s.hand.Carries() && after.bands == s.bands && after.orphans == s.orphans && !after.hand.Carries()
    requires forall k :: k != "" ==> (ActiveIn(after.lines, k) <==> ActiveIn(s.lines, k) && k != s.hand.item.lineId)
    ensures Carry(after.lines, after.bands, after.hand, after.orphans)
  {
    if s.hand.item.lineId != "" { InHandIsAlone(s); }
    forall k | k != "" ensures Carriers(after.bands, after.hand, k) == Owed(after.lines, after.orphans, k) {
      assert Carriers(s.bands, s.hand, k) == Owed(s.lines, s.orphans, k);
    }
  }

  lemma UpsertIntoList(missed: Entries, line: MissedLine, now: real)
    requires ListInOrder(missed) && line.id != ""
    ensures var (after, stored) := Upsert(missed, line, now);
            && ListInOrder(after)
            && (forall m :: m in after ==> m == stored || m in missed)
            && stored.id != "" && stored.lineId == line.lineId && stored.status == line.status && stored.reason == line.reason
  {
    UpsertProperties(missed, line, now);
    KeepElements(missed, Unexpired(now));
  }

  // ------------------------------------------------------------ the worker's pass

  lemma SetAsideKeeps(s: State, reason: Reason, waited: real, heldFor: seq<string>, newId: string)
    requires Inv(s) && s.hand.Carries() && !s.hand.phase.Popped?
    requires s.hand.held.Some? || newId != ""
    ensures Inv(DoSetAside(s, reason, waited, heldFor, newId))
  {
    SetAsideFromAnywhere(s, reason, waited, heldFor, newId);
  }

  lemma SetAsideFromAnywhere(s: State, reason: Reason, waited: real, heldFor: seq<string>, newId: string)
    requires Inv(s) && s.hand.Carries()
    requires s.hand.held.Some? || newId != ""
    requires s.hand.item.historyId != "" ==> !s.hand.phase.Popped?
    ensures Inv(DoSetAside(s, reason, waited, heldFor, newId))
  {
    assert CarriedBy(s.bands, s.hand, s.hand.item);
    if s.hand.item.historyId != "" {
      SameCarriers(s, DoSetAside(s, reason, waited, heldFor, newId));
    } else {
      WrittenAsideKeeps(s, reason, waited, heldFor, newId);
    }
  }

  lemma WrittenAsideKeeps(s: State, reason: Reason, waited: real, heldFor: seq<string>, newId: string)
    requires Inv(s) && s.hand.Carries() && s.hand.item.historyId == "" && (s.hand.held.Some? || newId != "")
    ensures Inv(DoSetAside(s, reason, waited, heldFor, newId))
  {
    var line := AsMissed(EntryInHand(s.hand, newId), reason, waited, heldFor, s.now);
    WrittenAsideKeepsList(s, reason, waited, heldFor, newId);
    DropKeepsBooks(s, ReasonText(reason), Upsert(s.missed, line, s.now).1.id);
    if s.hand.item.lineId != "" { InHandIsAlone(s); }
    HandLetGo(s, DoSetAside(s, reason, waited, heldFor, newId));
  }

  lemma WrittenAsideKeepsList(s: State, reason: Reason, waited: real, heldFor: seq<string>, newId: string)
    requires Inv(s) && s.hand.Carries() && s.hand.item.historyId == "" && (s.hand.held.Some? || newId != "")
    ensures var after := DoSetAside(s, reason, waited, heldFor, newId);
            && ListInOrder(after.missed) && HeardIsForgotten(after.lines, after.missed)
            && OnlyReplays(after.missed, after.bands, after.hand, after.now)
  {
    var line := AsMissed(EntryInHand(s.hand, newId), reason, waited, heldFor, s.now);
    UpsertIntoList(s.missed, line, s.now);
    if s.hand.item.lineId != "" { InHandIsAlone(s); }
    UpsertStaysOnlyReplays(s, line, s.bands, s.hand.(phase := Resolved));
  }

  /** The line written is one nothing carries any more. */
  lemma UpsertStaysOnlyReplays(s: State, line: MissedLine, bands: Bands, hand: Hand)
    requires ListInOrder(s.missed) && line.id != "" && OnlyReplays(s.missed, s.bands, s.hand, s.now)
    requires forall q :: CarriedBy(bands, hand, q) ==> CarriedBy(s.bands, s.hand, q) && (line.lineId != "" ==> q.lineId != line.lineId)
    ensures OnlyReplays(Upsert(s.missed, line, s.now).0, bands, hand, s.now)
  {
    UpsertIntoList(s.missed, line, s.now);
  }

  lemma DropKeepsBooks(s: State, reason: string, missedId: string)
    requires Inv(s) && s.hand.Carries()
    ensures Books(DropNow(s.lines, s.hand.item.lineId, s.now, reason, missedId), s.log, s.now)
    ensures HeardIsForgotten(DropNow(s.lines, s.hand.item.lineId, s.now, reason, missedId), s.missed)
  {
    if s.hand.item.lineId != "" { InHandIsAlone(s); }
    QuietKeepsBooks(s.lines, DropNow(s.lines, s.hand.item.lineId, s.now, reason, missedId), s.log, s.now);
  }

  lemma RetryKeeps(s: State, payload: Payload, queueId: string)
    requires Inv(s) && s.hand.Carries() && !s.hand.phase.Popped?
    ensures Inv(DoRetry(s, payload, queueId))
  {
    var item, id := s.hand.item, s.hand.item.lineId;
    var after, again := DoRetry(s, payload, queueId), Again(s.hand, payload, queueId);
    if id != "" { InHandIsAlone(s); }
    QuietKeepsBooks(s.lines, after.lines, s.log, s.now);
    forall k | k != "" ensures Carriers(after.bands, after.hand, k) == Owed(after.lines, after.orphans, k) {
      TailCount(s.bands, again, k);
      assert Carriers(s.bands, s.hand, k) == Owed(s.lines, s.orphans, k);
    }
    TailHas(s.bands, again);
    assert CarriedBy(s.bands, s.hand, item);
  }

  lemma HoldBeginsKeeps(s: State, newId: string, heldFor: seq<string>)
    requires Inv(s) && IsLooking(s) && newId != ""
    ensures Inv(DoHoldBegins(s, newId, heldFor))
  {
    UpsertIntoList(s.missed, AsHeld(EntryFor(s.hand.item, newId), heldFor), s.now);
    assert CarriedBy(s.bands, s.hand, s.hand.item);
    if s.hand.item.lineId != "" { InHandIsAlone(s); }
    var after := DoHoldBegins(s, newId, heldFor);
    SameCarriers(s, after);
    forall q ensures CarriedBy(after.bands, after.hand, q) <==> CarriedBy(s.bands, s.hand, q) {}
  }

  lemma PlayEndsKeeps(s: State)
    requires Inv(s) && IsSounding(s)
    ensures Inv(DoPlayEnds(s))
  {
    PlayEndsKeepsBooks(s);
    PlayEndsKeepsCarry(s);
    PlayEndsKeepsList(s);
  }

  lemma PlayEndsKeepsList(s: State)
    requires IsSounding(s) && HandInOrder(s.hand) && ListInOrder(s.missed) && HeardIsForgotten(s.lines, s.missed)
    requires OnlyReplays(s.missed, s.bands, s.hand, s.now)
    requires forall k :: DoneIn(DoPlayEnds(s).lines, k) ==> DoneIn(s.lines, k) || (k == s.hand.item.lineId && k != "")
    ensures var after := DoPlayEnds(s);
            && ListInOrder(after.missed) && HeardIsForgotten(after.lines, after.missed)
            && OnlyReplays(after.missed, after.bands, after.hand, after.now)
  {
    var gone := if s.hand.held.Some? then s.hand.held.value.id else s.hand.item.missedId;
    var after := DoPlayEnds(s);
    FewerEntries(s, after.missed, gone, s.hand.item.lineId);
    OnlyReplaysOfFewer(s, after);
  }

  /** Fewer entries and fewer carriers leave nothing but replays. */
  lemma OnlyReplaysOfFewer(s: State, after: State)
    requires OnlyReplays(s.missed, s.bands, s.hand, s.now) && after.now == s.now
    requires forall m :: m in after.missed ==> m in s.missed
    requires forall q :: CarriedBy(after.bands, after.hand, q) ==> CarriedBy(s.bands, s.hand, q)
    ensures OnlyReplays(after.missed, after.bands, after.hand, after.now)
  {
  }

  lemma PlayEndsKeepsBooks(s: State)
    requires Inv(s) && IsSounding(s)
    ensures Books(DoPlayEnds(s).lines, DoPlayEnds(s).log, s.now)
    ensures forall k :: DoneIn(DoPlayEnds(s).lines, k) ==> DoneIn(s.lines, k) || (k == s.hand.item.lineId && k != "")
  {
    if s.hand.item.lineId != "" {
      InHandIsAlone(s);
      PlayKeepsBooks(s.lines, s.hand.item.lineId, s.log, s.now);
    }
  }

  lemma PlayEndsKeepsCarry(s: State)
    requires Inv(s) && IsSounding(s)
    ensures var after := DoPlayEnds(s); Carry(after.lines, after.bands, after.hand, after.orphans)
  {
    if s.hand.item.lineId != "" { InHandIsAlone(s); }
    HandLetGo(s, DoPlayEnds(s));
  }

  /** Entries leave the missed list by their own id and by their line's. */
  lemma FewerEntries(s: State, missed: Entries, id: string, lineId: string)
    requires ListInOrder(s.missed)
    requires missed == RemoveLine(if id != "" then RemoveId(s.missed, id, s.now) else s.missed, lineId)
             || missed == Forget(s.missed, lineId, id, s.now)
    ensures ListInOrder(missed)
    ensures forall m :: m in missed ==> m in s.missed && (lineId != "" ==> m.lineId != lineId)
  {
    KeepProperties(s.missed, Unexpired(s.now));
    KeepProperties(s.missed, NotLine(lineId));
    KeepProperties(RemoveLine(s.missed, lineId), Unexpired(s.now));
    KeepProperties(Live(s.missed, s.now), NotId(id));
    KeepProperties(Live(RemoveLine(s.missed, lineId), s.now), NotId(id));
    KeepProperties(RemoveId(s.missed, id, s.now), NotLine(lineId));
  }

  lemma TakeKeeps(s: State)
    requires Inv(s) && HandleCan(s, Take)
    ensures Inv(Handled(s, Take))
  {
    var after := Handled(s, Take);
    NextHas(s.bands);
    forall k | k != "" ensures Carriers(after.bands, after.hand, k) == Owed(after.lines, after.orphans, k) {
      NextCount(s.bands, k);
      assert Carriers(s.bands, s.hand, k) == Owed(s.lines, s.orphans, k);
    }
  }

  lemma PutBackKeeps(s: State)
    requires Inv(s) && s.hand.Carries()
    ensures Inv(DoPutBack(s))
  {
    var after := DoPutBack(s);
    TailHas(s.bands, s.hand.item);
    assert CarriedBy(s.bands, s.hand, s.hand.item);
    forall k | k != "" ensures Carriers(after.bands, after.hand, k) == Owed(after.lines, after.orphans, k) {
      TailCount(s.bands, s.hand.item, k);
      assert Carriers(s.bands, s.hand, k) == Owed(s.lines, s.orphans, k);
    }
  }

  /** The worker moves on with the line, the ledger following it. */
  lemma OnwardKeeps(s: State, after: State)
    requires Inv(s) && s.hand.Carries() && after.hand.InHand?
    requires after == s.(lines := after.lines, hand := after.hand) && after.hand == s.hand.(phase := after.hand.phase)
    requires after.hand.Carries() && !after.hand.phase.Popped? && HandInOrder(after.hand)
    requires Quiet(s.lines, after.lines, s.now)
    requires forall k :: k != "" ==> (ActiveIn(after.lines, k) <==> ActiveIn(s.lines, k))
    requires s.hand.item.lineId in s.lines ==> s.hand.item.lineId in after.lines && after.lines[s.hand.item.lineId].inPass
    ensures Inv(after)
  {
    if s.hand.item.lineId != "" { InHandIsAlone(s); }
    QuietKeepsBooks(s.lines, after.lines, s.log, s.now);
    SameCarriers(s, after);
    forall q ensures CarriedBy(after.bands, after.hand, q) <==> CarriedBy(s.bands, s.hand, q) {}
  }

  lemma EndPassKeeps(s: State, cause: string)
    requires Inv(s) && HandleCan(s, EndPass(cause))
    ensures Inv(Handled(s, EndPass(cause)))
  {
    EndPassKeepsBooks(s, cause);
    if s.hand.Carries() {
      EndOfFailedPassKeeps(s, cause);
    } else {
      SameCarriers(s, Handled(s, EndPass(cause)));
    }
  }

  lemma EndPassKeepsBooks(s: State, cause: string)
    requires Inv(s) && HandleCan(s, EndPass(cause))
    ensures Books(Handled(s, EndPass(cause)).lines, s.log, s.now)
  {
    SettleIsQuiet(s.lines, s.hand.item.lineId, s.now, cause);
    QuietKeepsBooks(s.lines, Settle(s.lines, s.hand.item.lineId, s.now, cause), s.log, s.now);
  }

  lemma SettleIsQuiet(lines: Lines, id: string, now: real, reason: string)
    requires WellKept(lines, now)
    ensures Quiet(lines, Settle(lines, id, now, reason), now)
  {
  }

  lemma EndOfFailedPassKeeps(s: State, cause: string)
    requires Inv(s) && HandleCan(s, EndPass(cause)) && s.hand.Carries()
    requires Books(Handled(s, EndPass(cause)).lines, s.log, s.now)
    ensures Inv(Handled(s, EndPass(cause)))
  {
    if s.hand.item.lineId != "" { InHandIsAlone(s); }
    LeftUnresolved(s, cause);
    HandLetGo(s, Handled(s, EndPass(cause)));
    HandIsEmptyNow(s, Handled(s, EndPass(cause)));
  }

  /** The ledger lets go of exactly the line in hand. */
  lemma LeftUnresolved(s: State, cause: string)
    requires MarkedInPass(s.lines, s.hand) && s.hand.Carries() && !s.hand.phase.Popped?
    ensures var lines := Settle(s.lines, s.hand.item.lineId, s.now, cause);
            && (forall k :: k != "" ==> (ActiveIn(lines, k) <==> ActiveIn(s.lines, k) && k != s.hand.item.lineId))
            && (forall k :: DoneIn(lines, k) <==> DoneIn(s.lines, k))
  {
  }

  /** The rest of the invariant, once the hand is empty. */
  lemma HandIsEmptyNow(s: State, after: State)
    requires Inv(s) && after == s.(lines := after.lines, hand := Empty)
    requires Carry(after.lines, after.bands, after.hand, after.orphans) && Books(after.lines, s.log, s.now)
    requires forall k :: DoneIn(after.lines, k) ==> DoneIn(s.lines, k)
    ensures Inv(after)
  {
    forall q | CarriedBy(after.bands, after.hand, q) ensures CarriedBy(s.bands, s.hand, q) {}
  }

  lemma LeaveKeeps(s: State, newId: string)
    requires Inv(s) && HandleCan(s, AsideAtShutdown(newId))
    ensures Inv(Handled(s, AsideAtShutdown(newId)))
  {
    if s.hand.item.historyId == "" || !s.hand.phase.Popped? {
      SetAsideFromAnywhere(s, Restarted, 0.0, [], newId);
    }
    LeaveKeepsCarry(s, newId);
  }

  lemma LeaveKeepsCarry(s: State, newId: string)
    requires Inv(s) && HandleCan(s, AsideAtShutdown(newId))
    ensures var after := Handled(s, AsideAtShutdown(newId)); Carry(after.lines, after.bands, after.hand, after.orphans)
  {
    var after, aside := Handled(s, AsideAtShutdown(newId)), DoSetAside(s, Restarted, 0.0, [], newId);
    if s.hand.item.historyId == "" { SetAsideFromAnywhere(s, Restarted, 0.0, [], newId); }
    assert CarriedBy(s.bands, s.hand, s.hand.item);
    forall k | k != "" ensures Carriers(after.bands, after.hand, k) == Owed(after.lines, after.orphans, k) {
      assert Carriers(s.bands, s.hand, k) == Owed(s.lines, s.orphans, k);
      if s.hand.item.historyId == "" { assert Carriers(aside.bands, aside.hand, k) == Owed(aside.lines, aside.orphans, k); }
    }
  }

  // ------------------------------------------------------------------- requests

  lemma SpeakKeeps(s: State, item: QueueItem, evicted: set<string>)
    requires Inv(s) && Evicts(s, evicted) && item.historyId == "" && (item.missedId != "" ==> !item.hold)
    ensures Inv(DoSpeak(s, item, evicted))
  {
    var id, after := item.lineId, DoSpeak(s, item, evicted);
    if id == "" {
      QueuedKeeps(s, item);
    } else if item.missedId == "" && KeptByStop(s, id) {
    } else {
      AdmitKeeps(s, id, LineText(item), evicted);
      var admitted := s.(lines := AfterAdmit(s.lines, id, LineText(item), s.now, evicted), log := s.log + [Evicted(evicted)]);
      if !Refused(s.lines, id, s.now, evicted) {
        AdmittedKeeps(s, admitted, item, evicted);
      } else if DoneIn(admitted.lines, id) {
        FewerEntries(s, after.missed, item.missedId, id);
      }
    }
  }

  /** An item that carries no line id joins the queue. */
  lemma QueuedKeeps(s: State, item: QueueItem)
    requires Inv(s) && item.lineId == "" && (item.historyId != "" ==> !item.hold)
    ensures Inv(s.(bands := AtTail(s.bands, item)))
  {
    TailHas(s.bands, item);
    var after := s.(bands := AtTail(s.bands, item));
    forall k | k != "" ensures Carriers(after.bands, after.hand, k) == Owed(after.lines, after.orphans, k) {
      TailCount(s.bands, item, k);
      assert Carriers(s.bands, s.hand, k) == Owed(s.lines, s.orphans, k);
    }
  }

  lemma AdmitActive(s: State, id: string, text: string, evicted: set<string>)
    requires Inv(s) && Evicts(s, evicted) && id != ""
    ensures var lines := AfterAdmit(s.lines, id, text, s.now, evicted);
            && (forall k :: ActiveIn(lines, k) <==> ActiveIn(s.lines, k) || (k == id && !Refused(s.lines, id, s.now, evicted)))
            && (forall k :: DoneIn(lines, k) ==> DoneIn(s.lines, k))
            && (ActiveIn(s.lines, id) ==> Refused(s.lines, id, s.now, evicted))
            && (forall k :: k in lines && (k != id || Refused(s.lines, id, s.now, evicted)) ==> k in s.lines && lines[k].inPass == s.lines[k].inPass)
            && (!Refused(s.lines, id, s.now, evicted) ==> !lines[id].inPass)
  {
    var lines := AfterAdmit(s.lines, id, text, s.now, evicted);
    forall k | ActiveIn(s.lines, k) ensures ActiveIn(lines, k) {
      assert k in Kept(s.lines, s.now) && k !in SettledIds(Kept(s.lines, s.now));
    }
  }

  /** The ledger's part of a request that is refused, or of one about to be
      queued: until then everything but the new line's own record agrees. */
  lemma AdmitKeeps(s: State, id: string, text: string, evicted: set<string>)
    requires Inv(s) && Evicts(s, evicted) && id != ""
    ensures Books(AfterAdmit(s.lines, id, text, s.now, evicted), s.log + [Evicted(evicted)], s.now)
    ensures Refused(s.lines, id, s.now, evicted) ==>
              Inv(s.(lines := AfterAdmit(s.lines, id, text, s.now, evicted), log := s.log + [Evicted(evicted)]))
  {
    AdmitKeepsBooks(s.lines, id, text, evicted, s.log, s.now);
    AdmitActive(s, id, text, evicted);
    if Refused(s.lines, id, s.now, evicted) {
      var after := s.(lines := AfterAdmit(s.lines, id, text, s.now, evicted), log := s.log + [Evicted(evicted)]);
      forall k | k != "" ensures Carriers(after.bands, after.hand, k) == Owed(after.lines, after.orphans, k) {
        assert Carriers(s.bands, s.hand, k) == Owed(s.lines, s.orphans, k);
      }
    }
  }

  lemma AdmittedKeeps(s: State, admitted: State, item: QueueItem, evicted: set<string>)
    requires Inv(s) && Evicts(s, evicted) && item.lineId != "" && item.historyId == ""
    requires if item.missedId == "" then !KeptByStop(s, item.lineId) else !item.hold
    requires !Refused(s.lines, item.lineId, s.now, evicted)
    requires admitted == s.(lines := AfterAdmit(s.lines, item.lineId, LineText(item), s.now, evicted), log := s.log + [Evicted(evicted)])
    requires Books(admitted.lines, admitted.log, s.now)
    ensures Inv(admitted.(bands := AtTail(s.bands, item)))
  {
    var after := admitted.(bands := AtTail(s.bands, item));
    AdmitActive(s, item.lineId, LineText(item), evicted);
    TailHas(s.bands, item);
    forall k | k != "" ensures Carriers(after.bands, after.hand, k) == Owed(after.lines, after.orphans, k) {
      TailCount(s.bands, item, k);
      assert Carriers(s.bands, s.hand, k) == Owed(s.lines, s.orphans, k);
    }
    if s.hand.Carries() && s.hand.item.lineId == item.lineId { InHandIsAlone(s); }
  }

  lemma BargeKeeps(s: State)
    requires Inv(s)
    ensures Inv(DoBarge(s))
  {
    var after := DoBarge(s);
    var ids := PurgedIds(s.bands, after.bands);
    DropAllQuiet(s.lines, ids, s.now, if s.Stopped() then "stopped" else "interrupted");
    QuietKeepsBooks(s.lines, after.lines, s.log, s.now);
    BargeKeepsCarry(s);
    NotInHand(s, ids);
    SameHand(s, after.hand);
  }

  lemma BargeKeepsCarry(s: State)
    requires Carry(s.lines, s.bands, s.hand, s.orphans) && WellKept(s.lines, s.now)
    ensures var after := DoBarge(s); Carry(after.lines, after.bands, after.hand, after.orphans)
  {
    var after := DoBarge(s);
    DropAllQuiet(s.lines, PurgedIds(s.bands, after.bands), s.now, if s.Stopped() then "stopped" else "interrupted");
    SameHand(s, after.hand);
    forall k | k != "" ensures Carriers(after.bands, after.hand, k) == Owed(after.lines, after.orphans, k) {
      HasMeansCounted(s.bands, k);
      HasMeansCounted(after.bands, k);
      assert Carriers(s.bands, s.hand, k) == Owed(s.lines, s.orphans, k);
    }
    forall k | k in s.orphans ensures ActiveIn(after.lines, k) {
      HasMeansCounted(s.bands, k);
      assert Carriers(s.bands, s.hand, k) == Owed(s.lines, s.orphans, k);
    }
  }

  /** What leaves the queue is not the line in hand. */
  lemma NotInHand(s: State, ids: set<string>)
    requires Inv(s) && ids <= QueuedIds(s.bands)
    ensures s.hand.Carries() && s.hand.item.lineId != "" ==> s.hand.item.lineId !in ids
  {
    if s.hand.Carries() && s.hand.item.lineId != "" {
      InHandIsAlone(s);
      HasMeansCounted(s.bands, s.hand.item.lineId);
    }
  }

  lemma SameHand(s: State, hand: Hand)
    requires hand == SinkInterrupted(s.hand)
    ensures hand.Carries() == s.hand.Carries() && (hand.InHand? ==> s.hand.InHand? && hand.item == s.hand.item && hand.held == s.hand.held)
  {
  }

  lemma RemovalKeeps(s: State, match_: QueueItem -> bool)
    requires Inv(s) && forall q :: s.bands.Has(q) && match_(q) ==> q.lineId == ""
    ensures Inv(s.(bands := AfterRemoval(s.bands, match_)))
  {
    var after := s.(bands := AfterRemoval(s.bands, match_));
    RemovalHas(s.bands, match_);
    forall k | k != "" ensures Carriers(after.bands, after.hand, k) == Owed(after.lines, after.orphans, k) {
      RemovalCount(s.bands, match_, k);
      CountPositive(Removed(s.bands, match_), k);
      assert Carriers(s.bands, s.hand, k) == Owed(s.lines, s.orphans, k);
    }
  }

  lemma StopKeeps(s: State)
    requires Inv(s)
    ensures Inv(DoStop(s))
  {
    BargeKeeps(s);
    var barged := DoBarge(s);
    var s1 := s.(stoppedSince := if s.Stopped() then s.stoppedSince else Some(s.now));
    var stopped := DoBarge(s1);
    BargeWhileStopping(s, s1);
    RemovalKeeps(stopped, IsHeardReplay());
  }

  lemma BargeWhileStopping(s: State, s1: State)
    requires Inv(s) && s1 == s.(stoppedSince := s1.stoppedSince)
    ensures Inv(DoBarge(s1))
  {
    var s2 := s1.(hand := SinkInterrupted(s1.hand));
    SameHand(s1, s2.hand);
    forall k | k != "" ensures Carriers(s2.bands, s2.hand, k) == Owed(s2.lines, s2.orphans, k) {
      assert Carriers(s.bands, s.hand, k) == Owed(s.lines, s.orphans, k);
    }
    assert Inv(s2);
    BargeKeeps(s2);
    assert SinkInterrupted(SinkInterrupted(s1.hand)) == SinkInterrupted(s1.hand);
  }

  lemma CutKeeps(s: State)
    requires Inv(s)
    ensures Inv(s.(hand := SinkInterrupted(s.hand)))
  {
    var after := s.(hand := SinkInterrupted(s.hand));
    SameHand(s, after.hand);
    SameCarriers(s, after);
    forall q ensures CarriedBy(after.bands, after.hand, q) <==> CarriedBy(s.bands, s.hand, q) {}
  }

  /** One line of the queue goes on the missed list, another one in hand. */
  lemma DrainKeeps(s: State, newId: string)
    requires Inv(s) && s.bands.Depth() > 0 && newId != ""
    ensures Inv(DoDrainOne(s, newId))
  {
    NextHas(s.bands);
    var q := Next(s.bands);
    assert CarriedBy(s.bands, s.hand, q);
    DrainKeepsCarry(s, newId);
    DrainKeepsList(s, newId);
    if q.historyId == "" {
      if q.lineId != "" { CarriedIsActive(s, q); }
      DropOfActiveKeepsBooks(s.lines, q.lineId, s.log, s.now, ReasonText(Restarted),
                             Upsert(s.missed, DrainedEntry(q, newId, s.now), s.now).1.id);
      DrainedIsAlone(s);
      assert s.hand.Carries() ==> CarriedBy(AfterNext(s.bands), s.hand, s.hand.item);
    }
  }

  lemma DrainKeepsList(s: State, newId: string)
    requires Inv(s) && s.bands.Depth() > 0 && newId != ""
    ensures var after := DoDrainOne(s, newId);
            && ListInOrder(after.missed) && HeardIsForgotten(after.lines, after.missed)
            && OnlyReplays(after.missed, after.bands, after.hand, after.now)
  {
    NextHas(s.bands);
    var q := Next(s.bands);
    assert CarriedBy(s.bands, s.hand, q);
    if q.historyId == "" {
      if q.lineId != "" { CarriedIsActive(s, q); }
      UpsertIntoList(s.missed, DrainedEntry(q, newId, s.now), s.now);
      DrainedIsAlone(s);
      UpsertStaysOnlyReplays(s, DrainedEntry(q, newId, s.now), AfterNext(s.bands), s.hand);
    }
  }

  /** Letting an active line go leaves the plays on the record, and who is done. */
  lemma DropOfActiveKeepsBooks(lines: Lines, id: string, log: seq<Event>, now: real, reason: string, missedId: string)
    requires Books(lines, log, now) && (id != "" ==> ActiveIn(lines, id))
    ensures var after := DropNow(lines, id, now, reason, missedId);
            Books(after, log, now) && (forall k :: DoneIn(after, k) <==> DoneIn(lines, k))
  {
    DropOfActiveIsQuiet(lines, id, now, reason, missedId);
    QuietKeepsBooks(lines, DropNow(lines, id, now, reason, missedId), log, now);
  }

  lemma DropOfActiveIsQuiet(lines: Lines, id: string, now: real, reason: string, missedId: string)
    requires WellKept(lines, now) && (id != "" ==> ActiveIn(lines, id))
    ensures var after := DropNow(lines, id, now, reason, missedId);
            Quiet(lines, after, now) && (forall k :: ActiveIn(after, k) <==> ActiveIn(lines, k) && (k != id || id == ""))
            && (id == "" ==> after == lines)
  {
  }

  /** The line next in the queue has no other carrier. */
  lemma DrainedIsAlone(s: State)
    requires Inv(s) && s.bands.Depth() > 0
    ensures forall q :: CarriedBy(AfterNext(s.bands), s.hand, q) ==>
              CarriedBy(s.bands, s.hand, q) && (Next(s.bands).lineId != "" ==> q.lineId != Next(s.bands).lineId)
  {
    var id := Next(s.bands).lineId;
    NextHas(s.bands);
    if id != "" {
      NextCount(s.bands, id);
      HasMeansCounted(AfterNext(s.bands), id);
      assert Carriers(s.bands, s.hand, id) == Owed(s.lines, s.orphans, id);
    }
  }

  lemma DrainKeepsCarry(s: State, newId: string)
    requires Inv(s) && s.bands.Depth() > 0
    ensures var after := DoDrainOne(s, newId); Carry(after.lines, after.bands, after.hand, after.orphans)
  {
    NextHas(s.bands);
    var q := Next(s.bands);
    assert CarriedBy(s.bands, s.hand, q);
    if q.lineId != "" { CarriedIsActive(s, q); }
    DrainedCarry(s, newId);
  }

  lemma DrainedCarry(s: State, newId: string)
    requires Carry(s.lines, s.bands, s.hand, s.orphans) && s.bands.Depth() > 0
    requires var q := Next(s.bands);
             && (q.historyId != "" ==> q.lineId == "")
             && (q.lineId != "" ==> ActiveIn(s.lines, q.lineId) && q.lineId !in s.orphans)
    ensures var after := DoDrainOne(s, newId); Carry(after.lines, after.bands, after.hand, after.orphans)
  {
    var q, after := Next(s.bands), DoDrainOne(s, newId);
    forall k | k != "" ensures Carriers(after.bands, after.hand, k) == Owed(after.lines, after.orphans, k) {
      NextCount(s.bands, k);
      assert Carriers(s.bands, s.hand, k) == Owed(s.lines, s.orphans, k);
    }
  }

  lemma TakeOutKeeps(s: State, match_: QueueItem -> bool, reason: string)
    requires Inv(s)
    ensures Inv(DoTakeOut(s, match_, reason))
  {
    var after := DoTakeOut(s, match_, reason);
    var ids := set q | q in Removed(s.bands, match_) :: q.lineId;
    RemovalHas(s.bands, match_);
    DropAllQuiet(s.lines, ids, s.now, reason);
    QuietKeepsBooks(s.lines, after.lines, s.log, s.now);
    TakeOutKeepsCarry(s, match_, reason);
    TakenOutIsNotInHand(s, match_);
  }

  lemma TakenOutIsNotInHand(s: State, match_: QueueItem -> bool)
    requires Inv(s)
    ensures var ids := set q | q in Removed(s.bands, match_) :: q.lineId;
            s.hand.Carries() ==> s.hand.item.lineId !in ids - {""}
  {
    var ids := set q | q in Removed(s.bands, match_) :: q.lineId;
    RemovalHas(s.bands, match_);
    forall k | k in ids && k != "" ensures k in QueuedIds(s.bands) {
      var q :| q in Removed(s.bands, match_) && q.lineId == k;
      assert s.bands.Has(q);
      HasMeansCounted(s.bands, k);
    }
    NotInHand(s, ids - {""});
  }

  lemma TakeOutKeepsCarry(s: State, match_: QueueItem -> bool, reason: string)
    requires Inv(s)
    ensures var after := DoTakeOut(s, match_, reason); Carry(after.lines, after.bands, after.hand, after.orphans)
  {
    var after := DoTakeOut(s, match_, reason);
    var removed := Removed(s.bands, match_);
    var ids := set q | q in removed :: q.lineId;
    DropAllQuiet(s.lines, ids, s.now, reason);
    forall k | k != "" ensures Carriers(after.bands, after.hand, k) == Owed(after.lines, after.orphans, k) {
      RemovalCount(s.bands, match_, k);
      CountPositive(removed, k);
      assert Carriers(s.bands, s.hand, k) == Owed(s.lines, s.orphans, k);
      assert k in ids <==> Count(removed, k) > 0;
    }
    forall k | k in s.orphans ensures ActiveIn(after.lines, k) {
      RemovalCount(s.bands, match_, k);
      CountPositive(removed, k);
      assert Carriers(s.bands, s.hand, k) == Owed(s.lines, s.orphans, k);
    }
  }

  lemma NarrateKeeps(s: State, item: QueueItem)
    requires Inv(s) && item.lineId == "" && item.historyId == ""
    ensures Inv(DoNarrate(s, item))
  {
    QueuedKeeps(s, item);
    if !(s.maxQueue <= 0 || s.bands.Depth() < s.maxQueue) {
      ShedKeeps(s);
      var (bands, shed) := Shed(s.bands);
      var shedId := if shed.Some? then shed.value.lineId else "";
      QueuedKeeps(s.(bands := bands, orphans := if shedId != "" then s.orphans + {shedId} else s.orphans), item);
    }
  }

  lemma ShedKeeps(s: State)
    requires Inv(s)
    ensures var (bands, shed) := Shed(s.bands);
            var shedId := if shed.Some? then shed.value.lineId else "";
            Inv(s.(bands := bands, orphans := if shedId != "" then s.orphans + {shedId} else s.orphans))
  {
    var (bands, shed) := Shed(s.bands);
    if shed.Some? {
      var id := shed.value.lineId;
      assert s.bands.Has(shed.value) && forall q :: bands.Has(q) ==> s.bands.Has(q);
      if id != "" { CarriedIsActive(s, shed.value); }
      var orphans := if id != "" then s.orphans + {id} else s.orphans;
      forall k | k != "" ensures Carriers(bands, s.hand, k) == Owed(s.lines, orphans, k) {
        assert BandsCount(s.bands, k) == BandsCount(bands, k) + if id == k then 1 else 0;
        assert Carriers(s.bands, s.hand, k) == Owed(s.lines, s.orphans, k);
      }
    }
  }

  lemma SeeEventKeeps(s: State, id: string, evicted: set<string>)
    requires Inv(s) && Evicts(s, evicted) && id != "" && !HasLine(s.missed, id)
    ensures Inv(DoSeeEvent(s, id, evicted))
  {
    AdmitKeeps(s, id, "", evicted);
    if !Refused(s.lines, id, s.now, evicted) {
      NewEventKeeps(s, id, evicted);
    }
  }

  lemma NewEventKeeps(s: State, id: string, evicted: set<string>)
    requires Inv(s) && Evicts(s, evicted) && id != "" && !HasLine(s.missed, id) && !Refused(s.lines, id, s.now, evicted)
    ensures Inv(DoSeeEvent(s, id, evicted))
  {
    AdmitActive(s, id, "", evicted);
    var after := DoSeeEvent(s, id, evicted);
    SameCarriers(s, after);
    EventBooks(s, id, evicted);
    if s.hand.Carries() && s.hand.item.lineId == id { InHandIsAlone(s); }
  }

  lemma EventBooks(s: State, id: string, evicted: set<string>)
    requires Inv(s) && Evicts(s, evicted) && id != "" && !Refused(s.lines, id, s.now, evicted)
    ensures Books(DoSeeEvent(s, id, evicted).lines, s.log + [Evicted(evicted)], s.now)
  {
    AdmitKeeps(s, id, "", evicted);
    PlayKeepsBooks(AfterAdmit(s.lines, id, "", s.now, evicted), id, s.log + [Evicted(evicted)], s.now);
  }

  lemma RestartKeeps(s: State, evicted: set<string>)
    requires Inv(s) && EditCan(s, Restart(evicted))
    ensures Inv(DoRestart(s, evicted))
  {
    RestartKeepsBooks(s, evicted);
    RestartLeavesNoCarrier(s, evicted);
    RestartedList(s.missed, s.now);
    RestartForgets(s, evicted);
  }

  lemma RestartForgets(s: State, evicted: set<string>)
    requires HeardIsForgotten(s.lines, s.missed) && ListInOrder(s.missed)
    ensures HeardIsForgotten(DoRestart(s, evicted).lines, DoRestart(s, evicted).missed)
    ensures forall q :: !CarriedBy(DoRestart(s, evicted).bands, DoRestart(s, evicted).hand, q)
  {
    RestartedList(s.missed, s.now);
  }

  lemma RestartKeepsBooks(s: State, evicted: set<string>)
    requires Inv(s) && EditCan(s, Restart(evicted))
    ensures Books(Loaded(s.lines, s.now, evicted), s.log + [Evicted(evicted)], s.now)
  {
    var lost := Lost(s.lines, s.now);
    QuietKeepsBooks(s.lines, lost, s.log, s.now);
    PruneKeepsBooks(lost, evicted, s.log, s.now);
  }

  lemma RestartLeavesNoCarrier(s: State, evicted: set<string>)
    requires Inv(s) && EditCan(s, Restart(evicted))
    ensures var after := DoRestart(s, evicted); Carry(after.lines, after.bands, after.hand, after.orphans)
  {
    var after := DoRestart(s, evicted);
    forall k | k != "" ensures Carriers(after.bands, after.hand, k) == Owed(after.lines, after.orphans, k) {}
  }

  lemma RestartedList(missed: Entries, now: real)
    requires ListInOrder(missed)
    ensures ListInOrder(Live(SettleHeld(missed, Restarted, now), now))
    ensures forall m :: m in Live(SettleHeld(missed, Restarted, now), now) ==> exists x :: x in missed && x.id == m.id && x.lineId == m.lineId
  {
    KeepProperties(missed, Unexpired(now));
    ChangeProperties(Live(missed, now), Settler(Restarted, now));
    ChangedFrom(Live(missed, now), Settler(Restarted, now));
    KeepProperties(SettleHeld(missed, Restarted, now), Unexpired(now));
  }

  lemma ChangedFrom(lines: Entries, f: MissedLine -> MissedLine)
    requires forall m :: f(m).id == m.id && f(m).lineId == m.lineId
    ensures forall m :: m in Change(lines, f) ==> exists x :: x in lines && f(x) == m && x.id == m.id && x.lineId == m.lineId
  {
    ChangePointwise(lines, f);
    forall m | m in Change(lines, f) ensures exists x :: x in lines && f(x) == m && x.id == m.id && x.lineId == m.lineId {
      var i :| 0 <= i < |Change(lines, f)| && Change(lines, f)[i] == m;
      assert lines[i] in lines;
    }
  }

  lemma AddMissedKeeps(s: State, line: MissedLine)
    requires Inv(s) && line.id != ""
    ensures Inv(DoAddMissed(s, line))
  {
    UpsertProperties(s.missed, AsMissed(line, Added, 0.0, [], s.now), s.now);
    KeepElements(s.missed, Unexpired(s.now));
  }

  lemma SummaryKeeps(s: State)
    requires Inv(s)
    ensures Inv(s.(missed := AfterSummary(s.missed, s.now)))
  {
    SummarizedList(s.missed, s.now);
  }

  lemma SummarizedList(missed: Entries, now: real)
    requires ListInOrder(missed)
    ensures ListInOrder(AfterSummary(missed, now))
    ensures forall m :: m in AfterSummary(missed, now) ==>
              exists x :: x in missed && x.id == m.id && x.lineId == m.lineId && (SetAsideByStop(m, now) ==> x == m)
  {
    SummarizedOrder(missed, now);
    KeepElements(missed, Unexpired(now));
    ChangedFrom(Live(missed, now), Announcer());
  }

  lemma SummarizedOrder(missed: Entries, now: real)
    requires ListInOrder(missed)
    ensures ListInOrder(AfterSummary(missed, now))
  {
    KeepProperties(missed, Unexpired(now));
    ChangeProperties(Live(missed, now), Announcer());
    ChangedFrom(Live(missed, now), Announcer());
  }

  lemma MoveKeeps(s: State, queueId: string, to: int)
    requires Inv(s)
    ensures Inv(s.(bands := AfterMove(s.bands, queueId, to).0))
  {
    var after := s.(bands := AfterMove(s.bands, queueId, to).0);
    MoveHas(s.bands, queueId, to);
    forall k | k != "" ensures Carriers(after.bands, after.hand, k) == Owed(after.lines, after.orphans, k) {
      MoveCount(s.bands, queueId, to, k);
      assert Carriers(s.bands, s.hand, k) == Owed(s.lines, s.orphans, k);
    }
  }

  lemma TickKeeps(s: State, seconds: real)
    requires Inv(s) && seconds >= 0.0
    ensures Inv(s.(now := s.now + seconds))
  {
    LaterKeepsBooks(s.lines, s.log, s.now, s.now + seconds);
  }

  lemma FewerKeeps(s: State, missed: Entries)
    requires Inv(s) && ListInOrder(missed) && forall m :: m in missed ==> m in s.missed
    ensures Inv(s.(missed := missed))
  {
  }
}
