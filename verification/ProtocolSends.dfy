/** How often one line id is queued, and what lets it be queued again. */
module ProtocolSends {
  import opened Options
  import opened Ledger
  import opened Arbiter
  import opened MissedSpeech
  import opened SpeechProtocol
  import opened ProtocolInvariant
  import opened ProtocolTheorems
  import opened ProtocolEntries

  /** A delivery of a speak or replay that queues the line. */
  predicate QueuesLine(s: State, a: Action, id: string) {
    a.Speak? && a.said.lineId == id && Queues(s, a.said, a.evicted)
  }

  /** This step lets the line go: purged by a barge-in or a stop, cleared,
      removed, drained, lost to a restart, set aside, heard, or given up. */
  ghost predicate LetsItGo(s: State, a: Action, id: string)
    requires Enabled(s, a)
  {
    if Asks(a) then PurgesIt(s, a, id)
    else if Edits(a) then TakesItOut(s, a, id)
    else if LetsGo(a) then LetGoWrites(s, a).Some? && s.hand.item.lineId == id
    else if Handles(a) then IsDoneWithIt(s, a, id)
    else false
  }

  predicate IsDoneWithIt(s: State, a: Action, id: string)
    requires Handles(a) && HandleCan(s, a)
  {
    (a.PlayEnds? || a.AsideAtShutdown? || (a.EndPass? && s.hand.phase.Failed?)) && s.hand.item.lineId == id
  }

  ghost predicate PurgesIt(s: State, a: Action, id: string) { (a.Barge? || a.Stop?) && InLowerBands(s.bands, id) }

  ghost predicate TakesItOut(s: State, a: Action, id: string)
    requires Edits(a) && EditCan(s, a)
  {
    match a
    case QueueClear => exists q :: s.bands.Has(q) && IsLine()(q) && q.lineId == id
    case QueueRemove(queueIds) => exists q :: s.bands.Has(q) && IsNamed(queueIds)(q) && q.lineId == id
    case DrainOne(_) => Next(s.bands).lineId == id
    case Restart(_) => ActiveIn(s.lines, id)
    case _ => false
  }

  function Bit(b: bool): nat { if b then 1 else 0 }

  /** What a step does to one id's place in the ledger. */
  predicate Balanced(was: Lines, after: Lines, id: string, queued: bool, gone: bool) {
    && (queued ==> !ActiveIn(was, id) && ActiveIn(after, id))
    && (gone ==> ActiveIn(was, id) && !ActiveIn(after, id))
    && (!queued && !gone ==> (ActiveIn(was, id) <==> ActiveIn(after, id)))
  }

  ghost predicate StepBalanced(s: State, a: Action, id: string)
    requires Enabled(s, a)
  {
    Balanced(s.lines, Step(s, a).lines, id, QueuesLine(s, a, id), LetsItGo(s, a, id))
  }

  /** The id becomes active exactly when a delivery queues it, and stops being
      active exactly when a step lets it go. */
  lemma StepBalances(s: State, a: Action, id: string)
    requires Inv(s) && Enabled(s, a) && id != ""
    ensures StepBalanced(s, a, id)
  {
    if Asks(a) || Edits(a) {
      RequestBalances(s, a, id);
    } else if OnlyMovesOn(a) {
      MovingOnBalances(s, a, id);
    } else if Marks(a) {
      MarkingBalances(s, a, id);
    } else if LetsGo(a) {
      LettingGoBalances(s, a, id);
    } else {
      HandlingBalances(s, a, id);
    }
  }

  lemma RequestBalances(s: State, a: Action, id: string)
    requires Inv(s) && Enabled(s, a) && id != "" && (Asks(a) || Edits(a))
    ensures StepBalanced(s, a, id)
  {
    if Asks(a) { AskBalances(s, a, id); } else { EditBalances(s, a, id); }
  }

  lemma LettingGoBalances(s: State, a: Action, id: string)
    requires Inv(s) && Enabled(s, a) && id != "" && !Asks(a) && !Edits(a) && !OnlyMovesOn(a) && !Marks(a) && LetsGo(a)
    ensures StepBalanced(s, a, id)
  {
    LetGoBalances(s, a, id);
  }

  lemma HandlingBalances(s: State, a: Action, id: string)
    requires Inv(s) && Enabled(s, a) && id != "" && !Asks(a) && !Edits(a) && !OnlyMovesOn(a) && !Marks(a) && !LetsGo(a)
    ensures StepBalanced(s, a, id)
  {
    HandleBalances(s, a, id);
  }

  lemma MovingOnBalances(s: State, a: Action, id: string)
    requires Enabled(s, a) && !Asks(a) && !Edits(a) && OnlyMovesOn(a)
    ensures StepBalanced(s, a, id)
  {
  }

  lemma MarkingBalances(s: State, a: Action, id: string)
    requires Inv(s) && Enabled(s, a) && !Asks(a) && !Edits(a) && !OnlyMovesOn(a) && Marks(a)
    ensures StepBalanced(s, a, id)
  {
    MarkBalances(s, a, id);
  }

  lemma AskBalances(s: State, a: Action, id: string)
    requires Inv(s) && Asks(a) && AskCan(s, a) && id != ""
    ensures Balanced(s.lines, Asked(s, a).lines, id, QueuesLine(s, a, id), PurgesIt(s, a, id))
  {
    if a.Speak? {
      SpeakBalances(s, Arriving(s, a.said), a.evicted, id);
    } else if a.Barge? {
      PurgeBalances(s, id);
    } else if a.Stop? {
      PurgeBalances(s.(stoppedSince := if s.Stopped() then s.stoppedSince else Some(s.now)), id);
    }
  }

  lemma SpeakBalances(s: State, item: QueueItem, evicted: set<string>, id: string)
    requires WellKept(s.lines, s.now) && Evicts(s, evicted) && id != ""
    ensures Balanced(s.lines, DoSpeak(s, item, evicted).lines, id, item.lineId == id && Queues(s, item, evicted), false)
  {
    if item.lineId != "" {
      AdmitBalances(s.lines, item.lineId, LineText(item), s.now, evicted, id);
    }
  }

  lemma AdmitBalances(lines: Lines, sent: string, text: string, now: real, evicted: set<string>, id: string)
    requires WellKept(lines, now) && IsEviction(Kept(lines, now), evicted) && sent != ""
    ensures Balanced(lines, AfterAdmit(lines, sent, text, now, evicted), id,
                     sent == id && !Refused(lines, sent, now, evicted), false)
  {
    AdmitTouchesOneLine(lines, sent, text, now, evicted);
    AdmittedExactlyWhen(lines, sent, now, evicted);
    PruneKeepsWithinLimit(lines, now, evicted);
  }

  ghost predicate InLowerBands(b: Bands, id: string) {
    exists q :: (q in b.p3 || q in b.p4) && q.lineId == id
  }

  lemma PurgedExactlyWhen(b: Bands, id: string)
    requires BandsCount(b, id) <= 1 && id != ""
    ensures id in PurgedIds(b, AfterPurge(b)) <==> InLowerBands(b, id)
    ensures InLowerBands(b, id) ==> BandsCount(b, id) > 0
  {
    HasMeansCounted(b, id);
    HasMeansCounted(AfterPurge(b), id);
    CountPositive(b.p3, id);
    CountPositive(b.p4, id);
  }

  lemma CarriersMeanActive(s: State, id: string)
    requires Inv(s) && id != ""
    ensures BandsCount(s.bands, id) <= Carriers(s.bands, s.hand, id) <= 1
    ensures Carriers(s.bands, s.hand, id) > 0 ==> ActiveIn(s.lines, id)
  {
    assert Carriers(s.bands, s.hand, id) == Owed(s.lines, s.orphans, id);
  }

  lemma PurgeBalances(s: State, id: string)
    requires Inv(s) && id != ""
    ensures Balanced(s.lines, DoBarge(s).lines, id, false, InLowerBands(s.bands, id))
  {
    CarriersMeanActive(s, id);
    PurgedExactlyWhen(s.bands, id);
    DroppedIsGone(s.lines, PurgedIds(s.bands, AfterPurge(s.bands)), s.now, if s.Stopped() then "stopped" else "interrupted", id);
  }

  lemma DroppedIsGone(lines: Lines, ids: set<string>, now: real, reason: string, id: string)
    requires id != ""
    ensures ActiveIn(DropAll(lines, ids, now, reason), id) <==> ActiveIn(lines, id) && id !in ids
  {
  }

  lemma TakeOutBalances(s: State, match_: QueueItem -> bool, reason: string, id: string)
    requires Inv(s) && id != ""
    ensures var gone := exists q :: s.bands.Has(q) && match_(q) && q.lineId == id;
            Balanced(s.lines, DoTakeOut(s, match_, reason).lines, id, false, gone)
  {
    CarriersMeanActive(s, id);
    HasMeansCounted(s.bands, id);
    RemovalHas(s.bands, match_);
    DroppedIsGone(s.lines, set q | q in Removed(s.bands, match_) :: q.lineId, s.now, reason, id);
  }

  lemma EditBalances(s: State, a: Action, id: string)
    requires Inv(s) && Edits(a) && EditCan(s, a) && id != ""
    ensures Balanced(s.lines, Edited(s, a).lines, id, false, TakesItOut(s, a, id))
  {
    if a.QueueClear? {
      TakeOutBalances(s, IsLine(), "cleared", id);
    } else if a.QueueRemove? {
      TakeOutBalances(s, IsNamed(a.queueIds), "removed", id);
    } else if a.DrainOne? {
      DrainBalances(s, a.drainedId, id);
    } else if a.SeeEvent? {
      EventBalances(s, a.eventId, a.evicted, id);
    } else if a.Restart? {
      RestartBalances(s.lines, s.now, a.evicted, id);
    }
  }

  lemma EventBalances(s: State, eventId: string, evicted: set<string>, id: string)
    requires WellKept(s.lines, s.now) && Evicts(s, evicted) && eventId != ""
    ensures Balanced(s.lines, DoSeeEvent(s, eventId, evicted).lines, id, false, false)
  {
    AdmitBalances(s.lines, eventId, "", s.now, evicted, id);
  }

  lemma RestartBalances(lines: Lines, now: real, evicted: set<string>, id: string)
    ensures Balanced(lines, Loaded(lines, now, evicted), id, false, ActiveIn(lines, id))
  {
  }

  lemma DrainBalances(s: State, newId: string, id: string)
    requires Inv(s) && s.bands.Depth() > 0 && id != ""
    ensures Balanced(s.lines, DoDrainOne(s, newId).lines, id, false, Next(s.bands).lineId == id)
  {
    NextHas(s.bands);
    HasMeansCounted(s.bands, id);
    CarriersMeanActive(s, id);
    assert CarriedBy(s.bands, s.hand, Next(s.bands));
  }

  lemma MarkBalances(s: State, a: Action, id: string)
    requires Inv(s) && Marks(a) && MarkCan(s, a)
    ensures ActiveIn(s.lines, id) <==> ActiveIn(Marked(s, a).lines, id)
  {
    if a.MarkInPass? {
      TakenIsQuiet(s.lines, s.hand.item.lineId, s.now);
    } else if a.SynthStarts? {
      SynthIsQuiet(s, s.hand.item.lineId);
    } else {
      PlayingIsQuiet(s, s.hand.item.lineId);
    }
  }

  lemma InHandIsActive(s: State, id: string)
    requires Inv(s) && id != "" && s.hand.Carries() && s.hand.item.lineId == id
    ensures ActiveIn(s.lines, id) && s.hand.item.historyId == ""
  {
    CarriersMeanActive(s, id);
    assert CarriedBy(s.bands, s.hand, s.hand.item);
  }

  lemma LetGoBalances(s: State, a: Action, id: string)
    requires Inv(s) && LetsGo(a) && LetGoCan(s, a) && id != ""
    ensures Balanced(s.lines, LetGo(s, a).lines, id, false, LetGoWrites(s, a).Some? && s.hand.item.lineId == id)
  {
    LettingGoCarries(s, a);
    if s.hand.item.lineId == id { InHandIsActive(s, id); }
    match a
    case AsideEarly(why, newId, waited, heldFor) => AsideBalances(s, why, waited, heldFor, newId, id);
    case SynthTimesOut(newId, queueId, spent) =>
      if spent {
        AsideBalances(s, TimedOut, 0.0, [], newId, id);
      } else {
        RetryBalances(s, Words(LineText(s.hand.item)), queueId, id);
      }
    case HoldExpires(why, slept, waited, heldFor) => HoldEndBalances(s, why, slept, waited, heldFor, id);
    case HoldAborts(slept, waited, heldFor) => HoldEndBalances(s, Interrupted, slept, waited, heldFor, id);
    case PlayStalls(newId, queueId, kept, waited) =>
      if s.hand.item.retries >= s.maxRetries {
        AsideBalances(s, TimedOut, waited, [], newId, id);
      } else {
        RetryBalances(s, Wav(kept), queueId, id);
      }
    case PlayCutByShutdown(newId, waited) => AsideBalances(s, Restarted, waited, [], newId, id);
  }

  lemma LettingGoCarries(s: State, a: Action)
    requires LetsGo(a) && LetGoCan(s, a)
    ensures s.hand.Carries()
  {
  }

  lemma HoldEndBalances(s: State, reason: Reason, slept: real, waited: real, heldFor: seq<string>, id: string)
    requires s.hand.InHand? && id != "" && (s.hand.item.lineId == id ==> ActiveIn(s.lines, id) && s.hand.item.historyId == "")
    ensures Balanced(s.lines, DoSetAside(Noted(s, slept), reason, waited, heldFor, "").lines, id, false,
                     s.hand.item.historyId == "" && s.hand.item.lineId == id)
  {
    AsideBalances(Noted(s, slept), reason, waited, heldFor, "", id);
  }

  lemma AsideBalances(s: State, reason: Reason, waited: real, heldFor: seq<string>, newId: string, id: string)
    requires s.hand.InHand? && id != "" && (s.hand.item.lineId == id ==> ActiveIn(s.lines, id) && s.hand.item.historyId == "")
    ensures Balanced(s.lines, DoSetAside(s, reason, waited, heldFor, newId).lines, id, false,
                     s.hand.item.historyId == "" && s.hand.item.lineId == id)
  {
  }

  lemma RetryBalances(s: State, payload: Payload, queueId: string, id: string)
    requires s.hand.InHand? && id != "" && (s.hand.item.lineId == id ==> ActiveIn(s.lines, id))
    ensures Balanced(s.lines, DoRetry(s, payload, queueId).lines, id, false, false)
  {
  }

  lemma HandleBalances(s: State, a: Action, id: string)
    requires Inv(s) && Handles(a) && HandleCan(s, a) && id != ""
    ensures Balanced(s.lines, Handled(s, a).lines, id, false, IsDoneWithIt(s, a, id))
  {
    if s.hand.Carries() && s.hand.item.lineId == id { InHandIsActive(s, id); }
    HandlingTheLineBalances(s, a, id);
  }

  lemma HandlingTheLineBalances(s: State, a: Action, id: string)
    requires Handles(a) && HandleCan(s, a) && id != "" && MarkedInPass(s.lines, s.hand)
    requires s.hand.Carries() && s.hand.item.lineId == id ==> ActiveIn(s.lines, id) && s.hand.item.historyId == ""
    ensures Balanced(s.lines, Handled(s, a).lines, id, false, IsDoneWithIt(s, a, id))
  {
    if a.AsideAtShutdown? {
      AsideBalances(s, Restarted, 0.0, [], a.newId, id);
    } else if a.PlayEnds? {
      PlayEndBalances(s, id);
    } else if a.EndPass? {
      PassEndBalances(s, a.cause, id);
    } else if a.GetsRoom? && s.hand.phase.retry.Some? {
      RetryBalances(s, s.hand.phase.retry.value, s.hand.phase.queueId, id);
    }
  }

  lemma PlayEndBalances(s: State, id: string)
    requires s.hand.InHand? && id != "" && (s.hand.item.lineId == id ==> ActiveIn(s.lines, id))
    ensures Balanced(s.lines, DoPlayEnds(s).lines, id, false, s.hand.item.lineId == id)
  {
  }

  lemma PassEndBalances(s: State, cause: string, id: string)
    requires s.hand.InHand? && (s.hand.phase.Failed? || s.hand.phase.Resolved?) && id != "" && MarkedInPass(s.lines, s.hand)
    requires s.hand.Carries() && s.hand.item.lineId == id ==> ActiveIn(s.lines, id)
    ensures Balanced(s.lines, Settle(s.lines, s.hand.item.lineId, s.now, cause), id, false,
                     s.hand.phase.Failed? && s.hand.item.lineId == id)
  {
  }

  // ---------------------------------------------------------------- whole runs

  function Queuings(s: State, acts: seq<Action>, id: string): nat
    requires IsRun(s, acts)
    decreases acts
  {
    if acts == [] then 0 else Bit(QueuesLine(s, acts[0], id)) + Queuings(Step(s, acts[0]), acts[1..], id)
  }

  ghost function LetGos(s: State, acts: seq<Action>, id: string): nat
    requires IsRun(s, acts)
    decreases acts
  {
    if acts == [] then 0 else Bit(LetsItGo(s, acts[0], id)) + LetGos(Step(s, acts[0]), acts[1..], id)
  }

  /** In every run an id is queued as often as it is let go, and once more when
      the ledger ends with it queued or playing. */
  lemma {:induction false} QueuedAsOftenAsLetGo(s: State, acts: seq<Action>, id: string)
    requires Inv(s) && IsRun(s, acts) && id != ""
    ensures Bit(ActiveIn(s.lines, id)) + Queuings(s, acts, id) == LetGos(s, acts, id) + Bit(ActiveIn(After(s, acts).lines, id))
    decreases acts
  {
    if acts != [] {
      StepKeepsInv(s, acts[0]);
      StepBalances(s, acts[0], id);
      QueuedAsOftenAsLetGo(Step(s, acts[0]), acts[1..], id);
    }
  }

  /** Between two deliveries that queue one id the line is let go: once, and
      once more for each time it is queued besides. */
  lemma LetGoBetweenTwoQueuings(s: State, first: Action, between: seq<Action>, second: Action, id: string)
    requires Inv(s) && id != "" && Enabled(s, first) && IsRun(Step(s, first), between)
    requires Enabled(After(Step(s, first), between), second)
    requires QueuesLine(s, first, id) && QueuesLine(After(Step(s, first), between), second, id)
    ensures LetGos(Step(s, first), between, id) == 1 + Queuings(Step(s, first), between, id)
  {
    var queued := Step(s, first);
    StepKeepsInv(s, first);
    StepBalances(s, first, id);
    RunKeepsInv(queued, between);
    QueuedAsOftenAsLetGo(queued, between, id);
    StepBalances(After(queued, between), second, id);
  }
}
