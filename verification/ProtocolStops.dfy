/** What the listener's stop keeps: which lines wait for a replay, and which
    play can still start. */
module ProtocolStops {
  import opened Options
  import opened Seqs
  import opened Ledger
  import opened Arbiter
  import opened MissedSpeech
  import opened SpeechProtocol
  import opened ProtocolInvariant
  import opened ProtocolTheorems
  import opened ProtocolEntries

  // -------------------------------------------------- a line set aside by a stop

  /** In every run, while the stop's entry for a line stands, whatever carries
      that line is a replay (or its retry): it names an entry and it does not
      hold, where a first send names none and a held line's retry holds. */
  lemma ASetAsideLineWaitsForAReplay(now: real, maxQueue: int, maxRetries: nat, acts: seq<Action>, m: MissedLine, q: QueueItem)
    requires IsRun(Initial(now, maxQueue, maxRetries), acts)
    ensures var s := After(Initial(now, maxQueue, maxRetries), acts);
            m in s.missed && SetAsideByStop(m, s.now) && CarriedBy(s.bands, s.hand, q) && q.lineId == m.lineId ==>
              q.missedId != "" && !q.hold
  {
    InitialInv(now, maxQueue, maxRetries);
    RunKeepsInv(Initial(now, maxQueue, maxRetries), acts);
  }

  /** In runs of polite requests it is the replay of that very entry. */
  lemma ASetAsideLineWaitsForItsOwnReplay(s: State, acts: seq<Action>, m: MissedLine, q: QueueItem)
    requires Inv(s) && NoCrossing(s.missed, s.bands, s.hand) && IsRun(s, acts)
    requires forall k :: 0 <= k < |acts| ==> Polite(Before(s, acts, k), acts[k])
    ensures var after := After(s, acts);
            m in after.missed && SetAsideByStop(m, after.now) && CarriedBy(after.bands, after.hand, q) && q.lineId == m.lineId ==>
              q.missedId == m.id && !q.hold
  {
    RunKeepsInv(s, acts);
    PoliteRunsKeepOneEntry(s, acts);
    NamesTheEntry(After(s, acts), m, q);
  }

  lemma NamesTheEntry(s: State, m: MissedLine, q: QueueItem)
    requires Inv(s) && NoCrossing(s.missed, s.bands, s.hand)
    ensures m in s.missed && SetAsideByStop(m, s.now) && CarriedBy(s.bands, s.hand, q) && q.lineId == m.lineId ==>
              q.missedId == m.id && !q.hold
  {
    if m in s.missed && SetAsideByStop(m, s.now) && CarriedBy(s.bands, s.hand, q) && q.lineId == m.lineId && !s.bands.Has(q) {
      assert s.hand.Carries() && s.hand.item == q && s.hand.held.None?;
    }
  }

  /** A resend of such a line is kept out whatever the ledger says. */
  lemma AResendOfASetAsideLineIsNotQueued(s: State, item: QueueItem, evicted: set<string>)
    requires item.lineId != "" && item.missedId == "" && KeptByStop(s, item.lineId)
    ensures DoSpeak(s, item, evicted) == s && !Queues(s, item, evicted)
  {
  }

  /** A replay of the line is delivered: the first time, or again. */
  predicate ReplaysLine(a: Action, id: string) { a.Speak? && IsReplay(a.said) && a.said.lineId == id }

  /** The ledger makes an id active only for a speak or a replay of it; what the
      worker does to the line in hand is no other line's. */
  lemma AskingWakesNoOther(s: State, a: Action, id: string)
    requires Asks(a) && AskCan(s, a) && id != "" && KeptByStop(s, id) && !ReplaysLine(a, id)
    ensures ActiveIn(Asked(s, a).lines, id) ==> ActiveIn(s.lines, id)
  {
    if a.Speak? { SpeakWakesNoOther(s, Arriving(s, a.said), a.evicted, id); }
  }

  lemma SpeakWakesNoOther(s: State, item: QueueItem, evicted: set<string>, id: string)
    requires id != "" && (item.lineId == id ==> item.missedId == "" && KeptByStop(s, id))
    ensures ActiveIn(DoSpeak(s, item, evicted).lines, id) ==> ActiveIn(s.lines, id)
  {
    if item.lineId != "" && item.lineId != id {
      AdmitTouchesOneLine(s.lines, item.lineId, LineText(item), s.now, evicted);
    }
  }

  lemma EditingWakesNoOther(s: State, a: Action, id: string)
    requires Edits(a) && EditCan(s, a) && id != "" && KeptByStop(s, id)
    ensures ActiveIn(Edited(s, a).lines, id) ==> ActiveIn(s.lines, id) && !a.Restart?
  {
    if a.SeeEvent? {
      EventWakesNoOther(s, a.eventId, a.evicted, id);
    } else if a.QueueClear? {
      TakingOutWakesNone(s, IsLine(), "cleared", id);
    } else if a.QueueRemove? {
      TakingOutWakesNone(s, IsNamed(a.queueIds), "removed", id);
    } else if a.Restart? {
      RestartWakesNone(s, a.evicted, id);
    }
  }

  lemma RestartWakesNone(s: State, evicted: set<string>, id: string)
    ensures !ActiveIn(DoRestart(s, evicted).lines, id)
  {
  }

  lemma EventWakesNoOther(s: State, eventId: string, evicted: set<string>, id: string)
    requires eventId != "" && KeptByStop(s, id) && !HasLine(s.missed, eventId)
    ensures ActiveIn(DoSeeEvent(s, eventId, evicted).lines, id) ==> ActiveIn(s.lines, id)
  {
    assert HasLine(s.missed, id);
    AdmitTouchesOneLine(s.lines, eventId, "", s.now, evicted);
  }

  lemma TakingOutWakesNone(s: State, match_: QueueItem -> bool, reason: string, id: string)
    ensures ActiveIn(DoTakeOut(s, match_, reason).lines, id) ==> ActiveIn(s.lines, id)
  {
  }

  lemma LettingGoWakesNoOther(s: State, a: Action, id: string)
    requires LetsGo(a) && LetGoCan(s, a) && id != "" && HandCount(s.hand, id) == 0
    ensures ActiveIn(LetGo(s, a).lines, id) ==> ActiveIn(s.lines, id)
  {
    match a
    case AsideEarly(why, newId, waited, heldFor) => AsideWakesNone(s, why, waited, heldFor, newId, id);
    case SynthTimesOut(newId, queueId, _) =>
      AsideWakesNone(s, TimedOut, 0.0, [], newId, id);
      RetryWakesNoOther(s, Words(LineText(s.hand.item)), queueId, id);
    case HoldExpires(why, slept, waited, heldFor) => AsideWakesNone(Noted(s, slept), why, waited, heldFor, "", id);
    case HoldAborts(slept, waited, heldFor) => AsideWakesNone(Noted(s, slept), Interrupted, waited, heldFor, "", id);
    case PlayStalls(newId, queueId, kept, waited) =>
      AsideWakesNone(s, TimedOut, waited, [], newId, id);
      RetryWakesNoOther(s, Wav(kept), queueId, id);
    case PlayCutByShutdown(newId, waited) => AsideWakesNone(s, Restarted, waited, [], newId, id);
  }

  lemma AsideWakesNone(s: State, reason: Reason, waited: real, heldFor: seq<string>, newId: string, id: string)
    requires s.hand.InHand?
    ensures ActiveIn(DoSetAside(s, reason, waited, heldFor, newId).lines, id) ==> ActiveIn(s.lines, id)
  {
  }

  lemma RetryWakesNoOther(s: State, payload: Payload, queueId: string, id: string)
    requires s.hand.Carries() && id != "" && HandCount(s.hand, id) == 0
    ensures ActiveIn(DoRetry(s, payload, queueId).lines, id) ==> ActiveIn(s.lines, id)
  {
  }

  lemma HandlingWakesNoOther(s: State, a: Action, id: string)
    requires Handles(a) && HandleCan(s, a) && id != "" && HandCount(s.hand, id) == 0
    ensures ActiveIn(Handled(s, a).lines, id) ==> ActiveIn(s.lines, id)
  {
    if a.AsideAtShutdown? {
      AsideWakesNone(s, Restarted, 0.0, [], a.newId, id);
    } else if a.GetsRoom? && s.hand.phase.retry.Some? {
      RetryWakesNoOther(s, s.hand.phase.retry.value, s.hand.phase.queueId, id);
    }
  }

  lemma MarkingWakesNoOther(s: State, a: Action, id: string)
    requires Marks(a) && MarkCan(s, a)
    ensures ActiveIn(Marked(s, a).lines, id) ==> ActiveIn(s.lines, id)
  {
  }

  lemma NoStepWakesIt(s: State, a: Action, id: string)
    requires Enabled(s, a) && id != "" && KeptByStop(s, id) && HandCount(s.hand, id) == 0 && !ReplaysLine(a, id)
    ensures ActiveIn(Step(s, a).lines, id) ==> ActiveIn(s.lines, id) && !a.Restart?
  {
    if Asks(a) {
      AskingWakesNoOther(s, a, id);
    } else if Edits(a) {
      EditingWakesNoOther(s, a, id);
    } else if Marks(a) {
      MarkingWakesNoOther(s, a, id);
    } else if LetsGo(a) {
      LettingGoWakesNoOther(s, a, id);
    } else if Handles(a) {
      HandlingWakesNoOther(s, a, id);
    }
  }

  /** With nothing carrying it, no step but a replay gets the line a carrier
      while the stop's entry for it stands. */
  lemma NothingElsePicksItUp(s: State, a: Action, id: string)
    requires Inv(s) && Enabled(s, a) && id != "" && KeptByStop(s, id) && Carriers(s.bands, s.hand, id) == 0
    requires !ReplaysLine(a, id)
    ensures Carriers(Step(s, a).bands, Step(s, a).hand, id) == 0
  {
    StepKeepsInv(s, a);
    OrphansComeFromShedsAndLastToTheRestart(s, a);
    NoStepWakesIt(s, a, id);
    NoCarrierMeansAsleepOrLost(s, id);
    NoCarrierMeansAsleepOrLost(Step(s, a), id);
  }

  lemma NoCarrierMeansAsleepOrLost(s: State, id: string)
    requires Inv(s) && id != ""
    ensures Carriers(s.bands, s.hand, id) == 0 <==> (ActiveIn(s.lines, id) ==> id in s.orphans)
  {
    assert Carriers(s.bands, s.hand, id) == Owed(s.lines, s.orphans, id);
  }

  /** A delivered replay does, the first time or again, unless a full queue
      shed the line and the ledger still waits for it. */
  lemma AReplayPicksItUp(s: State, a: Action, id: string)
    requires Inv(s) && Asks(a) && AskCan(s, a) && id != "" && KeptByStop(s, id) && Carriers(s.bands, s.hand, id) == 0
    requires ReplaysLine(a, id)
    ensures Asked(s, a).hand == s.hand
    ensures BandsCount(Asked(s, a).bands, id) == if id in s.orphans then 0 else 1
  {
    NoCarrierMeansAsleepOrLost(s, id);
    TailCount(s.bands, Arriving(s, a.said), id);
    if id in s.orphans { AnOrphanIsRefusedWithNothingToPlayIt(s, id, s.now, a.evicted); }
  }

  /** While the stop's entry for a line stands and nothing carries the line, a
      step gives it a carrier exactly when it delivers a replay of it and the
      line was not shed: whether the listener asked again or the same request
      came again. */
  lemma PickedUpExactlyWhen(s: State, a: Action, id: string)
    requires Inv(s) && Enabled(s, a) && id != "" && KeptByStop(s, id) && Carriers(s.bands, s.hand, id) == 0
    ensures Carriers(Step(s, a).bands, Step(s, a).hand, id) == if ReplaysLine(a, id) && id !in s.orphans then 1 else 0
  {
    if ReplaysLine(a, id) {
      AReplayPicksItUp(s, a, id);
    } else {
      NothingElsePicksItUp(s, a, id);
    }
  }

  /** Once the stop has set a line aside and nothing carries it, then for as
      long as the entry stands and no replay of it is delivered, nothing is ever
      there to play it: no resend, resume, retry, run of the control or restart. */
  lemma ALineSetAsideDoesNotPlayByItself(s: State, acts: seq<Action>, id: string)
    requires Inv(s) && IsRun(s, acts) && id != "" && Carriers(s.bands, s.hand, id) == 0
    requires AllOfKind(LeavesItAside(id), s, acts)
    ensures AllAlong(Asleep(id), s, acts)
    ensures Carriers(After(s, acts).bands, After(s, acts).hand, id) == 0
  {
    forall t: State, a: Action | Asleep(id)(t) && Enabled(t, a) && LeavesItAside(id)(t, a) ensures Asleep(id)(Step(t, a)) {
      StepKeepsInv(t, a);
      PickedUpExactlyWhen(t, a, id);
    }
    HoldsAllAlong(Asleep(id), LeavesItAside(id), s, acts);
  }

  /** The entry stands, and no replay of the line is delivered that picks it up. */
  ghost function LeavesItAside(id: string): (State, Action) -> bool {
    (t: State, a: Action) => KeptByStop(t, id) && !(ReplaysLine(a, id) && id !in t.orphans)
  }

  /** Nothing carries the line. */
  ghost function Asleep(id: string): State -> bool {
    (t: State) => Inv(t) && Carriers(t.bands, t.hand, id) == 0
  }

  // ------------------------------------------------------- plays after the stop

  predicate LiftsTheStop(a: Action) { a.Resume? || a.ReplayHeard? }

  function Starts(acts: seq<Action>): nat {
    if acts == [] then 0 else (if acts[0].PlayStarts? then 1 else 0) + Starts(acts[1..])
  }

  predicate MayStillStart(h: Hand) { h.InHand? && h.phase.MayStillStart() }

  /** A run in which the stop is not lifted, with a play started in it. */
  predicate StartsWhileStopped(s: State, acts: seq<Action>) {
    IsRun(s, acts) && (forall k :: 0 <= k < |acts| ==> !LiftsTheStop(acts[k])) && Starts(acts) > 0
  }

  /** Nothing gets past the stop check any more, and a start uses up the only
      line that was. */
  predicate UsesTheStart(s: State, a: Action, after: State) {
    && (!LiftsTheStop(a) ==> after.Stopped())
    && (MayStillStart(after.hand) ==> MayStillStart(s.hand) && !a.PlayStarts?)
    && (a.PlayStarts? ==> MayStillStart(s.hand))
  }

  lemma AStepUsesTheStart(s: State, a: Action)
    requires s.Stopped() && Enabled(s, a)
    ensures UsesTheStart(s, a, Step(s, a))
  {
    if Asks(a) {
      AskingUsesTheStart(s, a);
    } else if Edits(a) {
      EditingUsesTheStart(s, a);
    } else if OnlyMovesOn(a) {
      MovesOn(s, a);
    } else if Marks(a) {
      MarkingUsesTheStart(s, a);
    } else if LetsGo(a) {
      LettingGoUsesTheStart(s, a);
    } else {
      HandlingUsesTheStart(s, a);
    }
  }

  lemma AskingUsesTheStart(s: State, a: Action)
    requires s.Stopped() && Asks(a) && AskCan(s, a)
    ensures UsesTheStart(s, a, Asked(s, a))
  {
  }

  lemma EditingUsesTheStart(s: State, a: Action)
    requires s.Stopped() && Edits(a) && EditCan(s, a)
    ensures UsesTheStart(s, a, Edited(s, a))
  {
  }

  lemma MarkingUsesTheStart(s: State, a: Action)
    requires s.Stopped() && Marks(a) && MarkCan(s, a)
    ensures UsesTheStart(s, a, Marked(s, a))
  {
  }

  lemma LettingGoUsesTheStart(s: State, a: Action)
    requires s.Stopped() && LetsGo(a) && LetGoCan(s, a)
    ensures UsesTheStart(s, a, LetGo(s, a))
  {
  }

  lemma HandlingUsesTheStart(s: State, a: Action)
    requires s.Stopped() && Handles(a) && HandleCan(s, a)
    ensures UsesTheStart(s, a, Handled(s, a))
  {
  }

  lemma {:induction false} OnePlayAtMostAfterTheStop(s: State, acts: seq<Action>)
    requires s.Stopped() && IsRun(s, acts) && forall k :: 0 <= k < |acts| ==> !LiftsTheStop(acts[k])
    ensures Starts(acts) <= if MayStillStart(s.hand) then 1 else 0
    decreases acts
  {
    if acts != [] {
      AStepUsesTheStart(s, acts[0]);
      OnePlayAtMostAfterTheStop(Step(s, acts[0]), acts[1..]);
    }
  }

  lemma OneStepRun(s: State, a: Action)
    requires Enabled(s, a)
    ensures IsRun(s, [a]) && After(s, [a]) == Step(s, a)
  {
    assert [a][1..] == [];
  }

  lemma TwoStepRun(s: State, a: Action, b: Action)
    requires Enabled(s, a) && Enabled(Step(s, a), b)
    ensures IsRun(s, [a, b]) && After(s, [a, b]) == Step(Step(s, a), b)
  {
    assert [a, b][1..] == [b];
    OneStepRun(Step(s, a), b);
  }

  lemma ThenItStarts(s: State, first: Action)
    requires Enabled(s, first) && !LiftsTheStop(first) && Enabled(Step(s, first), PlayStarts)
    ensures StartsWhileStopped(s, [first, PlayStarts])
  {
    TwoStepRun(s, first, PlayStarts);
    assert [first, PlayStarts][1..] == [PlayStarts] && [PlayStarts][1..] == [];
  }

  /** While speech is kept stopped one play can still start, and only one: exactly
      when the line in hand is past its last look at the stop, and no hold of
      it has been told to give up and not yet looked. */
  lemma PlayStartsWhileStoppedExactlyWhen(s: State)
    requires s.Stopped()
    ensures (exists acts :: StartsWhileStopped(s, acts)) <==> MayStillStart(s.hand)
    ensures forall acts :: StartsWhileStopped(s, acts) ==> Starts(acts) == 1
  {
    forall acts | StartsWhileStopped(s, acts) ensures Starts(acts) == 1 && MayStillStart(s.hand) {
      OnePlayAtMostAfterTheStop(s, acts);
    }
    if MayStillStart(s.hand) { AStartIsPossible(s); }
  }

  lemma AStartIsPossible(s: State)
    requires MayStillStart(s.hand)
    ensures exists acts :: StartsWhileStopped(s, acts)
  {
    if s.hand.phase.Holding? {
      ItPollsAndStarts(s);
    } else if s.hand.phase.Cleared? && s.hand.item.hold {
      TheGateOpensAndItStarts(s);
    } else {
      ItStartsNow(s);
    }
  }

  lemma TheGateOpensAndItStarts(s: State)
    requires In(s, Cleared) && s.hand.item.hold
    ensures StartsWhileStopped(s, [GateOpens, PlayStarts])
  {
    ThenItStarts(s, GateOpens);
  }

  lemma ItPollsAndStarts(s: State)
    requires In(s, Holding(false))
    ensures StartsWhileStopped(s, [HoldPolls, PlayStarts])
  {
    ThenItStarts(s, HoldPolls);
  }

  lemma ItStartsNow(s: State)
    requires MarkCan(s, PlayStarts)
    ensures StartsWhileStopped(s, [PlayStarts])
  {
    OneStepRun(s, PlayStarts);
    assert [PlayStarts][1..] == [];
  }

  // ------------------------------------------------------- it happens: two runs

  const FROM_THE_TAKE: seq<Action> := [MarkInPass] + ([Begin] + ([PassesStopCheck] + []))
  const TO_THE_CHECK: seq<Action> := [Take] + FROM_THE_TAKE
  const STOP_BEFORE_THE_GATE: seq<Action> := [Stop] + ([GateOpens] + ([PlayStarts] + []))
  const STOP_DURING_THE_HOLD: seq<Action> :=
    [GateOpens] + ([HoldBegins("e", ["Music"])] + ([HoldPolls] + ([Stop] + ([PlayStarts] + []))))

  const A_LINE := Line(EXPLICIT_MCP, "a", true)

  /** One line was said, and nothing else has happened. */
  predicate OnlySaid(s: State) { s.missed == [] && !s.Stopped() && !s.stopping && !s.shutdownCut }

  predicate OnlySaidAt(s: State, phase: Phase) { In(s, phase) && s.hand.item == A_LINE && OnlySaid(s) }

  /** The state once a line is said, taken and past its look at the stop. */
  lemma SaidAndCleared() returns (acts: seq<Action>)
    ensures IsRun(Initial(1.0, 32, 3), acts) && OnlySaidAt(After(Initial(1.0, 32, 3), acts), Cleared)
  {
    var s0, a := Initial(1.0, 32, 3), Speak(A_LINE, {});
    NoEviction(s0.lines, 1.0);
    assert Arriving(s0, A_LINE) == A_LINE;
    TakenAndCleared(Step(s0, a));
    Then(s0, a, TO_THE_CHECK);
    acts := [a] + TO_THE_CHECK;
  }

  lemma TakenAndCleared(s: State)
    requires s.hand.Empty? && s.bands == Bands([], [A_LINE], [], []) && OnlySaid(s)
    ensures IsRun(s, TO_THE_CHECK) && OnlySaidAt(After(s, TO_THE_CHECK), Cleared)
  {
    MarkedAndCleared(Step(s, Take));
    Then(s, Take, FROM_THE_TAKE);
  }

  lemma MarkedAndCleared(s: State)
    requires OnlySaidAt(s, Popped)
    ensures IsRun(s, FROM_THE_TAKE) && OnlySaidAt(After(s, FROM_THE_TAKE), Cleared)
  {
    BegunAndCleared(Step(s, MarkInPass));
    Then(s, MarkInPass, [Begin] + ([PassesStopCheck] + []));
  }

  lemma BegunAndCleared(s: State)
    requires OnlySaidAt(s, InPass)
    ensures var acts := [Begin] + ([PassesStopCheck] + []); IsRun(s, acts) && OnlySaidAt(After(s, acts), Cleared)
  {
    PassedAndCleared(Step(s, Begin));
    Then(s, Begin, [PassesStopCheck] + []);
  }

  lemma PassedAndCleared(s: State)
    requires OnlySaidAt(s, Working)
    ensures IsRun(s, [PassesStopCheck] + []) && OnlySaidAt(After(s, [PassesStopCheck] + []), Cleared)
  {
    Then(s, PassesStopCheck, []);
  }

  /** Stopped between its look and the gate, with no hold at all: it plays. */
  lemma StoppedBeforeTheGate(s: State)
    requires In(s, Cleared) && s.hand.item.hold
    ensures IsRun(s, STOP_BEFORE_THE_GATE)
    ensures var after := After(s, STOP_BEFORE_THE_GATE); after.Stopped() && IsSounding(after) && after.missed == s.missed
  {
    StopInHand(s);
    TheGateOpensClear(Step(s, Stop));
    Then(s, Stop, [GateOpens] + ([PlayStarts] + []));
  }

  lemma StopInHand(s: State)
    ensures Enabled(s, Stop) && Step(s, Stop).hand == SinkInterrupted(s.hand)
    ensures Step(s, Stop).Stopped() && Step(s, Stop).missed == s.missed && Step(s, Stop).now == s.now
  {
  }

  lemma TheGateOpensClear(s: State)
    requires In(s, Cleared) && s.hand.item.hold
    ensures var acts := [GateOpens] + ([PlayStarts] + []);
            && IsRun(s, acts) && IsSounding(After(s, acts))
            && After(s, acts).stoppedSince == s.stoppedSince && After(s, acts).missed == s.missed
  {
    ItStarts(Step(s, GateOpens));
    Then(s, GateOpens, [PlayStarts] + []);
  }

  lemma ItStarts(s: State)
    requires IsLooking(s) || IsPolling(s)
    ensures var acts := [PlayStarts] + [];
            && IsRun(s, acts) && IsSounding(After(s, acts))
            && After(s, acts).stoppedSince == s.stoppedSince && After(s, acts).missed == s.missed
  {
    Then(s, PlayStarts, []);
  }

  /** Stopped in a hold's sleep, the other sound over at the look after it. */
  lemma StoppedDuringTheHold(s: State)
    requires In(s, Cleared) && s.hand.item.hold && s.missed == []
    ensures IsRun(s, STOP_DURING_THE_HOLD)
    ensures var after := After(s, STOP_DURING_THE_HOLD); after.Stopped() && IsSounding(after)
  {
    HeldAndStopped(Step(s, GateOpens));
    Then(s, GateOpens, [HoldBegins("e", ["Music"])] + ([HoldPolls] + ([Stop] + ([PlayStarts] + []))));
  }

  lemma HeldAndStopped(s: State)
    requires In(s, Looking(false)) && s.missed == []
    ensures var acts := [HoldBegins("e", ["Music"])] + ([HoldPolls] + ([Stop] + ([PlayStarts] + [])));
            IsRun(s, acts) && After(s, acts).Stopped() && IsSounding(After(s, acts))
  {
    var a := HoldBegins("e", ["Music"]);
    StoppedInTheSleep(Step(s, a));
    Then(s, a, [HoldPolls] + ([Stop] + ([PlayStarts] + [])));
  }

  lemma StoppedInTheSleep(s: State)
    requires In(s, Holding(false))
    ensures var acts := [HoldPolls] + ([Stop] + ([PlayStarts] + []));
            IsRun(s, acts) && After(s, acts).Stopped() && IsSounding(After(s, acts))
  {
    StoppedWhilePolling(Step(s, HoldPolls));
    Then(s, HoldPolls, [Stop] + ([PlayStarts] + []));
  }

  lemma StoppedWhilePolling(s: State)
    requires IsPolling(s)
    ensures var acts := [Stop] + ([PlayStarts] + []);
            IsRun(s, acts) && After(s, acts).Stopped() && IsSounding(After(s, acts))
  {
    StopInHand(s);
    ItStarts(Step(s, Stop));
    Then(s, Stop, [PlayStarts] + []);
  }

  lemma {:induction false} RunsJoin(s: State, a: seq<Action>, b: seq<Action>)
    requires IsRun(s, a) && IsRun(After(s, a), b)
    ensures IsRun(s, a + b) && After(s, a + b) == After(After(s, a), b)
    decreases a
  {
    if a == [] {
      assert a + b == b;
    } else {
      FirstOfSum(a, b);
      RunsJoin(Step(s, a[0]), a[1..], b);
      Then(s, a[0], a[1..] + b);
    }
  }

  lemma {:induction false} RunsPart(s: State, a: seq<Action>, b: seq<Action>)
    requires IsRun(s, a + b)
    ensures IsRun(s, a) && IsRun(After(s, a), b) && After(s, a + b) == After(After(s, a), b)
    decreases a
  {
    if a == [] {
      assert a + b == b;
    } else {
      FirstOfSum(a, b);
      RunsPart(Step(s, a[0]), a[1..], b);
    }
  }

  /** The run ends stopped, with a clip sounding. */
  predicate SoundsStopped(s: State, acts: seq<Action>) {
    IsRun(s, acts) && After(s, acts).Stopped() && IsSounding(After(s, acts))
  }

  predicate NothingMissed(s: State, acts: seq<Action>) { IsRun(s, acts) && After(s, acts).missed == [] }

  /** From a fresh start, both ways: a line is said, the stop comes, and it plays. */
  lemma APlayMayStartWhileStopped() returns (beforeTheGate: seq<Action>, duringTheHold: seq<Action>)
    ensures SoundsStopped(Initial(1.0, 32, 3), beforeTheGate) && NothingMissed(Initial(1.0, 32, 3), beforeTheGate)
    ensures SoundsStopped(Initial(1.0, 32, 3), duringTheHold)
  {
    var s0 := Initial(1.0, 32, 3);
    var acts := SaidAndCleared();
    StoppedBeforeTheGate(After(s0, acts));
    StoppedDuringTheHold(After(s0, acts));
    RunsJoin(s0, acts, STOP_BEFORE_THE_GATE);
    RunsJoin(s0, acts, STOP_DURING_THE_HOLD);
    beforeTheGate, duringTheHold := acts + STOP_BEFORE_THE_GATE, acts + STOP_DURING_THE_HOLD;
  }
}
