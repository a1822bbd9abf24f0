/** What the worker can do next, and that a line can always get through. */
module ProtocolProgress {
  import opened Options
  import opened Ledger
  import opened Arbiter
  import opened MissedSpeech
  import opened SpeechProtocol
  import opened ProtocolInvariant
  import opened ProtocolSteps
  import opened ProtocolTheorems

  // --------------------------------------------------------- what a phase allows

  /** Where the worker first looks at what it has taken: a line that comes as the
      daemon shuts down is set aside, but a retry may go on or go back. */
  lemma BeforeTheWork(s: State, newId: string)
    requires s.hand.InHand? && FreshEntry(s, newId)
    ensures In(s, Popped) ==> Enabled(s, MarkInPass)
    ensures In(s, Popped) || In(s, InPass) ==> (Enabled(s, AsideAtShutdown(newId)) <==> s.stopping)
    ensures In(s, InPass) ==> (Enabled(s, Begin) <==> !s.stopping || s.hand.item.retries > 0)
  {
  }

  /** At its last look a line goes on unless the stop stands, and then it is set
      aside; so is a line that wants no other sound when a meeting is seen, and
      one older than a hold that has ended. */
  lemma AtTheLastLook(s: State, newId: string)
    requires In(s, Working) && FreshEntry(s, newId)
    ensures Enabled(s, PassesStopCheck) <==> !s.Stopped()
    ensures Enabled(s, AsideEarly(MissedSpeech.Stopped, newId, 0.0, [])) <==> s.Stopped()
    ensures Enabled(s, AsideEarly(Meeting, newId, 0.0, [])) <==> s.hand.item.hold
    ensures Enabled(s, AsideEarly(Stale, newId, 0.0, [])) <==>
              s.holdEnded.Some? && s.hand.item.enqueuedAt <= s.holdEnded.value && s.hand.item.enqueuedAt < s.now
    ensures Enabled(s, SynthTimesOut(newId, "q", true))
  {
  }

  /** Past it: with no other sound to mind it plays, else the gate decides. */
  lemma PastTheLastLook(s: State)
    requires In(s, Cleared)
    ensures Enabled(s, GateOpens) <==> s.hand.item.hold
    ensures Enabled(s, PlayStarts) <==> !s.hand.item.hold
  {
  }

  /** At the gate it plays, is held, or is set aside for a meeting. */
  lemma AtTheFirstLook(s: State, newId: string)
    requires IsLooking(s) && FreshEntry(s, newId)
    ensures Enabled(s, PlayStarts) && Enabled(s, HoldBegins(newId, []))
    ensures Enabled(s, AsideEarly(Meeting, newId, 0.0, [])) <==> s.hand.item.hold
  {
  }

  /** At the top of a round the abort is looked at, and nothing else. */
  lemma AtTheTopOfARound(s: State)
    requires s.hand.InHand? && s.hand.phase.Holding?
    ensures Enabled(s, HoldPolls) <==> !s.hand.phase.aborted
    ensures Enabled(s, HoldAborts(0.0, 0.0, [])) <==> s.hand.phase.aborted && !s.shutdownCut
  {
  }

  /** After its sleep it plays, holds on, or is set aside: for a meeting, or for
      having waited long enough. */
  lemma AfterASleep(s: State, why: MissedSpeech.Reason)
    requires IsPolling(s)
    ensures Enabled(s, PlayStarts) && Enabled(s, HoldStands)
    ensures Enabled(s, HoldExpires(why, 0.0, 0.0, [])) <==> why == Meeting || why == LongestWait
  {
  }

  /** The clip ends, stalls or is cut; a pass that is over ends. */
  lemma AtTheEnd(s: State, newId: string)
    requires s.hand.InHand? && FreshEntry(s, newId)
    ensures s.hand.phase.Sounding? ==>
              (Enabled(s, PlayEnds) <==> !s.shutdownCut) && (Enabled(s, PlayCutByShutdown(newId, 0.0)) <==> s.shutdownCut)
    ensures s.hand.phase.Sounding? && s.hand.item.retries >= s.maxRetries ==> Enabled(s, PlayStalls(newId, "q", "w", 0.0))
    ensures Enabled(s, EndPass("failed")) <==> s.hand.phase.Failed? || s.hand.phase.Resolved?
    ensures Enabled(s, PassFails) <==>
              s.hand.phase.Working? || s.hand.phase.Cleared? || s.hand.phase.Looking? || s.hand.phase.Polling? || s.hand.phase.Sounding?
  {
  }

  /** A hold is told to give up by a barge-in, a stop and the shutdown's cut, and
      by nothing else. */
  predicate IsToldToGiveUp(h: Hand) { h.InHand? && h.phase.AtTheGate() && h.phase.aborted }

  lemma OnlyARequestTellsItToGiveUp(s: State, a: Action)
    requires Enabled(s, a) && !IsToldToGiveUp(s.hand) && !a.Barge? && !a.Stop? && !a.CutAtShutdown?
    ensures !IsToldToGiveUp(Step(s, a).hand)
  {
    if Asks(a) {
      AskingTellsNothing(s, a);
    } else if Edits(a) {
      EditingTellsNothing(s, a);
    } else if OnlyMovesOn(a) {
      MovingOnTellsNothing(s, a);
    } else if LetsGo(a) {
      LettingGoTellsNothing(s, a);
    } else if Handles(a) {
      HandlingTellsNothing(s, a);
    }
  }

  lemma AskingTellsNothing(s: State, a: Action)
    requires Asks(a) && AskCan(s, a) && !IsToldToGiveUp(s.hand) && !a.Barge? && !a.Stop?
    ensures !IsToldToGiveUp(Asked(s, a).hand)
  {
    if a.Speak? { SpeakTellsNothing(s, Arriving(s, a.said), a.evicted); }
  }

  lemma SpeakTellsNothing(s: State, item: QueueItem, evicted: set<string>)
    ensures DoSpeak(s, item, evicted).hand == s.hand
  {
  }

  lemma EditingTellsNothing(s: State, a: Action)
    requires Edits(a) && EditCan(s, a) && !IsToldToGiveUp(s.hand) && !a.CutAtShutdown?
    ensures !IsToldToGiveUp(Edited(s, a).hand)
  {
  }

  lemma MovingOnTellsNothing(s: State, a: Action)
    requires OnlyMovesOn(a) && MoveOnCan(s, a) && !IsToldToGiveUp(s.hand)
    ensures !IsToldToGiveUp(MovedOn(s, a).hand)
  {
  }

  lemma LettingGoTellsNothing(s: State, a: Action)
    requires LetsGo(a) && LetGoCan(s, a)
    ensures !IsToldToGiveUp(LetGo(s, a).hand)
  {
  }

  lemma HandlingTellsNothing(s: State, a: Action)
    requires Handles(a) && HandleCan(s, a) && !IsToldToGiveUp(s.hand)
    ensures !IsToldToGiveUp(Handled(s, a).hand)
  {
  }

  // --------------------------------------------------------------- what can be sent

  /** A speak or a replay is taken whatever else it says: never as a line of the
      history or a retry, a replay only over other sound and explicitly, and a
      narration only once there is room. */
  lemma ARequestIsTakenExactlyWhen(s: State, q: QueueItem, evicted: set<string>)
    requires Evicts(s, evicted)
    ensures AskCan(s, Speak(q, evicted)) <==>
              && q == q.(historyId := "", retries := 0) && q.priority >= 2
              && (q.missedId != "" ==> q == q.(priority := 2, hold := false))
              && (Queues(s, q, evicted) && q.priority >= 4 && s.maxQueue > 0 ==> s.bands.Depth() < s.maxQueue)
  {
  }

  /** A heard line played again is an explicit line of the open run, over other
      sound and under no id; a narration is a new line of the last band under
      none; each comes now. */
  lemma WhatAReplayAndANarrationAre(s: State, q: QueueItem)
    ensures AskCan(s, ReplayHeard(q)) <==>
              q.historyId != ""
              && q == q.(priority := 2, hold := false, lineId := "", missedId := "", retries := 0,
                         enqueuedAt := s.now, controlRun := s.runOpen)
    ensures EditCan(s, Narrate(q)) <==>
              q == q.(priority := 4, lineId := "", missedId := "", historyId := "", retries := 0, enqueuedAt := s.now)
  {
  }

  // ---------------------------------------------------------- a line gets through

  /** The worker's hands are empty, and nothing stops it. */
  predicate Ready(s: State) { s.hand.Empty? && s.bands.Depth() > 0 && !s.Stopped() && !s.stopping && !s.shutdownCut }

  const TO_THE_END: seq<Action> := [PlayEnds] + ([EndPass("heard")] + [])
  const PLAYED: seq<Action> := [PlayStarts] + TO_THE_END
  const HELD_AND_PLAYED: seq<Action> := [HoldBegins("e", ["Music"])] + ([HoldPolls] + PLAYED)

  /** From the gate, if the line has to pass it. */
  function FromTheGate(hold: bool, waits: bool): seq<Action> {
    if hold then [GateOpens] + (if waits then HELD_AND_PLAYED else PLAYED) else PLAYED
  }

  function TheWholePass(hold: bool, waits: bool): seq<Action> {
    [Take] + ([MarkInPass] + ([Begin] + ([SynthStarts] + ([PassesStopCheck] + FromTheGate(hold, waits)))))
  }

  predicate OnItsWay(s: State, item: QueueItem, bands: Bands) {
    && s.hand.InHand? && s.hand.item == item && s.bands == bands && !s.Stopped() && !s.stopping && !s.shutdownCut
    && (item.lineId != "" ==> item.lineId in s.lines)
  }

  predicate At(s: State, phase: Phase, item: QueueItem, bands: Bands) { In(s, phase) && OnItsWay(s, item, bands) }

  /** It was heard: nothing is in hand, the queue is as it was behind it, and
      where it has a line id the ledger has it as done and no list has it. */
  predicate GotThrough(s: State, item: QueueItem, bands: Bands) {
    && s.hand.Empty? && s.bands == bands
    && (item.lineId != "" ==> DoneIn(s.lines, item.lineId) && !HasLine(s.missed, item.lineId))
  }

  predicate GetsThrough(s: State, acts: seq<Action>, item: QueueItem, bands: Bands) {
    IsRun(s, acts) && GotThrough(After(s, acts), item, bands)
  }

  lemma PlayEndTakesItOff(s: State)
    requires s.hand.InHand? && s.hand.item.lineId != ""
    ensures !HasLine(DoPlayEnds(s).missed, s.hand.item.lineId)
  {
    var missed := if s.hand.held.Some? then RemoveId(s.missed, s.hand.held.value.id, s.now)
                  else if s.hand.item.missedId != "" then RemoveId(s.missed, s.hand.item.missedId, s.now)
                  else s.missed;
    KeepElements(missed, NotLine(s.hand.item.lineId));
  }

  lemma EndsHeard(s: State, item: QueueItem, bands: Bands)
    requires OnItsWay(s, item, bands) && s.hand.phase.Sounding?
    ensures GetsThrough(s, TO_THE_END, item, bands)
  {
    if item.lineId != "" { PlayEndTakesItOff(s); }
    ThePassEnds(DoPlayEnds(s), item, bands);
    Then(s, PlayEnds, [EndPass("heard")] + []);
  }

  lemma ThePassEnds(s: State, item: QueueItem, bands: Bands)
    requires In(s, Resolved) && s.hand.item == item && s.bands == bands
    requires item.lineId != "" ==> DoneIn(s.lines, item.lineId) && !HasLine(s.missed, item.lineId)
    ensures GetsThrough(s, [EndPass("heard")] + [], item, bands)
  {
    Then(s, EndPass("heard"), []);
  }

  lemma Plays(s: State, item: QueueItem, bands: Bands)
    requires OnItsWay(s, item, bands) && MarkCan(s, PlayStarts)
    ensures GetsThrough(s, PLAYED, item, bands)
  {
    EndsHeard(Marked(s, PlayStarts), item, bands);
    Then(s, PlayStarts, TO_THE_END);
  }

  lemma PollsAndPlays(s: State, item: QueueItem, bands: Bands)
    requires At(s, Holding(false), item, bands)
    ensures GetsThrough(s, [HoldPolls] + PLAYED, item, bands)
  {
    Plays(MovedOn(s, HoldPolls), item, bands);
    Then(s, HoldPolls, PLAYED);
  }

  lemma WaitsAndPlays(s: State, item: QueueItem, bands: Bands)
    requires At(s, Looking(false), item, bands) && !HasId(s.missed, "e")
    ensures GetsThrough(s, HELD_AND_PLAYED, item, bands)
  {
    PollsAndPlays(Handled(s, HoldBegins("e", ["Music"])), item, bands);
    Then(s, HoldBegins("e", ["Music"]), [HoldPolls] + PLAYED);
  }

  lemma GoesFromTheGate(s: State, item: QueueItem, bands: Bands, waits: bool)
    requires At(s, Cleared, item, bands) && !HasId(s.missed, "e")
    ensures GetsThrough(s, FromTheGate(item.hold, waits), item, bands)
  {
    if !item.hold {
      Plays(s, item, bands);
    } else {
      var open := MovedOn(s, GateOpens);
      if waits { WaitsAndPlays(open, item, bands); } else { Plays(open, item, bands); }
      Then(s, GateOpens, if waits then HELD_AND_PLAYED else PLAYED);
    }
  }

  lemma GoesThroughTheWork(s: State, item: QueueItem, bands: Bands, rest: seq<Action>)
    requires At(s, Working, item, bands)
    requires var cleared := MovedOn(Marked(s, SynthStarts), PassesStopCheck); GetsThrough(cleared, rest, item, bands)
    ensures GetsThrough(s, [SynthStarts] + ([PassesStopCheck] + rest), item, bands)
  {
    Then(Marked(s, SynthStarts), PassesStopCheck, rest);
    Then(s, SynthStarts, [PassesStopCheck] + rest);
  }

  lemma FromTheStartOfTheWork(s: State, item: QueueItem, bands: Bands, waits: bool)
    requires At(s, Working, item, bands) && !HasId(s.missed, "e")
    ensures GetsThrough(s, [SynthStarts] + ([PassesStopCheck] + FromTheGate(item.hold, waits)), item, bands)
  {
    GoesFromTheGate(MovedOn(Marked(s, SynthStarts), PassesStopCheck), item, bands, waits);
    GoesThroughTheWork(s, item, bands, FromTheGate(item.hold, waits));
  }

  lemma FromTheMark(s: State, item: QueueItem, bands: Bands, waits: bool)
    requires At(s, InPass, item, bands) && !HasId(s.missed, "e")
    ensures GetsThrough(s, [Begin] + ([SynthStarts] + ([PassesStopCheck] + FromTheGate(item.hold, waits))), item, bands)
  {
    FromTheStartOfTheWork(MovedOn(s, Begin), item, bands, waits);
    Then(s, Begin, [SynthStarts] + ([PassesStopCheck] + FromTheGate(item.hold, waits)));
  }

  lemma FromTheTake(s: State, item: QueueItem, bands: Bands, waits: bool)
    requires At(s, Popped, item, bands) && !HasId(s.missed, "e")
    ensures GetsThrough(s, [MarkInPass] + ([Begin] + ([SynthStarts] + ([PassesStopCheck] + FromTheGate(item.hold, waits)))), item, bands)
  {
    FromTheMark(Marked(s, MarkInPass), item, bands, waits);
    Then(s, MarkInPass, [Begin] + ([SynthStarts] + ([PassesStopCheck] + FromTheGate(item.hold, waits))));
  }

  /** Whatever state the daemon got to, the next line in the queue can be heard
      to its end, with a hold on the way or without: unless the stop stands or
      the daemon shuts down, nothing is ever in the worker's way. */
  lemma TheNextLineCanBeHeard(s: State, waits: bool)
    requires Inv(s) && Ready(s) && !HasId(s.missed, "e")
    ensures GetsThrough(s, TheWholePass(Next(s.bands).hold, waits), Next(s.bands), AfterNext(s.bands))
  {
    var item := Next(s.bands);
    NextHas(s.bands);
    assert CarriedBy(s.bands, s.hand, item);
    if item.lineId != "" { CarriedIsActive(s, item); }
    FromTheTake(Handled(s, Take), item, AfterNext(s.bands), waits);
    Then(s, Take, [MarkInPass] + ([Begin] + ([SynthStarts] + ([PassesStopCheck] + FromTheGate(item.hold, waits)))));
  }
}
