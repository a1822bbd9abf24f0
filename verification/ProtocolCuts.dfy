/** What a clip that is cut while it sounds ends as. */
module ProtocolCuts {
  import opened Ledger
  import opened MissedSpeech
  import opened SpeechProtocol
  import opened ProtocolInvariant
  import opened ProtocolSteps
  import opened ProtocolTheorems
  import opened ProtocolStops

  predicate CutBy(s: State, a: Action, after: State) {
    && (In(s, Sounding(false)) ==> (In(after, Sounding(true)) <==> a.Barge? || a.Stop? || a.CutAtShutdown?))
    && (after.shutdownCut <==> a.CutAtShutdown? || (s.shutdownCut && !a.Restart?))
  }

  /** A sounding clip is cut by a barge-in, the stop or the shutdown, and by
      nothing else; and once the shutdown has cut in, only a restart ends that. */
  lemma CutsExactly(s: State, a: Action)
    requires Enabled(s, a)
    ensures CutBy(s, a, Step(s, a))
  {
    if Asks(a) {
      AskingCutsExactly(s, a);
    } else if Edits(a) {
      EditingCutsExactly(s, a);
    } else if LetsGo(a) {
      LettingGoCutsNone(s, a);
    } else if Handles(a) {
      HandlingCutsNone(s, a);
    }
  }

  lemma AskingCutsExactly(s: State, a: Action)
    requires Asks(a) && AskCan(s, a)
    ensures CutBy(s, a, Asked(s, a))
  {
  }

  lemma EditingCutsExactly(s: State, a: Action)
    requires Edits(a) && EditCan(s, a)
    ensures CutBy(s, a, Edited(s, a))
  {
  }

  lemma LettingGoCutsNone(s: State, a: Action)
    requires LetsGo(a) && LetGoCan(s, a)
    ensures CutBy(s, a, LetGo(s, a))
  {
  }

  lemma HandlingCutsNone(s: State, a: Action)
    requires Handles(a) && HandleCan(s, a)
    ensures CutBy(s, a, Handled(s, a))
  {
  }

  /** The line waits on the missed list, set aside for this reason. */
  predicate SetAsideFor(missed: Entries, lineId: string, reason: Reason) {
    exists m :: m in missed && m.lineId == lineId && m.status.Missed? && m.reason == reason
  }

  /** Heard, or set aside as the shutdown's. */
  ghost predicate EndsAs(s: State, after: State, id: string) {
    && (DoneIn(after.lines, id) <==> !s.shutdownCut)
    && (HasLine(after.missed, id) <==> s.shutdownCut)
    && (s.shutdownCut ==> SetAsideFor(after.missed, id, Restarted))
    && (forall later: real, evicted: set<string> :: s.now <= later < s.now + KEEP_S && id !in evicted ==>
          (Refused(after.lines, id, later, evicted) <==> !s.shutdownCut))
  }

  /** The player comes back: at the clip's end, or cut short. */
  predicate ComesBack(a: Action) { a.PlayEnds? || a.PlayCutByShutdown? }

  /** Once a line's clip has sounded, whole or cut, it counts as heard exactly
      when the shutdown has not cut in: done, on no list, and (unless evicted)
      refused for a day. Else it is set aside, and may be sent again at once. */
  lemma ACutLineCountsAsHeardExactlyWhen(s: State, a: Action)
    requires Inv(s) && IsSounding(s) && s.hand.item.lineId != "" && ComesBack(a) && Enabled(s, a)
    ensures EndsAs(s, Step(s, a), s.hand.item.lineId)
  {
    if a.PlayEnds? {
      AHeardLineIsRefused(s);
    } else {
      ACutLineIsSetAside(s, a.newId, a.waited);
    }
  }

  lemma AHeardLineIsRefused(s: State)
    requires Inv(s) && IsSounding(s) && s.hand.item.lineId != "" && !s.shutdownCut
    ensures EndsAs(s, DoPlayEnds(s), s.hand.item.lineId)
  {
    InHandIsAlone(s);
    PlayEndsKeeps(s);
    assert DoPlayEnds(s).lines[s.hand.item.lineId].UpdatedAt() >= s.now;
  }

  lemma ACutLineIsSetAside(s: State, newId: string, waited: real)
    requires Inv(s) && IsSounding(s) && s.hand.item.lineId != "" && s.shutdownCut
    ensures EndsAs(s, DoSetAside(s, Restarted, waited, [], newId), s.hand.item.lineId)
  {
    InHandIsAlone(s);
    assert CarriedBy(s.bands, s.hand, s.hand.item);
    UpsertProperties(s.missed, AsMissed(EntryInHand(s.hand, newId), Restarted, waited, [], s.now), s.now);
  }

  // ----------------------------------------------------------- it happens: two runs

  const CUT_BY_THE_STOP: seq<Action> := [GateOpens] + ([PlayStarts] + ([Stop] + []))
  const CUT_BY_THE_SHUTDOWN: seq<Action> := [GateOpens] + ([PlayStarts] + ([BeginShutdown] + ([CutAtShutdown] + [])))

  predicate CutMidway(s: State) { In(s, Sounding(true)) && s.hand.item == A_LINE && s.missed == [] }

  lemma ItSounds(s: State, rest: seq<Action>)
    requires OnlySaidAt(s, Cleared) && IsRun(Marked(MovedOn(s, GateOpens), PlayStarts), rest)
    ensures IsRun(s, [GateOpens] + ([PlayStarts] + rest))
    ensures After(s, [GateOpens] + ([PlayStarts] + rest)) == After(Marked(MovedOn(s, GateOpens), PlayStarts), rest)
  {
    ItStartsAnd(MovedOn(s, GateOpens), rest);
    Then(s, GateOpens, [PlayStarts] + rest);
  }

  lemma ItStartsAnd(s: State, rest: seq<Action>)
    requires IsLooking(s) && IsRun(Marked(s, PlayStarts), rest)
    ensures IsRun(s, [PlayStarts] + rest) && After(s, [PlayStarts] + rest) == After(Marked(s, PlayStarts), rest)
  {
    Then(s, PlayStarts, rest);
  }

  lemma TheStopCutsIt(s: State)
    requires OnlySaidAt(s, Cleared)
    ensures IsRun(s, CUT_BY_THE_STOP)
    ensures CutMidway(After(s, CUT_BY_THE_STOP)) && !After(s, CUT_BY_THE_STOP).shutdownCut
  {
    TheStopCuts(Marked(MovedOn(s, GateOpens), PlayStarts));
    ItSounds(s, [Stop] + []);
  }

  lemma TheShutdownCutsIt(s: State)
    requires OnlySaidAt(s, Cleared)
    ensures IsRun(s, CUT_BY_THE_SHUTDOWN)
    ensures CutMidway(After(s, CUT_BY_THE_SHUTDOWN)) && After(s, CUT_BY_THE_SHUTDOWN).shutdownCut
  {
    TheShutdownCuts(Marked(MovedOn(s, GateOpens), PlayStarts));
    ItSounds(s, [BeginShutdown] + ([CutAtShutdown] + []));
  }

  lemma TheStopCuts(s: State)
    requires OnlySaidAt(s, Sounding(false))
    ensures var acts := [Stop] + []; IsRun(s, acts) && CutMidway(After(s, acts)) && !After(s, acts).shutdownCut
  {
    Then(s, Stop, []);
  }

  lemma TheShutdownCuts(s: State)
    requires OnlySaidAt(s, Sounding(false))
    ensures var acts := [BeginShutdown] + ([CutAtShutdown] + []);
            IsRun(s, acts) && CutMidway(After(s, acts)) && After(s, acts).shutdownCut
  {
    ItIsCut(s.(stopping := true));
    Then(s, BeginShutdown, [CutAtShutdown] + []);
  }

  lemma ItIsCut(s: State)
    requires In(s, Sounding(false)) && s.hand.item == A_LINE && s.missed == [] && s.stopping
    ensures IsRun(s, [CutAtShutdown] + [])
    ensures CutMidway(After(s, [CutAtShutdown] + [])) && After(s, [CutAtShutdown] + []).shutdownCut
  {
    Then(s, CutAtShutdown, []);
  }

  /** The last step of a run, the player coming back from the cut clip. */
  lemma TheCutClipEnds(acts: seq<Action>, back: Action)
    requires IsRun(Initial(1.0, 32, 3), acts) && CutMidway(After(Initial(1.0, 32, 3), acts))
    requires back == if After(Initial(1.0, 32, 3), acts).shutdownCut then SHUTDOWN_END else PlayEnds
    ensures IsRun(Initial(1.0, 32, 3), acts + [back])
    ensures var cut, after := After(Initial(1.0, 32, 3), acts), After(Initial(1.0, 32, 3), acts + [back]);
            EndsAs(cut, after, "a")
  {
    var s0 := Initial(1.0, 32, 3);
    var s := After(s0, acts);
    InitialInv(1.0, 32, 3);
    RunKeepsInv(s0, acts);
    OneStepRun(s, back);
    RunsJoin(s0, acts, [back]);
    ACutLineCountsAsHeardExactlyWhen(s, back);
  }

  predicate IsCutBy(s: State, acts: seq<Action>) { IsRun(s, acts) && CutMidway(After(s, acts)) }

  /** The run cuts the clip; the player comes back, and the line was heard. */
  predicate EndsHeard(s: State, acts: seq<Action>) {
    && IsCutBy(s, acts) && IsRun(s, acts + [PlayEnds])
    && DoneIn(After(s, acts + [PlayEnds]).lines, "a") && !HasLine(After(s, acts + [PlayEnds]).missed, "a")
  }

  const SHUTDOWN_END := PlayCutByShutdown("n", 0.0)

  /** The run cuts the clip; the player comes back, and the line is set aside. */
  predicate EndsSetAside(s: State, acts: seq<Action>) {
    && IsCutBy(s, acts) && IsRun(s, acts + [SHUTDOWN_END])
    && !DoneIn(After(s, acts + [SHUTDOWN_END]).lines, "a")
    && SetAsideFor(After(s, acts + [SHUTDOWN_END]).missed, "a", Restarted)
  }

  /** From a fresh start, both ways: a line is said, it sounds and is cut, by the
      stop and by the shutdown. */
  lemma ACutLineEndsEitherWay() returns (byTheStop: seq<Action>, byTheShutdown: seq<Action>)
    ensures EndsHeard(Initial(1.0, 32, 3), byTheStop)
    ensures EndsSetAside(Initial(1.0, 32, 3), byTheShutdown)
  {
    var s0 := Initial(1.0, 32, 3);
    var acts := SaidAndCleared();
    TheStopCutsIt(After(s0, acts));
    TheShutdownCutsIt(After(s0, acts));
    RunsJoin(s0, acts, CUT_BY_THE_STOP);
    RunsJoin(s0, acts, CUT_BY_THE_SHUTDOWN);
    byTheStop, byTheShutdown := acts + CUT_BY_THE_STOP, acts + CUT_BY_THE_SHUTDOWN;
    TheCutClipEnds(byTheStop, PlayEnds);
    TheCutClipEnds(byTheShutdown, SHUTDOWN_END);
  }
}
