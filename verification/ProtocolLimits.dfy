/** Where the daemon does less than its comments say: for each, a run from a
    fresh start that shows it, or the exact condition. */
module ProtocolLimits {
  import opened Options
  import opened Ledger
  import opened Arbiter
  import opened MissedSpeech
  import opened SpeechProtocol
  import opened ProtocolInvariant
  import opened ProtocolTheorems
  import opened ProtocolStops
  import opened DaemonClient

  // ---------------------------------------------- a shed line is lost to its id

  const SHED_RUN: seq<Action> := [Speak(Line(AUTOPLAY, "a", true), {})] + ([Narrate(Line(TOOL_NARRATION, "", true))] + [])

  /** A full queue sheds a line and does not tell the ledger: the id reads as
      queued, every resend of it is refused, and nothing is left to play it. */
  lemma AShedLineIsRefusedWithNothingToPlayIt()
    ensures IsRun(Initial(1.0, 1, 3), SHED_RUN)
    ensures var s := After(Initial(1.0, 1, 3), SHED_RUN);
            && ActiveIn(s.lines, "a") && Carriers(s.bands, s.hand, "a") == 0
            && forall now: real, evicted :: IsEviction(Kept(s.lines, now), evicted) ==> Refused(s.lines, "a", now, evicted)
  {
    ShedRunSheds();
    InitialInv(1.0, 1, 3);
    RunKeepsInv(Initial(1.0, 1, 3), SHED_RUN);
    OrphansAreLost(After(Initial(1.0, 1, 3), SHED_RUN), "a");
  }

  lemma ShedRunSheds()
    ensures IsRun(Initial(1.0, 1, 3), SHED_RUN) && After(Initial(1.0, 1, 3), SHED_RUN).orphans == {"a"}
  {
    var s0 := Initial(1.0, 1, 3);
    NoEviction(s0.lines, 1.0);
    var s1 := Step(s0, SHED_RUN[0]);
    assert s1.bands == Bands([], [], [Line(AUTOPLAY, "a", true)], []);
    TheNarrationSheds(s1);
    Then(s0, SHED_RUN[0], [SHED_RUN[1]] + []);
  }

  lemma TheNarrationSheds(s: State)
    requires s.bands == Bands([], [], [Line(AUTOPLAY, "a", true)], []) && s.maxQueue == 1 && s.orphans == {} && s.now == 1.0
    ensures var acts := [SHED_RUN[1]] + []; IsRun(s, acts) && After(s, acts).orphans == {"a"}
  {
    Then(s, SHED_RUN[1], []);
  }

  lemma OrphansAreLost(s: State, id: string)
    requires Inv(s) && id in s.orphans
    ensures ActiveIn(s.lines, id) && Carriers(s.bands, s.hand, id) == 0
    ensures forall now: real, evicted :: IsEviction(Kept(s.lines, now), evicted) ==> Refused(s.lines, id, now, evicted)
  {
    assert Carriers(s.bands, s.hand, id) == Owed(s.lines, s.orphans, id);
    forall now: real, evicted | IsEviction(Kept(s.lines, now), evicted) ensures Refused(s.lines, id, now, evicted) {
      AnOrphanIsRefusedWithNothingToPlayIt(s, id, now, evicted);
    }
  }

  // ----------------------------------------------- two entries for one speech line

  function Entry(id: string, lineId: string, queuedAt: real): MissedLine {
    MissedLine(id, "words", queuedAt, Held, NoReason, [], 0.0, None, "", "", false, "", lineId, "", "")
  }

  const ADDED_X := AsMissed(Entry("x", "", 1.0), Added, 0.0, [], 1.0)
  const ADDED_Y := AsMissed(Entry("y", "c", 2.0), Added, 0.0, [], 1.0)
  const REPLAY_X := QueueItem(EXPLICIT_MCP, Words("words"), 1.0, "x", false, 0, "", "", "", "c", "q", "", "", 0, 0.0, "")
  const STOPPED_X: MissedLine := AsMissed(EntryFor(REPLAY_X, "z"), MissedSpeech.Stopped, 0.0, [], 1.0)
  const SET_ASIDE := AsideEarly(MissedSpeech.Stopped, "z", 0.0, [])

  const THE_PASS: seq<Action> := [MarkInPass] + ([Begin] + ([Stop] + ([SET_ASIDE] + [])))
  const THE_SET_ASIDE: seq<Action> := [Take] + THE_PASS
  const REPLAYED := Speak(REPLAY_X, {})
  const CROSSED_RUN: seq<Action> :=
    [AddMissed(Entry("x", "", 1.0))] + ([REPLAYED] + ([AddMissed(Entry("y", "c", 2.0))] + THE_SET_ASIDE))

  /** An entry with no line id is replayed under an id its client made, a
      caller adds that id, and the stop sets the replay aside: two entries, one
      line. */
  lemma TwoEntriesForOneLine()
    ensures IsRun(Initial(1.0, 32, 3), CROSSED_RUN)
    ensures !OneEntryPerLine(After(Initial(1.0, 32, 3), CROSSED_RUN).missed)
  {
    var s0, a0 := Initial(1.0, 32, 3), AddMissed(Entry("x", "", 1.0));
    FirstEntry();
    FirstReplay(Step(s0, a0));
    AddedBesideTheReplay(Step(Step(s0, a0), REPLAYED));
    Then(Step(s0, a0), REPLAYED, [AddMissed(Entry("y", "c", 2.0))] + THE_SET_ASIDE);
    Then(s0, a0, [REPLAYED] + ([AddMissed(Entry("y", "c", 2.0))] + THE_SET_ASIDE));
  }

  /** The replay waits, and nothing but it in the whole daemon. */
  predicate ReplayWaits(s: State) {
    s.hand.Empty? && s.bands == Bands([], [REPLAY_X], [], []) && Calm(s)
  }

  /** The ledger knows no id but "c", not as heard, and no entry is "z". */
  predicate Calm(s: State) {
    !s.stopping && s.now == 1.0 && s.lines.Keys <= {"c"} && !DoneIn(s.lines, "c") && !HasId(s.missed, "z")
  }

  lemma FirstReplay(s: State)
    requires s == Initial(1.0, 32, 3).(missed := [ADDED_X])
    ensures Enabled(s, REPLAYED) && ReplayWaits(Step(s, REPLAYED)) && Step(s, REPLAYED).missed == [ADDED_X]
  {
    NoEviction(s.lines, 1.0);
    assert Arriving(s, REPLAY_X) == REPLAY_X;
    assert !KeptByStop(s, "c");
  }

  lemma AddedBesideTheReplay(s: State)
    requires ReplayWaits(s) && s.missed == [ADDED_X]
    ensures var acts := [AddMissed(Entry("y", "c", 2.0))] + THE_SET_ASIDE;
            IsRun(s, acts) && !OneEntryPerLine(After(s, acts).missed)
  {
    var a2 := AddMissed(Entry("y", "c", 2.0));
    SecondEntry();
    assert Step(s, a2).missed == [ADDED_X, ADDED_Y];
    ThirdEntry();
    TheStopSetsItAside(Step(s, a2));
    Then(s, a2, THE_SET_ASIDE);
  }

  lemma FirstEntry()
    ensures Upsert([], ADDED_X, 1.0) == ([ADDED_X], ADDED_X)
    ensures !HasId([], "x")
  {
    assert Live([], 1.0) == [];
    assert [ADDED_X][..0] == [];
    assert SortByTime([ADDED_X]) == [ADDED_X];
  }

  lemma SecondEntry()
    ensures !HasId([ADDED_X], "y") && !HasLine(Live([ADDED_X], 1.0), "c")
    ensures Upsert([ADDED_X], ADDED_Y, 1.0) == ([ADDED_X, ADDED_Y], ADDED_Y)
  {
    KeepEverything([ADDED_X], Unexpired(1.0));
    assert FindId([ADDED_X], "y") == 1;
    assert FindLine([ADDED_X], "c") == 1;
    assert Place1([ADDED_X], ADDED_Y).0 == [ADDED_X, ADDED_Y];
    SortOfSorted([ADDED_X, ADDED_Y]);
  }

  lemma ThirdEntry()
    ensures !HasId([ADDED_X, ADDED_Y], "z")
    ensures Upsert([ADDED_X, ADDED_Y], STOPPED_X, 1.0).0 == [STOPPED_X, ADDED_Y]
    ensures !OneEntryPerLine([STOPPED_X, ADDED_Y])
  {
    var list := [ADDED_X, ADDED_Y];
    KeepEverything(list, Unexpired(1.0));
    assert FindId(list, "x") == 0;
    assert Place1(list, STOPPED_X).0 == [STOPPED_X, ADDED_Y];
    SortOfSorted([STOPPED_X, ADDED_Y]);
    assert [STOPPED_X, ADDED_Y][0].lineId == [STOPPED_X, ADDED_Y][1].lineId == "c";
  }

  /** The replay in hand, at this phase. */
  predicate InHandAt(s: State, phase: Phase) {
    s.hand == InHand(REPLAY_X, phase, None) && s.bands == EMPTY && Calm(s)
  }

  /** The stop set the replay aside: it is on the list, and nowhere else. */
  predicate SetAsideFrom(missed: Entries, s: State) {
    && s.missed == Upsert(missed, STOPPED_X, 1.0).0 && s.bands == EMPTY && In(s, Resolved) && s.hand.item == REPLAY_X
    && s.Stopped() && s.now == 1.0 && s.lines.Keys <= {"c"} && !ActiveIn(s.lines, "c") && !DoneIn(s.lines, "c")
  }

  lemma TheStopSetsItAside(s: State)
    requires ReplayWaits(s)
    ensures IsRun(s, THE_SET_ASIDE) && SetAsideFrom(s.missed, After(s, THE_SET_ASIDE))
  {
    assert InHandAt(Step(s, Take), Popped);
    PassSetsAside(Step(s, Take));
    Then(s, Take, THE_PASS);
  }

  lemma PassSetsAside(s: State)
    requires InHandAt(s, Popped)
    ensures IsRun(s, THE_PASS) && SetAsideFrom(s.missed, After(s, THE_PASS))
  {
    BegunSetsAside(Step(s, MarkInPass));
    Then(s, MarkInPass, [Begin] + ([Stop] + ([SET_ASIDE] + [])));
  }

  lemma BegunSetsAside(s: State)
    requires InHandAt(s, InPass)
    ensures var acts := [Begin] + ([Stop] + ([SET_ASIDE] + [])); IsRun(s, acts) && SetAsideFrom(s.missed, After(s, acts))
  {
    StopSetsAside(Step(s, Begin));
    Then(s, Begin, [Stop] + ([SET_ASIDE] + []));
  }

  lemma StopSetsAside(s: State)
    requires InHandAt(s, Working)
    ensures var acts := [Stop] + ([SET_ASIDE] + []); IsRun(s, acts) && SetAsideFrom(s.missed, After(s, acts))
  {
    StopChangesLittle(s);
    AsideIsWritten(Step(s, Stop));
    Then(Step(s, Stop), SET_ASIDE, []);
    Then(s, Stop, [SET_ASIDE] + []);
  }

  lemma StopChangesLittle(s: State)
    requires InHandAt(s, Working)
    ensures Step(s, Stop).Stopped() && Step(s, Stop).missed == s.missed && InHandAt(Step(s, Stop), Working)
  {
  }

  lemma AsideIsWritten(s: State)
    requires InHandAt(s, Working) && s.Stopped()
    ensures LetGoCan(s, SET_ASIDE) && SetAsideFrom(s.missed, LetGo(s, SET_ASIDE))
  {
  }

  // ------------------------------------------------ a replay asked for only once

  const NOT_CACHED := Found(None, "q", 0.0)
  const REPLY_LOST := Attempt([AddMissed(Entry("x", "", 1.0))], true, NOT_CACHED, {}, false)
  const REPLY_READ := Attempt(THE_SET_ASIDE, true, NOT_CACHED, {}, true)

  /** One replay request whose reply is lost: the stop sets the line aside, the
      request comes again, and the line is queued again under the stop's own
      entry, though the listener asked for it only once. */
  lemma AResentReplayIsQueuedAgain()
    ensures var acts, s0 := Traffic(REPLAY_X, [REPLY_LOST, REPLY_READ]), Initial(1.0, 32, 3);
            && IsRun(s0, acts) && After(s0, acts).Stopped()
            && KeptByStop(After(s0, acts), "c") && After(s0, acts).bands == Bands([], [REPLAY_X], [], [])
  {
    var s0, a0 := Initial(1.0, 32, 3), AddMissed(Entry("x", "", 1.0));
    TheTraffic();
    FirstEntry();
    FirstReplay(Step(s0, a0));
    var s2 := Step(Step(s0, a0), REPLAYED);
    TheStopSetsItAside(s2);
    SecondReplay(After(s2, THE_SET_ASIDE));
    RunsJoin(s2, THE_SET_ASIDE, [REPLAYED]);
    Then(Step(s0, a0), REPLAYED, THE_SET_ASIDE + [REPLAYED]);
    Then(s0, a0, [REPLAYED] + (THE_SET_ASIDE + [REPLAYED]));
  }

  lemma TheTraffic()
    ensures Traffic(REPLAY_X, [REPLY_LOST, REPLY_READ]) == [AddMissed(Entry("x", "", 1.0))] + ([REPLAYED] + (THE_SET_ASIDE + [REPLAYED]))
  {
    assert Made(REPLAY_X, NOT_CACHED) == REPLAY_X;
    assert [REPLY_LOST, REPLY_READ][1..] == [REPLY_READ];
    assert Traffic(REPLAY_X, [REPLY_READ]) == THE_SET_ASIDE + [REPLAYED];
  }

  lemma SecondReplay(s: State)
    requires SetAsideFrom([ADDED_X], s)
    ensures var acts := [REPLAYED];
            && IsRun(s, acts) && After(s, acts).Stopped()
            && KeptByStop(After(s, acts), "c") && After(s, acts).bands == Bands([], [REPLAY_X], [], [])
  {
    TheEntryIsTheStops();
    SmallerSet(s.lines.Keys, {"c"});
    assert |s.lines.Keys| == |s.lines|;
    NoEviction(s.lines, 1.0);
    assert Arriving(s, REPLAY_X) == REPLAY_X;
    assert STOPPED_X in s.missed && SetAsideByStop(STOPPED_X, s.now);
    OneStepRun(s, REPLAYED);
  }

  lemma TheEntryIsTheStops()
    ensures Upsert([ADDED_X], STOPPED_X, 1.0).0 == [STOPPED_X]
  {
    KeepEverything([ADDED_X], Unexpired(1.0));
    assert FindId([ADDED_X], "x") == 0;
    SortOfSorted([STOPPED_X]);
  }

  // ------------------------------------------------- a full queue holds the worker

  predicate IsFull(s: State) { 0 < s.maxQueue <= s.bands.Depth() }

  predicate IsNarration(h: Hand) { h.InHand? && h.item.priority >= TOOL_NARRATION }

  /** What takes items out of the queue for good; a narration that finds it full
      takes the place of another. The worker's own take is the only one of these
      that is not a request, and its hands must be empty for it. */
  predicate MakesRoom(a: Action) {
    a.Barge? || a.Stop? || a.QueueClear? || a.QueueRemove? || a.BeginRun? || a.DrainOne? || a.Restart? || a.Take?
  }

  lemma NothingElseMakesRoom(s: State, a: Action)
    requires Enabled(s, a) && !MakesRoom(a) && IsFull(s)
    ensures IsFull(Step(s, a))
  {
    if Asks(a) {
      AskingLeavesNoRoom(s, a);
    } else if Edits(a) {
      EditingLeavesNoRoom(s, a);
    } else if LetsGo(a) {
      LettingGoLeavesNoRoom(s, a);
    } else if Handles(a) {
      HandlingLeavesNoRoom(s, a);
    }
  }

  lemma AskingLeavesNoRoom(s: State, a: Action)
    requires Asks(a) && AskCan(s, a) && !MakesRoom(a) && IsFull(s)
    ensures IsFull(Asked(s, a))
  {
    if a.Speak? { SpeakLeavesNoRoom(s, Arriving(s, a.said), a.evicted); }
  }

  lemma SpeakLeavesNoRoom(s: State, item: QueueItem, evicted: set<string>)
    requires IsFull(s)
    ensures IsFull(DoSpeak(s, item, evicted))
  {
  }

  lemma EditingLeavesNoRoom(s: State, a: Action)
    requires Edits(a) && EditCan(s, a) && !MakesRoom(a) && IsFull(s)
    ensures IsFull(Edited(s, a))
  {
    if a.QueueMove? { MoveKeepsDepth(s.bands, a.queueId, a.to); }
  }

  lemma MoveKeepsDepth(b: Bands, queueId: string, to: int)
    ensures AfterMove(b, queueId, to).0.Depth() == b.Depth()
  {
    var p := BandHolding(b, queueId);
    if p != 0 {
      var band := b.Band(p);
      assert |MovedWithin(band, IndexOf(band, queueId), Clamp(to - Ahead(b, p), 0, |band| - 1))| == |band|;
    }
  }

  lemma HandlingLeavesNoRoom(s: State, a: Action)
    requires Handles(a) && HandleCan(s, a) && !MakesRoom(a) && IsFull(s)
    ensures IsFull(Handled(s, a))
  {
  }

  lemma LettingGoLeavesNoRoom(s: State, a: Action)
    requires LetsGo(a) && LetGoCan(s, a) && IsFull(s)
    ensures IsFull(LetGo(s, a))
  {
  }

  /** The put as one step, where there is room for it. */
  function AtOnce(again: Option<Payload>, queueId: string, newId: string): Action {
    if again.None? then PutBack
    else if again.value.Wav? then PlayStalls(newId, queueId, again.value.path, 0.0)
    else SynthTimesOut(newId, queueId, false)
  }

  /** A line queued again, after either time-out or put back, waits for room
      exactly when it is a narration and the queue is full; else it goes on. */
  lemma TheWorkerWaitsExactlyWhen(s: State, again: Option<Payload>, queueId: string, newId: string)
    requires QueuesAgain(s, again) && FreshEntry(s, newId)
    ensures Enabled(s, FindsItFull(again, queueId)) <==> IsNarration(s.hand) && IsFull(s)
    ensures Enabled(s, AtOnce(again, queueId, newId)) <==> !(IsNarration(s.hand) && IsFull(s))
  {
  }

  function Put(s: State, again: Option<Payload>, queueId: string): State
    requires s.hand.InHand?
  {
    if again.None? then DoPutBack(s) else DoRetry(s, again.value, queueId)
  }

  lemma AtOnceItPuts(s: State, again: Option<Payload>, queueId: string, newId: string)
    requires QueuesAgain(s, again) && FreshEntry(s, newId) && HasRoom(s, s.hand.item.priority)
    ensures Enabled(s, AtOnce(again, queueId, newId)) && Step(s, AtOnce(again, queueId, newId)) == Put(s, again, queueId)
  {
  }

  lemma AfterTheWaitItPuts(s: State, again: Option<Payload>, queueId: string)
    requires In(s, Blocked(again, queueId)) && HasRoom(s, s.hand.item.priority)
    ensures Enabled(s, GetsRoom) && Step(s, GetsRoom) == Put(s, again, queueId)
  {
  }

  /** Whatever came in between, the put then does what it would have done. */
  lemma WaitingOnlyDelaysThePut(s: State, again: Option<Payload>, queueId: string, newId: string, hand: Hand)
    requires In(s, Blocked(again, queueId)) && HasRoom(s, s.hand.item.priority) && FreshEntry(s, newId)
    requires QueuesAgain(s.(hand := hand), again) && s.hand == hand.(phase := Blocked(again, queueId))
    ensures Enabled(s, GetsRoom) && Enabled(s.(hand := hand), AtOnce(again, queueId, newId))
    ensures Step(s, GetsRoom) == Step(s.(hand := hand), AtOnce(again, queueId, newId))
  {
    AfterTheWaitItPuts(s, again, queueId);
    AtOnceItPuts(s.(hand := hand), again, queueId, newId);
    assert Put(s, again, queueId) == Put(s.(hand := hand), again, queueId);
  }

  predicate IsBlocked(h: Hand) { h.InHand? && h.phase.Blocked? }

  /** A worker that waits does nothing but wait: every step is a request until
      there is room, and only a restart takes the line out of its hand. */
  lemma ABlockedWorkerWaits(s: State, a: Action)
    requires IsBlocked(s.hand) && Enabled(s, a)
    ensures Asks(a) || Edits(a) || (a.GetsRoom? && HasRoom(s, s.hand.item.priority))
    ensures Asks(a) || (Edits(a) && !a.Restart?) ==> Step(s, a).hand == s.hand
  {
    if Asks(a) {
      AskingLeavesItBlocked(s, a);
    } else if Edits(a) && !a.Restart? {
      EditingLeavesItBlocked(s, a);
    }
  }

  lemma AskingLeavesItBlocked(s: State, a: Action)
    requires IsBlocked(s.hand) && Asks(a) && AskCan(s, a)
    ensures Asked(s, a).hand == s.hand
  {
    if a.Speak? { SpeakLeavesTheHand(s, Arriving(s, a.said), a.evicted); }
  }

  lemma SpeakLeavesTheHand(s: State, item: QueueItem, evicted: set<string>)
    ensures DoSpeak(s, item, evicted).hand == s.hand
  {
  }

  lemma EditingLeavesItBlocked(s: State, a: Action)
    requires IsBlocked(s.hand) && Edits(a) && EditCan(s, a) && !a.Restart?
    ensures Edited(s, a).hand == s.hand
  {
  }

  /** So a full queue holds the only worker: through every run without a request
      that takes items out (a barge-in, a stop, a clear, a removal, a new run,
      the shutdown's drain, a restart) the line stays in its hand, waiting, and
      every step is a request. */
  lemma {:induction false} AFullQueueHoldsTheWorker(s: State, acts: seq<Action>)
    requires IsRun(s, acts) && IsFull(s) && IsNarration(s.hand) && IsBlocked(s.hand)
    requires forall k :: 0 <= k < |acts| ==> !MakesRoom(acts[k])
    ensures IsFull(After(s, acts)) && After(s, acts).hand == s.hand
    ensures forall k :: 0 <= k < |acts| ==> Asks(acts[k]) || Edits(acts[k])
    decreases acts
  {
    if acts != [] {
      NothingElseMakesRoom(s, acts[0]);
      ABlockedWorkerWaits(s, acts[0]);
      AFullQueueHoldsTheWorker(Step(s, acts[0]), acts[1..]);
    }
  }

  // --------------------------------------------- what a queued-again line forgets

  /** A line queued again after a time-out plays the same words under the same
      ids at the same priority, one more try spent; it is otherwise the same
      item exactly when it named no sender, run, history line or time. */
  lemma ARetryForgetsWhoSentIt(hand: Hand, queueId: string)
    requires hand.InHand?
    ensures var again := Again(hand, Words(LineText(hand.item)), queueId);
            && LineText(again) == LineText(hand.item) && again.lineId == hand.item.lineId
            && again.priority == hand.item.priority && again.retries == hand.item.retries + 1
            && (again == hand.item.(payload := again.payload, queueId := queueId, retries := again.retries,
                                    lineText := again.lineText, missedId := again.missedId)
                <==> hand.item.sender == "" && hand.item.controlRun == 0 && hand.item.historyId == "" && hand.item.saidAt == 0.0)
  {
  }
}
