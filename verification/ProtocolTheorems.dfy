/** What holds of the daemon over every run. */
module ProtocolTheorems {
  import opened Options
  import opened Ledger
  import opened Arbiter
  import opened MissedSpeech
  import opened SpeechProtocol
  import opened ProtocolInvariant
  import opened ProtocolSteps

  lemma RequestKeepsInv(s: State, a: Action)
    requires Inv(s) && Asks(a) && AskCan(s, a)
    ensures Inv(Asked(s, a))
  {
    match a
    case Speak(item, evicted) => SpeakKeeps(s, Arriving(s, item), evicted);
    case ReplayNothing(id) =>
      KeepProperties(s.missed, Unexpired(s.now));
      KeepProperties(Live(s.missed, s.now), NotId(id));
      FewerKeeps(s, RemoveId(s.missed, id, s.now));
    case ReplayHeard(item) => QueuedKeeps(s.(stoppedSince := None), item);
    case Barge => BargeKeeps(s);
    case Stop => StopKeeps(s);
    case Resume =>
    case AddMissed(line) => AddMissedKeeps(s, line);
    case ClearMissed => FewerKeeps(s, []);
    case ExpireMissed =>
      KeepProperties(s.missed, Unexpired(s.now));
      FewerKeeps(s, Live(s.missed, s.now));
    case SummarizeMeeting => SummaryKeeps(s);
  }

  lemma BeginRunKeeps(s: State)
    requires Inv(s)
    ensures Inv(DoBeginRun(s))
  {
    forall q | s.bands.Has(q) && q.historyId != "" ensures q.lineId == "" { assert CarriedBy(s.bands, s.hand, q); }
    RemovalKeeps(s, OfOtherRun(s.runs + 1));
  }

  lemma QueueEditKeepsInv(s: State, a: Action)
    requires Inv(s) && Edits(a) && EditCan(s, a)
    ensures Inv(Edited(s, a))
  {
    if a.Narrate? || a.SeeEvent? || a.Tick? || a.CutAtShutdown? || a.DrainOne? || a.Restart? {
      OtherRequestKeepsInv(s, a);
    } else {
      match a
      case QueueClear => TakeOutKeeps(s, IsLine(), "cleared");
      case QueueRemove(ids) => TakeOutKeeps(s, IsNamed(ids), "removed");
      case QueueMove(id, to) => MoveKeeps(s, id, to);
      case BeginRun => BeginRunKeeps(s);
      case EndRun =>
      case BeginShutdown =>
    }
  }

  lemma OtherRequestKeepsInv(s: State, a: Action)
    requires Inv(s) && (a.Narrate? || a.SeeEvent? || a.Tick? || a.CutAtShutdown? || a.DrainOne? || a.Restart?) && EditCan(s, a)
    ensures Inv(Edited(s, a))
  {
    match a
    case Narrate(item) => NarrateKeeps(s, item);
    case SeeEvent(id, evicted) => SeeEventKeeps(s, id, evicted);
    case Tick(seconds) => TickKeeps(s, seconds);
    case CutAtShutdown => CutKeeps(s);
    case DrainOne(newId) => DrainKeeps(s, newId);
    case Restart(evicted) => RestartKeeps(s, evicted);
  }

  lemma MovesOn(s: State, a: Action)
    requires OnlyMovesOn(a) && MoveOnCan(s, a)
    ensures s.hand.Carries() && !s.hand.phase.Popped?
    ensures PhaseAfter(s, a).Holding? || PhaseAfter(s, a).Polling? ==> s.hand.phase.Holding? || s.hand.phase.Polling?
    ensures PhaseAfter(s, a).AtTheGate() ==> s.hand.phase.AtTheGate() || s.hand.item.hold
    ensures PhaseAfter(s, a).Early() ==> s.hand.phase.Early()
    ensures PhaseAfter(s, a).MayStillStart() ==> s.hand.phase.MayStillStart() || !s.Stopped()
    ensures !PhaseAfter(s, a).Popped? && !PhaseAfter(s, a).Resolved?
  {
  }

  lemma MovingOnKeepsInv(s: State, a: Action)
    requires Inv(s) && OnlyMovesOn(a) && MoveOnCan(s, a)
    ensures Inv(MovedOn(s, a))
  {
    MovesOn(s, a);
    PhaseKeepsInv(s, PhaseAfter(s, a));
  }

  lemma MarkingKeepsInv(s: State, a: Action)
    requires Inv(s) && Marks(a) && MarkCan(s, a)
    ensures Inv(Marked(s, a))
  {
    var id := s.hand.item.lineId;
    if a.MarkInPass? {
      TakenIsQuiet(s.lines, id, s.now);
    } else if a.SynthStarts? {
      SynthIsQuiet(s, id);
    } else {
      PlayingIsQuiet(s, id);
    }
    OnwardKeeps(s, Marked(s, a));
  }

  lemma PhaseKeepsInv(s: State, phase: Phase)
    requires Inv(s) && s.hand.Carries() && !s.hand.phase.Popped? && !phase.Popped? && !phase.Resolved?
    requires phase.Holding? || phase.Polling? ==> s.hand.phase.Holding? || s.hand.phase.Polling?
    requires phase.AtTheGate() ==> s.hand.phase.AtTheGate() || s.hand.item.hold
    ensures Inv(s.(hand := s.hand.(phase := phase)))
  {
    MarkedWhileCarried(s);
    OnwardKeeps(s, s.(hand := s.hand.(phase := phase)));
  }

  lemma MarkedWhileCarried(s: State)
    requires Inv(s) && s.hand.Carries() && !s.hand.phase.Popped?
    ensures s.hand.item.lineId in s.lines ==> s.lines[s.hand.item.lineId].inPass
    ensures Quiet(s.lines, s.lines, s.now)
  {
  }

  lemma TakenIsQuiet(lines: Lines, id: string, now: real)
    requires WellKept(lines, now)
    ensures Quiet(lines, Taken(lines, id), now)
    ensures forall k :: ActiveIn(Taken(lines, id), k) <==> ActiveIn(lines, k)
    ensures id in lines ==> id in Taken(lines, id) && Taken(lines, id)[id].inPass
  {
  }

  lemma SynthIsQuiet(s: State, id: string)
    requires Inv(s) && s.hand.Carries() && !s.hand.phase.Popped? && id == s.hand.item.lineId
    ensures var lines := SynthStarted(s.lines, id, s.now);
            Quiet(s.lines, lines, s.now) && (forall k :: ActiveIn(lines, k) <==> ActiveIn(s.lines, k))
            && (id in s.lines ==> id in lines && lines[id].inPass)
  {
    MarkedWhileCarried(s);
  }

  lemma PlayingIsQuiet(s: State, id: string)
    requires Inv(s) && s.hand.Carries() && !s.hand.phase.Popped? && id == s.hand.item.lineId
    ensures var lines := PlayingNow(s.lines, id, s.now);
            Quiet(s.lines, lines, s.now) && (forall k :: ActiveIn(lines, k) <==> ActiveIn(s.lines, k))
            && (id in s.lines ==> id in lines && lines[id].inPass)
  {
    MarkedWhileCarried(s);
  }

  lemma HoldEndKeepsInv(s: State, why: Reason, slept: real, waited: real, heldFor: seq<string>)
    requires Inv(s) && s.hand.InHand? && (s.hand.phase.Polling? || s.hand.phase.Holding?)
    ensures Inv(DoSetAside(Noted(s, slept), why, waited, heldFor, ""))
  {
    var noted := Noted(s, slept);
    assert Inv(noted);
    SetAsideKeeps(noted, why, waited, heldFor, "");
  }

  lemma LetGoKeepsInv(s: State, a: Action)
    requires Inv(s) && LetsGo(a) && LetGoCan(s, a)
    ensures Inv(LetGo(s, a))
  {
    match a
    case AsideEarly(why, newId, waited, heldFor) => SetAsideKeeps(s, why, waited, heldFor, newId);
    case SynthTimesOut(newId, queueId, spent) =>
      if spent { SetAsideKeeps(s, TimedOut, 0.0, [], newId); } else { RetryKeeps(s, Words(LineText(s.hand.item)), queueId); }
    case HoldExpires(why, slept, waited, heldFor) => HoldEndKeepsInv(s, why, slept, waited, heldFor);
    case HoldAborts(slept, waited, heldFor) => HoldEndKeepsInv(s, Interrupted, slept, waited, heldFor);
    case PlayStalls(newId, queueId, kept, waited) =>
      if s.hand.item.retries >= s.maxRetries { SetAsideKeeps(s, TimedOut, waited, [], newId); } else { RetryKeeps(s, Wav(kept), queueId); }
    case PlayCutByShutdown(newId, waited) => SetAsideKeeps(s, Restarted, waited, [], newId);
  }

  lemma HandlingKeepsInv(s: State, a: Action)
    requires Inv(s) && Handles(a) && HandleCan(s, a)
    ensures Inv(Handled(s, a))
  {
    match a
    case Take => TakeKeeps(s);
    case AsideAtShutdown(newId) => LeaveKeeps(s, newId);
    case PutBack => PutBackKeeps(s);
    case GetsRoom =>
      if s.hand.phase.retry.Some? { RetryKeeps(s, s.hand.phase.retry.value, s.hand.phase.queueId); } else { PutBackKeeps(s); }
    case HoldBegins(newId, heldFor) => HoldBeginsKeeps(s, newId, heldFor);
    case PlayEnds => PlayEndsKeeps(s);
    case EndPass(cause) => EndPassKeeps(s, cause);
  }

  /** Every step, whoever takes it, keeps the invariant. */
  lemma StepKeepsInv(s: State, a: Action)
    requires Inv(s) && Enabled(s, a)
    ensures Inv(Step(s, a))
  {
    if Asks(a) {
      RequestKeepsInv(s, a);
    } else if Edits(a) {
      QueueEditKeepsInv(s, a);
    } else if OnlyMovesOn(a) {
      MovingOnKeepsInv(s, a);
    } else if Marks(a) {
      MarkingKeepsInv(s, a);
    } else if LetsGo(a) {
      LetGoKeepsInv(s, a);
    } else {
      HandlingKeepsInv(s, a);
    }
  }

  lemma InitialInv(now: real, maxQueue: int, maxRetries: nat)
    ensures Inv(Initial(now, maxQueue, maxRetries))
  {
  }

  lemma {:induction false} RunKeepsInv(s: State, acts: seq<Action>)
    requires Inv(s) && IsRun(s, acts)
    ensures Inv(After(s, acts))
    decreases acts
  {
    if acts != [] {
      StepKeepsInv(s, acts[0]);
      RunKeepsInv(Step(s, acts[0]), acts[1..]);
    }
  }

  // ------------------------------------------------------------ one id, one play

  /** In every run, through resends, retries, stops, replays and restarts, two
      completed plays of one id are a day apart, unless a full ledger let the
      id go in between. */
  lemma PlaysAreADayApart(now: real, maxQueue: int, maxRetries: nat, acts: seq<Action>, i: nat, j: nat)
    requires IsRun(Initial(now, maxQueue, maxRetries), acts)
    ensures var log := After(Initial(now, maxQueue, maxRetries), acts).log;
            i < j < |log| && log[i].Played? && log[j].Played? && log[i].id == log[j].id ==>
              log[j].at - log[i].at >= 86400.0 || EvictedBetween(log, i, j, log[i].id)
  {
    InitialInv(now, maxQueue, maxRetries);
    RunKeepsInv(Initial(now, maxQueue, maxRetries), acts);
  }

  /** In every run each id has at most one thing that could still play it; a
      carrier means the ledger says queued or playing, and the ledger's queued
      or playing means a carrier, but for the ids a full queue shed. */
  lemma OneCarrierExactlyWhenActive(now: real, maxQueue: int, maxRetries: nat, acts: seq<Action>, id: string)
    requires IsRun(Initial(now, maxQueue, maxRetries), acts) && id != ""
    ensures var s := After(Initial(now, maxQueue, maxRetries), acts);
            && Carriers(s.bands, s.hand, id) <= 1
            && (Carriers(s.bands, s.hand, id) == 1 <==> ActiveIn(s.lines, id) && id !in s.orphans)
            && (id in s.orphans ==> ActiveIn(s.lines, id))
  {
    InitialInv(now, maxQueue, maxRetries);
    RunKeepsInv(Initial(now, maxQueue, maxRetries), acts);
    var s := After(Initial(now, maxQueue, maxRetries), acts);
    assert Carriers(s.bands, s.hand, id) == Owed(s.lines, s.orphans, id);
  }

  /** A narration that finds the queue full and takes the place of a line with an id. */
  predicate ShedsALine(s: State, a: Action) {
    a.Narrate? && s.maxQueue > 0 && s.bands.Depth() >= s.maxQueue && Shed(s.bands).1.Some? && Shed(s.bands).1.value.lineId != ""
  }

  function OrphansAfter(s: State, a: Action): set<string> {
    if a.Restart? then {}
    else if ShedsALine(s, a) then s.orphans + {Shed(s.bands).1.value.lineId}
    else s.orphans
  }

  /** Exactly the sheds make orphans, and only a restart ends them. */
  lemma OrphansComeFromShedsAndLastToTheRestart(s: State, a: Action)
    requires Enabled(s, a)
    ensures Step(s, a).orphans == OrphansAfter(s, a)
  {
    if Asks(a) {
      AskingKeepsOrphans(s, a);
    } else if Edits(a) {
      EditingShedsExactly(s, a);
    } else if LetsGo(a) {
      LetGoKeepsOrphans(s, a);
    } else if Handles(a) {
      HandlingKeepsOrphans(s, a);
    }
  }

  lemma AskingKeepsOrphans(s: State, a: Action)
    requires Asks(a) && AskCan(s, a)
    ensures Asked(s, a).orphans == OrphansAfter(s, a)
  {
  }

  lemma EditingShedsExactly(s: State, a: Action)
    requires Edits(a) && EditCan(s, a)
    ensures Edited(s, a).orphans == OrphansAfter(s, a)
  {
  }

  /** Letting the line go touches the ledger, the list, the queue and the time of
      the last hold; the hand keeps the line, its phase over. */
  predicate OnlyLetsGo(s: State, after: State) {
    && after == s.(lines := after.lines, missed := after.missed, hand := after.hand, bands := after.bands, holdEnded := after.holdEnded)
    && s.hand.InHand? && (after.hand == s.hand.(phase := Resolved) || after.hand == s.hand.(phase := Failed))
  }

  lemma SettingAsideOnlyLetsGo(s: State, slept: real, reason: Reason, waited: real, heldFor: seq<string>, newId: string)
    requires s.hand.InHand?
    ensures OnlyLetsGo(s, DoSetAside(Noted(s, slept), reason, waited, heldFor, newId))
  {
  }

  lemma RetryingOnlyLetsGo(s: State, payload: Payload, queueId: string)
    requires s.hand.InHand?
    ensures OnlyLetsGo(s, DoRetry(s, payload, queueId))
  {
  }

  lemma LettingGoOnlyLetsGo(s: State, a: Action)
    requires LetsGo(a) && LetGoCan(s, a)
    ensures OnlyLetsGo(s, LetGo(s, a))
  {
    match a
    case AsideEarly(why, newId, waited, heldFor) => SettingAsideOnlyLetsGo(s, 0.0, why, waited, heldFor, newId);
    case SynthTimesOut(newId, queueId, spent) =>
      SettingAsideOnlyLetsGo(s, 0.0, TimedOut, 0.0, [], newId);
      RetryingOnlyLetsGo(s, Words(LineText(s.hand.item)), queueId);
    case HoldExpires(why, slept, waited, heldFor) => SettingAsideOnlyLetsGo(s, slept, why, waited, heldFor, "");
    case HoldAborts(slept, waited, heldFor) => SettingAsideOnlyLetsGo(s, slept, Interrupted, waited, heldFor, "");
    case PlayStalls(newId, queueId, kept, waited) =>
      SettingAsideOnlyLetsGo(s, 0.0, TimedOut, waited, [], newId);
      RetryingOnlyLetsGo(s, Wav(kept), queueId);
    case PlayCutByShutdown(newId, waited) => SettingAsideOnlyLetsGo(s, 0.0, Restarted, waited, [], newId);
  }

  lemma LetGoKeepsOrphans(s: State, a: Action)
    requires LetsGo(a) && LetGoCan(s, a)
    ensures LetGo(s, a).orphans == OrphansAfter(s, a)
  {
  }

  lemma HandlingKeepsOrphans(s: State, a: Action)
    requires Handles(a) && HandleCan(s, a)
    ensures Handled(s, a).orphans == OrphansAfter(s, a)
  {
  }

  /** Until then the ledger refuses the line, and nothing is left to play it. */
  lemma AnOrphanIsRefusedWithNothingToPlayIt(s: State, id: string, now: real, evicted: set<string>)
    requires Inv(s) && id in s.orphans && IsEviction(Kept(s.lines, now), evicted)
    ensures Refused(s.lines, id, now, evicted) && Carriers(s.bands, s.hand, id) == 0
  {
    assert id !in SettledIds(Kept(s.lines, now));
    assert Carriers(s.bands, s.hand, id) == Owed(s.lines, s.orphans, id);
  }

  /** The state before step k of a run. */
  function Before(s: State, acts: seq<Action>, k: nat): State
    requires IsRun(s, acts) && k <= |acts|
    decreases acts
  {
    if k == 0 then s else Before(Step(s, acts[0]), acts[1..], k - 1)
  }

  /** Every step of the run is of the kind. */
  ghost predicate AllOfKind(kind: (State, Action) -> bool, s: State, acts: seq<Action>)
    requires IsRun(s, acts)
    decreases acts
  {
    acts == [] || (kind(s, acts[0]) && AllOfKind(kind, Step(s, acts[0]), acts[1..]))
  }

  /** Before and after every step of the run. */
  ghost predicate AllAlong(p: State -> bool, s: State, acts: seq<Action>)
    requires IsRun(s, acts)
    decreases acts
  {
    p(s) && (acts == [] || AllAlong(p, Step(s, acts[0]), acts[1..]))
  }

  /** What every step of a kind keeps holds all along a run of such steps. */
  lemma {:induction false} HoldsAllAlong(p: State -> bool, kind: (State, Action) -> bool, s: State, acts: seq<Action>)
    requires IsRun(s, acts) && p(s) && AllOfKind(kind, s, acts)
    requires forall t: State, a: Action :: p(t) && Enabled(t, a) && kind(t, a) ==> p(Step(t, a))
    ensures AllAlong(p, s, acts) && p(After(s, acts))
    decreases acts
  {
    if acts != [] { HoldsAllAlong(p, kind, Step(s, acts[0]), acts[1..]); }
  }

  /** In a run that sheds no line, queued or playing always means a carrier:
      no id is refused with nothing left to play it. */
  lemma {:induction false} WithoutShedsNoOrphans(s: State, acts: seq<Action>)
    requires Inv(s) && s.orphans == {} && IsRun(s, acts)
    requires forall k :: 0 <= k < |acts| ==> !ShedsALine(Before(s, acts, k), acts[k])
    ensures After(s, acts).orphans == {}
    ensures forall id :: id != "" && ActiveIn(After(s, acts).lines, id) ==> Carriers(After(s, acts).bands, After(s, acts).hand, id) == 1
    decreases acts
  {
    if acts == [] {
      forall id | id != "" && ActiveIn(s.lines, id) ensures Carriers(s.bands, s.hand, id) == 1 {
        assert Carriers(s.bands, s.hand, id) == Owed(s.lines, s.orphans, id);
      }
    } else {
      var next := Step(s, acts[0]);
      StepKeepsInv(s, acts[0]);
      OrphansComeFromShedsAndLastToTheRestart(s, acts[0]);
      assert Before(s, acts, 0) == s;
      forall k | 0 <= k < |acts[1..]| ensures !ShedsALine(Before(next, acts[1..], k), acts[1..][k]) {
        assert Before(s, acts, k + 1) == Before(next, acts[1..], k);
      }
      WithoutShedsNoOrphans(next, acts[1..]);
    }
  }

  // ------------------------------------------------------------- the missed list

  /** In every run a line the ledger holds as done has no entry on the missed
      list, the list is oldest first, and no two entries share an id. */
  lemma AHeardLineHasNoEntry(now: real, maxQueue: int, maxRetries: nat, acts: seq<Action>)
    requires IsRun(Initial(now, maxQueue, maxRetries), acts)
    ensures var s := After(Initial(now, maxQueue, maxRetries), acts);
            && (forall m :: m in s.missed && m.lineId != "" ==> !DoneIn(s.lines, m.lineId))
            && UniqueIds(s.missed) && MissedSpeech.OldestFirst(s.missed)
  {
    InitialInv(now, maxQueue, maxRetries);
    RunKeepsInv(Initial(now, maxQueue, maxRetries), acts);
  }

  /** Why an entry may leave the list in this step. */
  predicate Goes(s: State, a: Action, m: MissedLine) {
    || Expired(m, s.now)
    || a.ClearMissed?
    || (a.ReplayNothing? && a.gone == m.id)
    || (a.PlayEnds? && s.hand.InHand?
        && ((s.hand.held.Some? && s.hand.held.value.id == m.id) || s.hand.item.missedId == m.id
            || (m.lineId != "" && s.hand.item.lineId == m.lineId)))
    || (a.Speak? && a.said.missedId == m.id && DoneIn(s.lines, a.said.lineId))
  }

  lemma UpsertKeepsIds(missed: Entries, line: MissedLine, now: real, m: MissedLine)
    requires UniqueIds(missed) && m in missed && !Expired(m, now)
    ensures HasId(Upsert(missed, line, now).0, m.id)
  {
    UpsertProperties(missed, line, now);
    KeepElements(missed, Unexpired(now));
  }

  lemma ForgetKeepsOthers(missed: Entries, lineId: string, missedId: string, now: real, m: MissedLine)
    requires m in missed && !Expired(m, now) && m.id != missedId && (lineId != "" ==> m.lineId != lineId)
    ensures m in Forget(missed, lineId, missedId, now)
    ensures m in RemoveLine(if missedId != "" then RemoveId(missed, missedId, now) else missed, lineId)
  {
    KeepElements(missed, NotLine(lineId));
    KeepElements(RemoveLine(missed, lineId), Unexpired(now));
    KeepElements(Live(RemoveLine(missed, lineId), now), NotId(missedId));
    KeepElements(missed, Unexpired(now));
    KeepElements(Live(missed, now), NotId(missedId));
    KeepElements(RemoveId(missed, missedId, now), NotLine(lineId));
  }

  lemma SpeakKeepsEntry(s: State, item: QueueItem, evicted: set<string>, m: MissedLine)
    requires HeardIsForgotten(s.lines, s.missed) && m in s.missed && !Expired(m, s.now)
    requires item.missedId == m.id ==> !DoneIn(s.lines, item.lineId) || m.id == ""
    ensures HasId(DoSpeak(s, item, evicted).missed, m.id)
  {
    var id := item.lineId;
    if id != "" && Refused(s.lines, id, s.now, evicted) && DoneIn(s.lines, id) && item.missedId != m.id {
      ForgetKeepsOthers(s.missed, id, item.missedId, s.now, m);
    } else if m.id == "" {
      KeepElements(s.missed, NotLine(id));
    }
  }

  /** An entry stays on the list under its id through every step but its own
      play, a clear, or (only once it is missed, never while it is held) its age. */
  lemma StepKeepsEntry(s: State, a: Action, m: MissedLine)
    requires Inv(s) && Enabled(s, a) && m in s.missed && !Goes(s, a, m)
    ensures HasId(Step(s, a).missed, m.id)
  {
    if Asks(a) {
      AskingKeepsEntry(s, a, m);
    } else if Edits(a) {
      EditingKeepsEntry(s, a, m);
    } else if LetsGo(a) {
      LetGoKeepsEntry(s, a, m);
    } else if Handles(a) {
      HandlingKeepsEntry(s, a, m);
    }
  }

  lemma AskingKeepsEntry(s: State, a: Action, m: MissedLine)
    requires UniqueIds(s.missed) && HeardIsForgotten(s.lines, s.missed) && m in s.missed && !Goes(s, a, m)
    requires Asks(a) && AskCan(s, a)
    ensures HasId(Asked(s, a).missed, m.id)
  {
    if a.AddMissed? {
      UpsertKeepsIds(s.missed, AsMissed(a.line, Added, 0.0, [], s.now), s.now, m);
    } else if a.Speak? {
      SpeakKeepsEntry(s, Arriving(s, a.said), a.evicted, m);
    } else if a.ExpireMissed? || a.ReplayNothing? {
      KeepElements(s.missed, Unexpired(s.now));
      if a.ReplayNothing? { KeepElements(Live(s.missed, s.now), NotId(a.gone)); }
    } else if a.SummarizeMeeting? {
      SummaryKeepsEntry(s.missed, s.now, m);
    }
  }

  lemma EditingKeepsEntry(s: State, a: Action, m: MissedLine)
    requires UniqueIds(s.missed) && m in s.missed && !Expired(m, s.now) && Edits(a) && EditCan(s, a)
    ensures HasId(Edited(s, a).missed, m.id)
  {
    if a.DrainOne? {
      UpsertKeepsIds(s.missed, DrainedEntry(Next(s.bands), a.drainedId, s.now), s.now, m);
    } else if a.Restart? {
      RestartKeepsEntry(s.missed, s.now, m);
    }
  }

  lemma SetAsideKeepsEntry(s: State, reason: Reason, waited: real, heldFor: seq<string>, newId: string, m: MissedLine)
    requires UniqueIds(s.missed) && s.hand.InHand? && m in s.missed && !Expired(m, s.now)
    ensures HasId(DoSetAside(s, reason, waited, heldFor, newId).missed, m.id)
  {
    UpsertKeepsIds(s.missed, AsMissed(EntryInHand(s.hand, newId), reason, waited, heldFor, s.now), s.now, m);
  }

  lemma HandlingKeepsEntry(s: State, a: Action, m: MissedLine)
    requires Inv(s) && Handles(a) && HandleCan(s, a) && m in s.missed && !Goes(s, a, m)
    ensures HasId(Handled(s, a).missed, m.id)
  {
    if a.PlayEnds? {
      PlayEndKeepsEntry(s, m);
    } else if a.AsideAtShutdown? {
      SetAsideKeepsEntry(s, Restarted, 0.0, [], a.newId, m);
    } else if a.HoldBegins? {
      UpsertKeepsIds(s.missed, AsHeld(EntryFor(s.hand.item, a.newId), a.heldFor), s.now, m);
    }
  }

  lemma PlayEndKeepsEntry(s: State, m: MissedLine)
    requires IsSounding(s) && HandInOrder(s.hand) && m in s.missed && !Goes(s, PlayEnds, m)
    ensures HasId(DoPlayEnds(s).missed, m.id)
  {
    var missedId := if s.hand.held.Some? then s.hand.held.value.id else s.hand.item.missedId;
    ForgetKeepsOthers(s.missed, s.hand.item.lineId, missedId, s.now, m);
  }

  lemma LetGoKeepsEntry(s: State, a: Action, m: MissedLine)
    requires UniqueIds(s.missed) && LetsGo(a) && LetGoCan(s, a) && m in s.missed && !Expired(m, s.now)
    ensures HasId(LetGo(s, a).missed, m.id)
  {
    match a
    case AsideEarly(why, newId, waited, heldFor) => SetAsideKeepsEntry(s, why, waited, heldFor, newId, m);
    case SynthTimesOut(newId, queueId, spent) => SetAsideKeepsEntry(s, TimedOut, 0.0, [], newId, m);
    case HoldExpires(why, slept, waited, heldFor) => SetAsideKeepsEntry(Noted(s, slept), why, waited, heldFor, "", m);
    case HoldAborts(slept, waited, heldFor) => SetAsideKeepsEntry(Noted(s, slept), Interrupted, waited, heldFor, "", m);
    case PlayStalls(newId, queueId, kept, waited) => SetAsideKeepsEntry(s, TimedOut, waited, [], newId, m);
    case PlayCutByShutdown(newId, waited) => SetAsideKeepsEntry(s, Restarted, waited, [], newId, m);
  }

  lemma SummaryKeepsEntry(missed: Entries, now: real, m: MissedLine)
    requires m in missed && !Expired(m, now)
    ensures HasId(AfterSummary(missed, now), m.id)
  {
    KeepElements(missed, Unexpired(now));
    var live := Live(missed, now);
    var k :| 0 <= k < |live| && live[k] == m;
    ChangePointwise(live, Announcer());
    assert Change(live, Announcer())[k].id == m.id;
  }

  lemma RestartKeepsEntry(missed: Entries, now: real, m: MissedLine)
    requires m in missed && !Expired(m, now)
    ensures HasId(Live(SettleHeld(missed, Restarted, now), now), m.id)
  {
    KeepElements(missed, Unexpired(now));
    var live := Live(missed, now);
    var k :| 0 <= k < |live| && live[k] == m;
    ChangePointwise(live, Settler(Restarted, now));
    var settled := Change(live, Settler(Restarted, now));
    assert settled[k].id == m.id && settled[k] in settled && !Expired(settled[k], now);
    KeepElements(settled, Unexpired(now));
  }

  /** The entry under an id. */
  ghost function EntryOf(missed: Entries, id: string): MissedLine
    requires HasId(missed, id)
  {
    var m :| m in missed && m.id == id; m
  }

  /** A held line has no age: only what is missed expires. */
  lemma AHeldLineNeverExpires(file: Entries, now: real, m: MissedLine)
    requires m in file && m.status.Held?
    ensures m in Live(file, now)
  {
    KeepElements(file, Unexpired(now));
  }

  /** A line with nothing set but its id and words. */
  function Line(priority: int, lineId: string, hold: bool): QueueItem {
    QueueItem(priority, Words("words"), 1.0, "", hold, 0, "", "", "", lineId, "q", "", "", 0, 0.0, "")
  }

  lemma NoEviction(lines: Lines, now: real)
    requires |lines| <= 2
    ensures IsEviction(Kept(lines, now), {})
  {
    assert Kept(lines, now).Keys <= lines.Keys;
    SmallerSet(Kept(lines, now).Keys, lines.Keys);
  }

  lemma SmallerSet(a: set<string>, b: set<string>)
    requires a <= b
    ensures |a| <= |b|
  {
    assert b == a + (b - a);
  }

  /** One more step in front of a run. */
  lemma Then(s: State, a: Action, rest: seq<Action>)
    requires Enabled(s, a) && IsRun(Step(s, a), rest)
    ensures IsRun(s, [a] + rest) && After(s, [a] + rest) == After(Step(s, a), rest)
  {
    assert ([a] + rest)[1..] == rest;
  }
}
