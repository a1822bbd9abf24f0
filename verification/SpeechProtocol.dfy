/** The narrator as a step machine: requests that arrive, and the one worker's
    pass over the line it has in hand, over the ledger, the queue, the missed
    list, the listener's stop and the clock. One dispatched request is one step;
    the worker's pass is several. `orphans` and `log` are history only: no step
    looks at them. */
module SpeechProtocol {
  import opened Options
  import opened Ledger
  import opened Arbiter
  import opened MissedSpeech

  /** Where the worker is with the line in hand. Cleared: past its last look at
      the stop. Looking: in the gate, its first look at the other sound not
      over. Holding: at the top of the hold's loop, the abort not looked at yet.
      Polling: past that, in the sleep or the look after it. Blocked: queuing the
      line again (as a retry, or put back as it is) and waiting for room. Failed: the pass
      did nothing with the line. Resolved: it was played, set aside or queued
      again. */
  datatype Phase =
    | Popped | InPass | Working | Cleared
    | Looking(aborted: bool) | Holding(aborted: bool) | Polling(aborted: bool)
    | Sounding(cut: bool) | Blocked(retry: Option<Payload>, queueId: string) | Failed | Resolved
  {
    /** Before any hold. */
    predicate Early() { Popped? || InPass? || Working? || Cleared? || Looking? || (Blocked? && retry.None?) }

    /** In the gate, where a hold may be. */
    predicate AtTheGate() { Looking? || Holding? || Polling? }

    /** Past the last look at the stop, and the start not given up. */
    predicate MayStillStart() { Cleared? || Looking? || Polling? || (Holding? && !aborted) }
  }

  datatype Hand = Empty | InHand(item: QueueItem, phase: Phase, held: Option<MissedLine>) {
    /** The line in hand is still the worker's to play. */
    predicate Carries() { InHand? && !phase.Resolved? }
  }

  datatype Event = Played(id: string, at: real) | Evicted(ids: set<string>)

  datatype State = State(
    now: real,
    lines: Lines,
    bands: Bands,
    hand: Hand,
    missed: Entries,
    stoppedSince: Option<real>,
    stopping: bool,
    shutdownCut: bool,
    runs: nat,
    runOpen: nat,
    holdEnded: Option<real>,
    maxQueue: int,
    maxRetries: nat,
    orphans: set<string>,
    log: seq<Event>)
  {
    predicate Stopped() { stoppedSince.Some? }
  }

  /** A started daemon with an empty queue, ledger and missed list. */
  function Initial(now: real, maxQueue: int, maxRetries: nat): State {
    State(now, map[], EMPTY, Empty, [], None, false, false, 0, 0, None, maxQueue, maxRetries, {}, [])
  }

  datatype Action =
    // requests
    | Speak(said: QueueItem, evicted: set<string>)
    | ReplayNothing(gone: string)
    | ReplayHeard(heard: QueueItem)
    | Barge
    | Stop
    | Resume
    | AddMissed(line: MissedLine)
    | ClearMissed
    | ExpireMissed
    | SummarizeMeeting
    | QueueClear
    | QueueRemove(queueIds: set<string>)
    | QueueMove(queueId: string, to: int)
    | BeginRun
    | EndRun
    | Narrate(narration: QueueItem)
    | SeeEvent(eventId: string, evicted: set<string>)
    | Tick(seconds: real)
    | BeginShutdown
    | CutAtShutdown
    | DrainOne(drainedId: string)
    | Restart(evicted: set<string>)
    // the worker's pass
    | Take
    | MarkInPass
    | AsideAtShutdown(newId: string)
    | PutBack
    | Begin
    | SynthStarts
    | AsideEarly(why: Reason, newId: string, waited: real, heldFor: seq<string>)
    | SynthTimesOut(newId: string, queueId: string, spent: bool)
    | FindsItFull(again: Option<Payload>, againId: string)
    | GetsRoom
    | PassesStopCheck
    | GateOpens
    | HoldBegins(newId: string, heldFor: seq<string>)
    | HoldPolls
    | HoldStands
    | HoldExpires(why: Reason, slept: real, waited: real, heldFor: seq<string>)
    | HoldAborts(slept: real, waited: real, heldFor: seq<string>)
    | PlayStarts
    | PlayStalls(newId: string, queueId: string, kept: string, waited: real)
    | PlayCutByShutdown(newId: string, waited: real)
    | PlayEnds
    | PassFails
    | EndPass(cause: string)

  function ReasonText(r: Reason): string {
    match r
    case NoReason => ""
    case LongestWait => "longest wait"
    case Stale => "stale backlog"
    case Interrupted => "interrupted"
    case Restarted => "daemon restarted"
    case TimedOut => "timed out"
    case Meeting => "meeting"
    case Stopped => "stopped"
    case Added => "added"
  }

  // ------------------------------------------------------------------ requests

  predicate HasRoom(s: State, priority: int) {
    priority < TOOL_NARRATION || s.maxQueue <= 0 || s.bands.Depth() < s.maxQueue
  }

  predicate SetAsideByStop(m: MissedLine, now: real) {
    m.lineId != "" && m.status.Missed? && m.reason.Stopped? && !Expired(m, now)
  }

  /** The stop left this line on the missed list, and it is there unplayed. */
  predicate KeptByStop(s: State, lineId: string) {
    exists m :: m in s.missed && SetAsideByStop(m, s.now) && m.lineId == lineId
  }

  function Forget(missed: Entries, lineId: string, missedId: string, now: real): Entries {
    var a := RemoveLine(missed, lineId);
    if missedId != "" then RemoveId(a, missedId, now) else a
  }

  predicate Queues(s: State, item: QueueItem, evicted: set<string>) {
    item.lineId == ""
    || (!(item.missedId == "" && KeptByStop(s, item.lineId)) && !Refused(s.lines, item.lineId, s.now, evicted))
  }

  function DoSpeak(s: State, item: QueueItem, evicted: set<string>): State {
    var id := item.lineId;
    if id == "" then s.(bands := AtTail(s.bands, item))
    else if item.missedId == "" && KeptByStop(s, id) then s
    else
      var lines := AfterAdmit(s.lines, id, LineText(item), s.now, evicted);
      var log := s.log + [Evicted(evicted)];
      if !Refused(s.lines, id, s.now, evicted) then
        s.(lines := lines, log := log, bands := AtTail(s.bands, item))
      else if lines[id].state.Done? then
        s.(lines := lines, log := log, missed := Forget(s.missed, id, item.missedId, s.now))
      else
        s.(lines := lines, log := log)
  }

  function LineText(item: QueueItem): string {
    match item.payload
    case Words(words) => words
    case Wav(_) => item.lineText
    case Sentinel => ""
  }

  /** A speak that names a missed entry replays it. All that send one ask for
      it over other sound and explicitly; the daemon does not look whether the
      entry still stands, so a replay may come late, or come again. */
  predicate IsReplay(item: QueueItem) { item.missedId != "" }

  /** The item the daemon makes of a request that arrives now. */
  function Arriving(s: State, item: QueueItem): QueueItem { item.(enqueuedAt := s.now) }

  function PurgedIds(before: Bands, after: Bands): set<string> {
    QueuedIds(before) - QueuedIds(after)
  }

  function QueuedIds(b: Bands): set<string> {
    set q | q in b.All() && q.lineId != "" :: q.lineId
  }

  function DropAll(lines: Lines, ids: set<string>, now: real, reason: string): Lines {
    map id | id in lines :: if id in ids && id != "" then AfterDropped(lines[id], now, reason, "") else lines[id]
  }

  /** A barge-in stops the sink: the gate is told to give up, a clip is cut.
      Before the gate opens (which forgets what it was told) it does nothing. */
  function SinkInterrupted(hand: Hand): Hand {
    if hand.InHand? then hand.(phase := Interrupt(hand.phase)) else hand
  }

  function Interrupt(phase: Phase): Phase {
    match phase
    case Looking(_) => Looking(true)
    case Holding(_) => Holding(true)
    case Polling(_) => Polling(true)
    case Sounding(_) => Sounding(true)
    case _ => phase
  }

  function DoBarge(s: State): State {
    var after := AfterPurge(s.bands);
    s.(bands := after,
       hand := SinkInterrupted(s.hand),
       lines := DropAll(s.lines, PurgedIds(s.bands, after), s.now, if s.Stopped() then "stopped" else "interrupted"))
  }

  function IsHeardReplay(): QueueItem -> bool { (q: QueueItem) => q.historyId != "" }

  function DoStop(s: State): State {
    var stopped := DoBarge(s.(stoppedSince := if s.Stopped() then s.stoppedSince else Some(s.now)));
    stopped.(bands := AfterRemoval(stopped.bands, IsHeardReplay()))
  }

  function DoAddMissed(s: State, line: MissedLine): State {
    if line.lineId != "" && DoneIn(s.lines, line.lineId) then s
    else if line.lineId != "" && HasLine(Live(s.missed, s.now), line.lineId) then s
    else s.(missed := Upsert(s.missed, AsMissed(line, Added, 0.0, [], s.now), s.now).0)
  }

  function IsLine(): QueueItem -> bool { (q: QueueItem) => !q.payload.Sentinel? }

  function IsNamed(queueIds: set<string>): QueueItem -> bool {
    (q: QueueItem) => q.queueId in queueIds && !q.payload.Sentinel?
  }

  function OfOtherRun(run: nat): QueueItem -> bool {
    (q: QueueItem) => q.controlRun != 0 && q.controlRun != run && q.historyId != ""
  }

  function DoBeginRun(s: State): State {
    s.(runs := s.runs + 1, runOpen := s.runs + 1, bands := AfterRemoval(s.bands, OfOtherRun(s.runs + 1)))
  }

  /** Lines taken out of the queue: the ledger lets them be sent again. */
  function DoTakeOut(s: State, match_: QueueItem -> bool, reason: string): State {
    var removed := Removed(s.bands, match_);
    s.(bands := AfterRemoval(s.bands, match_),
       lines := DropAll(s.lines, set q | q in removed :: q.lineId, s.now, reason))
  }

  /** A narration queued with drop-oldest backpressure: the queue full, the
      oldest narration or autoplay line gives way, and the ledger is not told. */
  function DoNarrate(s: State, item: QueueItem): State {
    if s.maxQueue <= 0 || s.bands.Depth() < s.maxQueue then s.(bands := AtTail(s.bands, item))
    else
      var (bands, shed) := Shed(s.bands);
      var shedId := if shed.Some? then shed.value.lineId else "";
      var s1 := s.(bands := bands, orphans := if shedId != "" then s.orphans + {shedId} else s.orphans);
      if s1.bands.Depth() < s.maxQueue then s1.(bands := AtTail(s1.bands, item)) else s1
  }

  function DoSeeEvent(s: State, id: string, evicted: set<string>): State {
    var s1 := s.(lines := AfterAdmit(s.lines, id, "", s.now, evicted), log := s.log + [Evicted(evicted)]);
    if Refused(s.lines, id, s.now, evicted) then s1 else s1.(lines := DoneNow(s1.lines, id, s.now))
  }

  function DoRestart(s: State, evicted: set<string>): State {
    s.(lines := Loaded(s.lines, s.now, evicted),
       bands := EMPTY,
       hand := Empty,
       missed := Live(SettleHeld(s.missed, Restarted, s.now), s.now),
       stopping := false, shutdownCut := false, runs := 0, runOpen := 0, holdEnded := None, orphans := {},
       log := s.log + [Evicted(evicted)])
  }

  /** Shutting down, what is still queued goes on the missed list, one by one,
      while the worker may still have a line in hand. */
  function DoDrainOne(s: State, newId: string): State
    requires s.bands.Depth() > 0
  {
    var item := Next(s.bands);
    if item.historyId != "" then s.(bands := AfterNext(s.bands))
    else
      var (missed, stored) := Upsert(s.missed, DrainedEntry(item, newId, s.now), s.now);
      s.(bands := AfterNext(s.bands), missed := missed,
         lines := DropNow(s.lines, item.lineId, s.now, ReasonText(Restarted), stored.id))
  }

  function DrainedEntry(item: QueueItem, newId: string, now: real): MissedLine {
    AsMissed(EntryFor(item, newId), Restarted, 0.0, [], now)
  }

  // ----------------------------------------------------------- the worker's pass

  function EntryFor(item: QueueItem, newId: string): MissedLine {
    MissedLine(if item.missedId != "" then item.missedId else newId, LineText(item), item.enqueuedAt, Held, NoReason, [], 0.0,
               None, item.sourceHash, item.sessionId, false, "", item.lineId, item.originFile, item.sender)
  }

  /** The entry the line in hand is set aside as. */
  function EntryInHand(hand: Hand, newId: string): MissedLine
    requires hand.InHand?
  {
    if hand.held.Some? then hand.held.value else EntryFor(hand.item, newId)
  }

  /** A hold is over; that it ended is noted when it slept at all. */
  function Noted(s: State, slept: real): State { if slept > 0.0 then s.(holdEnded := Some(s.now)) else s }

  /** The line in hand goes on the missed list and is dropped in the ledger;
      a heard line played again stays in the history instead. */
  function DoSetAside(s: State, reason: Reason, waited: real, heldFor: seq<string>, newId: string): State
    requires s.hand.InHand?
  {
    var item := s.hand.item;
    if item.historyId != "" then s.(hand := s.hand.(phase := Failed))
    else
      var (missed, stored) := Upsert(s.missed, AsMissed(EntryInHand(s.hand, newId), reason, waited, heldFor, s.now), s.now);
      s.(missed := missed,
         lines := DropNow(s.lines, item.lineId, s.now, ReasonText(reason), stored.id),
         hand := s.hand.(phase := Resolved))
  }

  function Again(hand: Hand, payload: Payload, queueId: string): QueueItem
    requires hand.InHand?
  {
    hand.item.(payload := payload, queueId := queueId, retries := hand.item.retries + 1, lineText := LineText(hand.item),
               missedId := if hand.held.Some? then hand.held.value.id else hand.item.missedId,
               historyId := "", sender := "", controlRun := 0, saidAt := 0.0)
  }

  /** A timed-out line is queued again, whole. */
  function DoRetry(s: State, payload: Payload, queueId: string): State
    requires s.hand.InHand?
  {
    s.(bands := AtTail(s.bands, Again(s.hand, payload, queueId)),
       lines := Requeue(s.lines, s.hand.item.lineId, true),
       hand := s.hand.(phase := Resolved))
  }

  /** A line not yet tried again goes back as it is. */
  function DoPutBack(s: State): State
    requires s.hand.InHand?
  {
    s.(bands := AtTail(s.bands, s.hand.item), hand := Empty)
  }

  function DoHoldBegins(s: State, newId: string, heldFor: seq<string>): State
    requires s.hand.InHand?
  {
    var (missed, stored) := Upsert(s.missed, AsHeld(EntryFor(s.hand.item, newId), heldFor), s.now);
    s.(missed := missed, hand := s.hand.(phase := Holding(s.hand.phase.Looking? && s.hand.phase.aborted), held := Some(stored)))
  }

  /** The line was heard. */
  function DoPlayEnds(s: State): State
    requires s.hand.InHand?
  {
    var item := s.hand.item;
    var missed := if s.hand.held.Some? then RemoveId(s.missed, s.hand.held.value.id, s.now)
                  else if item.missedId != "" then RemoveId(s.missed, item.missedId, s.now)
                  else s.missed;
    s.(missed := RemoveLine(missed, item.lineId),
       lines := DoneNow(s.lines, item.lineId, s.now),
       hand := s.hand.(phase := Resolved),
       holdEnded := if s.hand.held.Some? then Some(s.now) else s.holdEnded,
       log := if item.lineId != "" then s.log + [Played(item.lineId, s.now)] else s.log)
  }

  // --------------------------------------------------------------- the machine

  predicate FreshEntry(s: State, id: string) { id != "" && !HasId(s.missed, id) }

  predicate In(s: State, phase: Phase) { s.hand.InHand? && s.hand.phase == phase }

  predicate IsLooking(s: State) { s.hand.InHand? && s.hand.phase.Looking? }

  predicate IsPolling(s: State) { s.hand.InHand? && s.hand.phase.Polling? }

  predicate IsSounding(s: State) { s.hand.InHand? && s.hand.phase.Sounding? }

  /** A hold ended after the line came, and it is older than the longest wait,
      whatever that is set to: it waited behind the other sound. */
  predicate IsStale(s: State, item: QueueItem) {
    s.holdEnded.Some? && s.holdEnded.value >= item.enqueuedAt && s.now > item.enqueuedAt
  }

  predicate Evicts(s: State, evicted: set<string>) { IsEviction(Kept(s.lines, s.now), evicted) }

  /** What callers and the listener ask of the lines and the missed list. */
  predicate Asks(a: Action) {
    a.Speak? || a.ReplayNothing? || a.ReplayHeard? || a.Barge? || a.Stop? || a.Resume?
    || a.AddMissed? || a.ClearMissed? || a.ExpireMissed? || a.SummarizeMeeting?
  }

  /** What is done to the queue, the runs, the clock and the daemon itself. */
  predicate Edits(a: Action) {
    a.QueueClear? || a.QueueRemove? || a.QueueMove? || a.BeginRun? || a.EndRun? || a.Narrate? || a.SeeEvent?
    || a.Tick? || a.BeginShutdown? || a.CutAtShutdown? || a.DrainOne? || a.Restart?
  }

  /** The worker goes on with the line in hand: nothing but the phase changes. */
  predicate OnlyMovesOn(a: Action) {
    a.Begin? || a.PassesStopCheck? || a.GateOpens? || a.HoldPolls? || a.HoldStands? || a.PassFails?
    || a.FindsItFull?
  }

  /** It goes on, and the ledger is told. */
  predicate Marks(a: Action) { a.MarkInPass? || a.SynthStarts? || a.PlayStarts? }

  /** The worker sets the line in hand aside or queues it again. */
  predicate LetsGo(a: Action) {
    a.AsideEarly? || a.SynthTimesOut? || a.HoldExpires? || a.HoldAborts? || a.PlayStalls?
    || a.PlayCutByShutdown?
  }

  /** The worker takes a line, holds it, has played it or is done with it. */
  predicate Handles(a: Action) {
    a.Take? || a.AsideAtShutdown? || a.PutBack? || a.GetsRoom? || a.HoldBegins? || a.PlayEnds? || a.EndPass?
  }

  predicate AskCan(s: State, a: Action)
    requires Asks(a)
  {
    match a
    case Speak(item, evicted) =>
      && Evicts(s, evicted) && item.historyId == "" && item.retries == 0
      && (IsReplay(item) ==> item.priority == EXPLICIT_MCP && !item.hold)
      && EXPLICIT_MCP <= item.priority && (Queues(s, item, evicted) ==> HasRoom(s, item.priority))
    case ReplayNothing(id) =>
      exists m :: m in Live(s.missed, s.now) && m.id == id && m.status.Missed? && m.text == "" && m.sourceHash == ""
    case ReplayHeard(item) =>
      item.historyId != "" && item.lineId == "" && item.missedId == "" && !item.hold && item.priority == EXPLICIT_MCP
      && item.controlRun == s.runOpen && item.retries == 0 && item.enqueuedAt == s.now
    case AddMissed(line) => FreshEntry(s, line.id)
    case _ => true
  }

  function Asked(s: State, a: Action): State
    requires Asks(a) && AskCan(s, a)
  {
    match a
    case Speak(item, evicted) => DoSpeak(s, Arriving(s, item), evicted)
    case ReplayNothing(id) => s.(missed := RemoveId(s.missed, id, s.now))
    case ReplayHeard(item) => s.(stoppedSince := None, bands := AtTail(s.bands, item))
    case Barge => DoBarge(s)
    case Stop => DoStop(s)
    case Resume => s.(stoppedSince := None)
    case AddMissed(line) => DoAddMissed(s, line)
    case ClearMissed => s.(missed := [])
    case ExpireMissed => s.(missed := Live(s.missed, s.now))
    case SummarizeMeeting => s.(missed := AfterSummary(s.missed, s.now))
  }

  predicate EditCan(s: State, a: Action)
    requires Edits(a)
  {
    match a
    case Narrate(item) =>
      item.lineId == "" && item.missedId == "" && item.historyId == "" && item.priority == TOOL_NARRATION && item.retries == 0
      && item.enqueuedAt == s.now
    case SeeEvent(id, evicted) => id != "" && Evicts(s, evicted) && !HasLine(s.missed, id)
    case Tick(seconds) => seconds >= 0.0
    case CutAtShutdown => s.stopping
    case DrainOne(newId) => s.stopping && s.bands.Depth() > 0 && FreshEntry(s, newId)
    case Restart(evicted) => IsEviction(Kept(Lost(s.lines, s.now), s.now), evicted)
    case _ => true
  }

  function Edited(s: State, a: Action): State
    requires Edits(a) && EditCan(s, a)
  {
    match a
    case QueueClear => DoTakeOut(s, IsLine(), "cleared")
    case QueueRemove(queueIds) => DoTakeOut(s, IsNamed(queueIds), "removed")
    case QueueMove(queueId, to) => s.(bands := AfterMove(s.bands, queueId, to).0)
    case BeginRun => DoBeginRun(s)
    case EndRun => s.(runOpen := 0)
    case Narrate(item) => DoNarrate(s, item)
    case SeeEvent(id, evicted) => DoSeeEvent(s, id, evicted)
    case Tick(seconds) => s.(now := s.now + seconds)
    case BeginShutdown => s.(stopping := true)
    case CutAtShutdown => s.(shutdownCut := true, hand := SinkInterrupted(s.hand))
    case DrainOne(newId) => DoDrainOne(s, newId)
    case Restart(evicted) => DoRestart(s, evicted)
  }

  /** The worker is at a put of the line in hand: for one more try, after its
      synthesis or its playback timed out, or back as it is, before a retry. */
  predicate QueuesAgain(s: State, again: Option<Payload>) {
    s.hand.InHand?
    && if again.None? then In(s, InPass) && s.hand.item.retries > 0
       else s.hand.item.retries < s.maxRetries
            && ((In(s, Working) && again.value == Words(LineText(s.hand.item))) || (IsSounding(s) && again.value.Wav?))
  }

  predicate MoveOnCan(s: State, a: Action)
    requires OnlyMovesOn(a)
  {
    match a
    case Begin => In(s, InPass) && (s.stopping ==> s.hand.item.retries > 0)
    case PassesStopCheck => In(s, Working) && !s.Stopped()
    case GateOpens => In(s, Cleared) && s.hand.item.hold
    case HoldPolls => In(s, Holding(false))
    case HoldStands => IsPolling(s)
    case FindsItFull(again, _) => QueuesAgain(s, again) && !HasRoom(s, s.hand.item.priority)
    case PassFails => In(s, Working) || In(s, Cleared) || IsLooking(s) || IsPolling(s) || IsSounding(s)
  }

  function PhaseAfter(s: State, a: Action): Phase
    requires OnlyMovesOn(a) && MoveOnCan(s, a)
  {
    match a
    case Begin => Working
    case PassesStopCheck => Cleared
    case GateOpens => Looking(false)
    case HoldPolls => Polling(false)
    case HoldStands => Holding(s.hand.phase.aborted)
    case FindsItFull(again, queueId) => Blocked(again, queueId)
    case PassFails => Failed
  }

  function MovedOn(s: State, a: Action): State
    requires OnlyMovesOn(a) && MoveOnCan(s, a)
  {
    s.(hand := s.hand.(phase := PhaseAfter(s, a)))
  }

  predicate MarkCan(s: State, a: Action)
    requires Marks(a)
  {
    match a
    case MarkInPass => In(s, Popped)
    case SynthStarts => In(s, Working)
    case PlayStarts => (In(s, Cleared) && !s.hand.item.hold) || IsLooking(s) || IsPolling(s)
  }

  function Marked(s: State, a: Action): State
    requires Marks(a) && MarkCan(s, a)
  {
    match a
    case MarkInPass => s.(hand := s.hand.(phase := InPass), lines := Taken(s.lines, s.hand.item.lineId))
    case SynthStarts => s.(lines := SynthStarted(s.lines, s.hand.item.lineId, s.now))
    case PlayStarts => s.(hand := s.hand.(phase := Sounding(false)), lines := PlayingNow(s.lines, s.hand.item.lineId, s.now))
  }

  predicate LetGoCan(s: State, a: Action)
    requires LetsGo(a)
  {
    match a
    case AsideEarly(why, newId, waited, heldFor) =>
      && s.hand.InHand? && FreshEntry(s, newId)
      && ((In(s, Working) && why.Stale? && IsStale(s, s.hand.item))
          || (In(s, Working) && why.Stopped? && s.Stopped())
          || ((In(s, Working) || IsLooking(s)) && why.Meeting? && s.hand.item.hold))
    case SynthTimesOut(newId, queueId, spent) =>
      In(s, Working) && FreshEntry(s, newId)
      && (!spent ==> s.hand.item.retries < s.maxRetries && HasRoom(s, s.hand.item.priority))
    case HoldExpires(why, slept, waited, heldFor) => IsPolling(s) && (why.Meeting? || why.LongestWait?)
    case HoldAborts(slept, waited, heldFor) => In(s, Holding(true)) && !s.shutdownCut
    case PlayStalls(newId, queueId, kept, waited) =>
      IsSounding(s) && FreshEntry(s, newId) && (s.hand.item.retries < s.maxRetries ==> HasRoom(s, s.hand.item.priority))
    case PlayCutByShutdown(newId, waited) => (IsSounding(s) || In(s, Holding(true))) && s.shutdownCut && FreshEntry(s, newId)
  }

  function LetGo(s: State, a: Action): State
    requires LetsGo(a) && LetGoCan(s, a)
  {
    match a
    case AsideEarly(why, newId, waited, heldFor) => DoSetAside(s, why, waited, heldFor, newId)
    case SynthTimesOut(newId, queueId, spent) =>
      if spent then DoSetAside(s, TimedOut, 0.0, [], newId) else DoRetry(s, Words(LineText(s.hand.item)), queueId)
    case HoldExpires(why, slept, waited, heldFor) => DoSetAside(Noted(s, slept), why, waited, heldFor, "")
    case HoldAborts(slept, waited, heldFor) => DoSetAside(Noted(s, slept), Interrupted, waited, heldFor, "")
    case PlayStalls(newId, queueId, kept, waited) =>
      if s.hand.item.retries >= s.maxRetries then DoSetAside(s, TimedOut, waited, [], newId) else DoRetry(s, Wav(kept), queueId)
    case PlayCutByShutdown(newId, waited) => DoSetAside(s, Restarted, waited, [], newId)
  }

  predicate HandleCan(s: State, a: Action)
    requires Handles(a)
  {
    match a
    case Take => s.hand.Empty? && s.bands.Depth() > 0
    case AsideAtShutdown(newId) => (In(s, Popped) || In(s, InPass)) && s.stopping && FreshEntry(s, newId)
    case PutBack => QueuesAgain(s, None) && HasRoom(s, s.hand.item.priority)
    case GetsRoom => s.hand.InHand? && s.hand.phase.Blocked? && HasRoom(s, s.hand.item.priority)
    case HoldBegins(newId, heldFor) => IsLooking(s) && FreshEntry(s, newId)
    case PlayEnds => IsSounding(s) && !s.shutdownCut
    case EndPass(_) => In(s, Failed) || In(s, Resolved)
  }

  function Handled(s: State, a: Action): State
    requires Handles(a) && HandleCan(s, a)
  {
    match a
    case Take => s.(bands := AfterNext(s.bands), hand := InHand(Next(s.bands), Popped, None))
    case AsideAtShutdown(newId) => LeaveHand(DoSetAside(s, Restarted, 0.0, [], newId))
    case PutBack => DoPutBack(s)
    case GetsRoom =>
      if s.hand.phase.retry.Some? then DoRetry(s, s.hand.phase.retry.value, s.hand.phase.queueId) else DoPutBack(s)
    case HoldBegins(newId, heldFor) => DoHoldBegins(s, newId, heldFor)
    case PlayEnds => DoPlayEnds(s)
    case EndPass(reason) => s.(lines := Settle(s.lines, s.hand.item.lineId, s.now, reason), hand := Empty)
  }

  /** When a step can happen. */
  predicate Enabled(s: State, a: Action) {
    if Asks(a) then AskCan(s, a)
    else if Edits(a) then EditCan(s, a)
    else if OnlyMovesOn(a) then MoveOnCan(s, a)
    else if Marks(a) then MarkCan(s, a)
    else if LetsGo(a) then LetGoCan(s, a)
    else HandleCan(s, a)
  }

  function Step(s: State, a: Action): State
    requires Enabled(s, a)
  {
    if Asks(a) then Asked(s, a)
    else if Edits(a) then Edited(s, a)
    else if OnlyMovesOn(a) then MovedOn(s, a)
    else if Marks(a) then Marked(s, a)
    else if LetsGo(a) then LetGo(s, a)
    else Handled(s, a)
  }

  /** The shutdown's set-aside ends the pass without the ledger's settle. */
  function LeaveHand(s: State): State { s.(hand := Empty) }

  predicate IsRun(s: State, acts: seq<Action>)
    decreases acts
  {
    acts == [] || (Enabled(s, acts[0]) && IsRun(Step(s, acts[0]), acts[1..]))
  }

  function After(s: State, acts: seq<Action>): State
    requires IsRun(s, acts)
    decreases acts
  {
    if acts == [] then s else After(Step(s, acts[0]), acts[1..])
  }
}
