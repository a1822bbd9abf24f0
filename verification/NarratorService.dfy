/** The daemon itself: the object whose handlers and worker change the ledger,
    the queue and the missed list in place. Each method is proved to do the
    step of SpeechProtocol it stands for. */
module Narrator {
  import opened Options
  import opened Ledger
  import opened Arbiter
  import opened MissedSpeech
  import opened SpeechProtocol

  class NarratorService {
    const ledger: LineLedger
    const arbiter: PriorityArbiter
    const missed: MissedList
    const maxQueue: int
    const maxRetries: nat
    var now: real
    var hand: Hand
    var stoppedSince: Option<real>
    var stopping: bool
    var shutdownCut: bool
    var runs: nat
    var runOpen: nat
    var holdEnded: Option<real>
    ghost var orphans: set<string>
    ghost var log: seq<Event>

    ghost predicate Valid()
      reads this, arbiter, missed
    {
      missed.Valid() && arbiter.maxsize == maxQueue
    }

    ghost function View(): State
      reads this, ledger, arbiter, missed
    {
      State(now, ledger.lines, arbiter.View(), hand, missed.file, stoppedSince, stopping, shutdownCut, runs, runOpen, holdEnded,
            maxQueue, maxRetries, orphans, log)
    }

    constructor (now: real, maxQueue: int, maxRetries: nat)
      ensures Valid() && View() == Initial(now, maxQueue, maxRetries)
      ensures fresh(ledger) && fresh(arbiter) && fresh(missed)
    {
      ledger := new LineLedger();
      arbiter := new PriorityArbiter(maxQueue);
      missed := new MissedList();
      this.now, this.maxQueue, this.maxRetries := now, maxQueue, maxRetries;
      hand, stoppedSince, stopping, shutdownCut, runs, runOpen, holdEnded := Empty, None, false, false, 0, 0, None;
      orphans, log := {}, [];
    }

    // ---------------------------------------------------------------- requests

    /** Whether a live entry says the stop set this line aside. */
    method StoppedEntry(lineId: string) returns (kept: bool)
      requires Valid()
      ensures kept <==> lineId != "" && KeptByStop(View(), lineId)
    {
      if lineId == "" { return false; }
      var lines := missed.Read(now, false);
      KeepElements(missed.file, Unexpired(now));
      for i := 0 to |lines|
        invariant forall k :: 0 <= k < i ==> !(lines[k].lineId == lineId && lines[k].reason.Stopped? && lines[k].status.Missed?)
      {
        if lines[i].lineId == lineId && lines[i].reason.Stopped? && lines[i].status.Missed? {
          assert lines[i] in missed.file && SetAsideByStop(lines[i], now);
          return true;
        }
      }
      return false;
    }

    /** A speak request, or a replay of a missed line, becomes an item now. */
    method Dispatch(request: QueueItem) returns (queued: bool, ghost evicted: set<string>)
      requires Valid() && EXPLICIT_MCP <= request.priority
      requires request.lineId == "" ==> HasRoom(View(), request.priority)
      requires forall e: set<string> :: Evicts(View(), e) && Queues(View(), request, e) ==> HasRoom(View(), request.priority)
      modifies this, ledger, arbiter, missed
      ensures Valid() && View() == DoSpeak(old(View()), Arriving(old(View()), request), evicted)
      ensures request.lineId != "" && (IsReplay(request) || !KeptByStop(old(View()), request.lineId)) ==> Evicts(old(View()), evicted)
      ensures queued <==> Queues(old(View()), request, evicted)
    {
      var item := request.(enqueuedAt := now);
      assert forall e: set<string> :: Queues(View(), item, e) <==> Queues(View(), request, e);
      queued, evicted := Speak(item);
    }

    /** Queued, or answered as a duplicate. Where it queues, the wait for room
        is over. */
    method Speak(item: QueueItem) returns (queued: bool, ghost evicted: set<string>)
      requires Valid() && EXPLICIT_MCP <= item.priority
      requires item.lineId == "" ==> HasRoom(View(), item.priority)
      requires forall e: set<string> :: Evicts(View(), e) && Queues(View(), item, e) ==> HasRoom(View(), item.priority)
      modifies this, ledger, arbiter, missed
      ensures Valid()
      ensures item.lineId != "" && (item.missedId != "" || !KeptByStop(old(View()), item.lineId)) ==> Evicts(old(View()), evicted)
      ensures View() == DoSpeak(old(View()), item, evicted)
      ensures queued <==> Queues(old(View()), item, evicted)
    {
      evicted := {};
      var id := item.lineId;
      if item.missedId == "" {
        var kept := StoppedEntry(id);
        if kept { return false, evicted; }
      }
      if id != "" {
        var seen;
        seen, evicted := ledger.Admit(id, LineText(item), now);
        log := log + [Evicted(evicted)];
        if seen.Some? {
          if seen.value.state.Done? { ForgetMissed(id, item.missedId); }
          return false, evicted;
        }
        assert Evicts(old(View()), evicted) && Queues(old(View()), item, evicted);
      }
      assert HasRoom(old(View()), item.priority);
      Enqueue(item);
      return true, evicted;
    }

    /** Onto the queue, where there is room for it. */
    method Enqueue(item: QueueItem)
      requires Valid() && USER_INTERRUPT <= item.priority && HasRoom(View(), item.priority)
      modifies arbiter
      ensures Valid() && View() == old(View()).(bands := AtTail(old(View()).bands, item))
    {
      var dropped := arbiter.Enqueue(item);
    }

    /** Takes a heard line's entries off: those of its line id, then the one it
        was replayed from. */
    method ForgetMissed(lineId: string, missedId: string)
      requires Valid()
      modifies missed
      ensures Valid() && missed.file == Forget(old(missed.file), lineId, missedId, now)
    {
      if lineId != "" {
        var gone := missed.RemoveLineEntries(lineId);
      }
      if missedId != "" {
        var gone := missed.Remove(missedId, now);
      }
    }

    /** A barge-in: the sink stops, the narration bands empty, and the ledger
        lets their ids be sent again. */
    method HandleP1Interrupt()
      requires Valid()
      modifies this, ledger, arbiter
      ensures Valid() && View() == DoBarge(old(View()))
    {
      hand := SinkInterrupted(hand);
      var before := QueuedIds(arbiter.View());
      var count := arbiter.PurgeLowerQueues();
      var gone := before - QueuedIds(arbiter.View());
      DropEach(gone, if stoppedSince.Some? then "stopped" else "interrupted");
    }

    method DropEach(ids: set<string>, reason: string)
      requires Valid()
      modifies ledger
      ensures ledger.lines == DropAll(old(ledger.lines), ids, now, reason)
    {
      var rest := ids;
      ghost var dropped: set<string> := {};
      NothingDropped(ledger.lines, now, reason);
      while rest != {}
        invariant dropped + rest == ids && dropped !! rest
        invariant ledger.lines == DropAll(old(ledger.lines), dropped, now, reason)
        decreases |rest|
      {
        var id :| id in rest;
        DropOneMore(old(ledger.lines), dropped, id, now, reason);
        ledger.MarkDropped(id, now, reason, "");
        rest := rest - {id};
        dropped := dropped + {id};
      }
      assert dropped == ids;
    }

    /** The stop: what plays ends, the queue is cleared of narration and of
        heard replays, and nothing plays until a play or resume. */
    method StopSpeech()
      requires Valid()
      modifies this, ledger, arbiter
      ensures Valid() && View() == DoStop(old(View()))
    {
      if stoppedSince.None? { stoppedSince := Some(now); }
      HandleP1Interrupt();
      var cleared := arbiter.RemoveWhere(IsHeardReplay());
    }

    /** The stop ends, and only that. How many lines it left on the missed
        list; -1 when speech was not stopped. */
    method ResumeSpeech() returns (n: int)
      requires Valid()
      modifies this
      ensures Valid() && View() == Step(old(View()), Resume)
      ensures n == if old(stoppedSince).None? then -1
                   else |Keep(Live(missed.file, now), LeftByStop())|
    {
      if stoppedSince.None? { return -1; }
      stoppedSince := None;
      var lines := missed.Read(now, false);
      return |Keep(lines, LeftByStop())|;
    }

    /** Adds a line from outside, unless the ledger holds it as done or the live
        list has it already. */
    method AddMissedLine(line: MissedLine) returns (duplicate: bool)
      requires Valid()
      modifies missed
      ensures Valid() && View() == DoAddMissed(old(View()), line)
      ensures duplicate <==> line.lineId != "" && (DoneIn(ledger.lines, line.lineId) || HasLine(Live(old(missed.file), now), line.lineId))
    {
      var done := ledger.IsDone(line.lineId);
      if done { return true; }
      var held := missed.Find(line.lineId, now);
      if held.Some? { return true; }
      var stored := missed.Miss(line, Added, 0.0, [], now);
      return false;
    }

    method TakeOut(match_: QueueItem -> bool, reason: string) returns (n: nat)
      requires Valid()
      modifies ledger, arbiter
      ensures Valid() && View() == DoTakeOut(old(View()), match_, reason)
      ensures n == |Removed(old(arbiter.View()), match_)|
    {
      var removed := arbiter.RemoveWhere(match_);
      DropEach(set q | q in removed :: q.lineId, reason);
      return |removed|;
    }

    method BeginControlRun() returns (n: nat)
      requires Valid()
      modifies this, arbiter
      ensures Valid() && View() == DoBeginRun(old(View()))
    {
      runs := runs + 1;
      runOpen := runs;
      var removed := arbiter.RemoveWhere(OfOtherRun(runs));
      return |removed|;
    }

    /** A narration, with drop-oldest backpressure: a shed item comes back as
        its bare payload, so the ledger is not told of its id. */
    method EnqueueItem(item: QueueItem) returns (queued: bool)
      requires Valid() && item.priority == TOOL_NARRATION
      modifies this, arbiter
      ensures Valid() && View() == DoNarrate(old(View()), item)
    {
      if !Full() {
        Enqueue(item);
        return true;
      }
      var shed := arbiter.ShedOldestLowPriority();
      if shed.Some? && shed.value.lineId != "" { orphans := orphans + {shed.value.lineId}; }
      if !Full() {
        Enqueue(item);
        return true;
      }
      return false;
    }

    predicate Full()
      reads this, arbiter
    {
      maxQueue > 0 && arbiter.View().Depth() >= maxQueue
    }

    // ------------------------------------------------------- the worker's pass

    method TakeNext()
      requires Valid() && HandleCan(View(), Take)
      modifies this, arbiter
      ensures Valid() && View() == Handled(old(View()), Take)
    {
      var item := arbiter.Dequeue();
      hand := InHand(item.value, Popped, None);
    }

    /** The line in hand goes on the missed list; the ledger drops its id and
        remembers the entry, so a replay is the same line. */
    method SetAside(reason: Reason, waited: real, heldFor: seq<string>, newId: string)
      requires Valid() && hand.InHand?
      modifies this, ledger, missed
      ensures Valid() && View() == DoSetAside(old(View()), reason, waited, heldFor, newId)
    {
      var item := hand.item;
      if item.historyId != "" {
        hand := hand.(phase := Failed);
        return;
      }
      var stored := missed.Miss(EntryInHand(hand, newId), reason, waited, heldFor, now);
      ledger.MarkDropped(item.lineId, now, ReasonText(reason), stored.id);
      hand := hand.(phase := Resolved);
    }

    /** A timed-out line queued again, whole; false when its tries are spent. */
    method Retry(payload: Payload, queueId: string) returns (again: bool)
      requires Valid() && hand.InHand? && EXPLICIT_MCP <= hand.item.priority && HasRoom(View(), hand.item.priority)
      modifies this, ledger, arbiter
      ensures Valid() && (again <==> old(hand).item.retries < maxRetries)
      ensures View() == if again then DoRetry(old(View()), payload, queueId) else old(View())
    {
      if hand.item.retries >= maxRetries { return false; }
      Enqueue(Again(hand, payload, queueId));
      ledger.MarkRequeued(hand.item.lineId, true);
      hand := hand.(phase := Resolved);
      return true;
    }

    method HoldStarts(newId: string, heldFor: seq<string>)
      requires Valid() && hand.InHand?
      modifies this, missed
      ensures Valid() && View() == DoHoldBegins(old(View()), newId, heldFor)
    {
      var stored := missed.Hold(EntryFor(hand.item, newId), heldFor, now);
      hand := hand.(phase := Holding(hand.phase.Looking? && hand.phase.aborted), held := Some(stored));
    }

    /** A hold ended without a play: noted if it slept, and the line set aside. */
    method HoldEnds(reason: Reason, slept: real, waited: real, heldFor: seq<string>)
      requires Valid() && hand.InHand?
      modifies this, ledger, missed
      ensures Valid() && View() == DoSetAside(Noted(old(View()), slept), reason, waited, heldFor, "")
    {
      if slept > 0.0 { holdEnded := Some(now); }
      SetAside(reason, waited, heldFor, "");
    }

    /** A hold ended after the line came, and it is older than `longest`. */
    method StaleBacklog(item: QueueItem, longest: real) returns (stale: bool, age: real)
      requires longest >= 0.0
      ensures stale ==> IsStale(View(), item)
      ensures stale <==> holdEnded.Some? && holdEnded.value >= item.enqueuedAt && now - item.enqueuedAt > longest
      ensures age >= 0.0 && (stale ==> age == now - item.enqueuedAt)
    {
      age := if now - item.enqueuedAt >= 0.0 then now - item.enqueuedAt else 0.0;
      if holdEnded.None? || holdEnded.value < item.enqueuedAt { return false, age; }
      stale := age > longest;
    }

    /** The next line of the queue onto the missed list, at the shutdown. */
    method DrainNext(newId: string)
      requires Valid() && arbiter.View().Depth() > 0
      modifies this, ledger, arbiter, missed
      ensures Valid() && View() == DoDrainOne(old(View()), newId)
    {
      var next := arbiter.Dequeue();
      var item := next.value;
      if item.historyId == "" {
        var stored := missed.Miss(EntryFor(item, newId), Restarted, 0.0, [], now);
        ledger.MarkDropped(item.lineId, now, ReasonText(Restarted), stored.id);
      }
    }

    /** The sink came back without an error: the line was heard. */
    method PlayEnded()
      requires Valid() && hand.InHand?
      modifies this, ledger, missed
      ensures Valid() && View() == DoPlayEnds(old(View()))
    {
      var item := hand.item;
      if hand.held.Some? {
        var gone := missed.Remove(hand.held.value.id, now);
      } else if item.missedId != "" {
        var gone := missed.Remove(item.missedId, now);
      }
      if item.lineId != "" {
        ledger.MarkDone(item.lineId, now);
        log := log + [Played(item.lineId, now)];
      }
      ForgetMissed(item.lineId, "");
      if hand.held.Some? { holdEnded := Some(now); }
      hand := hand.(phase := Resolved);
    }

    method PassEnds(cause: string)
      requires Valid() && hand.InHand?
      modifies this, ledger
      ensures Valid() && View() == old(View()).(lines := Settle(old(ledger.lines), old(hand).item.lineId, now, cause), hand := Empty)
    {
      ledger.EndPass(hand.item.lineId, now, cause);
      hand := Empty;
    }
  }

  function LeftByStop(): MissedLine -> bool { (m: MissedLine) => m.reason.Stopped? && m.status.Missed? }

  lemma NothingDropped(lines: Lines, now: real, reason: string)
    ensures DropAll(lines, {}, now, reason) == lines
  {
  }

  lemma DropOneMore(lines: Lines, ids: set<string>, id: string, now: real, reason: string)
    requires id !in ids
    ensures DropNow(DropAll(lines, ids, now, reason), id, now, reason, "") == DropAll(lines, ids + {id}, now, reason)
  {
  }
}
