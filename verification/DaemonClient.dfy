/** The caller's side: one speak, or one replay of a missed entry, sent over a
    socket that may lose the request or the reply, tried again with the same
    line id. */
module DaemonClient {
  import opened Options
  import opened Seqs
  import opened Ledger
  import opened Arbiter
  import opened MissedSpeech
  import opened SpeechProtocol
  import opened ProtocolInvariant
  import opened ProtocolTheorems
  import opened ProtocolSends
  import opened ProtocolStops

  /** What the daemon finds and gives as a request arrives: the cached file of
      the words, if there is one, the item's queue id and the time it shows. */
  datatype Found = Found(cached: Option<string>, queueId: string, saidAt: real)

  /** How one attempt goes: what the daemon does first, whether the request
      reaches it (and what its ledger then evicts), whether the reply is read. */
  datatype Attempt = Attempt(before: seq<Action>, arrives: bool, found: Found, evicted: set<string>, answered: bool)

  /** The item the daemon makes of the call: the ids are the call's. */
  function Made(call: QueueItem, found: Found): QueueItem {
    call.(payload := if found.cached.Some? then Wav(found.cached.value) else Words(LineText(call)),
          lineText := if found.cached.Some? then LineText(call) else "",
          queueId := found.queueId, saidAt := found.saidAt)
  }

  /** What the daemon sees of the attempts: nothing is sent after a reply. */
  function Traffic(call: QueueItem, attempts: seq<Attempt>): seq<Action>
    decreases |attempts|
  {
    if attempts == [] then []
    else
      Reaching(call, attempts[0])
      + if attempts[0].arrives && attempts[0].answered then [] else Traffic(call, attempts[1..])
  }

  /** What reaches the daemon up to the end of one attempt. */
  function Reaching(call: QueueItem, a: Attempt): seq<Action> {
    a.before + if a.arrives then [Speak(Made(call, a.found), a.evicted)] else []
  }

  predicate Answered(attempts: seq<Attempt>) {
    exists k :: 0 <= k < |attempts| && attempts[k].arrives && attempts[k].answered
  }

  lemma TrafficOn(call: QueueItem, attempts: seq<Attempt>, k: nat)
    requires k < |attempts|
    ensures Traffic(call, attempts[k..])
         == Reaching(call, attempts[k])
            + if attempts[k].arrives && attempts[k].answered then [] else Traffic(call, attempts[k + 1..])
  {
    assert attempts[k..][1..] == attempts[k + 1..];
  }

  /** One attempt more, of what is seen in all. */
  lemma SeenSoFar(seen: seq<Action>, call: QueueItem, attempts: seq<Attempt>, k: nat)
    requires k < |attempts|
    ensures seen + Traffic(call, attempts[k..])
         == (seen + Reaching(call, attempts[k]))
            + if attempts[k].arrives && attempts[k].answered then [] else Traffic(call, attempts[k + 1..])
  {
    TrafficOn(call, attempts, k);
    SumAgain(seen, Reaching(call, attempts[k]),
             if attempts[k].arrives && attempts[k].answered then [] else Traffic(call, attempts[k + 1..]));
  }

  /** The daemon's record of what reached it. */
  class Wire {
    ghost var seen: seq<Action>

    constructor ()
      ensures seen == []
    {
      seen := [];
    }

    method Send(call: QueueItem, a: Attempt) returns (replied: bool)
      modifies this
      ensures seen == old(seen) + Reaching(call, a)
      ensures replied == (a.arrives && a.answered)
    {
      seen := seen + Reaching(call, a);
      replied := a.arrives && a.answered;
    }
  }

  class Client {
    const maxRetries: nat
    const wire: Wire

    constructor (maxRetries: nat, wire: Wire)
      ensures this.maxRetries == maxRetries && this.wire == wire
    {
      this.maxRetries, this.wire := maxRetries, wire;
    }

    /** Every attempt carries one id: the caller's, else one made for the call.
        `attempts` says how each of the tries would go. */
    method Speak(words: QueueItem, made: string, attempts: seq<Attempt>) returns (ok: bool, sent: QueueItem)
      requires made != "" && |attempts| == maxRetries + 1
      modifies wire
      ensures sent == words.(lineId := if words.lineId != "" then words.lineId else made) && sent.lineId != ""
      ensures wire.seen == old(wire.seen) + Traffic(sent, attempts)
      ensures ok <==> Answered(attempts)
    {
      sent := words.(lineId := if words.lineId != "" then words.lineId else made);
      ghost var all := wire.seen + Traffic(sent, attempts);
      assert attempts[0..] == attempts;
      var attempt := 0;
      while attempt < maxRetries + 1
        invariant attempt <= maxRetries + 1
        invariant forall k :: 0 <= k < attempt ==> !(attempts[k].arrives && attempts[k].answered)
        invariant wire.seen + Traffic(sent, attempts[attempt..]) == all
      {
        SeenSoFar(wire.seen, sent, attempts, attempt);
        var replied := wire.Send(sent, attempts[attempt]);
        if replied { return true, sent; }
        attempt := attempt + 1;
      }
      assert attempts[attempt..] == [];
      ok := false;
    }
  }

  // ------------------------------------------------------------------ lemmas

  lemma RefusedAgain(lines: Lines, id: string, text: string, now: real, e1: set<string>, e2: set<string>)
    requires id != "" && IsEviction(Kept(lines, now), e1) && IsEviction(Kept(AfterAdmit(lines, id, text, now, e1), now), e2)
    ensures Refused(AfterAdmit(lines, id, text, now, e1), id, now, e2)
  {
    var after := AfterAdmit(lines, id, text, now, e1);
    AdmitTouchesOneLine(lines, id, text, now, e1);
    if after[id].Active() {
      AnActiveIdIsRefused(after, id, now, e2);
    } else {
      ADoneIdIsRefusedAgain(lines, id, text, now, e1, e2);
    }
  }

  lemma AnActiveIdIsRefused(lines: Lines, id: string, now: real, evicted: set<string>)
    requires id != "" && ActiveIn(lines, id) && IsEviction(Kept(lines, now), evicted)
    ensures Refused(lines, id, now, evicted)
  {
    assert id !in SettledIds(Kept(lines, now));
  }

  lemma ADoneIdIsRefusedAgain(lines: Lines, id: string, text: string, now: real, e1: set<string>, e2: set<string>)
    requires id != "" && Refused(lines, id, now, e1) && !lines[id].Active()
    requires IsEviction(Kept(lines, now), e1) && IsEviction(Kept(AfterAdmit(lines, id, text, now, e1), now), e2)
    ensures Refused(AfterAdmit(lines, id, text, now, e1), id, now, e2)
  {
    AdmitOfABlockedIdStaysWithin(lines, id, text, now, e1);
    assert e2 == {};
  }

  lemma AdmitOfABlockedIdStaysWithin(lines: Lines, id: string, text: string, now: real, evicted: set<string>)
    requires id != "" && Refused(lines, id, now, evicted) && !lines[id].Active()
    requires IsEviction(Kept(lines, now), evicted)
    ensures var after := AfterAdmit(lines, id, text, now, evicted);
            Kept(after, now).Keys == after.Keys && |Kept(after, now)| <= MAX_LINES
  {
    PruneKeepsWithinLimit(lines, now, evicted);
    var pruned, after := Pruned(lines, now, evicted), AfterAdmit(lines, id, text, now, evicted);
    assert pruned[id] == lines[id];
    assert after.Keys == pruned.Keys;
    assert Kept(after, now).Keys == after.Keys;
    assert |after.Keys| == |after| && |pruned.Keys| == |pruned|;
    assert |Kept(after, now).Keys| == |Kept(after, now)|;
  }

  lemma RemoveLineTwice(missed: Entries, lineId: string)
    ensures RemoveLine(RemoveLine(missed, lineId), lineId) == RemoveLine(missed, lineId)
  {
    if lineId != "" {
      KeepElements(missed, NotLine(lineId));
      KeepEverything(Keep(missed, NotLine(lineId)), NotLine(lineId));
    }
  }

  lemma ForgetTwice(missed: Entries, lineId: string, missedId: string, now: real)
    ensures var once := Forget(missed, lineId, missedId, now); Forget(once, lineId, missedId, now) == once
  {
    RemoveLineTwice(missed, lineId);
    var a, once := RemoveLine(missed, lineId), Forget(missed, lineId, missedId, now);
    KeepElements(missed, NotLine(lineId));
    KeepElements(a, Unexpired(now));
    KeepElements(Live(a, now), NotId(missedId));
    if missedId != "" {
      if lineId != "" { KeepEverything(once, NotLine(lineId)); }
      KeepEverything(once, Unexpired(now));
      KeepEverything(once, NotId(missedId));
    }
  }

  /** A resend of a line the stop set aside, which no replay is. */
  predicate KeptOut(s: State, item: QueueItem) { !IsReplay(item) && KeptByStop(s, item.lineId) }

  /** What a refused delivery does: nothing to the queue, and only a heard
      line, with the entry it replays, is taken off the missed list. */
  lemma RefusedLeavesTheQueue(s: State, item: QueueItem, evicted: set<string>)
    requires item.lineId != "" && Refused(s.lines, item.lineId, s.now, evicted)
    ensures var after := DoSpeak(s, item, evicted);
            && after.bands == s.bands && after.hand == s.hand
            && after.missed == if !KeptOut(s, item) && s.lines[item.lineId].state.Done?
                               then Forget(s.missed, item.lineId, item.missedId, s.now) else s.missed
  {
  }

  /** A first delivery that is not kept out leaves the id active, or done and
      off the missed list. */
  lemma AfterTheFirst(s: State, item: QueueItem, e1: set<string>)
    requires item.lineId != "" && !KeptOut(s, item)
    ensures var s1 := DoSpeak(s, item, e1);
            && s1.lines == AfterAdmit(s.lines, item.lineId, LineText(item), s.now, e1) && s1.now == s.now
            && item.lineId in s1.lines
            && (s1.lines[item.lineId].state.Done? ==> s1.missed == Forget(s.missed, item.lineId, item.missedId, s.now))
  {
    AdmitTouchesOneLine(s.lines, item.lineId, LineText(item), s.now, e1);
  }

  /** Two items made of one call: the daemon may have found the words cached in
      between, and numbers every item anew. */
  predicate SameCall(a: QueueItem, b: QueueItem) { a.lineId == b.lineId && a.missedId == b.missedId }

  /** A second delivery right after the first changes nothing that plays. */
  lemma AResendIsNotQueued(s: State, item: QueueItem, again: QueueItem, e1: set<string>, e2: set<string>)
    requires Inv(s) && item.lineId != "" && SameCall(item, again) && Evicts(s, e1) && Evicts(DoSpeak(s, item, e1), e2)
    ensures var s1, s2 := DoSpeak(s, item, e1), DoSpeak(DoSpeak(s, item, e1), again, e2);
            s2.bands == s1.bands && s2.hand == s1.hand && s2.missed == s1.missed
  {
    if KeptOut(s, item) {
      AResendOfASetAsideLineIsNotQueued(s, item, e1);
      AResendOfASetAsideLineIsNotQueued(s, again, e2);
    } else {
      AfterTheFirst(s, item, e1);
      RefusedAgain(s.lines, item.lineId, LineText(item), s.now, e1, e2);
      RefusedLeavesTheQueue(DoSpeak(s, item, e1), again, e2);
      ForgetTwice(s.missed, item.lineId, item.missedId, s.now);
    }
  }

  predicate AllDeliver(acts: seq<Action>, call: QueueItem) {
    forall k :: 0 <= k < |acts| ==> acts[k].Speak? && SameCall(acts[k].said, call)
  }

  /** However many of a call's attempts reach the daemon one after the other,
      the queue, the line in hand and the missed list are as after one. */
  lemma {:induction false} ManyDeliveriesAreOne(s: State, call: QueueItem, acts: seq<Action>)
    requires Inv(s) && call.lineId != "" && acts != [] && AllDeliver(acts, call) && IsRun(s, acts)
    ensures var once, all := Step(s, acts[0]), After(s, acts);
            all.bands == once.bands && all.hand == once.hand && all.missed == once.missed
    decreases |acts|
  {
    var once := Step(s, acts[0]);
    StepKeepsInv(s, acts[0]);
    if |acts| > 1 {
      assert acts[1..][0] == acts[1];
      AResendIsNotQueued(s, Arriving(s, acts[0].said), Arriving(once, acts[1].said), acts[0].evicted, acts[1].evicted);
      ManyDeliveriesAreOne(once, call, acts[1..]);
    }
  }

  /** A request for a cached line by its hash carries no id: every delivery of
      it queues one more. */
  lemma {:induction false} WithoutAnIdEachDeliveryQueues(s: State, call: QueueItem, acts: seq<Action>)
    requires call.lineId == "" && AllDeliver(acts, call) && IsRun(s, acts)
    ensures After(s, acts).bands.Depth() == s.bands.Depth() + |acts|
    decreases |acts|
  {
    if acts != [] { WithoutAnIdEachDeliveryQueues(Step(s, acts[0]), call, acts[1..]); }
  }

  // --------------------------------------------- one call, with all in between

  /** A call that got its reply: the last thing that reached the daemon is a
      delivery of it. */
  lemma {:induction false} AnsweredEndsWithADelivery(call: QueueItem, attempts: seq<Attempt>)
    returns (front: seq<Action>, last: Action)
    requires Answered(attempts)
    ensures Traffic(call, attempts) == front + [last] && last.Speak? && SameCall(last.said, call)
    decreases |attempts|
  {
    var a, rest := attempts[0], attempts[1..];
    if a.arrives && a.answered {
      front, last := a.before, Speak(Made(call, a.found), a.evicted);
    } else {
      var k :| 0 <= k < |attempts| && attempts[k].arrives && attempts[k].answered;
      assert rest[k - 1] == attempts[k];
      front, last := AnsweredEndsWithADelivery(call, rest);
      SumAgain(Reaching(call, a), front, [last]);
      front := Reaching(call, a) + front;
    }
  }

  /** A delivery leaves the line queued or playing, heard, or waiting on the
      missed list for a replay. */
  lemma ADeliveryIsAccountedFor(s: State, a: Action)
    requires Inv(s) && Enabled(s, a) && a.Speak? && a.said.lineId != ""
    ensures var after, id := Step(s, a), a.said.lineId;
            ActiveIn(after.lines, id) || DoneIn(after.lines, id) || KeptByStop(after, id)
  {
    var item := Arriving(s, a.said);
    if !KeptOut(s, item) {
      AdmitTouchesOneLine(s.lines, item.lineId, LineText(item), s.now, a.evicted);
      AdmittedExactlyWhen(s.lines, item.lineId, s.now, a.evicted);
    }
  }

  lemma AnAnsweredCallIsAccountedFor(s: State, call: QueueItem, attempts: seq<Attempt>)
    requires Inv(s) && call.lineId != "" && IsRun(s, Traffic(call, attempts)) && Answered(attempts)
    ensures var after, id := After(s, Traffic(call, attempts)), call.lineId;
            ActiveIn(after.lines, id) || DoneIn(after.lines, id) || KeptByStop(after, id)
  {
    var front, last := AnsweredEndsWithADelivery(call, attempts);
    RunsPart(s, front, [last]);
    RunKeepsInv(s, front);
    ADeliveryIsAccountedFor(After(s, front), last);
  }

  lemma OneCopySpaced(s: State, id: string)
    requires Inv(s) && id != ""
    ensures Carriers(s.bands, s.hand, id) <= 1 && Spaced(s.log)
  {
    CarriersMeanActive(s, id);
  }

  /** One call, whatever the daemon does before and between its attempts and
      however many of them arrive. At most one queues the line, unless the line
      is let go in between; at most one copy is there to play; and when a reply
      was read the line is queued or playing, heard, or waiting on the list. */
  lemma OneCallOneCopy(s: State, call: QueueItem, attempts: seq<Attempt>)
    requires Inv(s) && call.lineId != "" && IsRun(s, Traffic(call, attempts))
    ensures var acts, id := Traffic(call, attempts), call.lineId; var after := After(s, acts);
            && Bit(ActiveIn(s.lines, id)) + Queuings(s, acts, id) == LetGos(s, acts, id) + Bit(ActiveIn(after.lines, id))
            && (LetGos(s, acts, id) == 0 ==> Queuings(s, acts, id) <= if ActiveIn(s.lines, id) then 0 else 1)
            && Carriers(after.bands, after.hand, id) <= 1 && Spaced(after.log)
            && (Answered(attempts) ==> ActiveIn(after.lines, id) || DoneIn(after.lines, id) || KeptByStop(after, id))
  {
    var acts, id := Traffic(call, attempts), call.lineId;
    RunKeepsInv(s, acts);
    QueuedAsOftenAsLetGo(s, acts, id);
    OneCopySpaced(After(s, acts), id);
    if Answered(attempts) { AnAnsweredCallIsAccountedFor(s, call, attempts); }
  }
}
