/** What each request takes out of the queue, item by item. */
module ProtocolQueue {
  import opened Options
  import opened Seqs
  import opened Ledger
  import opened Arbiter
  import opened MissedSpeech
  import opened SpeechProtocol

  /** Of a band exactly these items went: none of them is left, each other one
      is there as often as it was, and they are in their old order. */
  ghost predicate WentFrom(before: Items, after: Items, gone: QueueItem -> bool) {
    && PartOf(after, before)
    && forall q :: multiset(after)[q] == if gone(q) then 0 else multiset(before)[q]
  }

  ghost predicate WentFromAll(before: Bands, after: Bands, gone: QueueItem -> bool) {
    && WentFrom(before.p1, after.p1, gone) && WentFrom(before.p2, after.p2, gone)
    && WentFrom(before.p3, after.p3, gone) && WentFrom(before.p4, after.p4, gone)
  }

  lemma {:induction false} CountWithout(items: Items, match_: QueueItem -> bool, q: QueueItem)
    ensures multiset(Without(items, match_))[q] == if match_(q) then 0 else multiset(items)[q]
  {
    FilterSplits(items, match_);
  }

  lemma WithoutWent(items: Items, match_: QueueItem -> bool, gone: QueueItem -> bool)
    requires forall q :: match_(q) <==> gone(q)
    ensures WentFrom(items, Without(items, match_), gone)
  {
    PartOfItself(items);
    FilterIsPart(items, items, q => !match_(q));
    forall q ensures multiset(Without(items, match_))[q] == if gone(q) then 0 else multiset(items)[q] {
      CountWithout(items, match_, q);
    }
  }

  lemma RemovalWent(b: Bands, match_: QueueItem -> bool, gone: QueueItem -> bool)
    requires forall q :: match_(q) <==> gone(q)
    ensures WentFromAll(b, AfterRemoval(b, match_), gone)
  {
    WithoutWent(b.p1, match_, gone);
    WithoutWent(b.p2, match_, gone);
    WithoutWent(b.p3, match_, gone);
    WithoutWent(b.p4, match_, gone);
  }

  /** A barge-in takes all narration and autoplay and nothing else. */
  lemma ABargeInTakesTheLowerBands(s: State)
    ensures var after := Asked(s, Barge).bands;
            after.p1 == s.bands.p1 && after.p2 == s.bands.p2 && after.p3 == [] && after.p4 == []
  {
  }

  /** A heard line of the history, to be played again. */
  function PlayedAgain(): QueueItem -> bool { (q: QueueItem) => q.historyId != "" }

  /** The stop takes them too, and from the upper bands exactly the heard lines
      to be played again; it keeps the moment it first came, and the list. */
  lemma TheStopTakesHeardReplays(s: State)
    ensures WentFrom(s.bands.p1, Asked(s, Stop).bands.p1, PlayedAgain())
    ensures WentFrom(s.bands.p2, Asked(s, Stop).bands.p2, PlayedAgain())
    ensures Asked(s, Stop).bands.p3 == [] && Asked(s, Stop).bands.p4 == []
    ensures forall q :: Asked(s, Stop).bands.Has(q) ==> q.historyId == ""
    ensures Asked(s, Stop).stoppedSince == Some(if s.stoppedSince.Some? then s.stoppedSince.value else s.now)
    ensures Asked(s, Stop).missed == s.missed
  {
    StoppedBands(s);
    WithoutWent(s.bands.p1, IsHeardReplay(), PlayedAgain());
    WithoutWent(s.bands.p2, IsHeardReplay(), PlayedAgain());
    FilterSplits(s.bands.p1, IsHeardReplay());
    FilterSplits(s.bands.p2, IsHeardReplay());
  }

  lemma StoppedBands(s: State)
    ensures Asked(s, Stop).bands
         == Bands(Without(s.bands.p1, IsHeardReplay()), Without(s.bands.p2, IsHeardReplay()), [], [])
  {
  }

  /** Anything to be heard: the sentinel is not. */
  function ToBeHeard(): QueueItem -> bool { (q: QueueItem) => q.payload.Words? || q.payload.Wav? }

  /** A clear takes every line and leaves the sentinels. */
  lemma AClearTakesEveryLine(s: State)
    ensures WentFromAll(s.bands, Edited(s, QueueClear).bands, ToBeHeard())
  {
    RemovalWent(s.bands, IsLine(), ToBeHeard());
  }

  function ToBeHeardAs(queueIds: set<string>): QueueItem -> bool {
    (q: QueueItem) => q.queueId in queueIds && (q.payload.Words? || q.payload.Wav?)
  }

  /** A removal takes exactly the lines it names. */
  lemma ARemovalTakesWhatItNames(s: State, queueIds: set<string>)
    ensures WentFromAll(s.bands, Edited(s, QueueRemove(queueIds)).bands, ToBeHeardAs(queueIds))
  {
    RemovalWent(s.bands, IsNamed(queueIds), ToBeHeardAs(queueIds));
  }

  /** A heard line that some run but this one queued. */
  function OfARunBut(run: nat): QueueItem -> bool {
    (q: QueueItem) => q.historyId != "" && q.controlRun != 0 && q.controlRun != run
  }

  lemma OtherRunsAre(run: nat)
    ensures forall q :: OfOtherRun(run)(q) <==> OfARunBut(run)(q)
  {
  }

  /** A new run of the control gets the next number, and takes exactly the
      heard lines of the other runs, not those of no run. */
  lemma ANewRunReplacesTheOld(s: State)
    ensures DoBeginRun(s).runOpen == DoBeginRun(s).runs == s.runs + 1
    ensures WentFromAll(s.bands, DoBeginRun(s).bands, OfARunBut(s.runs + 1))
  {
    OtherRunsAre(s.runs + 1);
    RemovalWent(s.bands, OfOtherRun(s.runs + 1), OfARunBut(s.runs + 1));
    assert DoBeginRun(s).bands == AfterRemoval(s.bands, OfOtherRun(s.runs + 1));
  }
}
