/** What every step of the protocol keeps. */
module ProtocolInvariant {
  import opened Options
  import opened Seqs
  import opened Ledger
  import opened Arbiter
  import opened MissedSpeech
  import opened SpeechProtocol

  // ------------------------------------------------------- one id, one carrier

  function Count(items: Items, id: string): nat {
    if items == [] then 0 else (if items[0].lineId == id then 1 else 0) + Count(items[1..], id)
  }

  function BandsCount(b: Bands, id: string): nat {
    Count(b.p1, id) + Count(b.p2, id) + Count(b.p3, id) + Count(b.p4, id)
  }

  function HandCount(h: Hand, id: string): nat { if h.Carries() && h.item.lineId == id then 1 else 0 }

  /** How many things in the daemon could still play this line. */
  function Carriers(b: Bands, h: Hand, id: string): nat { BandsCount(b, id) + HandCount(h, id) }

  function Owed(lines: Lines, orphans: set<string>, id: string): nat {
    if ActiveIn(lines, id) && id !in orphans then 1 else 0
  }

  /** An id has one carrier when the ledger says queued or playing, and none
      otherwise; the orphans are the active ids that were shed. */
  ghost predicate Carry(lines: Lines, b: Bands, h: Hand, orphans: set<string>) {
    && (forall id :: id != "" ==> Carriers(b, h, id) == Owed(lines, orphans, id))
    && (forall id :: id in orphans ==> id != "" && ActiveIn(lines, id))
  }

  // -------------------------------------------------------- one play in a day

  predicate EvictedAfter(log: seq<Event>, i: nat, id: string) {
    exists k :: i < k < |log| && log[k].Evicted? && id in log[k].ids
  }

  /** Why the play at `i` is not followed by another too soon: the id was
      evicted since, or a day is over, or the ledger still refuses it. */
  predicate Covered(lines: Lines, log: seq<Event>, now: real, i: nat)
    requires i < |log| && log[i].Played?
  {
    EvictedAfter(log, i, log[i].id)
    || now - log[i].at >= KEEP_S
    || (DoneIn(lines, log[i].id) && lines[log[i].id].doneAt == Some(log[i].at))
  }

  predicate EvictedBetween(log: seq<Event>, i: nat, j: nat, id: string) {
    exists k :: i < k < j && k < |log| && log[k].Evicted? && id in log[k].ids
  }

  /** Two plays of one id are a day apart unless the id was evicted between. */
  predicate Spaced(log: seq<Event>) {
    forall i, j :: 0 <= i < j < |log| && log[i].Played? && log[j].Played? && log[i].id == log[j].id ==>
      log[j].at - log[i].at >= KEEP_S || EvictedBetween(log, i, j, log[i].id)
  }

  predicate Books(lines: Lines, log: seq<Event>, now: real) {
    && WellKept(lines, now)
    && (forall i :: 0 <= i < |log| && log[i].Played? ==> Covered(lines, log, now, i))
    && Spaced(log)
  }

  // --------------------------------------------------------- the missed list

  /** A line the ledger holds as done has no entry. */
  predicate HeardIsForgotten(lines: Lines, missed: Entries) {
    forall m :: m in missed && m.lineId != "" ==> !DoneIn(lines, m.lineId)
  }

  predicate ListInOrder(missed: Entries) {
    UniqueIds(missed) && OldestFirst(missed) && forall m :: m in missed ==> m.id != ""
  }

  predicate CarriedBy(b: Bands, h: Hand, q: QueueItem) { b.Has(q) || (h.Carries() && h.item == q) }

  /** Nothing but a replay carries a line the stop set aside: it names an entry
      and does not hold, as only replays do. */
  ghost predicate OnlyReplays(missed: Entries, b: Bands, h: Hand, now: real) {
    forall m, q :: m in missed && SetAsideByStop(m, now) && CarriedBy(b, h, q) && q.lineId == m.lineId ==>
      q.missedId != "" && !q.hold
  }

  ghost predicate ReplaysNameless(b: Bands, h: Hand) {
    forall q :: CarriedBy(b, h, q) && q.historyId != "" ==> q.lineId == "" && !q.hold
  }

  /** Only a line that holds is ever at the gate or recorded as held. */
  predicate HandInOrder(h: Hand) {
    h.InHand? ==>
      && (h.held.Some? ==> h.held.value.id != "" && h.held.value.lineId == h.item.lineId && h.item.historyId == "")
      && (h.phase.Holding? || h.phase.Polling? ==> h.held.Some?)
      && (h.held.Some? || h.phase.AtTheGate() ==> h.item.hold)
  }

  /** The ledger marks the line in hand for as long as it is the worker's. */
  predicate MarkedInPass(lines: Lines, h: Hand) {
    h.InHand? && !h.phase.Popped? && h.item.lineId != "" && h.item.lineId in lines ==>
      lines[h.item.lineId].inPass == h.Carries()
  }

  ghost predicate Inv(s: State) {
    && Carry(s.lines, s.bands, s.hand, s.orphans)
    && Books(s.lines, s.log, s.now)
    && HeardIsForgotten(s.lines, s.missed)
    && ListInOrder(s.missed)
    && OnlyReplays(s.missed, s.bands, s.hand, s.now)
    && ReplaysNameless(s.bands, s.hand)
    && HandInOrder(s.hand)
    && MarkedInPass(s.lines, s.hand)
  }

  // ------------------------------------------------------ counting in the bands

  lemma {:induction false} CountOfSum(a: Items, b: Items, id: string)
    ensures Count(a + b, id) == Count(a, id) + Count(b, id)
  {
    if a == [] {
      assert a + b == b;
    } else {
      CountOfSum(a[1..], b, id);
      FirstOfSum(a, b);
    }
  }

  lemma {:induction false} CountOfFilter(items: Items, match_: QueueItem -> bool, id: string)
    ensures Count(items, id) == Count(Filter(items, match_), id) + Count(Without(items, match_), id)
  {
    if items != [] {
      CountOfFilter(items[1..], match_, id);
      var not := (q: QueueItem) => !match_(q);
      assert Filter(items, match_) == (if match_(items[0]) then [items[0]] else []) + Filter(items[1..], match_);
      CountOfSum(if match_(items[0]) then [items[0]] else [], Filter(items[1..], match_), id);
      CountOfSum(if !match_(items[0]) then [items[0]] else [], Without(items[1..], match_), id);
    }
  }

  lemma {:induction false} CountPositive(items: Items, id: string)
    ensures Count(items, id) > 0 <==> exists q :: q in items && q.lineId == id
  {
    if items != [] {
      CountPositive(items[1..], id);
      assert items == [items[0]] + items[1..];
    }
  }

  lemma HasMeansCounted(b: Bands, id: string)
    ensures BandsCount(b, id) > 0 <==> exists q :: b.Has(q) && q.lineId == id
    ensures id != "" ==> (id in QueuedIds(b) <==> BandsCount(b, id) > 0)
  {
    CountPositive(b.p1, id);
    CountPositive(b.p2, id);
    CountPositive(b.p3, id);
    CountPositive(b.p4, id);
    forall q ensures q in b.All() <==> b.Has(q) {}
  }

  lemma TailCount(b: Bands, item: QueueItem, id: string)
    ensures BandsCount(AtTail(b, item), id) == BandsCount(b, id) + if item.lineId == id then 1 else 0
  {
    CountOfSum(b.Band(item.priority), [item], id);
    assert Count([item], id) == if item.lineId == id then 1 else 0;
  }

  lemma TailHas(b: Bands, item: QueueItem)
    ensures forall q :: AtTail(b, item).Has(q) <==> b.Has(q) || q == item
  {
  }

  lemma NextCount(b: Bands, id: string)
    requires b.Depth() > 0
    ensures BandsCount(b, id) == BandsCount(AfterNext(b), id) + if Next(b).lineId == id then 1 else 0
  {
  }

  lemma NextHas(b: Bands)
    requires b.Depth() > 0
    ensures forall q :: b.Has(q) <==> AfterNext(b).Has(q) || q == Next(b)
  {
    var p := FirstBusy(b);
    var band := b.Band(p);
    assert band == [band[0]] + band[1..];
  }

  lemma RemovalCount(b: Bands, match_: QueueItem -> bool, id: string)
    ensures BandsCount(b, id) == BandsCount(AfterRemoval(b, match_), id) + Count(Removed(b, match_), id)
  {
    CountOfFilter(b.p1, match_, id);
    CountOfFilter(b.p2, match_, id);
    CountOfFilter(b.p3, match_, id);
    CountOfFilter(b.p4, match_, id);
    var r1, r2, r3, r4 := Filter(b.p1, match_), Filter(b.p2, match_), Filter(b.p3, match_), Filter(b.p4, match_);
    CountOfSum(r1 + r2 + r3, r4, id);
    CountOfSum(r1 + r2, r3, id);
    CountOfSum(r1, r2, id);
  }

  lemma RemovalHas(b: Bands, match_: QueueItem -> bool)
    ensures forall q :: AfterRemoval(b, match_).Has(q) <==> b.Has(q) && !match_(q)
    ensures forall q :: q in Removed(b, match_) <==> b.Has(q) && match_(q)
  {
    FilterSplits(b.p1, match_);
    FilterSplits(b.p2, match_);
    FilterSplits(b.p3, match_);
    FilterSplits(b.p4, match_);
  }

  lemma MoveCount(b: Bands, queueId: string, to: int, id: string)
    ensures BandsCount(AfterMove(b, queueId, to).0, id) == BandsCount(b, id)
  {
    var p := BandHolding(b, queueId);
    if p != 0 {
      var band := b.Band(p);
      MovedCount(band, IndexOf(band, queueId), Clamp(to - Ahead(b, p), 0, |band| - 1), id);
    }
  }

  lemma MovedCount(items: Items, at: nat, to: nat, id: string)
    requires at < |items| && to < |items|
    ensures Count(MovedWithin(items, at, to), id) == Count(items, id)
  {
    var rest := items[..at] + items[at + 1..];
    assert items == items[..at] + ([items[at]] + items[at + 1..]);
    CountOfSum(items[..at], [items[at]] + items[at + 1..], id);
    CountOfSum([items[at]], items[at + 1..], id);
    CountOfSum(items[..at], items[at + 1..], id);
    assert rest == rest[..to] + rest[to..];
    CountOfSum(rest[..to], rest[to..], id);
    assert MovedWithin(items, at, to) == (rest[..to] + [items[at]]) + rest[to..];
    CountOfSum(rest[..to] + [items[at]], rest[to..], id);
    CountOfSum(rest[..to], [items[at]], id);
  }

  lemma MoveHas(b: Bands, queueId: string, to: int)
    ensures forall q :: AfterMove(b, queueId, to).0.Has(q) ==> b.Has(q)
  {
    var p := BandHolding(b, queueId);
    if p != 0 {
      var band := b.Band(p);
      var moved := MovedWithin(band, IndexOf(band, queueId), Clamp(to - Ahead(b, p), 0, |band| - 1));
      forall q | q in moved ensures q in band {}
    }
  }

  // ------------------------------------------------------------ the ledger's side

  /** The same ids are done, since the same moments. */
  ghost predicate Quiet(a: Lines, b: Lines, now: real) {
    && WellKept(b, now)
    && (forall id :: DoneIn(b, id) <==> DoneIn(a, id))
    && (forall id :: DoneIn(a, id) && id in b ==> b[id].doneAt == a[id].doneAt)
  }

  lemma QuietKeepsBooks(a: Lines, b: Lines, log: seq<Event>, now: real)
    requires Books(a, log, now) && Quiet(a, b, now)
    ensures Books(b, log, now)
  {
    forall i | 0 <= i < |log| && log[i].Played? ensures Covered(b, log, now, i) {
      assert Covered(a, log, now, i);
    }
  }

  lemma LaterKeepsBooks(lines: Lines, log: seq<Event>, now: real, later: real)
    requires Books(lines, log, now) && now <= later
    ensures Books(lines, log, later)
  {
    forall i | 0 <= i < |log| && log[i].Played? ensures Covered(lines, log, later, i) {
      assert Covered(lines, log, now, i);
    }
  }

  /** Letting ids go by age or by eviction, on the record. */
  lemma PruneKeepsBooks(lines: Lines, evicted: set<string>, log: seq<Event>, now: real)
    requires Books(lines, log, now)
    ensures Books(Pruned(lines, now, evicted), log + [Evicted(evicted)], now)
  {
    var after := log + [Evicted(evicted)];
    var pruned := Pruned(lines, now, evicted);
    forall i | 0 <= i < |after| && after[i].Played? ensures Covered(pruned, after, now, i) {
      PruneCovers(lines, evicted, log, now, i);
    }
    forall i, j | 0 <= i < j < |after| && after[i].Played? && after[j].Played? && after[i].id == after[j].id
      ensures after[j].at - after[i].at >= KEEP_S || EvictedBetween(after, i, j, after[i].id)
    {
      SpacedStays(log, Evicted(evicted), i, j);
    }
  }

  lemma SpacedStays(log: seq<Event>, e: Event, i: nat, j: nat)
    requires Spaced(log) && i < j < |log| && log[i].Played? && log[j].Played? && log[i].id == log[j].id
    ensures log[j].at - log[i].at >= KEEP_S || EvictedBetween(log + [e], i, j, log[i].id)
  {
    if EvictedBetween(log, i, j, log[i].id) {
      var k :| i < k < j && k < |log| && log[k].Evicted? && log[i].id in log[k].ids;
      assert (log + [e])[k] == log[k];
    }
  }

  lemma EvictionStays(log: seq<Event>, e: Event, i: nat, id: string)
    requires i < |log| && EvictedAfter(log, i, id)
    ensures EvictedAfter(log + [e], i, id)
  {
    var k :| i < k < |log| && log[k].Evicted? && id in log[k].ids;
    assert (log + [e])[k] == log[k];
  }

  lemma PruneCovers(lines: Lines, evicted: set<string>, log: seq<Event>, now: real, i: nat)
    requires Books(lines, log, now) && i < |log| && log[i].Played?
    ensures (log + [Evicted(evicted)])[i] == log[i]
    ensures Covered(Pruned(lines, now, evicted), log + [Evicted(evicted)], now, i)
  {
    var id := log[i].id;
    assert Covered(lines, log, now, i);
    if EvictedAfter(log, i, id) {
      EvictionStays(log, Evicted(evicted), i, id);
    } else if id in evicted {
      assert (log + [Evicted(evicted)])[|log|] == Evicted(evicted);
    } else if now - log[i].at < KEEP_S {
      assert lines[id].UpdatedAt() >= log[i].at;
    }
  }

  lemma AdmitKeepsBooks(lines: Lines, id: string, text: string, evicted: set<string>, log: seq<Event>, now: real)
    requires Books(lines, log, now) && id != ""
    ensures Books(AfterAdmit(lines, id, text, now, evicted), log + [Evicted(evicted)], now)
  {
    PruneKeepsBooks(lines, evicted, log, now);
    var kept, after, log2 := Pruned(lines, now, evicted), AfterAdmit(lines, id, text, now, evicted), log + [Evicted(evicted)];
    if Refused(lines, id, now, evicted) {
      QuietKeepsBooks(kept, after, log2, now);
    } else {
      forall i | 0 <= i < |log2| && log2[i].Played? ensures Covered(after, log2, now, i) {
        assert Covered(kept, log2, now, i);
      }
    }
  }

  /** An id not done until now is played. */
  lemma PlayKeepsBooks(lines: Lines, id: string, log: seq<Event>, now: real)
    requires Books(lines, log, now) && id in lines && !DoneIn(lines, id)
    ensures Books(DoneNow(lines, id, now), log, now)
    ensures Books(DoneNow(lines, id, now), log + [Played(id, now)], now)
  {
    var after, log2 := DoneNow(lines, id, now), log + [Played(id, now)];
    forall i | 0 <= i < |log| && log[i].Played? ensures Covered(after, log, now, i) {
      assert Covered(lines, log, now, i);
    }
    forall i | 0 <= i < |log2| && log2[i].Played? ensures Covered(after, log2, now, i) {
      if i < |log| {
        assert Covered(after, log, now, i);
        if EvictedAfter(log, i, log[i].id) { EvictionStays(log, Played(id, now), i, log[i].id); }
      }
    }
    forall i, j | 0 <= i < j < |log2| && log2[i].Played? && log2[j].Played? && log2[i].id == log2[j].id
      ensures log2[j].at - log2[i].at >= KEEP_S || EvictedBetween(log2, i, j, log2[i].id)
    {
      if j < |log| {
        SpacedStays(log, Played(id, now), i, j);
      } else {
        assert Covered(lines, log, now, i);
        if EvictedAfter(log, i, id) { EvictionStays(log, Played(id, now), i, id); }
      }
    }
  }

  lemma DropAllQuiet(lines: Lines, ids: set<string>, now: real, reason: string)
    requires WellKept(lines, now)
    ensures Quiet(lines, DropAll(lines, ids, now, reason), now)
    ensures forall id :: id != "" ==> (ActiveIn(DropAll(lines, ids, now, reason), id) <==> ActiveIn(lines, id) && id !in ids)
  {
  }
}
