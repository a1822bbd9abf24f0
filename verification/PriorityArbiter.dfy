/** The four-band queue: what waits, the order it plays in, and how items
    leave it. Bands is the value the arbiter holds; PriorityArbiter is the
    object whose methods change it in place. */
module Arbiter {
  import opened Options
  import opened Seqs

  /** What an item plays: words to synthesize, a finished clip, or nothing
      (the sentinel that ends the worker). */
  datatype Payload = Sentinel | Words(words: string) | Wav(path: string)

  datatype QueueItem = QueueItem(
    priority: int,
    payload: Payload,
    enqueuedAt: real,
    missedId: string,
    hold: bool,
    retries: nat,
    lineText: string,
    originFile: string,
    historyId: string,
    lineId: string,
    queueId: string,
    sessionId: string,
    sender: string,
    controlRun: nat,
    saidAt: real,
    sourceHash: string)

  const USER_INTERRUPT := 1
  const EXPLICIT_MCP := 2
  const AUTOPLAY := 3
  const TOOL_NARRATION := 4

  type Items = seq<QueueItem>

  datatype Bands = Bands(p1: Items, p2: Items, p3: Items, p4: Items) {
    function Depth(): nat { |p1| + |p2| + |p3| + |p4| }

    /** Every item, in play order. */
    function All(): Items { p1 + p2 + p3 + p4 }

    function Band(priority: int): Items {
      if priority == USER_INTERRUPT then p1
      else if priority == EXPLICIT_MCP then p2
      else if priority == AUTOPLAY then p3
      else p4
    }

    function With(priority: int, band: Items): Bands {
      if priority == USER_INTERRUPT then this.(p1 := band)
      else if priority == EXPLICIT_MCP then this.(p2 := band)
      else if priority == AUTOPLAY then this.(p3 := band)
      else this.(p4 := band)
    }

    predicate Has(item: QueueItem) { item in p1 || item in p2 || item in p3 || item in p4 }
  }

  const EMPTY := Bands([], [], [], [])

  // ------------------------------------------------------- what each call does

  function AtTail(b: Bands, item: QueueItem): Bands {
    b.With(item.priority, b.Band(item.priority) + [item])
  }

  function AtHead(b: Bands, item: QueueItem): Bands {
    b.With(item.priority, [item] + b.Band(item.priority))
  }

  /** The oldest narration gives way, else the oldest autoplay line. */
  function Shed(b: Bands): (Bands, Option<QueueItem>) {
    if b.p4 != [] then (b.(p4 := b.p4[1..]), Some(b.p4[0]))
    else if b.p3 != [] then (b.(p3 := b.p3[1..]), Some(b.p3[0]))
    else (b, None)
  }

  predicate ShedsFirst(b: Bands, item: QueueItem, maxsize: int) {
    item.priority !in {USER_INTERRUPT, EXPLICIT_MCP, AUTOPLAY} && maxsize > 0 && |b.p4| >= maxsize
  }

  /** A narration sheds an older line exactly when the narrations alone fill the
      queue; no other item does. */
  lemma ShedsExactlyWhen(b: Bands, item: QueueItem, maxsize: int)
    requires 1 <= item.priority <= 4
    ensures ShedsFirst(b, item, maxsize) <==> item.priority == 4 && 0 < maxsize <= |b.p4|
  {
  }

  function AfterEnqueue(b: Bands, item: QueueItem, maxsize: int): Bands {
    AtTail(if ShedsFirst(b, item, maxsize) then Shed(b).0 else b, item)
  }

  function Next(b: Bands): QueueItem
    requires b.Depth() > 0
  {
    if b.p1 != [] then b.p1[0] else if b.p2 != [] then b.p2[0] else if b.p3 != [] then b.p3[0] else b.p4[0]
  }

  function AfterNext(b: Bands): Bands
    requires b.Depth() > 0
  {
    if b.p1 != [] then b.(p1 := b.p1[1..])
    else if b.p2 != [] then b.(p2 := b.p2[1..])
    else if b.p3 != [] then b.(p3 := b.p3[1..])
    else b.(p4 := b.p4[1..])
  }

  function AfterPurge(b: Bands): Bands { b.(p3 := [], p4 := []) }

  function Filter(items: Items, match_: QueueItem -> bool): Items {
    if items == [] then []
    else (if match_(items[0]) then [items[0]] else []) + Filter(items[1..], match_)
  }

  function Without(items: Items, match_: QueueItem -> bool): Items {
    Filter(items, q => !match_(q))
  }

  function AfterRemoval(b: Bands, match_: QueueItem -> bool): Bands {
    Bands(Without(b.p1, match_), Without(b.p2, match_), Without(b.p3, match_), Without(b.p4, match_))
  }

  function Removed(b: Bands, match_: QueueItem -> bool): Items {
    Filter(b.p1, match_) + Filter(b.p2, match_) + Filter(b.p3, match_) + Filter(b.p4, match_)
  }

  /** What waits, as the queue tab shows it: play order, no sentinel. */
  function Waiting(b: Bands): Items {
    Filter(b.All(), (q: QueueItem) => !q.payload.Sentinel?)
  }

  function IndexOf(items: Items, queueId: string): (i: nat)
    ensures i <= |items|
    ensures forall j :: 0 <= j < i ==> items[j].queueId != queueId
    ensures i < |items| ==> items[i].queueId == queueId
  {
    if items == [] || items[0].queueId == queueId then 0 else 1 + IndexOf(items[1..], queueId)
  }

  function Clamp(x: int, low: int, high: int): int {
    var y := if x < low then low else x;
    if y < high then y else high
  }

  function MovedWithin(items: Items, at: nat, to: nat): Items
    requires at < |items| && to < |items|
  {
    var rest := items[..at] + items[at + 1..];
    rest[..to] + [items[at]] + rest[to..]
  }

  /** The band that holds `queueId` first, as a priority; 0 when none does. */
  function BandHolding(b: Bands, queueId: string): (p: int)
    ensures 0 <= p <= 4
    ensures p != 0 ==> IndexOf(b.Band(p), queueId) < |b.Band(p)|
    ensures forall q :: 1 <= q <= 4 && (q < p || p == 0) ==> IndexOf(b.Band(q), queueId) == |b.Band(q)|
  {
    if IndexOf(b.p1, queueId) < |b.p1| then 1
    else if IndexOf(b.p2, queueId) < |b.p2| then 2
    else if IndexOf(b.p3, queueId) < |b.p3| then 3
    else if IndexOf(b.p4, queueId) < |b.p4| then 4
    else 0
  }

  /** How many items play before any of band `p`. */
  function Ahead(b: Bands, p: int): nat {
    (if p > 1 then |b.p1| else 0) + (if p > 2 then |b.p2| else 0) + (if p > 3 then |b.p3| else 0)
  }

  function MoveInBand(b: Bands, p: int, at: nat, to: int): (Bands, int)
    requires 1 <= p <= 4 && at < |b.Band(p)|
  {
    var within := Clamp(to - Ahead(b, p), 0, |b.Band(p)| - 1);
    (b.With(p, MovedWithin(b.Band(p), at, within)), Ahead(b, p) + within)
  }

  function AfterMove(b: Bands, queueId: string, to: int): (Bands, Option<int>) {
    var p := BandHolding(b, queueId);
    if p == 0 then (b, None)
    else
      var (after, moved) := MoveInBand(b, p, IndexOf(b.Band(p), queueId), to);
      (after, Some(moved))
  }

  // ----------------------------------------------------------- order properties

  /** What repeated dequeues return. */
  function Drain(b: Bands): Items
    decreases b.Depth()
  {
    if b.Depth() == 0 then [] else [Next(b)] + Drain(AfterNext(b))
  }

  lemma {:induction false} DrainIsPlayOrder(b: Bands)
    ensures Drain(b) == b.All()
    decreases b.Depth()
  {
    if b.Depth() > 0 {
      DrainIsPlayOrder(AfterNext(b));
      NextIsFirst(b);
    }
  }

  lemma NextIsFirst(b: Bands)
    requires b.Depth() > 0
    ensures b.All() == [Next(b)] + AfterNext(b).All()
  {
  }

  lemma {:induction false} FilterKeepsAll(items: Items, match_: QueueItem -> bool)
    requires forall q :: q in items ==> match_(q)
    ensures Filter(items, match_) == items
  {
    if items != [] { FilterKeepsAll(items[1..], match_); }
  }

  /** The queue tab shows exactly what repeated dequeues would return. */
  lemma WaitingIsWhatDequeuesReturn(b: Bands)
    ensures Waiting(b) == Filter(Drain(b), (q: QueueItem) => !q.payload.Sentinel?)
    ensures (forall q :: q in b.All() ==> !q.payload.Sentinel?) ==> Waiting(b) == Drain(b)
  {
    DrainIsPlayOrder(b);
    if forall q :: q in b.All() ==> !q.payload.Sentinel? {
      FilterKeepsAll(b.All(), (q: QueueItem) => !q.payload.Sentinel?);
    }
  }

  lemma {:induction false} FilterOfSum(a: Items, b: Items, match_: QueueItem -> bool)
    ensures Filter(a + b, match_) == Filter(a, match_) + Filter(b, match_)
  {
    if a == [] {
      assert a + b == b;
    } else {
      FilterOfSum(a[1..], b, match_);
      FilterOfMore(a[0], a[1..] + b, match_);
      FilterOfMore(a[0], a[1..], match_);
      FirstOfSum(a, b);
      First(a);
    }
  }

  lemma FilterOfMore(q: QueueItem, items: Items, match_: QueueItem -> bool)
    ensures Filter([q] + items, match_) == (if match_(q) then [q] else []) + Filter(items, match_)
  {
    assert ([q] + items)[1..] == items;
  }

  lemma {:induction false} FilterSplits(items: Items, match_: QueueItem -> bool)
    ensures multiset(items) == multiset(Filter(items, match_)) + multiset(Without(items, match_))
    ensures forall q :: q in Filter(items, match_) <==> q in items && match_(q)
    ensures forall q :: q in Without(items, match_) <==> q in items && !match_(q)
  {
    if items != [] {
      FilterSplits(items[1..], match_);
      assert items == [items[0]] + items[1..];
    }
  }

  /** Removal is a stable partition of the play order: what is taken out and
      what stays are each in their old order, and nothing is lost or doubled. */
  lemma RemovalIsAStablePartition(b: Bands, match_: QueueItem -> bool)
    ensures Removed(b, match_) == Filter(b.All(), match_)
    ensures AfterRemoval(b, match_).All() == Without(b.All(), match_)
    ensures multiset(b.All()) == multiset(Removed(b, match_)) + multiset(AfterRemoval(b, match_).All())
  {
    var not := q => !match_(q);
    FilterOfSum(b.p1 + b.p2 + b.p3, b.p4, match_);
    FilterOfSum(b.p1 + b.p2, b.p3, match_);
    FilterOfSum(b.p1, b.p2, match_);
    FilterOfSum(b.p1 + b.p2 + b.p3, b.p4, not);
    FilterOfSum(b.p1 + b.p2, b.p3, not);
    FilterOfSum(b.p1, b.p2, not);
    FilterSplits(b.All(), match_);
  }

  function Cut(items: Items, at: nat): Items
    requires at < |items|
  {
    items[..at] + items[at + 1..]
  }

  /** `now` is `was` with the item at `from` taken to `to`. */
  predicate Takes(was: Items, now: Items, from: int, to: int) {
    && 0 <= from < |was| == |now| && 0 <= to < |now|
    && now[to] == was[from]
    && Cut(now, to) == Cut(was, from)
  }

  lemma MovedWithinTakes(items: Items, at: nat, to: nat)
    requires at < |items| && to < |items|
    ensures Takes(items, MovedWithin(items, at, to), at, to)
  {
  }

  /** The band at `p`, with what plays before it and after it. */
  lemma PlayOrderAround(b: Bands, p: int, band: Items)
    requires 1 <= p <= 4
    ensures Ahead(b, p) + |b.Band(p)| <= |b.All()|
    ensures var before, behind := b.All()[..Ahead(b, p)], b.All()[Ahead(b, p) + |b.Band(p)|..];
            && b.All() == before + b.Band(p) + behind
            && b.With(p, band).All() == before + band + behind
  {
    AllAround(b, p, band);
    Ends(BandsBefore(b, p), b.Band(p), BandsBehind(b, p));
  }

  function BandsBefore(b: Bands, p: int): (r: Items)
    ensures 1 <= p <= 4 ==> |r| == Ahead(b, p)
  {
    if p == 2 then b.p1 else if p == 3 then b.p1 + b.p2 else if p == 4 then b.p1 + b.p2 + b.p3 else []
  }

  function BandsBehind(b: Bands, p: int): Items {
    if p == 1 then b.p2 + (b.p3 + b.p4) else if p == 2 then b.p3 + b.p4 else if p == 3 then b.p4 else []
  }

  lemma AllAround(b: Bands, p: int, band: Items)
    requires 1 <= p <= 4
    ensures b.All() == BandsBefore(b, p) + b.Band(p) + BandsBehind(b, p)
    ensures b.With(p, band).All() == BandsBefore(b, p) + band + BandsBehind(b, p)
  {
  }

  lemma NotWaiting(b: Bands, queueId: string)
    ensures BandHolding(b, queueId) == 0 <==> forall q :: q in b.All() ==> q.queueId != queueId
  {
    var p := BandHolding(b, queueId);
    if p == 0 {
      forall q | q in b.All() ensures q.queueId != queueId {
        assert q in b.Band(1) || q in b.Band(2) || q in b.Band(3) || q in b.Band(4);
      }
    } else {
      var q := b.Band(p)[IndexOf(b.Band(p), queueId)];
      PlayOrderAround(b, p, []);
      assert q in b.All();
    }
  }

  lemma MoveInBandTakes(b: Bands, p: int, at: nat, to: int)
    requires 1 <= p <= 4 && at < |b.Band(p)|
    ensures Takes(b.All(), MoveInBand(b, p, at, to).0.All(), Ahead(b, p) + at, MoveInBand(b, p, at, to).1)
    ensures b.All()[Ahead(b, p) + at] == b.Band(p)[at]
  {
    var band := b.Band(p);
    var within := Clamp(to - Ahead(b, p), 0, |band| - 1);
    MovedWithinTakes(band, at, within);
    TakesInBand(b, p, MovedWithin(band, at, within), at, within);
  }

  lemma TakesInBand(b: Bands, p: int, band: Items, at: nat, to: nat)
    requires 1 <= p <= 4 && Takes(b.Band(p), band, at, to)
    ensures Takes(b.All(), b.With(p, band).All(), Ahead(b, p) + at, Ahead(b, p) + to)
    ensures b.All()[Ahead(b, p) + at] == b.Band(p)[at]
  {
    PlayOrderAround(b, p, band);
    TakesInside(b.All()[..Ahead(b, p)], b.Band(p), band, b.All()[Ahead(b, p) + |b.Band(p)|..], at, to);
  }

  lemma MoveStaysInBand(b: Bands, p: int, at: nat, to: int)
    requires 1 <= p <= 4 && at < |b.Band(p)|
    ensures StaysInBand(b, p, at, to, MoveInBand(b, p, at, to).0, MoveInBand(b, p, at, to).1)
  {
    var band := b.Band(p);
    var within := Clamp(to - Ahead(b, p), 0, |band| - 1);
    assert MovedWithin(band, at, within)[within] == band[at];
  }

  /** A move puts the item where it says, in the item's own band, the asked
      place cut to that band's edges; everyone else keeps their order. */
  lemma MoveKeepsTheRestInOrder(b: Bands, queueId: string, to: int)
    ensures var (after, moved) := AfterMove(b, queueId, to);
            var p := BandHolding(b, queueId);
            && (moved.None? <==> forall q :: q in b.All() ==> q.queueId != queueId)
            && (moved.None? ==> after == b)
            && (moved.Some? ==> b.Band(p)[IndexOf(b.Band(p), queueId)].queueId == queueId
                                && Rearranged(b, p, IndexOf(b.Band(p), queueId), to, after, moved.value))
  {
    NotWaiting(b, queueId);
    var p := BandHolding(b, queueId);
    if p != 0 { MoveRearranges(b, p, IndexOf(b.Band(p), queueId), to); }
  }

  /** The item at place `at` of band `p` is now at `moved` of the play order, as
      near to `to` as its band reaches; all others are in the order they were. */
  predicate Rearranged(b: Bands, p: int, at: nat, to: int, after: Bands, moved: int)
    requires 1 <= p <= 4 && at < |b.Band(p)|
  {
    && Takes(b.All(), after.All(), Ahead(b, p) + at, moved)
    && b.All()[Ahead(b, p) + at] == b.Band(p)[at]
    && StaysInBand(b, p, at, to, after, moved)
  }

  predicate StaysInBand(b: Bands, p: int, at: nat, to: int, after: Bands, moved: int)
    requires 1 <= p <= 4 && at < |b.Band(p)|
  {
    && b.Band(p)[at] in after.Band(p)
    && moved == Clamp(to, Ahead(b, p), Ahead(b, p) + |b.Band(p)| - 1)
    && (forall q :: 1 <= q <= 4 && q != p ==> after.Band(q) == b.Band(q))
  }

  lemma MoveRearranges(b: Bands, p: int, at: nat, to: int)
    requires 1 <= p <= 4 && at < |b.Band(p)|
    ensures Rearranged(b, p, at, to, MoveInBand(b, p, at, to).0, MoveInBand(b, p, at, to).1)
  {
    MoveInBandTakes(b, p, at, to);
    MoveStaysInBand(b, p, at, to);
  }

  lemma TakesInside(before: Items, band: Items, moved: Items, behind: Items, at: nat, to: nat)
    requires Takes(band, moved, at, to)
    ensures Takes(before + band + behind, before + moved + behind, |before| + at, |before| + to)
    ensures (before + band + behind)[|before| + at] == band[at]
  {
    CutInside(before, moved, behind, to);
    CutInside(before, band, behind, at);
  }

  lemma CutInside(before: Items, band: Items, behind: Items, at: nat)
    requires at < |band|
    ensures Cut(before + band + behind, |before| + at) == before + Cut(band, at) + behind
  {
  }

  // ----------------------------------------------------------------- whole runs

  datatype Call = Put(item: QueueItem) | Get

  /** What a run of puts and gets has done: everything put, and everything
      that left (served, or shed from a full narration band), band by band. */
  datatype Run = Run(bands: Bands, entered: Bands, left: Bands)

  const START := Run(EMPTY, EMPTY, EMPTY)

  function Leaves(left: Bands, p: int, item: QueueItem): Bands {
    left.With(p, left.Band(p) + [item])
  }

  /** The band a shed takes from. */
  function ShedBand(b: Bands): int { if b.p4 != [] then 4 else 3 }

  function AfterPut(r: Run, item: QueueItem, maxsize: int): Run {
    var shed := if ShedsFirst(r.bands, item, maxsize) then Shed(r.bands).1 else None;
    Run(AfterEnqueue(r.bands, item, maxsize), AtTail(r.entered, item),
        if shed.Some? then Leaves(r.left, ShedBand(r.bands), shed.value) else r.left)
  }

  function AfterGet(r: Run): Run {
    if r.bands.Depth() == 0 then r
    else Run(AfterNext(r.bands), r.entered, Leaves(r.left, FirstBusy(r.bands), Next(r.bands)))
  }

  function AfterCall(r: Run, call: Call, maxsize: int): Run {
    match call
    case Put(item) => AfterPut(r, item, maxsize)
    case Get => AfterGet(r)
  }

  function FirstBusy(b: Bands): int
    requires b.Depth() > 0
  {
    if b.p1 != [] then 1 else if b.p2 != [] then 2 else if b.p3 != [] then 3 else 4
  }

  function AfterAll(calls: seq<Call>, maxsize: int): Run {
    if calls == [] then START
    else AfterCall(AfterAll(calls[..|calls| - 1], maxsize), calls[|calls| - 1], maxsize)
  }

  predicate FirstInFirstOut(r: Run) {
    && r.entered.p1 == r.left.p1 + r.bands.p1
    && r.entered.p2 == r.left.p2 + r.bands.p2
    && r.entered.p3 == r.left.p3 + r.bands.p3
    && r.entered.p4 == r.left.p4 + r.bands.p4
  }

  /** Over every run, each band is first in, first out: what has left it is
      the front of what entered it, in that order, and what waits is the rest. */
  lemma {:induction false} EveryBandIsFirstInFirstOut(calls: seq<Call>, maxsize: int)
    ensures FirstInFirstOut(AfterAll(calls, maxsize))
  {
    if calls != [] {
      var last := |calls| - 1;
      EveryBandIsFirstInFirstOut(calls[..last], maxsize);
      OneCallIsFirstInFirstOut(AfterAll(calls[..last], maxsize), calls[last], maxsize);
    }
  }

  lemma OneCallIsFirstInFirstOut(r: Run, call: Call, maxsize: int)
    requires FirstInFirstOut(r)
    ensures FirstInFirstOut(AfterCall(r, call, maxsize))
  {
    match call
    case Put(item) =>
      if ShedsFirst(r.bands, item, maxsize) && Shed(r.bands).1.Some? {
        var shed := Run(Shed(r.bands).0, r.entered, Leaves(r.left, ShedBand(r.bands), Shed(r.bands).1.value));
        ShedIsFirstInFirstOut(r, shed);
        TailIsFirstInFirstOut(shed, item);
      } else {
        TailIsFirstInFirstOut(r, item);
      }
    case Get =>
      if r.bands.Depth() > 0 { GetIsFirstInFirstOut(r); }
  }

  lemma TailIsFirstInFirstOut(r: Run, item: QueueItem)
    requires FirstInFirstOut(r)
    ensures FirstInFirstOut(Run(AtTail(r.bands, item), AtTail(r.entered, item), r.left))
  {
    var p := item.priority;
    assert r.left.Band(p) + (r.bands.Band(p) + [item]) == (r.left.Band(p) + r.bands.Band(p)) + [item];
  }

  lemma ShedIsFirstInFirstOut(r: Run, shed: Run)
    requires FirstInFirstOut(r) && Shed(r.bands).1.Some?
    requires shed == Run(Shed(r.bands).0, r.entered, Leaves(r.left, ShedBand(r.bands), Shed(r.bands).1.value))
    ensures FirstInFirstOut(shed)
  {
    if r.bands.p4 != [] {
      FrontMoves(r.left.p4, r.bands.p4);
    } else {
      FrontMoves(r.left.p3, r.bands.p3);
    }
  }

  lemma GetIsFirstInFirstOut(r: Run)
    requires FirstInFirstOut(r) && r.bands.Depth() > 0
    ensures FirstInFirstOut(AfterGet(r))
  {
    var p := FirstBusy(r.bands);
    FrontMoves(r.left.Band(p), r.bands.Band(p));
  }

  lemma FrontMoves(left: Items, band: Items)
    requires band != []
    ensures left + band == (left + [band[0]]) + band[1..]
  {
  }

  // ---------------------------------------- whole runs, whatever else takes items

  /** Every way items come and go, but for a move the listener makes. */
  datatype Deed = Called(call: Call) | Purge | Remove(match_: QueueItem -> bool) | ToHead(item: QueueItem)

  /** `entered` is now the line as it stood: an item queued again at the head
      stands in front of all. */
  function AfterDeed(r: Run, deed: Deed, maxsize: int): Run {
    match deed
    case Called(call) => AfterCall(r, call, maxsize)
    case Purge => Run(AfterPurge(r.bands), r.entered, r.left.(p3 := r.left.p3 + r.bands.p3, p4 := r.left.p4 + r.bands.p4))
    case Remove(match_) => Run(AfterRemoval(r.bands, match_), r.entered, AllLeave(r.left, r.bands, match_))
    case ToHead(item) => Run(AtHead(r.bands, item), AtHead(r.entered, item), r.left)
  }

  function AllLeave(left: Bands, b: Bands, match_: QueueItem -> bool): Bands {
    Bands(left.p1 + Filter(b.p1, match_), left.p2 + Filter(b.p2, match_),
          left.p3 + Filter(b.p3, match_), left.p4 + Filter(b.p4, match_))
  }

  function AfterDeeds(deeds: seq<Deed>, maxsize: int): Run {
    if |deeds| == 0 then START
    else AfterDeed(AfterDeeds(deeds[..|deeds| - 1], maxsize), deeds[|deeds| - 1], maxsize)
  }

  /** What waits stands in line order, and what entered waits or left. */
  predicate StandsInLine(band: Items, entered: Items, left: Items) {
    PartOf(band, entered) && multiset(entered) == multiset(left) + multiset(band)
  }

  predicate KeepsItsLine(r: Run, p: int) { StandsInLine(r.bands.Band(p), r.entered.Band(p), r.left.Band(p)) }

  ghost predicate AllStandInLine(r: Run) {
    forall p: int :: KeepsItsLine(r, p)
  }

  /** Over every run, purges, removals, sheds and items queued again at the head
      among it, each band keeps its line: what waits waits in the order of the
      line, and each item that entered still waits or has left, as often. */
  lemma {:induction false} EveryBandKeepsItsLine(deeds: seq<Deed>, maxsize: int)
    ensures AllStandInLine(AfterDeeds(deeds, maxsize))
  {
    if |deeds| > 0 {
      var last := |deeds| - 1;
      EveryBandKeepsItsLine(deeds[..last], maxsize);
      DeedKeepsTheLine(AfterDeeds(deeds[..last], maxsize), deeds[last], maxsize);
    }
  }

  lemma DeedKeepsTheLine(r: Run, deed: Deed, maxsize: int)
    requires AllStandInLine(r)
    ensures AllStandInLine(AfterDeed(r, deed, maxsize))
  {
    match deed
    case Called(call) => CallKeepsTheLine(r, call, maxsize);
    case Purge => PurgeKeepsTheLine(r);
    case Remove(match_) => RemovalKeepsTheLine(r, match_);
    case ToHead(item) => HeadKeepsTheLine(r, item);
  }

  lemma CallKeepsTheLine(r: Run, call: Call, maxsize: int)
    requires AllStandInLine(r)
    ensures AllStandInLine(AfterCall(r, call, maxsize))
  {
    match call
    case Put(item) =>
      if ShedsFirst(r.bands, item, maxsize) && Shed(r.bands).1.Some? {
        var p := ShedBand(r.bands);
        var shed := Run(Shed(r.bands).0, r.entered, Leaves(r.left, p, Shed(r.bands).1.value));
        FirstLeaves(r, shed, p);
        TailKeepsTheLine(shed, item);
      } else {
        TailKeepsTheLine(r, item);
      }
    case Get =>
      if r.bands.Depth() > 0 { FirstLeaves(r, AfterGet(r), FirstBusy(r.bands)); }
  }

  function BandNumber(priority: int): int { if 1 <= priority <= 3 then priority else 4 }

  lemma TailKeepsTheLine(r: Run, item: QueueItem)
    requires AllStandInLine(r)
    ensures AllStandInLine(Run(AtTail(r.bands, item), AtTail(r.entered, item), r.left))
  {
    forall p: int ensures KeepsItsLine(Run(AtTail(r.bands, item), AtTail(r.entered, item), r.left), p) {
      TailKeepsOneLine(r, item, p);
    }
  }

  lemma TailKeepsOneLine(r: Run, item: QueueItem, p: int)
    requires KeepsItsLine(r, p)
    ensures KeepsItsLine(Run(AtTail(r.bands, item), AtTail(r.entered, item), r.left), p)
  {
    OneBehind(r.bands.Band(p), r.entered.Band(p), r.left.Band(p), item);
    TailOfBand(r.bands, item, p);
    TailOfBand(r.entered, item, p);
  }

  lemma TailOfBand(b: Bands, item: QueueItem, p: int)
    ensures AtTail(b, item).Band(p) == if BandNumber(p) == BandNumber(item.priority) then b.Band(p) + [item] else b.Band(p)
  {
  }

  lemma OneBehind(band: Items, entered: Items, left: Items, item: QueueItem)
    requires StandsInLine(band, entered, left)
    ensures StandsInLine(band + [item], entered + [item], left)
  {
    PartOfMore(band, entered, [item]);
  }

  lemma HeadKeepsTheLine(r: Run, item: QueueItem)
    requires AllStandInLine(r)
    ensures AllStandInLine(Run(AtHead(r.bands, item), AtHead(r.entered, item), r.left))
  {
    forall p: int ensures KeepsItsLine(Run(AtHead(r.bands, item), AtHead(r.entered, item), r.left), p) {
      HeadKeepsOneLine(r, item, p);
    }
  }

  lemma HeadKeepsOneLine(r: Run, item: QueueItem, p: int)
    requires KeepsItsLine(r, p)
    ensures KeepsItsLine(Run(AtHead(r.bands, item), AtHead(r.entered, item), r.left), p)
  {
    OneInFront(r.bands.Band(p), r.entered.Band(p), r.left.Band(p), item);
    HeadOfBand(r.bands, item, p);
    HeadOfBand(r.entered, item, p);
  }

  lemma HeadOfBand(b: Bands, item: QueueItem, p: int)
    ensures AtHead(b, item).Band(p) == if BandNumber(p) == BandNumber(item.priority) then [item] + b.Band(p) else b.Band(p)
  {
  }

  lemma OneInFront(band: Items, entered: Items, left: Items, item: QueueItem)
    requires StandsInLine(band, entered, left)
    ensures StandsInLine([item] + band, [item] + entered, left)
  {
    RestOfMore(item, band);
    RestOfMore(item, entered);
  }

  /** The first item of one band leaves, and nothing else changes. */
  lemma FirstLeaves(r: Run, after: Run, p: int)
    requires AllStandInLine(r) && 1 <= p <= 4 && r.bands.Band(p) != []
    requires after == WithoutFirst(r, p)
    ensures AllStandInLine(after)
  {
    forall q: int ensures KeepsItsLine(after, q) {
      assert KeepsItsLine(r, q);
      FirstLeavesOneLine(r, p, q);
    }
  }

  function WithoutFirst(r: Run, p: int): Run
    requires r.bands.Band(p) != []
  {
    Run(r.bands.With(p, r.bands.Band(p)[1..]), r.entered, Leaves(r.left, p, r.bands.Band(p)[0]))
  }

  lemma FirstLeavesOneLine(r: Run, p: int, q: int)
    requires r.bands.Band(p) != [] && KeepsItsLine(r, q)
    ensures KeepsItsLine(WithoutFirst(r, p), q)
  {
    BandOfWith(r.bands, p, r.bands.Band(p)[1..], q);
    BandOfWith(r.left, p, r.left.Band(p) + [r.bands.Band(p)[0]], q);
    if BandNumber(p) == BandNumber(q) { OneGoes(r.bands.Band(q), r.entered.Band(q), r.left.Band(q)); }
  }

  lemma BandOfWith(b: Bands, p: int, band: Items, q: int)
    ensures b.With(p, band).Band(q) == if BandNumber(p) == BandNumber(q) then band else b.Band(q)
    ensures BandNumber(p) == BandNumber(q) ==> b.Band(p) == b.Band(q)
  {
  }

  lemma OneGoes(band: Items, entered: Items, left: Items)
    requires StandsInLine(band, entered, left) && band != []
    ensures StandsInLine(band[1..], entered, left + [band[0]])
  {
    TailIsPart(band, entered);
    assert band == [band[0]] + band[1..];
  }

  lemma PurgeKeepsTheLine(r: Run)
    requires AllStandInLine(r)
    ensures AllStandInLine(AfterDeed(r, Purge, 0))
  {
    forall p: int ensures KeepsItsLine(AfterDeed(r, Purge, 0), p) { assert KeepsItsLine(r, p); }
  }

  lemma RemovalKeepsTheLine(r: Run, match_: QueueItem -> bool)
    requires AllStandInLine(r)
    ensures AllStandInLine(AfterDeed(r, Remove(match_), 0))
  {
    forall p: int ensures KeepsItsLine(AfterDeed(r, Remove(match_), 0), p) { RemovalKeepsOneLine(r, match_, p); }
  }

  lemma RemovalKeepsOneLine(r: Run, match_: QueueItem -> bool, p: int)
    requires KeepsItsLine(r, p)
    ensures KeepsItsLine(AfterDeed(r, Remove(match_), 0), p)
  {
    SomeGo(r.bands.Band(p), r.entered.Band(p), r.left.Band(p), match_);
    RemovedFromBand(r, match_, p);
  }

  lemma RemovedFromBand(r: Run, match_: QueueItem -> bool, p: int)
    ensures AfterRemoval(r.bands, match_).Band(p) == Without(r.bands.Band(p), match_)
    ensures AllLeave(r.left, r.bands, match_).Band(p) == r.left.Band(p) + Filter(r.bands.Band(p), match_)
  {
  }

  lemma SomeGo(band: Items, entered: Items, left: Items, match_: QueueItem -> bool)
    requires StandsInLine(band, entered, left)
    ensures StandsInLine(Without(band, match_), entered, left + Filter(band, match_))
  {
    FilterSplits(band, match_);
    FilterIsPart(band, entered, q => !match_(q));
  }

  lemma {:induction false} FilterIsPart(band: Items, entered: Items, keep: QueueItem -> bool)
    requires PartOf(band, entered)
    ensures PartOf(Filter(band, keep), entered)
    decreases |entered|
  {
    if band != [] {
      First(entered);
      if band[0] == entered[0] && PartOf(band[1..], entered[1..]) {
        FilterIsPart(band[1..], entered[1..], keep);
        if !keep(band[0]) {
          assert Filter(band, keep) == Filter(band[1..], keep);
          PartOfOneMore(Filter(band[1..], keep), entered[0], entered[1..]);
        } else {
          RestOfMore(band[0], Filter(band[1..], keep));
        }
      } else {
        FilterIsPart(band, entered[1..], keep);
        PartOfOneMore(Filter(band, keep), entered[0], entered[1..]);
      }
    }
  }

  /** A lower band is never served while a higher one holds an item, and the
      item served is the oldest of its band. */
  lemma HigherBandsGoFirst(b: Bands)
    requires b.Depth() > 0
    ensures var p := FirstBusy(b);
            && (forall q :: 1 <= q < p ==> b.Band(q) == [])
            && b.Band(p) != [] && Next(b) == b.Band(p)[0] && AfterNext(b).Band(p) == b.Band(p)[1..]
            && (forall q :: 1 <= q <= 4 && q != p ==> AfterNext(b).Band(q) == b.Band(q))
  {
    assert b.Band(1) == b.p1 && b.Band(2) == b.p2 && b.Band(3) == b.p3;
  }

  // -------------------------------------------------------------------- class

  class PriorityArbiter {
    var p1: Items
    var p2: Items
    var p3: Items
    var p4: Items
    var maxsize: int
    var droppedCount: nat
    var activeItem: Option<QueueItem>

    function View(): Bands reads this { Bands(p1, p2, p3, p4) }

    constructor (maxsize: int)
      ensures View() == EMPTY && this.maxsize == maxsize && droppedCount == 0 && activeItem == None
    {
      p1, p2, p3, p4 := [], [], [], [];
      this.maxsize, droppedCount, activeItem := maxsize, 0, None;
    }

    /** Queues the item; true when a narration or an autoplay line gave way. */
    method Enqueue(item: QueueItem) returns (dropped: bool)
      modifies this
      ensures View() == AfterEnqueue(old(View()), item, maxsize)
      ensures dropped <==> ShedsFirst(old(View()), item, maxsize)
      ensures droppedCount == old(droppedCount) + if dropped then 1 else 0
      ensures maxsize == old(maxsize) && activeItem == old(activeItem)
    {
      dropped := false;
      if item.priority == USER_INTERRUPT {
        p1 := p1 + [item];
      } else if item.priority == EXPLICIT_MCP {
        p2 := p2 + [item];
      } else if item.priority == AUTOPLAY {
        p3 := p3 + [item];
      } else {
        if maxsize > 0 && |p4| >= maxsize {
          var shed := ShedOldestLowPriority();
          if shed.Some? { dropped := true; }
        }
        p4 := p4 + [item];
      }
    }

    method ShedOldestLowPriority() returns (item: Option<QueueItem>)
      modifies this
      ensures (View(), item) == Shed(old(View()))
      ensures droppedCount == old(droppedCount) + if item.Some? then 1 else 0
      ensures maxsize == old(maxsize) && activeItem == old(activeItem)
    {
      if p4 != [] {
        item := Some(p4[0]);
        p4 := p4[1..];
        droppedCount := droppedCount + 1;
      } else if p3 != [] {
        item := Some(p3[0]);
        p3 := p3[1..];
        droppedCount := droppedCount + 1;
      } else {
        item := None;
      }
    }

    method RequeueAtHead(item: QueueItem)
      modifies this
      ensures View() == AtHead(old(View()), item)
      ensures droppedCount == old(droppedCount) && maxsize == old(maxsize) && activeItem == old(activeItem)
    {
      if item.priority == USER_INTERRUPT {
        p1 := [item] + p1;
      } else if item.priority == EXPLICIT_MCP {
        p2 := [item] + p2;
      } else if item.priority == AUTOPLAY {
        p3 := [item] + p3;
      } else {
        p4 := [item] + p4;
      }
    }

    /** The item to play next, now in hand; None when nothing waits. */
    method Dequeue() returns (item: Option<QueueItem>)
      modifies this
      ensures old(View()).Depth() == 0 ==> item == None && View() == old(View()) && activeItem == old(activeItem)
      ensures old(View()).Depth() > 0 ==>
                item == Some(Next(old(View()))) && View() == AfterNext(old(View())) && activeItem == item
      ensures droppedCount == old(droppedCount) && maxsize == old(maxsize)
    {
      if p1 != [] {
        item := Some(p1[0]);
        p1 := p1[1..];
      } else if p2 != [] {
        item := Some(p2[0]);
        p2 := p2[1..];
      } else if p3 != [] {
        item := Some(p3[0]);
        p3 := p3[1..];
      } else if p4 != [] {
        item := Some(p4[0]);
        p4 := p4[1..];
      } else {
        return None;
      }
      activeItem := item;
    }

    method PurgeLowerQueues() returns (count: nat)
      modifies this
      ensures View() == AfterPurge(old(View())) && count == |old(p3)| + |old(p4)|
      ensures droppedCount == old(droppedCount) + count
      ensures maxsize == old(maxsize) && activeItem == old(activeItem)
    {
      count := |p3| + |p4|;
      droppedCount := droppedCount + count;
      p3, p4 := [], [];
    }

    method RemoveWhere(match_: QueueItem -> bool) returns (removed: Items)
      modifies this
      ensures View() == AfterRemoval(old(View()), match_) && removed == Removed(old(View()), match_)
      ensures droppedCount == old(droppedCount) && maxsize == old(maxsize) && activeItem == old(activeItem)
    {
      removed := Filter(p1, match_) + Filter(p2, match_) + Filter(p3, match_) + Filter(p4, match_);
      p1, p2, p3, p4 := Without(p1, match_), Without(p2, match_), Without(p3, match_), Without(p4, match_);
    }

    /** Moves the waiting item, inside its band; its place in the play order
        afterwards, or None when it is not waiting. */
    method MoveItem(queueId: string, to: int) returns (moved: Option<int>)
      modifies this
      ensures (View(), moved) == AfterMove(old(View()), queueId, to)
      ensures droppedCount == old(droppedCount) && maxsize == old(maxsize) && activeItem == old(activeItem)
    {
      var start := 0;
      var p := 1;
      ghost var was := View();
      while p <= 4
        invariant 1 <= p <= 5 && View() == was && start == Ahead(was, p) + if p == 5 then |p4| else 0
        invariant forall q :: 1 <= q < p ==> IndexOf(was.Band(q), queueId) == |was.Band(q)|
        invariant droppedCount == old(droppedCount) && maxsize == old(maxsize) && activeItem == old(activeItem)
      {
        var band := View().Band(p);
        var at := FindInBand(band, queueId);
        if at < |band| {
          assert BandHolding(was, queueId) == p;
          var place := MoveInside(p, start, at, to);
          return Some(place);
        }
        start := start + |band|;
        p := p + 1;
      }
      assert BandHolding(was, queueId) == 0;
      return None;
    }

    method MoveInside(p: int, start: int, at: nat, to: int) returns (place: int)
      requires 1 <= p <= 4 && at < |View().Band(p)| && start == Ahead(View(), p)
      modifies this
      ensures (View(), place) == MoveInBand(old(View()), p, at, to)
      ensures droppedCount == old(droppedCount) && maxsize == old(maxsize) && activeItem == old(activeItem)
    {
      var band := View().Band(p);
      var item := band[at];
      band := band[..at] + band[at + 1..];
      var within := if to - start > 0 then to - start else 0;
      within := if within < |band| then within else |band|;
      band := band[..within] + [item] + band[within..];
      SetBand(p, band);
      place := start + within;
    }

    method SetBand(priority: int, band: Items)
      requires 1 <= priority <= 4
      modifies this
      ensures View() == old(View()).With(priority, band)
      ensures droppedCount == old(droppedCount) && maxsize == old(maxsize) && activeItem == old(activeItem)
    {
      if priority == 1 { p1 := band; } else if priority == 2 { p2 := band; } else if priority == 3 { p3 := band; } else { p4 := band; }
    }

    method Clear() returns (total: nat)
      modifies this
      ensures View() == EMPTY && total == old(View()).Depth() && activeItem == None
      ensures droppedCount == old(droppedCount) && maxsize == old(maxsize)
    {
      total := |p1| + |p2| + |p3| + |p4|;
      p1, p2, p3, p4 := [], [], [], [];
      activeItem := None;
    }
  }

  method FindInBand(band: Items, queueId: string) returns (at: nat)
    ensures at == IndexOf(band, queueId)
  {
    at := 0;
    while at < |band| && band[at].queueId != queueId
      invariant at <= |band|
      invariant forall j :: 0 <= j < at ==> band[j].queueId != queueId
    {
      at := at + 1;
    }
  }
}
