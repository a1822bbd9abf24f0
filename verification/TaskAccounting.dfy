/** The queue facade's task count, which join() waits on: what it equals when
    puts, removals, gets and task_done calls interleave in any order. A put
    counts first and enqueues after; a removal takes items out first and is
    reported to the counter after. */
module TaskAccounting {
  import opened Options
  import opened Arbiter
  import opened Seqs

  datatype Tasks = Tasks(unfinished: nat, bands: Bands, inHand: nat, puts: nat, unreported: seq<nat>, maxsize: int)

  const IDLE := Tasks(0, EMPTY, 0, 0, [], 0)

  datatype Move =
    | PutCounts
    | PutEnqueues(item: QueueItem)
    | ShedOne
    | PurgeLower
    | TakeOut(match_: QueueItem -> bool)
    | Report(i: nat)
    | GetOne
    | TaskDone
    | PutBack
    | Clear

  function Total(counts: seq<nat>): nat { if counts == [] then 0 else counts[0] + Total(counts[1..]) }

  /** Everything join() should wait for. */
  function Work(t: Tasks): nat { t.bands.Depth() + t.inHand + t.puts + Total(t.unreported) }

  function Purged(unfinished: nat, count: nat): nat {
    if unfinished > 0 then (if unfinished > count then unfinished - count else 0) else unfinished
  }

  function Note(t: Tasks, count: nat): Tasks { if count > 0 then t.(unreported := t.unreported + [count]) else t }

  predicate Can(t: Tasks, m: Move) {
    match m
    case PutEnqueues(_) => t.puts > 0
    case Report(i) => i < |t.unreported|
    case GetOne => t.bands.Depth() > 0
    case TaskDone => t.inHand > 0
    case PutBack => t.inHand > 0
    case _ => true
  }

  function Stepped(t: Tasks, m: Move): Tasks
    requires Can(t, m)
  {
    match m
    case PutCounts => t.(unfinished := t.unfinished + 1, puts := t.puts + 1)
    case PutEnqueues(item) =>
      var t1 := t.(puts := t.puts - 1, bands := AfterEnqueue(t.bands, item, t.maxsize));
      Note(t1, if ShedsFirst(t.bands, item, t.maxsize) && Shed(t.bands).1.Some? then 1 else 0)
    case ShedOne => Note(t.(bands := Shed(t.bands).0), if Shed(t.bands).1.Some? then 1 else 0)
    case PurgeLower => Note(t.(bands := AfterPurge(t.bands)), |t.bands.p3| + |t.bands.p4|)
    case TakeOut(match_) => Note(t.(bands := AfterRemoval(t.bands, match_)), |Removed(t.bands, match_)|)
    case Report(i) =>
      t.(unfinished := Purged(t.unfinished, t.unreported[i]), unreported := t.unreported[..i] + t.unreported[i + 1..])
    case GetOne => t.(bands := AfterNext(t.bands), inHand := t.inHand + 1)
    case TaskDone => t.(inHand := t.inHand - 1, unfinished := if t.unfinished > 0 then t.unfinished - 1 else 0)
    case PutBack => t.(inHand := t.inHand - 1, puts := t.puts + 1, unfinished := t.unfinished + 1)
    case Clear => t.(bands := EMPTY, unfinished := 0)
  }

  /** At the start nothing is queued, in hand or under way, and none is counted. */
  lemma AtTheStart()
    ensures IDLE.unfinished == 0 && IDLE.inHand == 0 && IDLE.puts == 0 && IDLE.unreported == []
    ensures IDLE.bands == Bands([], [], [], [])
  {
  }

  /** A get needs an item that waits, a task done or put back an item in hand, an
      enqueue a put that was counted; a task done counts down as long as it can. */
  lemma WhenAMoveCanBe(t: Tasks, item: QueueItem)
    ensures Can(t, GetOne) <==> exists q :: t.bands.Has(q)
    ensures (Can(t, TaskDone) <==> t.inHand >= 1) && (Can(t, PutBack) <==> t.inHand >= 1)
    ensures Can(t, PutEnqueues(item)) <==> t.puts >= 1
    ensures Can(t, TaskDone) ==> Stepped(t, TaskDone).unfinished == if t.unfinished >= 1 then t.unfinished - 1 else 0
  {
    assert t.bands.p1 != [] ==> t.bands.Has(t.bands.p1[0]);
    assert t.bands.p2 != [] ==> t.bands.Has(t.bands.p2[0]);
    assert t.bands.p3 != [] ==> t.bands.Has(t.bands.p3[0]);
    assert t.bands.p4 != [] ==> t.bands.Has(t.bands.p4[0]);
  }

  predicate IsRun(t: Tasks, moves: seq<Move>)
    decreases moves
  {
    moves == [] || (Can(t, moves[0]) && IsRun(Stepped(t, moves[0]), moves[1..]))
  }

  function After(t: Tasks, moves: seq<Move>): Tasks
    requires IsRun(t, moves)
    decreases moves
  {
    if moves == [] then t else After(Stepped(t, moves[0]), moves[1..])
  }

  function PutBacks(moves: seq<Move>): nat {
    if moves == [] then 0 else (if moves[0].PutBack? then 1 else 0) + PutBacks(moves[1..])
  }

  lemma {:induction false} TotalOfSum(a: seq<nat>, b: seq<nat>)
    ensures Total(a + b) == Total(a) + Total(b)
  {
    if a == [] {
      assert a + b == b;
    } else {
      TotalOfSum(a[1..], b);
      FirstOfSum(a, b);
    }
  }

  lemma TotalWithout(counts: seq<nat>, i: nat)
    requires i < |counts|
    ensures Total(counts) == counts[i] + Total(counts[..i] + counts[i + 1..])
  {
    TotalAround(counts[..i], counts[i], counts[i + 1..]);
    CutAround(counts, i);
  }

  lemma TotalAround(a: seq<nat>, count: nat, b: seq<nat>)
    ensures Total(a + ([count] + b)) == count + Total(a + b)
  {
    TotalOfSum(a, [count] + b);
    TotalOfSum(a, b);
    RestOfMore(count, b);
  }

  lemma NoteCounts(t: Tasks, count: nat)
    ensures Work(Note(t, count)) == Work(t) + count && Note(t, count).unfinished == t.unfinished
  {
    TotalOfSum(t.unreported, [count]);
  }

  lemma RemovedCount(b: Bands, match_: QueueItem -> bool)
    ensures AfterRemoval(b, match_).Depth() + |Removed(b, match_)| == b.Depth()
  {
    SplitLength(b.p1, match_);
    SplitLength(b.p2, match_);
    SplitLength(b.p3, match_);
    SplitLength(b.p4, match_);
  }

  lemma {:induction false} SplitLength(items: Items, match_: QueueItem -> bool)
    ensures |items| == |Filter(items, match_)| + |Without(items, match_)|
  {
    if items != [] { SplitLength(items[1..], match_); }
  }

  /** How far the count is above the work, after each move. */
  lemma MoveKeepsExcess(t: Tasks, m: Move)
    requires Can(t, m) && !m.Clear? && t.unfinished >= Work(t)
    ensures Stepped(t, m).unfinished - Work(Stepped(t, m)) == t.unfinished - Work(t) + if m.PutBack? then 1 else 0
  {
    match m
    case PutEnqueues(item) =>
      NoteCounts(t.(puts := t.puts - 1, bands := AfterEnqueue(t.bands, item, t.maxsize)),
                 if ShedsFirst(t.bands, item, t.maxsize) && Shed(t.bands).1.Some? then 1 else 0);
    case ShedOne => NoteCounts(t.(bands := Shed(t.bands).0), if Shed(t.bands).1.Some? then 1 else 0);
    case PurgeLower => NoteCounts(t.(bands := AfterPurge(t.bands)), |t.bands.p3| + |t.bands.p4|);
    case TakeOut(match_) =>
      RemovedCount(t.bands, match_);
      NoteCounts(t.(bands := AfterRemoval(t.bands, match_)), |Removed(t.bands, match_)|);
    case Report(i) => TotalWithout(t.unreported, i);
    case _ =>
  }

  /** Under every interleaving without clear(), the count equals what is
      queued, in hand, being put, and taken out but not yet reported, plus one
      for each line put back without a task_done. */
  lemma {:induction false} CountIsTheWork(t: Tasks, moves: seq<Move>)
    requires IsRun(t, moves) && t.unfinished >= Work(t)
    requires forall k :: 0 <= k < |moves| ==> !moves[k].Clear?
    ensures After(t, moves).unfinished == Work(After(t, moves)) + (t.unfinished - Work(t)) + PutBacks(moves)
    decreases moves
  {
    if moves != [] {
      MoveKeepsExcess(t, moves[0]);
      CountIsTheWork(Stepped(t, moves[0]), moves[1..]);
    }
  }

  /** So, every get followed by its task_done: join() returns only when
      nothing is queued, in hand, being put or unreported; and no report ever
      takes more off the count than is on it. */
  lemma JoinReturnsWhenAllIsDone(moves: seq<Move>, maxsize: int)
    requires IsRun(IDLE.(maxsize := maxsize), moves)
    requires forall k :: 0 <= k < |moves| ==> !moves[k].Clear? && !moves[k].PutBack?
    ensures var t := After(IDLE.(maxsize := maxsize), moves);
            && (t.unfinished == 0 <==> Work(t) == 0)
            && (t.unfinished == 0 ==> t.bands.Depth() == 0 && t.inHand == 0 && t.puts == 0)
            && (forall i :: 0 <= i < |t.unreported| ==> t.unreported[i] <= t.unfinished)
            && (t.inHand > 0 ==> t.unfinished > 0)
  {
    var start := IDLE.(maxsize := maxsize);
    CountIsTheWork(start, moves);
    NoPutBacks(moves);
    var t := After(start, moves);
    forall i | 0 <= i < |t.unreported| ensures t.unreported[i] <= t.unfinished {
      TotalWithout(t.unreported, i);
    }
  }

  lemma {:induction false} NoPutBacks(moves: seq<Move>)
    requires forall k :: 0 <= k < |moves| ==> !moves[k].PutBack?
    ensures PutBacks(moves) == 0
  {
    if moves != [] { NoPutBacks(moves[1..]); }
  }

  /** clear() keeps the count right exactly when nothing is in hand, being put
      or unreported: otherwise join() returns with a line still to play. */
  lemma ClearKeepsTheCountExactlyWhen(t: Tasks)
    ensures Stepped(t, Clear).unfinished == Work(Stepped(t, Clear)) <==> t.inHand == 0 && t.puts == 0 && Total(t.unreported) == 0
  {
  }

  // -------------------------------------------------------------------- class

  /** The moves of a put that does not wait: counted, enqueued, and a shed item
      reported back. */
  function Putting(b: Bands, item: QueueItem, maxsize: int): seq<Move> {
    [PutCounts, PutEnqueues(item)] + if ShedsFirst(b, item, maxsize) && Shed(b).1.Some? then [Report(0)] else []
  }

  function Shedding(b: Bands): seq<Move> { [ShedOne] + if Shed(b).1.Some? then [Report(0)] else [] }

  /** Nothing under way, and the count is the work. */
  predicate Settled(t: Tasks) { t.puts == 0 && t.unreported == [] && t.unfinished == Work(t) }

  lemma OneMove(t: Tasks, m: Move)
    requires Can(t, m)
    ensures IsRun(t, [m]) && After(t, [m]) == Stepped(t, m)
  {
    assert [m][1..] == [];
  }

  lemma MoreMoves(t: Tasks, m: Move, rest: seq<Move>)
    requires Can(t, m) && IsRun(Stepped(t, m), rest)
    ensures IsRun(t, [m] + rest) && After(t, [m] + rest) == After(Stepped(t, m), rest)
  {
    assert ([m] + rest)[1..] == rest;
  }

  lemma PuttingRuns(t: Tasks, item: QueueItem)
    requires t.puts == 0 && t.unreported == []
    ensures IsRun(t, Putting(t.bands, item, t.maxsize))
    ensures var after := After(t, Putting(t.bands, item, t.maxsize));
            && after == t.(bands := AfterEnqueue(t.bands, item, t.maxsize), unfinished := after.unfinished)
            && after.unfinished == if ShedsFirst(t.bands, item, t.maxsize) && Shed(t.bands).1.Some? then t.unfinished else t.unfinished + 1
  {
    var t1 := Stepped(t, PutCounts);
    var t2 := Stepped(t1, PutEnqueues(item));
    if ShedsFirst(t.bands, item, t.maxsize) && Shed(t.bands).1.Some? {
      OneMove(t2, Report(0));
      MoreMoves(t1, PutEnqueues(item), [Report(0)]);
      MoreMoves(t, PutCounts, [PutEnqueues(item)] + [Report(0)]);
      assert Putting(t.bands, item, t.maxsize) == [PutCounts] + ([PutEnqueues(item)] + [Report(0)]);
    } else {
      OneMove(t1, PutEnqueues(item));
      MoreMoves(t, PutCounts, [PutEnqueues(item)]);
      assert Putting(t.bands, item, t.maxsize) == [PutCounts] + [PutEnqueues(item)];
    }
  }

  lemma SheddingRuns(t: Tasks)
    requires t.puts == 0 && t.unreported == []
    ensures IsRun(t, Shedding(t.bands))
    ensures After(t, Shedding(t.bands))
         == t.(bands := Shed(t.bands).0, unfinished := if Shed(t.bands).1.Some? then Purged(t.unfinished, 1) else t.unfinished)
  {
    if Shed(t.bands).1.Some? {
      OneMove(Stepped(t, ShedOne), Report(0));
      MoreMoves(t, ShedOne, [Report(0)]);
    } else {
      OneMove(t, ShedOne);
      assert Shedding(t.bands) == [ShedOne];
    }
  }

  /** Moves that leave nothing under way leave a settled count settled. */
  lemma SettledStays(t: Tasks, moves: seq<Move>)
    requires Settled(t) && IsRun(t, moves) && PutBacks(moves) == 0 && Clear !in moves
    requires After(t, moves).puts == 0 && After(t, moves).unreported == []
    ensures Settled(After(t, moves))
  {
    CountIsTheWork(t, moves);
  }

  class QueueProxyFacade {
    const arbiter: PriorityArbiter
    const maxsize: int
    var unfinished: nat
    ghost var inHand: nat

    /** The facade between two calls, as the machine above sees it. */
    ghost function View(): Tasks
      reads this, arbiter
    {
      Tasks(unfinished, arbiter.View(), inHand, 0, [], maxsize)
    }

    constructor (arbiter: PriorityArbiter, maxsize: int)
      ensures this.arbiter == arbiter && this.maxsize == maxsize && unfinished == 0 && inHand == 0
    {
      this.arbiter, this.maxsize, unfinished, inHand := arbiter, maxsize, 0, 0;
    }

    /** What the arbiter calls when items went other than by a get. */
    method OnPurged(count: nat)
      modifies this`unfinished
      ensures View() == Stepped(old(View()).(unreported := [count]), Report(0))
    {
      if unfinished > 0 {
        unfinished := if unfinished > count then unfinished - count else 0;
      }
    }

    predicate Full(item: QueueItem)
      reads this, arbiter
    {
      item.priority >= TOOL_NARRATION && maxsize > 0 && arbiter.View().Depth() >= maxsize
    }

    /** A put that does not wait: refused when the item is a narration and the
        queue is full, else counted and then enqueued. */
    method PutNowait(item: QueueItem) returns (full: bool)
      requires arbiter.maxsize == maxsize
      modifies this, arbiter
      ensures arbiter.maxsize == maxsize && (full <==> old(Full(item)))
      ensures full <==> item.priority >= 4 && maxsize > 0 && old(arbiter.View()).Depth() >= maxsize
      ensures full ==> View() == old(View())
      ensures !full ==> IsRun(old(View()), Putting(old(View()).bands, item, maxsize))
                        && View() == After(old(View()), Putting(old(View()).bands, item, maxsize))
    {
      if Full(item) { return true; }
      PuttingRuns(View(), item);
      unfinished := unfinished + 1;
      var dropped := arbiter.Enqueue(item);
      if dropped { OnPurged(1); }
      return false;
    }

    method GetNowait() returns (item: Option<QueueItem>)
      modifies this`inHand, arbiter
      ensures arbiter.maxsize == old(arbiter.maxsize)
      ensures old(View()).bands.Depth() == 0 ==> item == None && View() == old(View())
      ensures old(View()).bands.Depth() > 0 ==> item == Some(Arbiter.Next(old(View()).bands)) && View() == Stepped(old(View()), GetOne)
    {
      item := arbiter.Dequeue();
      if item.Some? { inHand := inHand + 1; }
    }

    /** `last` wakes join(). */
    method MarkTaskDone() returns (last: bool)
      modifies this
      ensures unfinished == if old(unfinished) > 0 then old(unfinished) - 1 else 0
      ensures old(inHand) > 0 ==> View() == Stepped(old(View()), TaskDone)
      ensures last <==> old(unfinished) == 1
      ensures last && old(inHand) > 0 && Settled(old(View())) ==> View().bands.Depth() == 0 && inHand == 0
    {
      last := false;
      if inHand > 0 { inHand := inHand - 1; }
      if unfinished > 0 {
        unfinished := unfinished - 1;
        last := unfinished == 0;
      }
    }

    /** Sheds the oldest narration or autoplay line; its bare payload comes back. */
    method ShedOldest() returns (payload: Option<Payload>)
      modifies this, arbiter
      ensures arbiter.maxsize == old(arbiter.maxsize)
      ensures payload == (if Shed(old(View()).bands).1.Some? then Some(Shed(old(View()).bands).1.value.payload) else None)
      ensures IsRun(old(View()), Shedding(old(View()).bands)) && View() == After(old(View()), Shedding(old(View()).bands))
    {
      SheddingRuns(View());
      var item := arbiter.ShedOldestLowPriority();
      if item.None? { return None; }
      OnPurged(1);
      return Some(item.value.payload);
    }

    method ClearAll()
      modifies this, arbiter
      ensures View() == Stepped(old(View()), Clear)
    {
      var total := arbiter.Clear();
      if total > 0 { OnPurged(total); }
      unfinished := 0;
    }
  }
}
