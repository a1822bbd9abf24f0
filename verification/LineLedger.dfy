/** One line id, one play: the ledger that remembers every line id for a day.
    The functions below say what each operation does to the ledger's contents;
    the class LineLedger is the object whose methods do it in place. */
module Ledger {
  import opened Options

  datatype LineState = Queued | Playing | Done | Dropped

  datatype LineRecord = LineRecord(
    state: LineState,
    text: string,
    queuedAt: real,
    synthStarted: Option<real>,
    playingAt: Option<real>,
    doneAt: Option<real>,
    droppedAt: Option<real>,
    reason: string,
    sends: int,
    plays: int,
    retries: int,
    missedId: string,
    inPass: bool)
  {
    predicate Settled() { state.Done? || state.Dropped? }

    predicate Active() { state.Queued? || state.Playing? }

    /** The latest moment on the record. */
    function UpdatedAt(): real {
      Max(queuedAt, Max(Max(synthStarted.GetOr(0.0), playingAt.GetOr(0.0)), Max(doneAt.GetOr(0.0), droppedAt.GetOr(0.0))))
    }
  }

  type Lines = map<string, LineRecord>

  const KEEP_S: real := 86400.0
  const DEDUP_DONE_S: real := KEEP_S
  const MAX_LINES: nat := 2000
  const TEXT_PREVIEW: nat := 60

  const DROP_RESTART := "restart"
  const DROP_FAILED := "failed"

  function Max(a: real, b: real): real { if a < b then b else a }

  // ---------------------------------------------------------------- admission

  predicate Blocks(rec: LineRecord, now: real) {
    rec.Active() || (rec.state.Done? && rec.doneAt.Some? && now - rec.doneAt.value < DEDUP_DONE_S)
  }

  function NewRecord(text: string, now: real, sends: int, plays: int): LineRecord {
    LineRecord(Queued, if |text| <= TEXT_PREVIEW then text else text[..TEXT_PREVIEW], now,
               None, None, None, None, "", sends, plays, 0, "", false)
  }

  predicate Outdated(rec: LineRecord, now: real) {
    rec.Settled() && now - rec.UpdatedAt() > KEEP_S
  }

  function Kept(lines: Lines, now: real): Lines {
    map id | id in lines && !Outdated(lines[id], now) :: lines[id]
  }

  function SettledIds(lines: Lines): set<string> {
    set id | id in lines && lines[id].Settled()
  }

  /** Python's order on strings, by code point. */
  predicate TextBefore(a: string, b: string) {
    if b == "" then false
    else if a == "" then true
    else a[0] < b[0] || (a[0] == b[0] && TextBefore(a[1..], b[1..]))
  }

  /** The order in which settled ids give way: by last moment, then by id. */
  predicate GoesBefore(lines: Lines, a: string, b: string)
    requires a in lines && b in lines
  {
    lines[a].UpdatedAt() < lines[b].UpdatedAt()
    || (lines[a].UpdatedAt() == lines[b].UpdatedAt() && TextBefore(a, b))
  }

  /** `evicted` is what a full ledger lets go of: as many of its settled ids
      as it is over by, the oldest first, and never an id still active. */
  predicate IsEviction(lines: Lines, evicted: set<string>) {
    && evicted <= SettledIds(lines)
    && |evicted| == (if |lines| <= MAX_LINES then 0
                     else if |SettledIds(lines)| < |lines| - MAX_LINES then |SettledIds(lines)|
                     else |lines| - MAX_LINES)
    && (forall e, k :: e in evicted && k in SettledIds(lines) && k !in evicted ==> GoesBefore(lines, e, k))
  }

  function Pruned(lines: Lines, now: real, evicted: set<string>): Lines {
    Kept(lines, now) - evicted
  }

  /** The ledger after a speak request for `id`, given what the prune evicts. */
  function AfterAdmit(lines: Lines, id: string, text: string, now: real, evicted: set<string>): Lines {
    if id == "" then lines
    else
      var kept := Pruned(lines, now, evicted);
      if id in kept && Blocks(kept[id], now) then
        kept[id := kept[id].(sends := kept[id].sends + 1)]
      else
        kept[id := NewRecord(text, now,
                             if id in kept then kept[id].sends + 1 else 1,
                             if id in kept then kept[id].plays else 0)]
  }

  /** Whether that request is refused: the id must not be queued again. */
  predicate Refused(lines: Lines, id: string, now: real, evicted: set<string>) {
    id != "" && id in Pruned(lines, now, evicted) && Blocks(lines[id], now)
  }

  // --------------------------------------------------- the worker's transitions

  function Move(lines: Lines, id: string, change: LineRecord -> LineRecord): Lines {
    if id == "" || id !in lines then lines else lines[id := change(lines[id])]
  }

  function AfterTaken(r: LineRecord): LineRecord { r.(inPass := true) }

  function AfterSynthStarted(r: LineRecord, now: real): LineRecord {
    if r.state.Queued? then r.(synthStarted := Some(now)) else r
  }

  function AfterPlaying(r: LineRecord, now: real): LineRecord {
    if r.Active() then r.(state := Playing, playingAt := Some(now)) else r
  }

  function AfterDone(r: LineRecord, now: real): LineRecord {
    r.(state := Done, doneAt := Some(now), reason := "", inPass := false, plays := r.plays + 1)
  }

  function AfterDropped(r: LineRecord, now: real, reason: string, missedId: string): LineRecord {
    if r.state.Done? then r
    else r.(state := Dropped, droppedAt := Some(now), reason := if reason == "" then DROP_FAILED else reason,
            inPass := false, missedId := if missedId == "" then r.missedId else missedId)
  }

  function AfterRequeued(r: LineRecord, retry: bool): LineRecord {
    if r.state.Done? then r
    else r.(state := Queued, synthStarted := None, playingAt := None, inPass := false,
            retries := if retry then r.retries + 1 else r.retries)
  }

  function AfterSettle(r: LineRecord, now: real, reason: string): LineRecord {
    if r.inPass && r.Active() then r.(state := Dropped, droppedAt := Some(now), reason := reason, inPass := false)
    else r.(inPass := false)
  }

  function Taken(lines: Lines, id: string): Lines { Move(lines, id, r => AfterTaken(r)) }

  function SynthStarted(lines: Lines, id: string, now: real): Lines { Move(lines, id, r => AfterSynthStarted(r, now)) }

  function PlayingNow(lines: Lines, id: string, now: real): Lines { Move(lines, id, r => AfterPlaying(r, now)) }

  function DoneNow(lines: Lines, id: string, now: real): Lines { Move(lines, id, r => AfterDone(r, now)) }

  function DropNow(lines: Lines, id: string, now: real, reason: string, missedId: string): Lines {
    Move(lines, id, r => AfterDropped(r, now, reason, missedId))
  }

  function Requeue(lines: Lines, id: string, retry: bool): Lines { Move(lines, id, r => AfterRequeued(r, retry)) }

  function Settle(lines: Lines, id: string, now: real, reason: string): Lines {
    Move(lines, id, r => AfterSettle(r, now, reason))
  }

  // ------------------------------------------------------------------ restart

  function AfterRestart(r: LineRecord, now: real): LineRecord {
    if r.Active() then r.(state := Dropped, droppedAt := Some(now), reason := DROP_RESTART, inPass := false) else r
  }

  /** A record read back from the file: in a line no daemon holds any more. */
  function Lost(lines: Lines, now: real): Lines {
    map id | id in lines :: AfterRestart(lines[id], now)
  }

  function Loaded(lines: Lines, now: real, evicted: set<string>): Lines {
    Pruned(Lost(lines, now), now, evicted)
  }

  // ------------------------------------------------------------------- lemmas

  /** A record is forgotten when it is done with and nothing happened to it for
      over a day. */
  lemma ForgottenExactlyWhen(r: LineRecord, now: real)
    ensures Outdated(r, now) <==>
              && (r.state == Done || r.state == Dropped)
              && now - r.queuedAt > 86400.0
              && now - Moment(r.synthStarted) > 86400.0 && now - Moment(r.playingAt) > 86400.0
              && now - Moment(r.doneAt) > 86400.0 && now - Moment(r.droppedAt) > 86400.0
  {
  }

  function Moment(at: Option<real>): real { if at.Some? then at.value else 0.0 }

  /** The settled record that gives way: its last moment is the older, or the
      same and its id the smaller. */
  lemma GivesWayExactlyWhen(lines: Lines, a: string, b: string)
    requires a in lines && b in lines
    ensures GoesBefore(lines, a, b) <==>
              || LastMoment(lines[a]) < LastMoment(lines[b])
              || (LastMoment(lines[a]) == LastMoment(lines[b]) && TextBefore(a, b))
  {
    LastMomentIs(lines[a]);
    LastMomentIs(lines[b]);
  }

  lemma LastMomentIs(r: LineRecord)
    ensures r.UpdatedAt() == LastMoment(r)
  {
  }

  function LastMoment(r: LineRecord): real {
    var a := if r.queuedAt >= Moment(r.synthStarted) then r.queuedAt else Moment(r.synthStarted);
    var b := if Moment(r.playingAt) >= Moment(r.doneAt) then Moment(r.playingAt) else Moment(r.doneAt);
    var c := if a >= b then a else b;
    if c >= Moment(r.droppedAt) then c else Moment(r.droppedAt)
  }

  /** A prune lets go of as many as the ledger is over two thousand, if so many
      are done with. */
  lemma EvictsSoMany(lines: Lines, evicted: set<string>)
    requires IsEviction(lines, evicted)
    ensures |lines| <= 2000 ==> evicted == {}
    ensures |lines| > 2000 ==> |evicted| == |lines| - 2000 || (|evicted| == |SettledIds(lines)| < |lines| - 2000)
  {
  }

  /** A line that comes is kept by its first sixty characters, as queued now. */
  lemma ANewRecordIs(text: string, now: real, sends: int, plays: int)
    ensures var r := NewRecord(text, now, sends, plays);
            && r.text == (if |text| > 60 then text[..60] else text) && r.state == Queued && r.queuedAt == now
            && r.synthStarted == r.playingAt == r.doneAt == r.droppedAt == None && !r.inPass && r.retries == 0
            && r.sends == sends && r.plays == plays && r.missedId == "" && r.reason == ""
  {
  }

  /** What each move leaves on a record, the last moment it notes and no other:
      a taken line is in a pass, a started one says since when, a heard line
      counts one play more, a dropped one says when, why and under which entry,
      a line queued again has nothing started and may have one try more. */
  lemma WhatTheMovesNote(lines: Lines, id: string, now: real, why: string, entry: string, retry: bool)
    requires id != "" && id in lines
    ensures var r := lines[id];
            && Taken(lines, id)[id] == r.(inPass := true)
            && SynthStarted(lines, id, now)[id] == (if r.state == Queued then r.(synthStarted := Some(now)) else r)
            && PlayingNow(lines, id, now)[id] == (if r.Active() then r.(state := Playing, playingAt := Some(now)) else r)
            && IsHeardAt(r, DoneNow(lines, id, now)[id], now)
            && (r.state != Done ==> IsDroppedAt(r, DropNow(lines, id, now, why, entry)[id], now, if why != "" then why else "failed",
                                                if entry != "" then entry else r.missedId))
            && (r.state != Done ==> IsQueuedAgain(r, Requeue(lines, id, retry)[id], if retry then r.retries + 1 else r.retries))
            && (r.state == Done ==> DropNow(lines, id, now, why, entry)[id] == r == Requeue(lines, id, retry)[id])
            && (r.inPass && r.Active() ==> IsDroppedAt(r, Settle(lines, id, now, why)[id], now, why, r.missedId))
            && (!(r.inPass && r.Active()) ==> Settle(lines, id, now, why)[id] == r.(inPass := false))
            && (r.Active() ==> IsDroppedAt(r, AfterRestart(r, now), now, "restart", r.missedId))
            && (!r.Active() ==> AfterRestart(r, now) == r)
  {
  }

  predicate IsHeardAt(was: LineRecord, r: LineRecord, now: real) {
    && r.state == Done && r.doneAt == Some(now) && r.plays == was.plays + 1 && !r.inPass && r.reason == ""
    && r == was.(state := r.state, doneAt := r.doneAt, plays := r.plays, inPass := r.inPass, reason := r.reason)
  }

  predicate IsDroppedAt(was: LineRecord, r: LineRecord, now: real, why: string, entry: string) {
    && r.state == Dropped && r.droppedAt == Some(now) && r.reason == why && r.missedId == entry && !r.inPass
    && r == was.(state := r.state, droppedAt := r.droppedAt, reason := r.reason, missedId := r.missedId, inPass := r.inPass)
  }

  predicate IsQueuedAgain(was: LineRecord, r: LineRecord, retries: int) {
    && r.state == Queued && r.synthStarted == r.playingAt == None && !r.inPass && r.retries == retries
    && r == was.(state := r.state, synthStarted := None, playingAt := None, inPass := r.inPass, retries := r.retries)
  }

  /** Admitted anew, a line is counted from what the ledger still had of it. */
  lemma WhatAnAdmissionNotes(lines: Lines, id: string, text: string, now: real, evicted: set<string>)
    requires id != "" && !Refused(lines, id, now, evicted)
    ensures var r, known := AfterAdmit(lines, id, text, now, evicted)[id], id in Pruned(lines, now, evicted);
            && r.sends == (if known then lines[id].sends + 1 else 1) && r.plays == (if known then lines[id].plays else 0)
            && r == NewRecord(text, now, r.sends, r.plays)
  {
  }

  /** What a record must say for its state, and nothing dated after `now`. */
  predicate WellKept(lines: Lines, now: real) {
    forall id :: id in lines ==>
      && id != ""
      && (lines[id].state.Done? ==> lines[id].doneAt.Some?)
      && (lines[id].doneAt.Some? ==> lines[id].doneAt.value <= now)
  }

  predicate ActiveIn(lines: Lines, id: string) { id in lines && lines[id].Active() }

  predicate DoneIn(lines: Lines, id: string) { id in lines && lines[id].state.Done? }

  /** The same ids, and every other id's record as it was. */
  predicate TouchesOnly(before: Lines, after: Lines, id: string) {
    after.Keys == before.Keys && forall k :: k in before && k != id ==> after[k] == before[k]
  }

  /** Heard is final: of all the worker does with a line only its play makes it
      done, nothing undoes that or moves its time, and no other id changes. */
  lemma OnlyAPlayMakesALineDone(lines: Lines, id: string, now: real, reason: string, missedId: string, retry: bool, after: Lines)
    requires after in {Taken(lines, id), SynthStarted(lines, id, now), PlayingNow(lines, id, now), DoneNow(lines, id, now),
                       DropNow(lines, id, now, reason, missedId), Requeue(lines, id, retry), Settle(lines, id, now, reason)}
    ensures TouchesOnly(lines, after, id)
    ensures DoneIn(lines, id) ==> DoneIn(after, id)
    ensures DoneIn(lines, id) && after != DoneNow(lines, id, now) ==> after[id].doneAt == lines[id].doneAt
    ensures DoneIn(after, id) && !DoneIn(lines, id) ==> after == DoneNow(lines, id, now) && after[id].plays == lines[id].plays + 1
  {
  }

  /** A line let go can be sent again; one queued again cannot. */
  lemma DroppedOrQueuedAgain(lines: Lines, id: string, now: real, reason: string, missedId: string, retry: bool)
    requires id != "" && id in lines && !lines[id].state.Done?
    ensures var dropped := DropNow(lines, id, now, reason, missedId)[id];
            !Blocks(dropped, now) && !dropped.inPass && (missedId != "" ==> dropped.missedId == missedId)
    ensures var again := Requeue(lines, id, retry)[id]; Blocks(again, now) && !again.inPass
    ensures var left := Settle(lines, id, now, reason)[id]; Blocks(left, now) <==> lines[id].Active() && !lines[id].inPass
  {
  }

  lemma {:induction false} TextBeforeIsTotal(a: string, b: string)
    ensures a == b || TextBefore(a, b) || TextBefore(b, a)
    decreases |a|
  {
    if a != "" && b != "" {
      TextBeforeIsTotal(a[1..], b[1..]);
      if a[0] == b[0] && a[1..] == b[1..] {
        assert a == [a[0]] + a[1..] && b == [b[0]] + b[1..];
      }
    }
  }

  lemma {:induction false} TextBeforeIsTransitive(a: string, b: string, c: string)
    requires TextBefore(a, b) && TextBefore(b, c)
    ensures TextBefore(a, c)
    decreases |a|
  {
    if a != "" && a[0] == b[0] && b[0] == c[0] {
      TextBeforeIsTransitive(a[1..], b[1..], c[1..]);
    }
  }

  lemma {:induction false} TextBeforeIsStrict(a: string, b: string)
    requires TextBefore(a, b)
    ensures !TextBefore(b, a)
    decreases |a|
  {
    if a != "" && a[0] == b[0] {
      TextBeforeIsStrict(a[1..], b[1..]);
    }
  }

  lemma GoesBeforeIsStrict(lines: Lines, a: string, b: string)
    requires a in lines && b in lines && GoesBefore(lines, a, b)
    ensures !GoesBefore(lines, b, a)
  {
    if lines[a].UpdatedAt() == lines[b].UpdatedAt() {
      TextBeforeIsStrict(a, b);
    }
  }

  /** A full ledger has exactly one choice of what to let go. */
  lemma EvictionIsUnique(lines: Lines, e1: set<string>, e2: set<string>)
    requires IsEviction(lines, e1) && IsEviction(lines, e2)
    ensures e1 == e2
  {
    if e1 != e2 {
      var a, b := ApartBothWays(e1, e2);
      GoesBeforeIsStrict(lines, a, b);
    }
  }

  lemma ApartBothWays(e1: set<string>, e2: set<string>) returns (a: string, b: string)
    requires |e1| == |e2| && e1 != e2
    ensures a in e1 - e2 && b in e2 - e1
  {
    assert e1 == (e1 - e2) + (e1 * e2) && e2 == (e2 - e1) + (e1 * e2);
    assert |e1| == |e1 - e2| + |e1 * e2| && |e2| == |e2 - e1| + |e1 * e2|;
    assert e1 - e2 == {} ==> e2 - e1 == {};
    a :| a in e1 - e2;
    b :| b in e2 - e1;
  }

  /** Exactly when a request is queued: its id is new, dropped, done a whole
      day ago, or evicted from a full ledger. */
  lemma AdmittedExactlyWhen(lines: Lines, id: string, now: real, evicted: set<string>)
    requires id != "" && WellKept(lines, now) && IsEviction(Kept(lines, now), evicted)
    ensures !Refused(lines, id, now, evicted) <==>
            || id !in lines
            || lines[id].state.Dropped?
            || (lines[id].state.Done? && (id in evicted || now - lines[id].doneAt.value >= 86400.0))
  {
    if id in lines && lines[id].Active() {
      assert id !in SettledIds(Kept(lines, now));
    }
  }

  /** Refusing changes nothing but the count of sends; admitting starts the
      line afresh as queued; and either way no other kept id is touched. */
  lemma AdmitTouchesOneLine(lines: Lines, id: string, text: string, now: real, evicted: set<string>)
    requires id != ""
    ensures var after := AfterAdmit(lines, id, text, now, evicted);
            && after.Keys == Pruned(lines, now, evicted).Keys + {id}
            && (forall k :: k in after && k != id ==> k in lines && after[k] == lines[k])
            && (Refused(lines, id, now, evicted) ==> after[id] == lines[id].(sends := lines[id].sends + 1))
            && (!Refused(lines, id, now, evicted) ==> after[id].state.Queued? && !after[id].inPass && after[id].missedId == "")
  {
  }

  /** A pruned ledger is within its limit, or every id left in it is active. */
  lemma PruneKeepsWithinLimit(lines: Lines, now: real, evicted: set<string>)
    requires IsEviction(Kept(lines, now), evicted)
    ensures var after := Pruned(lines, now, evicted);
            && (|after| <= MAX_LINES || forall id :: id in after ==> after[id].Active())
            && (forall id :: ActiveIn(lines, id) ==> id in after)
  {
    var kept := Kept(lines, now);
    var after := Pruned(lines, now, evicted);
    assert after.Keys == kept.Keys - evicted;
    assert evicted <= kept.Keys;
    assert |after.Keys| == |kept.Keys| - |evicted|;
    if |after| > MAX_LINES {
      SameSizeSubset(evicted, SettledIds(kept));
      forall id | id in after ensures after[id].Active() {
        assert id !in SettledIds(kept);
      }
    }
    forall id | ActiveIn(lines, id) ensures id in after {
      assert id !in SettledIds(kept);
    }
  }

  lemma SameSizeSubset(a: set<string>, b: set<string>)
    requires a <= b && |a| >= |b|
    ensures a == b
  {
    assert b == a + (b - a);
    assert |b| == |a| + |b - a|;
  }

  function Elements(ids: seq<string>): set<string> { set k | k in ids }

  predicate InGoingOrder(lines: Lines, ids: seq<string>) {
    && (forall k :: k in ids ==> k in lines)
    && (forall i, j :: 0 <= i < j < |ids| ==> GoesBefore(lines, ids[i], ids[j]))
  }

  lemma {:induction false} InOrderMeansDistinct(lines: Lines, ids: seq<string>)
    requires InGoingOrder(lines, ids)
    ensures |Elements(ids)| == |ids|
  {
    if ids == [] {
      assert Elements(ids) == {};
    } else {
      var last := |ids| - 1;
      assert ids == ids[..last] + [ids[last]];
      assert Elements(ids) == Elements(ids[..last]) + {ids[last]};
      forall i | 0 <= i < last ensures ids[i] != ids[last] {
        GoesBeforeIsStrict(lines, ids[i], ids[last]);
      }
      InOrderMeansDistinct(lines, ids[..last]);
    }
  }

  /** The first `count` settled ids, when that is all there are or all that
      are over, are the eviction. */
  lemma OldestMakeAnEviction(lines: Lines, ids: seq<string>, count: nat)
    requires InGoingOrder(lines, ids) && (forall k :: k in ids <==> k in SettledIds(lines))
    requires |lines| > MAX_LINES
    requires count == if |lines| - MAX_LINES <= |ids| then |lines| - MAX_LINES else |ids|
    ensures IsEviction(lines, Elements(ids[..count]))
  {
    InOrderMeansDistinct(lines, ids);
    InOrderMeansDistinct(lines, ids[..count]);
    assert Elements(ids) == SettledIds(lines);
    forall e, k | e in Elements(ids[..count]) && k in SettledIds(lines) && k !in Elements(ids[..count])
      ensures GoesBefore(lines, e, k)
    {
      var i :| 0 <= i < count && ids[i] == e;
      var j :| 0 <= j < |ids| && ids[j] == k;
      PastPrefix(ids, j, count);
      assert GoesBefore(lines, ids[i], ids[j]);
    }
  }

  lemma PastPrefix(ids: seq<string>, j: nat, count: nat)
    requires j < |ids| && count <= |ids| && ids[j] !in Elements(ids[..count])
    ensures count <= j
  {
  }

  lemma OneMoreGone(lines: Lines, ids: seq<string>, i: nat)
    requires i < |ids|
    ensures lines - Elements(ids[..i]) - {ids[i]} == lines - Elements(ids[..i + 1])
  {
    assert ids[..i + 1] == ids[..i] + [ids[i]];
    assert Elements(ids[..i + 1]) == Elements(ids[..i]) + {ids[i]};
  }

  // -------------------------------------------------------------------- class

  class LineLedger {
    var lines: Lines

    constructor ()
      ensures lines == map[]
    {
      lines := map[];
    }

    /** The settled ids, in the order they give way. */
    method SettledOldestFirst() returns (ids: seq<string>)
      ensures forall k :: k in ids <==> k in SettledIds(lines)
      ensures InGoingOrder(lines, ids)
    {
      ids := [];
      var rest := SettledIds(lines);
      while rest != {}
        invariant rest <= SettledIds(lines)
        invariant forall k :: k in ids <==> k in SettledIds(lines) && k !in rest
        invariant InGoingOrder(lines, ids)
        invariant forall e, k :: e in ids && k in rest ==> GoesBefore(lines, e, k)
        decreases |rest|
      {
        var first := Oldest(rest);
        ids := ids + [first];
        rest := rest - {first};
      }
    }

    method Oldest(among: set<string>) returns (first: string)
      requires among != {} && among <= lines.Keys
      ensures first in among
      ensures forall k :: k in among && k != first ==> GoesBefore(lines, first, k)
    {
      first :| first in among;
      var rest := among - {first};
      while rest != {}
        invariant first in among && first !in rest && rest <= among
        invariant forall k :: k in among && k !in rest && k != first ==> GoesBefore(lines, first, k)
        decreases |rest|
      {
        var k :| k in rest;
        TextBeforeIsTotal(first, k);
        if GoesBefore(lines, k, first) {
          forall j | j in among && j !in rest && j != first ensures GoesBefore(lines, k, j) {
            if lines[k].UpdatedAt() == lines[j].UpdatedAt() {
              TextBeforeIsTransitive(k, first, j);
            }
          }
          first := k;
        }
        rest := rest - {k};
      }
    }

    method Prune(now: real) returns (ghost evicted: set<string>)
      modifies this
      ensures IsEviction(Kept(old(lines), now), evicted)
      ensures lines == Pruned(old(lines), now, evicted)
    {
      lines := Kept(lines, now);
      var over := |lines| - MAX_LINES;
      evicted := {};
      if over > 0 {
        evicted := LetGo(over);
      }
      assert lines == Kept(old(lines), now) - evicted;
    }

    /** The oldest settled ids leave, as many as the ledger is over by. */
    method LetGo(over: nat) returns (ghost evicted: set<string>)
      requires |lines| > MAX_LINES && over == |lines| - MAX_LINES
      modifies this
      ensures IsEviction(old(lines), evicted)
      ensures lines == old(lines) - evicted
    {
      var settled := SettledOldestFirst();
      var count := if over <= |settled| then over else |settled|;
      for i := 0 to count
        invariant lines == old(lines) - Elements(settled[..i])
      {
        OneMoreGone(old(lines), settled, i);
        lines := lines - {settled[i]};
      }
      evicted := Elements(settled[..count]);
      OldestMakeAnEviction(old(lines), settled, count);
    }

    method Admit(id: string, text: string, now: real) returns (seen: Option<LineRecord>, ghost evicted: set<string>)
      modifies this
      ensures id == "" ==> seen == None && lines == old(lines)
      ensures id != "" ==> IsEviction(Kept(old(lines), now), evicted)
      ensures id != "" ==> lines == AfterAdmit(old(lines), id, text, now, evicted)
      ensures id != "" ==> (seen.Some? <==> Refused(old(lines), id, now, evicted))
      ensures seen.Some? ==> id in lines && seen.value == lines[id]
    {
      evicted := {};
      if id == "" { return None, evicted; }
      evicted := Prune(now);
      if id in lines && Blocks(lines[id], now) {
        var rec := lines[id];
        lines := lines[id := rec.(sends := rec.sends + 1)];
        return Some(lines[id]), evicted;
      }
      var sends := if id in lines then lines[id].sends + 1 else 1;
      var plays := if id in lines then lines[id].plays else 0;
      lines := lines[id := NewRecord(text, now, sends, plays)];
      return None, evicted;
    }

    method MarkTaken(id: string)
      modifies this
      ensures lines == Taken(old(lines), id)
    {
      if id == "" || id !in lines { return; }
      lines := lines[id := lines[id].(inPass := true)];
    }

    method MarkSynthStarted(id: string, now: real)
      modifies this
      ensures lines == SynthStarted(old(lines), id, now)
    {
      if id == "" || id !in lines { return; }
      if lines[id].state.Queued? {
        lines := lines[id := lines[id].(synthStarted := Some(now))];
      }
      assert lines == SynthStarted(old(lines), id, now);
    }

    method MarkPlaying(id: string, now: real)
      modifies this
      ensures lines == PlayingNow(old(lines), id, now)
    {
      if id == "" || id !in lines { return; }
      if lines[id].Active() {
        lines := lines[id := lines[id].(state := Playing, playingAt := Some(now))];
      }
      assert lines == PlayingNow(old(lines), id, now);
    }

    method MarkDone(id: string, now: real)
      modifies this
      ensures lines == DoneNow(old(lines), id, now)
    {
      if id == "" || id !in lines { return; }
      var r := lines[id];
      lines := lines[id := r.(state := Done, doneAt := Some(now), reason := "", inPass := false, plays := r.plays + 1)];
    }

    method IsDone(id: string) returns (done: bool)
      ensures done <==> id != "" && DoneIn(lines, id)
    {
      done := id != "" && id in lines && lines[id].state.Done?;
    }

    method MarkDropped(id: string, now: real, reason: string, missedId: string)
      modifies this
      ensures lines == DropNow(old(lines), id, now, reason, missedId)
    {
      if id == "" || id !in lines { return; }
      var r := lines[id];
      if !r.state.Done? {
        r := r.(state := Dropped, droppedAt := Some(now), reason := if reason == "" then DROP_FAILED else reason, inPass := false);
        if missedId != "" { r := r.(missedId := missedId); }
        lines := lines[id := r];
      }
      assert lines == DropNow(old(lines), id, now, reason, missedId);
    }

    /** A line id whose record names this missed entry, so that a replay sent
        without an id goes by that one; empty if no record does. */
    method ForMissed(missedId: string) returns (id: string)
      ensures id == "" ==> missedId == "" || forall k :: k in lines && k != "" ==> lines[k].missedId != missedId
      ensures id != "" ==> id in lines && lines[id].missedId == missedId && missedId != ""
    {
      if missedId == "" { return ""; }
      var rest := lines.Keys - {""};
      while rest != {}
        invariant rest <= lines.Keys - {""}
        invariant forall k :: k in lines && k != "" && k !in rest ==> lines[k].missedId != missedId
        decreases |rest|
      {
        var k :| k in rest;
        if lines[k].missedId == missedId { return k; }
        rest := rest - {k};
      }
      return "";
    }

    method MarkRequeued(id: string, retry: bool)
      modifies this
      ensures lines == Requeue(old(lines), id, retry)
    {
      if id == "" || id !in lines { return; }
      var r := lines[id];
      if !r.state.Done? {
        r := r.(state := Queued, synthStarted := None, playingAt := None, inPass := false);
        if retry { r := r.(retries := r.retries + 1); }
        lines := lines[id := r];
      }
      assert lines == Requeue(old(lines), id, retry);
    }

    method EndPass(id: string, now: real, reason: string)
      modifies this
      ensures lines == Settle(old(lines), id, now, reason)
    {
      if id == "" || id !in lines { return; }
      var r := lines[id];
      if r.inPass && r.Active() {
        r := r.(state := Dropped, droppedAt := Some(now), reason := reason);
      }
      lines := lines[id := r.(inPass := false)];
    }

    /** The next daemon reads the file: what was queued or playing is lost. */
    method Load(file: Lines, now: real) returns (ghost evicted: set<string>)
      modifies this
      ensures IsEviction(Kept(Lost(file, now), now), evicted)
      ensures lines == Loaded(file, now, evicted)
    {
      lines := map[];
      var rest := file.Keys;
      while rest != {}
        invariant rest <= file.Keys
        invariant lines == (map id | id in file.Keys - rest :: AfterRestart(file[id], now))
        decreases |rest|
      {
        var id :| id in rest;
        var rec := file[id];
        if rec.Active() {
          rec := rec.(state := Dropped, droppedAt := Some(now), reason := DROP_RESTART, inPass := false);
        }
        lines := lines[id := rec];
        rest := rest - {id};
      }
      assert lines == Lost(file, now);
      evicted := Prune(now);
    }
  }
}
