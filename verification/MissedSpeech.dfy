/** The missed list: speech that was held or set aside and not heard yet.
    The functions say what each write leaves in the file; MissedList is the
    object whose methods write it. */
module MissedSpeech {
  import opened Options
  import opened Seqs

  datatype Status = Held | Missed

  datatype Reason = NoReason | LongestWait | Stale | Interrupted | Restarted | TimedOut | Meeting | Stopped | Added

  datatype MissedLine = MissedLine(
    id: string,
    text: string,
    queuedAt: real,
    status: Status,
    reason: Reason,
    heldFor: seq<string>,
    waitedSeconds: real,
    missedAt: Option<real>,
    sourceHash: string,
    sessionId: string,
    announced: bool,
    source: string,
    lineId: string,
    originFile: string,
    sender: string)

  type Entries = seq<MissedLine>

  const MAX_AGE_S: real := 86400.0

  predicate Expired(m: MissedLine, now: real) {
    m.status.Missed?
    && (var missedAt := m.missedAt.GetOr(0.0); (if m.queuedAt < missedAt then missedAt else m.queuedAt) < now - MAX_AGE_S)
  }

  /** A missed line is kept for a day from when it was asked for or missed,
      whichever is later; a held line for as long as it is held. */
  lemma ExpiresExactlyWhen(m: MissedLine, now: real)
    ensures Expired(m, now) <==>
              m.status == Missed && now - m.queuedAt > 86400.0 && now - (if m.missedAt.Some? then m.missedAt.value else 0.0) > 86400.0
  {
  }

  function Keep(lines: Entries, p: MissedLine -> bool): Entries {
    if lines == [] then [] else (if p(lines[0]) then [lines[0]] else []) + Keep(lines[1..], p)
  }

  function Unexpired(now: real): MissedLine -> bool { (m: MissedLine) => !Expired(m, now) }

  function NotId(id: string): MissedLine -> bool { (m: MissedLine) => m.id != id }

  function NotLine(lineId: string): MissedLine -> bool { (m: MissedLine) => m.lineId != lineId }

  function Live(file: Entries, now: real): Entries { Keep(file, Unexpired(now)) }

  // --------------------------------------------------------- oldest first

  predicate OldestFirst(lines: Entries) {
    forall i, j :: 0 <= i < j < |lines| ==> lines[i].queuedAt <= lines[j].queuedAt
  }

  /** Where a stable sort puts `m` among lines already in order. */
  function Place(lines: Entries, m: MissedLine): (k: nat)
    ensures k <= |lines|
    ensures k > 0 ==> lines[k - 1].queuedAt <= m.queuedAt
    ensures forall i :: k <= i < |lines| ==> m.queuedAt < lines[i].queuedAt
  {
    if lines == [] then 0
    else if lines[|lines| - 1].queuedAt <= m.queuedAt then |lines|
    else Place(lines[..|lines| - 1], m)
  }

  function InsertAt(lines: Entries, m: MissedLine, k: nat): Entries
    requires k <= |lines|
  {
    lines[..k] + [m] + lines[k..]
  }

  /** Python's stable sort by the time a line was asked for. */
  function SortByTime(lines: Entries): Entries {
    if lines == [] then []
    else
      var front := SortByTime(lines[..|lines| - 1]);
      var m := lines[|lines| - 1];
      InsertAt(front, m, Place(front, m))
  }

  // -------------------------------------------------------------- the writes

  function FindId(lines: Entries, id: string): (i: nat)
    ensures i <= |lines|
    ensures i < |lines| ==> lines[i].id == id
    ensures forall j :: 0 <= j < i ==> lines[j].id != id
  {
    if lines == [] || lines[0].id == id then 0 else 1 + FindId(lines[1..], id)
  }

  function FindLine(lines: Entries, lineId: string): (i: nat)
    ensures i <= |lines|
    ensures i < |lines| ==> lines[i].lineId == lineId
    ensures forall j :: 0 <= j < i ==> lines[j].lineId != lineId
  {
    if lines == [] || lines[0].lineId == lineId then 0 else 1 + FindLine(lines[1..], lineId)
  }

  function Or(a: string, b: string): string { if a != "" then a else b }

  /** The same speech line set aside again: the entry keeps the id it first
      had, the earlier of the two times, and what only it knew. */
  function Merge(line: MissedLine, existing: MissedLine): MissedLine {
    line.(id := existing.id,
          queuedAt := if existing.queuedAt != 0.0 && existing.queuedAt < line.queuedAt then existing.queuedAt else line.queuedAt,
          source := Or(line.source, existing.source),
          sessionId := Or(line.sessionId, existing.sessionId),
          sender := Or(line.sender, existing.sender),
          originFile := Or(line.originFile, existing.originFile))
  }

  function Place1(lines: Entries, line: MissedLine): (Entries, MissedLine) {
    var i := FindId(lines, line.id);
    var j := FindLine(lines, line.lineId);
    if i < |lines| then (lines[i := line], line)
    else if line.lineId != "" && j < |lines| then (lines[j := Merge(line, lines[j])], Merge(line, lines[j]))
    else (lines + [line], line)
  }

  function Upsert(file: Entries, line: MissedLine, now: real): (Entries, MissedLine) {
    var (lines, stored) := Place1(Live(file, now), line);
    (SortByTime(lines), stored)
  }

  function AsHeld(line: MissedLine, heldFor: seq<string>): MissedLine {
    line.(status := Held, heldFor := heldFor, reason := NoReason, missedAt := None)
  }

  function AsMissed(line: MissedLine, reason: Reason, waited: real, heldFor: seq<string>, now: real): MissedLine {
    line.(status := Missed, reason := reason, waitedSeconds := waited, heldFor := heldFor, missedAt := Some(now))
  }

  function RemoveId(file: Entries, id: string, now: real): Entries { Keep(Live(file, now), NotId(id)) }

  function RemoveLine(file: Entries, lineId: string): Entries {
    if lineId == "" then file else Keep(file, NotLine(lineId))
  }

  function SettleOne(m: MissedLine, reason: Reason, now: real): MissedLine {
    if m.status.Held? then m.(status := Missed, reason := reason, missedAt := Some(now)) else m
  }

  function Change(lines: Entries, f: MissedLine -> MissedLine): Entries {
    if lines == [] then [] else [f(lines[0])] + Change(lines[1..], f)
  }

  function Settler(reason: Reason, now: real): MissedLine -> MissedLine { (m: MissedLine) => SettleOne(m, reason, now) }

  function SettleHeld(file: Entries, reason: Reason, now: real): Entries {
    Change(Live(file, now), Settler(reason, now))
  }

  function Due(): MissedLine -> bool { (m: MissedLine) => DueForSummary(m) }

  predicate DueForSummary(m: MissedLine) { m.status.Missed? && m.reason.Meeting? && !m.announced }

  function Announce(m: MissedLine): MissedLine { if DueForSummary(m) then m.(announced := true) else m }

  function Announcer(): MissedLine -> MissedLine { (m: MissedLine) => Announce(m) }

  function AfterSummary(file: Entries, now: real): Entries {
    if forall m :: m in Live(file, now) ==> !DueForSummary(m) then file else Change(Live(file, now), Announcer())
  }

  // ------------------------------------------------------------- what is kept

  predicate UniqueIds(lines: Entries) {
    forall i, j :: 0 <= i < j < |lines| ==> lines[i].id != lines[j].id
  }

  predicate OneEntryPerLine(lines: Entries) {
    forall i, j :: 0 <= i < j < |lines| && lines[i].lineId != "" ==> lines[i].lineId != lines[j].lineId
  }

  /** The first entry of the line. */
  predicate FirstOfLine(lines: Entries, lineId: string, m: MissedLine) {
    m.lineId == lineId && exists k :: 0 <= k < |lines| && lines[k] == m && forall i :: 0 <= i < k ==> lines[i].lineId != lineId
  }

  predicate HasId(lines: Entries, id: string) { exists m :: m in lines && m.id == id }

  predicate HasLine(lines: Entries, lineId: string) { exists m :: m in lines && m.lineId == lineId }

  /** No id, and no line id but the empty one, is on both lists. */
  predicate ApartIds(a: Entries, b: Entries) { forall x, y :: x in a && y in b ==> x.id != y.id }

  predicate ApartLines(a: Entries, b: Entries) {
    forall x, y :: x in a && y in b && x.lineId != "" ==> x.lineId != y.lineId
  }

  lemma JoinedIds(a: Entries, b: Entries)
    ensures UniqueIds(a + b) <==> UniqueIds(a) && UniqueIds(b) && ApartIds(a, b)
  {
    var c := a + b;
    assert forall i :: 0 <= i < |a| ==> c[i] == a[i];
    assert forall i :: 0 <= i < |b| ==> c[|a| + i] == b[i];
    if UniqueIds(c) {
      forall x, y | x in a && y in b ensures x.id != y.id {
        var i :| 0 <= i < |a| && a[i] == x;
        var j :| 0 <= j < |b| && b[j] == y;
        assert c[i].id != c[|a| + j].id;
      }
      forall i, j | 0 <= i < j < |b| ensures b[i].id != b[j].id {
        assert c[|a| + i].id != c[|a| + j].id;
      }
    }
  }

  lemma JoinedLines(a: Entries, b: Entries)
    ensures OneEntryPerLine(a + b) <==> OneEntryPerLine(a) && OneEntryPerLine(b) && ApartLines(a, b)
  {
    var c := a + b;
    assert forall i :: 0 <= i < |a| ==> c[i] == a[i];
    assert forall i :: 0 <= i < |b| ==> c[|a| + i] == b[i];
    if OneEntryPerLine(c) {
      forall x, y | x in a && y in b && x.lineId != "" ensures x.lineId != y.lineId {
        var i :| 0 <= i < |a| && a[i] == x;
        var j :| 0 <= j < |b| && b[j] == y;
        assert c[i].lineId != c[|a| + j].lineId;
      }
      forall i, j | 0 <= i < j < |b| && b[i].lineId != "" ensures b[i].lineId != b[j].lineId {
        assert c[|a| + i].lineId != c[|a| + j].lineId;
      }
    }
  }

  lemma JoinedOrder(a: Entries, b: Entries)
    ensures OldestFirst(a + b) <==> OldestFirst(a) && OldestFirst(b) && forall x, y :: x in a && y in b ==> x.queuedAt <= y.queuedAt
  {
    var c := a + b;
    assert forall i :: 0 <= i < |a| ==> c[i] == a[i];
    assert forall i :: 0 <= i < |b| ==> c[|a| + i] == b[i];
    if OldestFirst(c) {
      forall x, y | x in a && y in b ensures x.queuedAt <= y.queuedAt {
        var i :| 0 <= i < |a| && a[i] == x;
        var j :| 0 <= j < |b| && b[j] == y;
        assert c[i].queuedAt <= c[|a| + j].queuedAt;
      }
      forall i, j | 0 <= i < j < |b| ensures b[i].queuedAt <= b[j].queuedAt {
        assert c[|a| + i].queuedAt <= c[|a| + j].queuedAt;
      }
    }
  }

  lemma {:induction false} KeepElements(lines: Entries, p: MissedLine -> bool)
    ensures forall m :: m in Keep(lines, p) <==> m in lines && p(m)
    ensures |Keep(lines, p)| <= |lines|
  {
    if lines != [] { KeepElements(lines[1..], p); }
  }

  lemma {:induction false} KeepProperties(lines: Entries, p: MissedLine -> bool)
    ensures forall m :: m in Keep(lines, p) <==> m in lines && p(m)
    ensures |Keep(lines, p)| <= |lines|
    ensures UniqueIds(lines) ==> UniqueIds(Keep(lines, p))
    ensures OneEntryPerLine(lines) ==> OneEntryPerLine(Keep(lines, p))
    ensures OldestFirst(lines) ==> OldestFirst(Keep(lines, p))
  {
    KeepElements(lines, p);
    if lines != [] {
      var head, rest := [lines[0]], lines[1..];
      assert lines == head + rest;
      KeepProperties(rest, p);
      var kept := if p(lines[0]) then head else [];
      JoinedIds(head, rest);
      JoinedIds(kept, Keep(rest, p));
      JoinedLines(head, rest);
      JoinedLines(kept, Keep(rest, p));
      JoinedOrder(head, rest);
      JoinedOrder(kept, Keep(rest, p));
    }
  }

  lemma {:induction false} KeepEverything(lines: Entries, p: MissedLine -> bool)
    requires forall m :: m in lines ==> p(m)
    ensures Keep(lines, p) == lines
  {
    if lines != [] { KeepEverything(lines[1..], p); }
  }

  lemma {:induction false} ChangeProperties(lines: Entries, f: MissedLine -> MissedLine)
    requires forall m :: f(m).id == m.id && f(m).lineId == m.lineId && f(m).queuedAt == m.queuedAt
    ensures |Change(lines, f)| == |lines|
    ensures forall i :: 0 <= i < |lines| ==> Change(lines, f)[i] == f(lines[i])
    ensures UniqueIds(lines) ==> UniqueIds(Change(lines, f))
    ensures OneEntryPerLine(lines) ==> OneEntryPerLine(Change(lines, f))
    ensures OldestFirst(lines) ==> OldestFirst(Change(lines, f))
  {
    ChangePointwise(lines, f);
  }

  lemma {:induction false} ChangePointwise(lines: Entries, f: MissedLine -> MissedLine)
    ensures |Change(lines, f)| == |lines|
    ensures forall i :: 0 <= i < |lines| ==> Change(lines, f)[i] == f(lines[i])
  {
    if lines != [] {
      ChangePointwise(lines[1..], f);
      assert forall i :: 1 <= i < |lines| ==> lines[i] == lines[1..][i - 1];
    }
  }

  lemma InsertedUnique(lines: Entries, m: MissedLine, k: nat)
    requires k <= |lines|
    ensures UniqueIds(InsertAt(lines, m, k)) <==> UniqueIds(lines) && !HasId(lines, m.id)
  {
    var a, b := lines[..k], lines[k..];
    assert lines == a + b && m in [m];
    JoinedIds(a + [m], b);
    JoinedIds(a, [m]);
    JoinedIds(a, b);
  }

  lemma InsertedOnePerLine(lines: Entries, m: MissedLine, k: nat)
    requires k <= |lines|
    ensures OneEntryPerLine(InsertAt(lines, m, k)) <==> OneEntryPerLine(lines) && (m.lineId == "" || !HasLine(lines, m.lineId))
  {
    var a, b := lines[..k], lines[k..];
    assert lines == a + b && m in [m];
    JoinedLines(a + [m], b);
    JoinedLines(a, [m]);
    JoinedLines(a, b);
  }

  lemma InsertedOrder(lines: Entries, m: MissedLine)
    requires OldestFirst(lines)
    ensures OldestFirst(InsertAt(lines, m, Place(lines, m)))
  {
    var k := Place(lines, m);
    var c := InsertAt(lines, m, k);
    forall i, j | 0 <= i < j < |c| ensures c[i].queuedAt <= c[j].queuedAt {
      var x := if i < k then lines[i] else if i == k then m else lines[i - 1];
      var y := if j < k then lines[j] else if j == k then m else lines[j - 1];
      assert c[i] == x && c[j] == y;
      assert x.queuedAt <= y.queuedAt by {
        if i < k <= j { assert lines[i].queuedAt <= lines[k - 1].queuedAt; }
      }
    }
  }

  lemma InsertedElements(lines: Entries, m: MissedLine, k: nat)
    requires k <= |lines|
    ensures multiset(InsertAt(lines, m, k)) == multiset(lines) + multiset{m}
  {
    assert lines == lines[..k] + lines[k..];
  }

  lemma {:induction false} SortOrder(lines: Entries)
    ensures OldestFirst(SortByTime(lines))
    ensures multiset(SortByTime(lines)) == multiset(lines)
  {
    if lines != [] {
      var last := |lines| - 1;
      var front, m := SortByTime(lines[..last]), lines[last];
      SortOrder(lines[..last]);
      assert lines == lines[..last] + [m];
      InsertedOrder(front, m);
      InsertedElements(front, m, Place(front, m));
    }
  }

  lemma {:induction false} SortUnique(lines: Entries)
    ensures UniqueIds(SortByTime(lines)) <==> UniqueIds(lines)
    ensures OneEntryPerLine(SortByTime(lines)) <==> OneEntryPerLine(lines)
  {
    if lines != [] {
      var last := |lines| - 1;
      SortUnique(lines[..last]);
      SortOrder(lines[..last]);
      OneMoreUnique(lines[..last], lines[last], lines);
    }
  }

  lemma OneMoreUnique(front: Entries, m: MissedLine, lines: Entries)
    requires lines == front + [m] && multiset(SortByTime(front)) == multiset(front)
    requires (UniqueIds(SortByTime(front)) <==> UniqueIds(front)) && (OneEntryPerLine(SortByTime(front)) <==> OneEntryPerLine(front))
    ensures UniqueIds(SortByTime(lines)) <==> UniqueIds(lines)
    ensures OneEntryPerLine(SortByTime(lines)) <==> OneEntryPerLine(lines)
  {
    FrontOfMore(front, m);
    SameElements(SortByTime(front), front);
    InsertedOrAppended(SortByTime(front), front, m);
  }

  /** Put in its place or last, an entry doubles an id or a line just the same. */
  lemma InsertedOrAppended(sorted: Entries, lines: Entries, m: MissedLine)
    requires forall x :: x in sorted <==> x in lines
    requires (UniqueIds(sorted) <==> UniqueIds(lines)) && (OneEntryPerLine(sorted) <==> OneEntryPerLine(lines))
    ensures UniqueIds(InsertAt(sorted, m, Place(sorted, m))) <==> UniqueIds(lines + [m])
    ensures OneEntryPerLine(InsertAt(sorted, m, Place(sorted, m))) <==> OneEntryPerLine(lines + [m])
  {
    InsertedUnique(sorted, m, Place(sorted, m));
    InsertedOnePerLine(sorted, m, Place(sorted, m));
    AppendUnique(lines, m);
  }

  lemma SortProperties(lines: Entries)
    ensures OldestFirst(SortByTime(lines))
    ensures multiset(SortByTime(lines)) == multiset(lines)
    ensures UniqueIds(SortByTime(lines)) <==> UniqueIds(lines)
    ensures OneEntryPerLine(SortByTime(lines)) <==> OneEntryPerLine(lines)
  {
    SortOrder(lines);
    SortUnique(lines);
  }

  lemma SameElements(a: Entries, b: Entries)
    requires multiset(a) == multiset(b)
    ensures forall m :: m in a <==> m in b
  {
    forall m ensures m in a <==> m in b {
      assert m in a <==> m in multiset(a);
      assert m in b <==> m in multiset(b);
    }
  }

  lemma AppendUnique(lines: Entries, m: MissedLine)
    ensures UniqueIds(lines + [m]) <==> UniqueIds(lines) && !HasId(lines, m.id)
    ensures OneEntryPerLine(lines + [m]) <==> OneEntryPerLine(lines) && (m.lineId == "" || !HasLine(lines, m.lineId))
  {
    JoinedIds(lines, [m]);
    JoinedLines(lines, [m]);
    assert m in [m];
  }

  /** Sorting a list already in order leaves it as it is. */
  lemma {:induction false} SortOfSorted(lines: Entries)
    requires OldestFirst(lines)
    ensures SortByTime(lines) == lines
  {
    if lines != [] {
      var last := |lines| - 1;
      SortOfSorted(lines[..last]);
      LastGoesLast(lines[..last], lines[last], lines);
    }
  }

  lemma LastGoesLast(front: Entries, m: MissedLine, lines: Entries)
    requires OldestFirst(lines) && lines == front + [m]
    ensures InsertAt(front, m, Place(front, m)) == lines
  {
    assert front != [] ==> lines[|front| - 1] == front[|front| - 1] && lines[|front|] == m;
    assert Place(front, m) == |front|;
  }

  /** What an upsert does to the list: the line is stored once, under its own
      id or the id its speech line already had; every id that was there is
      there still; no other entry changes; ids stay unique. */
  lemma UpsertProperties(file: Entries, line: MissedLine, now: real)
    requires UniqueIds(file)
    ensures var (after, stored) := Upsert(file, line, now);
            && UniqueIds(after) && OldestFirst(after)
            && stored in after
            && stored == line.(id := stored.id, queuedAt := stored.queuedAt, source := stored.source,
                               sessionId := stored.sessionId, sender := stored.sender, originFile := stored.originFile)
            && (stored.id == line.id || (line.lineId != "" && !HasId(Live(file, now), line.id)
                                         && exists m :: m in Live(file, now) && m.id == stored.id && m.lineId == line.lineId))
            && (forall m :: m in after && m != stored ==> m in Live(file, now) && m.id != stored.id)
            && (forall m :: m in Live(file, now) && m.id != stored.id ==> m in after)
  {
    KeepProperties(file, Unexpired(now));
    var live := Live(file, now);
    var (lines, stored) := Place1(live, line);
    var i := FindId(live, line.id);
    var j := FindLine(live, line.lineId);
    SortProperties(lines);
    SameElements(SortByTime(lines), lines);
    if i < |live| {
      ReplaceAt(live, i, line);
    } else if line.lineId != "" && j < |live| {
      ReplaceAt(live, j, Merge(line, live[j]));
      assert live[j] in live;
    } else {
      AppendUnique(live, line);
      assert !HasId(live, line.id);
      assert lines[|live|] == line;
    }
  }

  /** The entry the same speech line had, set aside again: what came now is
      kept, and of what was known before only what did not come now. */
  predicate IsAgain(line: MissedLine, before: MissedLine, m: MissedLine) {
    && m == line.(id := before.id, queuedAt := m.queuedAt, source := m.source, sessionId := m.sessionId,
                  sender := m.sender, originFile := m.originFile)
    && (before.queuedAt == 0.0 ==> m.queuedAt == line.queuedAt)
    && (before.queuedAt != 0.0 ==> m.queuedAt in {line.queuedAt, before.queuedAt}
                                   && m.queuedAt <= line.queuedAt && m.queuedAt <= before.queuedAt)
    && IsFirstOf(m.source, line.source, before.source) && IsFirstOf(m.sessionId, line.sessionId, before.sessionId)
    && IsFirstOf(m.sender, line.sender, before.sender) && IsFirstOf(m.originFile, line.originFile, before.originFile)
  }

  predicate IsFirstOf(x: string, a: string, b: string) { (a != "" ==> x == a) && (a == "" ==> x == b) }

  /** What an upsert stores: the line itself, under an entry id the list has or
      where the list has no entry of its speech line; else it is set aside again
      as the first entry its speech line has. */
  lemma StoredExactly(file: Entries, line: MissedLine, now: real)
    ensures var stored, live := Upsert(file, line, now).1, Live(file, now);
            && (HasId(live, line.id) || line.lineId == "" || !HasLine(live, line.lineId) ==> stored == line)
            && (!HasId(live, line.id) && line.lineId != "" && HasLine(live, line.lineId) ==>
                  exists m :: FirstOfLine(live, line.lineId, m) && IsAgain(line, m, stored))
  {
    var live := Live(file, now);
    var i, j := FindId(live, line.id), FindLine(live, line.lineId);
    if i < |live| {
      assert live[i] in live;
    } else if line.lineId != "" && j < |live| {
      assert FirstOfLine(live, line.lineId, live[j]) && IsAgain(line, live[j], Merge(line, live[j]));
    }
  }

  lemma ReplaceAt(lines: Entries, i: nat, m: MissedLine)
    requires UniqueIds(lines) && i < |lines| && lines[i].id == m.id
    ensures var after := lines[i := m];
            && UniqueIds(after) && m in after
            && (forall x :: x in after && x != m ==> x in lines && x.id != m.id)
            && (forall x :: x in lines && x.id != m.id ==> x in after)
  {
    var after := lines[i := m];
    assert after[i] == m;
    forall x | x in lines && x.id != m.id ensures x in after {
      var k :| 0 <= k < |lines| && lines[k] == x;
      assert after[k] == x;
    }
    forall x | x in after && x != m ensures x in lines && x.id != m.id {
      var k :| 0 <= k < |after| && after[k] == x;
      assert lines[k] == x;
    }
  }

  /** An upsert whose entry id is one entry's while its line id is another's. */
  predicate Crosses(lines: Entries, line: MissedLine) {
    line.lineId != ""
    && exists a, b :: a in lines && b in lines && a.id == line.id && b.id != line.id && b.lineId == line.lineId
  }

  /** Exactly when an upsert keeps one entry per speech line: unless it names
      one entry by id and another by line. */
  lemma OneEntryExactlyUnlessCrossed(file: Entries, line: MissedLine, now: real)
    requires UniqueIds(file) && OneEntryPerLine(file)
    ensures OneEntryPerLine(Upsert(file, line, now).0) <==> !Crosses(Live(file, now), line)
  {
    KeepProperties(file, Unexpired(now));
    SortProperties(Place1(Live(file, now), line).0);
    PlacedUnlessCrossed(Live(file, now), line);
  }

  lemma PlacedUnlessCrossed(live: Entries, line: MissedLine)
    requires UniqueIds(live) && OneEntryPerLine(live)
    ensures OneEntryPerLine(Place1(live, line).0) <==> !Crosses(live, line)
  {
    var i := FindId(live, line.id);
    var j := FindLine(live, line.lineId);
    if i < |live| {
      ReplacedById(live, line, i);
    } else {
      assert forall a :: a in live ==> a.id != line.id;
      AppendUnique(live, line);
    }
  }

  lemma ReplacedById(live: Entries, line: MissedLine, i: nat)
    requires UniqueIds(live) && OneEntryPerLine(live) && i < |live| && live[i].id == line.id
    ensures OneEntryPerLine(live[i := line]) <==> !Crosses(live, line)
  {
    var lines := live[i := line];
    if Crosses(live, line) {
      var b :| b in live && b.id != line.id && b.lineId == line.lineId;
      var k :| 0 <= k < |live| && live[k] == b;
      assert lines[k].lineId == lines[i].lineId;
    } else {
      assert live[i] in live;
      forall k | 0 <= k < |live| && k != i && line.lineId != "" ensures live[k].lineId != line.lineId {
        assert live[k] in live && live[k].id != line.id;
      }
    }
  }

  // -------------------------------------------------------------------- class

  class MissedList {
    var file: Entries

    ghost predicate Valid() reads this { OldestFirst(file) }

    constructor ()
      ensures Valid() && file == []
    {
      file := [];
    }

    method Read(now: real, includeExpired: bool) returns (lines: Entries)
      requires Valid()
      ensures lines == if includeExpired then file else Live(file, now)
    {
      SortOfSorted(file);
      lines := SortByTime(file);
      if !includeExpired { lines := Keep(lines, Unexpired(now)); }
    }

    method Write(lines: Entries)
      modifies this
      ensures Valid() && file == SortByTime(lines)
      ensures OldestFirst(lines) ==> file == lines
    {
      file := SortByTime(lines);
      SortProperties(lines);
      if OldestFirst(lines) { SortOfSorted(lines); }
    }

    method Put(line: MissedLine, now: real) returns (stored: MissedLine)
      requires Valid()
      modifies this
      ensures Valid() && (file, stored) == Upsert(old(file), line, now)
    {
      var lines := Read(now, false);
      lines, stored := PutInto(lines, line);
      Write(lines);
    }

    method Hold(line: MissedLine, heldFor: seq<string>, now: real) returns (stored: MissedLine)
      requires Valid()
      modifies this
      ensures Valid() && (file, stored) == Upsert(old(file), AsHeld(line, heldFor), now)
    {
      stored := Put(line.(status := Held, heldFor := heldFor, reason := NoReason, missedAt := None), now);
    }

    method Miss(line: MissedLine, reason: Reason, waited: real, heldFor: seq<string>, now: real) returns (stored: MissedLine)
      requires Valid()
      modifies this
      ensures Valid() && (file, stored) == Upsert(old(file), AsMissed(line, reason, waited, heldFor, now), now)
    {
      stored := Put(line.(status := Missed, reason := reason, waitedSeconds := waited, heldFor := heldFor, missedAt := Some(now)), now);
    }

    /** The first entry for a speech line id, or None. */
    method Find(lineId: string, now: real) returns (m: Option<MissedLine>)
      requires Valid()
      ensures m.Some? <==> lineId != "" && HasLine(Live(file, now), lineId)
      ensures m.Some? ==> FirstOfLine(Live(file, now), lineId, m.value)
    {
      if lineId == "" { return None; }
      var lines := Read(now, false);
      for i := 0 to |lines|
        invariant forall k :: 0 <= k < i ==> lines[k].lineId != lineId
      {
        if lines[i].lineId == lineId { return Some(lines[i]); }
      }
      return None;
    }

    method Remove(id: string, now: real) returns (gone: bool)
      requires Valid()
      modifies this
      ensures Valid() && file == RemoveId(old(file), id, now)
      ensures gone <==> HasId(Live(old(file), now), id)
    {
      var lines := Read(now, false);
      var kept := Keep(lines, NotId(id));
      KeepProperties(file, Unexpired(now));
      KeepProperties(lines, NotId(id));
      gone := |kept| != |lines|;
      KeptLength(lines, id);
      Write(kept);
    }

    /** The speech line was heard: every entry for it leaves, expired or not. */
    method RemoveLineEntries(lineId: string) returns (gone: nat)
      requires Valid()
      modifies this
      ensures Valid() && file == RemoveLine(old(file), lineId)
      ensures gone == |old(file)| - |file|
    {
      if lineId == "" { return 0; }
      var lines := Read(0.0, true);
      var kept := Keep(lines, NotLine(lineId));
      KeepProperties(lines, NotLine(lineId));
      Write(kept);
      return |lines| - |kept|;
    }

    method Expire(now: real) returns (gone: nat)
      requires Valid()
      modifies this
      ensures Valid() && file == Live(old(file), now) && gone == |old(file)| - |file|
    {
      var lines := Read(now, true);
      var kept := Keep(lines, Unexpired(now));
      KeepProperties(lines, Unexpired(now));
      Write(kept);
      return |lines| - |kept|;
    }

    method ClearAll(now: real) returns (n: nat)
      requires Valid()
      modifies this
      ensures Valid() && file == [] && n == |Live(old(file), now)|
    {
      var lines := Read(now, false);
      Write([]);
      return |lines|;
    }

    /** After a restart nothing holds a line any more: those still marked held
        are missed from now on, for the given reason. Returns how many. */
    method Settle(reason: Reason, now: real) returns (n: nat)
      requires Valid()
      modifies this
      ensures Valid() && file == SettleHeld(old(file), reason, now)
      ensures n == |Keep(Live(old(file), now), OnHold())|
    {
      var lines := Read(now, false);
      var out;
      out, n := SettleEach(lines, reason, now);
      SettledInOrder(file, reason, now);
      Write(out);
    }

    /** The meeting lines no summary has counted, marked as counted. */
    method TakeMeetingSummary(now: real) returns (taken: Entries)
      requires Valid()
      modifies this
      ensures Valid() && file == AfterSummary(old(file), now)
      ensures taken == Change(Keep(Live(old(file), now), Due()), Announcer())
    {
      var lines := Read(now, false);
      if forall m :: m in lines ==> !DueForSummary(m) {
        KeepElements(lines, Due());
        if |Keep(lines, Due())| > 0 {
          assert Keep(lines, Due())[0] in Keep(lines, Due());
        }
        return [];
      }
      var out;
      out, taken := AnnounceEach(lines);
      AnnouncedInOrder(file, now);
      Write(out);
    }
  }

  /** The line in the place of the entry of its id, else merged into the entry
      of its speech line, else last. */
  method PutInto(lines: Entries, line: MissedLine) returns (out: Entries, stored: MissedLine)
    ensures (out, stored) == Place1(lines, line)
  {
    var i := 0;
    while i < |lines|
      invariant i <= |lines| && forall k :: 0 <= k < i ==> lines[k].id != line.id
    {
      if lines[i].id == line.id {
        assert FindId(lines, line.id) == i;
        return lines[i := line], line;
      }
      i := i + 1;
    }
    assert FindId(lines, line.id) == |lines|;
    if line.lineId != "" {
      i := 0;
      while i < |lines|
        invariant i <= |lines| && forall k :: 0 <= k < i ==> lines[k].lineId != line.lineId
      {
        if lines[i].lineId == line.lineId {
          assert FindLine(lines, line.lineId) == i;
          stored := Merge(line, lines[i]);
          return lines[i := stored], stored;
        }
        i := i + 1;
      }
      assert FindLine(lines, line.lineId) == |lines|;
    }
    return lines + [line], line;
  }

  function OnHold(): MissedLine -> bool { (m: MissedLine) => m.status.Held? }

  method SettleEach(lines: Entries, reason: Reason, now: real) returns (out: Entries, n: nat)
    ensures out == Change(lines, Settler(reason, now))
    ensures n == |Keep(lines, OnHold())|
  {
    n := 0;
    out := lines;
    for i := 0 to |lines|
      invariant |out| == |lines|
      invariant forall k :: 0 <= k < i ==> out[k] == SettleOne(lines[k], reason, now)
      invariant forall k :: i <= k < |lines| ==> out[k] == lines[k]
      invariant n == |Keep(lines[..i], OnHold())|
    {
      KeepOfOneMore(lines[..i], lines[i], OnHold());
      assert lines[..i + 1] == lines[..i] + [lines[i]];
      if lines[i].status.Held? {
        out := out[i := lines[i].(status := Missed, reason := reason, missedAt := Some(now))];
        n := n + 1;
      }
    }
    assert lines[..|lines|] == lines;
    ChangePointwise(lines, Settler(reason, now));
  }

  method AnnounceEach(lines: Entries) returns (out: Entries, taken: Entries)
    ensures out == Change(lines, Announcer())
    ensures taken == Change(Keep(lines, Due()), Announcer())
  {
    taken := [];
    out := lines;
    for i := 0 to |lines|
      invariant |out| == |lines|
      invariant forall k :: 0 <= k < i ==> out[k] == Announce(lines[k])
      invariant forall k :: i <= k < |lines| ==> out[k] == lines[k]
      invariant taken == Change(Keep(lines[..i], Due()), Announcer())
    {
      KeepOfOneMore(lines[..i], lines[i], Due());
      assert lines[..i + 1] == lines[..i] + [lines[i]];
      if DueForSummary(lines[i]) {
        ChangeOfOneMore(Keep(lines[..i], Due()), lines[i], Announcer());
        out := out[i := lines[i].(announced := true)];
        taken := taken + [out[i]];
        assert out[i] == Announcer()(lines[i]);
      } else {
        assert Keep(lines[..i + 1], Due()) == Keep(lines[..i], Due());
      }
    }
    assert lines[..|lines|] == lines;
    ChangePointwise(lines, Announcer());
  }

  lemma SettledInOrder(file: Entries, reason: Reason, now: real)
    requires OldestFirst(file)
    ensures OldestFirst(SettleHeld(file, reason, now))
  {
    KeepProperties(file, Unexpired(now));
    ChangeProperties(Live(file, now), Settler(reason, now));
  }

  lemma AnnouncedInOrder(file: Entries, now: real)
    requires OldestFirst(file)
    ensures OldestFirst(Change(Live(file, now), Announcer()))
  {
    KeepProperties(file, Unexpired(now));
    ChangeProperties(Live(file, now), Announcer());
  }

  lemma {:induction false} ChangeOfOneMore(lines: Entries, m: MissedLine, f: MissedLine -> MissedLine)
    ensures Change(lines + [m], f) == Change(lines, f) + [f(m)]
  {
    if lines == [] {
      assert (lines + [m])[1..] == [];
    } else {
      ChangeOfOneMore(lines[1..], m, f);
      assert (lines + [m])[1..] == lines[1..] + [m];
    }
  }

  lemma {:induction false} KeepOfOneMore(lines: Entries, m: MissedLine, p: MissedLine -> bool)
    ensures Keep(lines + [m], p) == Keep(lines, p) + (if p(m) then [m] else [])
  {
    if lines == [] {
      assert (lines + [m])[1..] == [];
    } else {
      KeepOfOneMore(lines[1..], m, p);
      assert (lines + [m])[1..] == lines[1..] + [m];
    }
  }

  lemma {:induction false} KeptLength(lines: Entries, id: string)
    ensures |Keep(lines, NotId(id))| == |lines| <==> !HasId(lines, id)
  {
    if lines != [] {
      KeptLength(lines[1..], id);
      KeepProperties(lines[1..], NotId(id));
      assert lines == [lines[0]] + lines[1..];
      assert HasId(lines, id) <==> lines[0].id == id || HasId(lines[1..], id);
    }
  }
}
