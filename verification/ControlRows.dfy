/** The rows of the speech control: one for every spoken line, newest first. */
module ControlRows {
  import opened Options
  import opened Seqs

  /** What names one spoken line across its records. */
  datatype Key = LineId(value: string) | Origin(value: string) | Own(id: string)

  datatype Heard = Heard(id: string, lineId: string, origin: string, spokenAt: real, saidAt: real)

  datatype Missed = Missed(id: string, lineId: string, origin: string, queuedAt: real)

  /** The three kinds of row id never meet: two have a prefix of their own. */
  datatype RowId = HeardRow(id: string) | MissedRow(id: string) | NowRow(n: nat)

  datatype Row = Row(id: RowId, at: real)

  function LineKeys(lineId: string, origin: string): set<Key> {
    (if lineId != "" then {LineId(lineId)} else {}) + (if origin != "" then {Origin(origin)} else {})
  }

  function KeysOf(h: Heard): (r: set<Key>)
    ensures r != {}
  {
    if LineKeys(h.lineId, h.origin) != {} then LineKeys(h.lineId, h.origin) else {Own(h.id)}
  }

  function MissedKeys(m: Missed): set<Key> { LineKeys(m.lineId, m.origin) }

  function RowOfHeard(h: Heard): Row { Row(HeardRow(h.id), h.saidAt) }

  function RowOfMissed(m: Missed): Row { Row(MissedRow(m.id), m.queuedAt) }

  // -------------------------------------------------------------- newest first

  predicate NewestFirst<T>(s: seq<T>, time: T -> real) { forall i, j :: 0 <= i < j < |s| ==> time(s[i]) >= time(s[j]) }

  function Insert<T(!new)>(x: T, s: seq<T>, time: T -> real): (r: seq<T>)
    ensures |r| == |s| + 1
    ensures forall y :: y in r <==> y == x || y in s
  {
    if s == [] || time(s[0]) <= time(x) then [x] + s
    else
      var rest := Insert(x, s[1..], time);
      assert forall y :: y in s <==> y == s[0] || y in s[1..];
      [s[0]] + rest
  }

  /** Sorted by time, newest first, equals in the order they came. */
  function Sorted<T(!new)>(s: seq<T>, time: T -> real): (r: seq<T>)
    ensures |r| == |s|
    ensures forall y :: y in r <==> y in s
  {
    if s == [] then []
    else
      assert forall y :: y in s <==> y == s[0] || y in s[1..];
      Insert(s[0], Sorted(s[1..], time), time)
  }

  lemma {:induction false} InsertKeepsOrder<T(!new)>(x: T, s: seq<T>, time: T -> real)
    requires NewestFirst(s, time)
    ensures NewestFirst(Insert(x, s, time), time)
    ensures multiset(Insert(x, s, time)) == multiset(s) + multiset{x}
  {
    if s != [] && time(s[0]) > time(x) {
      InsertKeepsOrder(x, s[1..], time);
      First(s);
      NewestInFront(s[0], Insert(x, s[1..], time), x, s[1..], time);
    }
  }

  lemma NewestInFront<T(!new)>(first: T, rest: seq<T>, x: T, others: seq<T>, time: T -> real)
    requires NewestFirst(rest, time) && NewestFirst([first] + others, time) && time(first) > time(x)
    requires forall y :: y in rest ==> y == x || y in others
    ensures NewestFirst([first] + rest, time)
  {
    forall j | 0 <= j < |rest| ensures time(first) >= time(rest[j]) {
      if rest[j] in others {
        var k :| 0 <= k < |others| && others[k] == rest[j];
        var all := [first] + others;
        assert time(all[0]) >= time(all[k + 1]);
      } else {
        assert rest[j] in rest;
      }
    }
  }

  lemma {:induction false} SortedIsNewestFirst<T(!new)>(s: seq<T>, time: T -> real)
    ensures NewestFirst(Sorted(s, time), time)
    ensures multiset(Sorted(s, time)) == multiset(s)
  {
    if s != [] {
      SortedIsNewestFirst(s[1..], time);
      InsertKeepsOrder(s[0], Sorted(s[1..], time), time);
      First(s);
    }
  }

  /** Those of one time. */
  function Of<T(!new)>(s: seq<T>, time: T -> real, t: real): seq<T> {
    if s == [] then [] else (if time(s[0]) == t then [s[0]] else []) + Of(s[1..], time, t)
  }

  lemma OfMore<T(!new)>(x: T, s: seq<T>, time: T -> real, t: real)
    ensures Of([x] + s, time, t) == (if time(x) == t then [x] else []) + Of(s, time, t)
  {
    RestOfMore(x, s);
  }

  lemma {:induction false} InsertInFrontOfEquals<T(!new)>(x: T, s: seq<T>, time: T -> real, t: real)
    ensures Of(Insert(x, s, time), time, t) == (if time(x) == t then [x] else []) + Of(s, time, t)
  {
    if s != [] && !(time(s[0]) <= time(x)) {
      InsertInFrontOfEquals(x, s[1..], time, t);
      OfMore(s[0], Insert(x, s[1..], time), time, t);
    } else {
      OfMore(x, s, time, t);
    }
  }

  /** The sort is stable: those of one time stay in the order they came. */
  lemma {:induction false} SortedIsStable<T(!new)>(s: seq<T>, time: T -> real, t: real)
    ensures Of(Sorted(s, time), time, t) == Of(s, time, t)
  {
    if s != [] {
      SortedIsStable(s[1..], time, t);
      InsertInFrontOfEquals(s[0], Sorted(s[1..], time), time, t);
    }
  }

  function SpokenAt(h: Heard): real { h.spokenAt }

  function At(r: Row): real { r.at }

  // -------------------------------------------------------- one row for a record

  function AllKeys(hs: seq<Heard>): set<Key> { set h, k | h in hs && k in KeysOf(h) :: k }

  /** The first record of each spoken line, of the first `n`. */
  function UnclaimedTo(hs: seq<Heard>, n: nat): seq<Heard>
    requires n <= |hs|
  {
    if n == 0 then []
    else
      var before := UnclaimedTo(hs, n - 1);
      if KeysOf(hs[n - 1]) !! AllKeys(before) then before + [hs[n - 1]] else before
  }

  function Unclaimed(hs: seq<Heard>): seq<Heard> { UnclaimedTo(hs, |hs|) }

  lemma {:induction false} UnclaimedAreFirst(hs: seq<Heard>, n: nat, h: Heard)
    requires n <= |hs| && h in UnclaimedTo(hs, n)
    ensures exists i :: 0 <= i < n && hs[i] == h
  {
    if !(h in UnclaimedTo(hs, n - 1)) {
      assert hs[n - 1] == h;
    } else {
      UnclaimedAreFirst(hs, n - 1, h);
    }
  }

  /** Two heard records are of one spoken line when they share a line id or a
      file; a record with neither is of its own line only. */
  lemma OneLineExactlyWhen(h: Heard, k: Heard)
    ensures !(KeysOf(h) !! KeysOf(k)) <==>
              || (h.lineId != "" && h.lineId == k.lineId)
              || (h.origin != "" && h.origin == k.origin)
              || (h.lineId == h.origin == k.lineId == k.origin == "" && h.id == k.id)
  {
    SharedKeys(h.lineId, h.origin, k.lineId, k.origin);
    var hs, ks := LineKeys(h.lineId, h.origin), LineKeys(k.lineId, k.origin);
    assert h.lineId != "" ==> LineId(h.lineId) in hs;
    assert h.origin != "" ==> Origin(h.origin) in hs;
    assert k.lineId != "" ==> LineId(k.lineId) in ks;
    assert k.origin != "" ==> Origin(k.origin) in ks;
    assert hs == {} ==> KeysOf(h) == {Own(h.id)};
    assert ks == {} ==> KeysOf(k) == {Own(k.id)};
  }

  lemma SharedKeys(lineId: string, origin: string, lineId2: string, origin2: string)
    ensures !(LineKeys(lineId, origin) !! LineKeys(lineId2, origin2)) <==>
              (lineId != "" && lineId == lineId2) || (origin != "" && origin == origin2)
  {
    var a, b := LineKeys(lineId, origin), LineKeys(lineId2, origin2);
    assert lineId != "" && lineId == lineId2 ==> LineId(lineId) in a && LineId(lineId) in b;
    assert origin != "" && origin == origin2 ==> Origin(origin) in a && Origin(origin) in b;
  }

  /** A missed entry is of a heard record's line by the same rule. */
  lemma HeardAndMissedAreOneExactlyWhen(h: Heard, m: Missed)
    ensures !(KeysOf(h) !! MissedKeys(m)) <==>
              (m.lineId != "" && h.lineId == m.lineId) || (m.origin != "" && h.origin == m.origin)
  {
    SharedKeys(h.lineId, h.origin, m.lineId, m.origin);
    assert forall k :: k in MissedKeys(m) ==> !k.Own?;
  }

  predicate Apart(hs: seq<Heard>) { forall i, j :: 0 <= i < j < |hs| ==> KeysOf(hs[i]) !! KeysOf(hs[j]) }

  /** The record shares a key with one of those, heard no earlier. */
  ghost predicate StoodFor(h: Heard, hs: seq<Heard>) {
    exists k :: k in hs && !(KeysOf(k) !! KeysOf(h)) && k.spokenAt >= h.spokenAt
  }

  lemma {:induction false} UnclaimedAreApart(hs: seq<Heard>, n: nat)
    requires n <= |hs|
    ensures Apart(UnclaimedTo(hs, n))
  {
    if n > 0 {
      UnclaimedAreApart(hs, n - 1);
      ApartGrows(UnclaimedTo(hs, n - 1), hs[n - 1]);
    }
  }

  lemma ApartGrows(before: seq<Heard>, last: Heard)
    requires Apart(before)
    ensures KeysOf(last) !! AllKeys(before) ==> Apart(before + [last])
  {
    if KeysOf(last) !! AllKeys(before) {
      forall i | 0 <= i < |before| ensures KeysOf(before[i]) !! KeysOf(last) {
        KeysAreInAll(before, i);
      }
    }
  }

  lemma KeysAreInAll(hs: seq<Heard>, i: nat)
    requires i < |hs|
    ensures KeysOf(hs[i]) <= AllKeys(hs)
  {
    assert hs[i] in hs;
  }

  ghost predicate ShownOrStoodFor(h: Heard, hs: seq<Heard>) { h in hs || StoodFor(h, hs) }

  lemma {:induction false} UnclaimedStandForAll(hs: seq<Heard>, n: nat, i: nat)
    requires NewestFirst(hs, SpokenAt) && i < n <= |hs|
    ensures ShownOrStoodFor(hs[i], UnclaimedTo(hs, n))
  {
    var before := UnclaimedTo(hs, n - 1);
    if i < n - 1 {
      UnclaimedStandForAll(hs, n - 1, i);
    } else {
      NewerThanTheRest(hs, n - 1);
      LastIsKeptOrStoodFor(before, hs[i]);
    }
    StoodForByMore(hs[i], before, UnclaimedTo(hs, n));
  }

  lemma StoodForByMore(h: Heard, few: seq<Heard>, more: seq<Heard>)
    requires forall k :: k in few ==> k in more
    ensures StoodFor(h, few) ==> StoodFor(h, more)
  {
  }

  lemma NewerThanTheRest(hs: seq<Heard>, n: nat)
    requires n < |hs| && NewestFirst(hs, SpokenAt)
    ensures forall k :: k in UnclaimedTo(hs, n) ==> k.spokenAt >= hs[n].spokenAt
  {
    forall k | k in UnclaimedTo(hs, n) ensures k.spokenAt >= hs[n].spokenAt {
      UnclaimedAreFirst(hs, n, k);
      var i :| 0 <= i < n && hs[i] == k;
      assert SpokenAt(hs[i]) >= SpokenAt(hs[n]);
    }
  }

  lemma OwnerOf(hs: seq<Heard>, key: Key) returns (k: Heard)
    requires key in AllKeys(hs)
    ensures k in hs && key in KeysOf(k)
  {
    k :| k in hs && key in KeysOf(k);
  }

  lemma LastIsKeptOrStoodFor(before: seq<Heard>, last: Heard)
    requires forall k :: k in before ==> k.spokenAt >= last.spokenAt
    ensures KeysOf(last) !! AllKeys(before) || StoodFor(last, before)
  {
    if key :| key in KeysOf(last) && key in AllKeys(before) {
      var k := OwnerOf(before, key);
      assert !(KeysOf(k) !! KeysOf(last));
    }
  }

  function Rows(hs: seq<Heard>): (r: seq<Row>)
    ensures |r| == |hs| && forall i :: 0 <= i < |r| ==> r[i] == RowOfHeard(hs[i])
  {
    seq(|hs|, i requires 0 <= i < |hs| => RowOfHeard(hs[i]))
  }

  /** The missed entries no heard row stands for. */
  function Unheard(ms: seq<Missed>, keys: set<Key>): (r: seq<Row>)
    ensures forall row :: row in r <==> exists m :: m in ms && MissedKeys(m) !! keys && row == RowOfMissed(m)
  {
    if ms == [] then []
    else
      var last := ms[|ms| - 1];
      assert forall m :: m in ms <==> m in ms[..|ms| - 1] || m == last;
      Unheard(ms[..|ms| - 1], keys) + if MissedKeys(last) !! keys then [RowOfMissed(last)] else []
  }

  function Ids(rows: seq<Row>): (r: set<RowId>)
    ensures forall id :: id in r <==> exists row :: row in rows && row.id == id
  {
    set row | row in rows :: row.id
  }

  /** The first row of each id. */
  function OncePerId(rows: seq<Row>): (r: seq<Row>)
    ensures forall row :: row in r ==> row in rows
  {
    if rows == [] then []
    else
      var before := OncePerId(rows[..|rows| - 1]);
      if rows[|rows| - 1].id in Ids(before) then before else before + [rows[|rows| - 1]]
  }

  predicate UniqueIds(rows: seq<Row>) { forall i, j :: 0 <= i < j < |rows| ==> rows[i].id != rows[j].id }

  lemma IdsOfMore(rows: seq<Row>, row: Row)
    ensures Ids(rows + [row]) == Ids(rows) + {row.id}
  {
    assert forall r :: r in rows + [row] <==> r in rows || r == row;
  }

  lemma {:induction false} OncePerIdKeepsIds(rows: seq<Row>)
    ensures UniqueIds(OncePerId(rows)) && Ids(OncePerId(rows)) == Ids(rows)
  {
    if rows != [] {
      var n := |rows| - 1;
      var before := OncePerId(rows[..n]);
      OncePerIdKeepsIds(rows[..n]);
      assert rows == rows[..n] + [rows[n]];
      IdsOfMore(rows[..n], rows[n]);
      IdsOfMore(before, rows[n]);
      if rows[n].id !in Ids(before) { UniqueIdsGrow(before, rows[n]); }
    }
  }

  lemma UniqueIdsGrow(rows: seq<Row>, row: Row)
    requires UniqueIds(rows) && row.id !in Ids(rows)
    ensures UniqueIds(rows + [row]) && UniqueIds([row] + rows)
  {
    assert forall i :: 0 <= i < |rows| ==> rows[i] in rows;
  }

  lemma {:induction false} OncePerIdKeepsOrder(rows: seq<Row>)
    requires NewestFirst(rows, At)
    ensures NewestFirst(OncePerId(rows), At)
  {
    if rows != [] {
      var n := |rows| - 1;
      OncePerIdKeepsOrder(rows[..n]);
      forall i | 0 <= i < |OncePerId(rows[..n])| ensures At(OncePerId(rows[..n])[i]) >= At(rows[n]) {
        assert OncePerId(rows[..n])[i] in rows[..n];
      }
    }
  }

  // ------------------------------------------------------------------- the list

  function ShownHeard(history: seq<Heard>): seq<Heard> { Unclaimed(Sorted(history, SpokenAt)) }

  function Entries(history: seq<Heard>, missed: seq<Missed>): seq<Row> {
    Sorted(Rows(ShownHeard(history)) + Unheard(missed, AllKeys(ShownHeard(history))), At)
  }

  function Items(history: seq<Heard>, missed: seq<Missed>, now: Option<Row>): seq<Row> {
    WithNow(OncePerId(Entries(history, missed)), now)
  }

  function WithNow(out: seq<Row>, now: Option<Row>): seq<Row> {
    if now.Some? && now.value.id !in Ids(out) then [now.value] + out else out
  }

  lemma AllKeysMore(hs: seq<Heard>, h: Heard)
    ensures AllKeys(hs + [h]) == AllKeys(hs) + KeysOf(h)
  {
    assert forall x :: x in hs + [h] <==> x in hs || x == h;
  }

  method Heards(lines: seq<Heard>) returns (shown: seq<Heard>, keys: set<Key>)
    ensures shown == Unclaimed(lines) && keys == AllKeys(shown)
  {
    shown, keys := [], {};
    var i := 0;
    while i < |lines|
      invariant i <= |lines| && shown == UnclaimedTo(lines, i) && keys == AllKeys(shown)
    {
      shown, keys := OneHeard(shown, keys, lines[i]);
      i := i + 1;
    }
  }

  method OneHeard(before: seq<Heard>, claimed: set<Key>, h: Heard) returns (shown: seq<Heard>, keys: set<Key>)
    requires claimed == AllKeys(before)
    ensures shown == (if KeysOf(h) !! AllKeys(before) then before + [h] else before) && keys == AllKeys(shown)
  {
    shown, keys := before, claimed;
    var mine := KeysOf(h);
    if mine !! claimed {
      AllKeysMore(before, h);
      shown, keys := before + [h], claimed + mine;
    }
  }

  method Misseds(missed: seq<Missed>, keys: set<Key>) returns (rows: seq<Row>)
    ensures rows == Unheard(missed, keys)
  {
    rows := [];
    var i := 0;
    while i < |missed|
      invariant i <= |missed| && rows == Unheard(missed[..i], keys)
    {
      assert missed[..i + 1][..i] == missed[..i];
      if MissedKeys(missed[i]) !! keys { rows := rows + [RowOfMissed(missed[i])]; }
      i := i + 1;
    }
    assert missed[..i] == missed;
  }

  method TheItems(history: seq<Heard>, missed: seq<Missed>, now: Option<Row>) returns (out: seq<Row>)
    ensures out == Items(history, missed, now)
  {
    var shown, keys := Heards(Sorted(history, SpokenAt));
    var unheard := Misseds(missed, keys);
    var entries := Sorted(Rows(shown) + unheard, At);
    out := Dedup(entries);
    if now.Some? && now.value.id !in Ids(out) { out := [now.value] + out; }
  }

  method Dedup(entries: seq<Row>) returns (out: seq<Row>)
    ensures out == OncePerId(entries)
  {
    out := [];
    var seen: set<RowId> := {};
    var i := 0;
    while i < |entries|
      invariant i <= |entries| && out == OncePerId(entries[..i]) && seen == Ids(out)
    {
      assert entries[..i + 1][..i] == entries[..i];
      if entries[i].id !in seen {
        IdsOfMore(out, entries[i]);
        seen := seen + {entries[i].id};
        out := out + [entries[i]];
      }
      i := i + 1;
    }
    assert entries[..i] == entries;
  }

  // ------------------------------------------------------------------- theorems

  /** Shown heard records have no key in common, and each record not shown
      shares one with a shown record heard no earlier. */
  lemma OneRowPerSpokenLine(history: seq<Heard>)
    ensures Apart(ShownHeard(history))
    ensures forall h :: h in history ==> ShownOrStoodFor(h, ShownHeard(history))
  {
    SortedIsNewestFirst(history, SpokenAt);
    var sorted := Sorted(history, SpokenAt);
    UnclaimedAreApart(sorted, |sorted|);
    forall h | h in history ensures ShownOrStoodFor(h, ShownHeard(history)) {
      var i :| 0 <= i < |sorted| && sorted[i] == h;
      UnclaimedStandForAll(sorted, |sorted|, i);
    }
  }

  /** Row ids are unique and the rows newest first, but for the line playing
      now, which is on top unless it has a row already. */
  lemma RowsAreUniqueAndNewestFirst(history: seq<Heard>, missed: seq<Missed>, now: Option<Row>)
    ensures var r := Items(history, missed, now);
            && UniqueIds(r)
            && (now.None? ==> NewestFirst(r, At))
            && (now.Some? ==> now.value.id in Ids(r) && NewestFirst(r[1..], At)
                              && (now.value.id !in Ids(Entries(history, missed)) ==> r[0] == now.value))
  {
    var entries := Entries(history, missed);
    EntriesAreNewestFirst(history, missed);
    OncePerIdKeepsIds(entries);
    OncePerIdKeepsOrder(entries);
    NowOnTop(OncePerId(entries), now);
  }

  lemma EntriesAreNewestFirst(history: seq<Heard>, missed: seq<Missed>)
    ensures NewestFirst(Entries(history, missed), At)
  {
    SortedIsNewestFirst(Rows(ShownHeard(history)) + Unheard(missed, AllKeys(ShownHeard(history))), At);
  }

  lemma NowOnTop(out: seq<Row>, now: Option<Row>)
    requires UniqueIds(out) && NewestFirst(out, At)
    ensures var r := WithNow(out, now);
            && UniqueIds(r)
            && (now.None? ==> NewestFirst(r, At))
            && (now.Some? ==> now.value.id in Ids(r) && NewestFirst(r[1..], At)
                              && (now.value.id !in Ids(out) ==> r[0] == now.value))
  {
    if now.Some? && now.value.id !in Ids(out) {
      UniqueIdsGrow(out, now.value);
      assert ([now.value] + out)[1..] == out;
      assert now.value in [now.value] + out;
    }
  }

  lemma EntryIds(history: seq<Heard>, missed: seq<Missed>)
    ensures var shown := ShownHeard(history);
            forall row :: row in Entries(history, missed) <==>
              row in Rows(shown) || row in Unheard(missed, AllKeys(shown))
  {
  }

  predicate IsNow(now: Option<Row>, id: RowId) { now.Some? && now.value.id == id }

  /** No key in common with a heard row that is shown. */
  ghost predicate NotHeard(m: Missed, history: seq<Heard>) {
    forall h :: h in ShownHeard(history) ==> KeysOf(h) !! MissedKeys(m)
  }

  /** A missed entry's id has a row exactly when an entry of that id shares no
      key with a heard row that is shown (or it plays now): no cap and no age
      takes it off the list. */
  lemma MissedIsListedExactlyUnlessHeard(history: seq<Heard>, missed: seq<Missed>, now: Option<Row>, id: string)
    ensures MissedRow(id) in Ids(Items(history, missed, now)) <==>
              (exists m :: m in missed && m.id == id && NotHeard(m, history)) || IsNow(now, MissedRow(id))
  {
    var keys := AllKeys(ShownHeard(history));
    EntryIds(history, missed);
    OncePerIdKeepsIds(Entries(history, missed));
    NowAddsItsOwnId(OncePerId(Entries(history, missed)), now);
    RowsOfUnheard(missed, keys, id);
    RowsAreHeard(ShownHeard(history), id);
    forall m ensures NotHeard(m, history) <==> MissedKeys(m) !! keys { NotHeardByKeys(m, history); }
    assert MissedRow(id) in Ids(Entries(history, missed)) <==> MissedRow(id) in Ids(Unheard(missed, keys));
  }

  /** Each row is the line's that plays now, or stands where its record's line
      was said, heard or missed: a line heard later stays at the time it came. */
  lemma EachRowStandsAtItsTime(history: seq<Heard>, missed: seq<Missed>, now: Option<Row>, row: Row)
    requires row in Items(history, missed, now)
    ensures || now == Some(row)
            || (exists h :: h in ShownHeard(history) && row == Row(HeardRow(h.id), h.saidAt))
            || (exists m :: m in missed && NotHeard(m, history) && row == Row(MissedRow(m.id), m.queuedAt))
  {
    EntryIds(history, missed);
    forall m ensures NotHeard(m, history) <==> MissedKeys(m) !! AllKeys(ShownHeard(history)) { NotHeardByKeys(m, history); }
    if now != Some(row) && row in Rows(ShownHeard(history)) {
      var i :| 0 <= i < |Rows(ShownHeard(history))| && Rows(ShownHeard(history))[i] == row;
      assert ShownHeard(history)[i] in ShownHeard(history);
    }
  }

  lemma NotHeardByKeys(m: Missed, history: seq<Heard>)
    ensures NotHeard(m, history) <==> MissedKeys(m) !! AllKeys(ShownHeard(history))
  {
  }

  lemma RowsAreHeard(shown: seq<Heard>, id: string)
    ensures MissedRow(id) !in Ids(Rows(shown))
  {
  }

  lemma RowsOfUnheard(missed: seq<Missed>, keys: set<Key>, id: string)
    ensures MissedRow(id) in Ids(Unheard(missed, keys)) <==> exists m :: m in missed && m.id == id && MissedKeys(m) !! keys
  {
    if m :| m in missed && m.id == id && MissedKeys(m) !! keys {
      assert RowOfMissed(m) in Unheard(missed, keys);
    }
  }

  /** The row of a line playing is the only one that is added or not for it. */
  lemma NowAddsItsOwnId(out: seq<Row>, now: Option<Row>)
    ensures Ids(WithNow(out, now)) == Ids(out) + if now.Some? then {now.value.id} else {}
  {
    if now.Some? && now.value.id !in Ids(out) {
      assert forall row :: row in [now.value] + out <==> row == now.value || row in out;
    }
  }

  /** A heard record's id has a row exactly when a record of that id is shown
      (or it plays now). */
  lemma HeardIsListedExactlyWhenShown(history: seq<Heard>, missed: seq<Missed>, now: Option<Row>, id: string)
    ensures HeardRow(id) in Ids(Items(history, missed, now)) <==>
              (exists h :: h in ShownHeard(history) && h.id == id) || IsNow(now, HeardRow(id))
  {
    EntryIds(history, missed);
    OncePerIdKeepsIds(Entries(history, missed));
    NowAddsItsOwnId(OncePerId(Entries(history, missed)), now);
    RowsOfShown(ShownHeard(history), id);
    assert HeardRow(id) in Ids(Entries(history, missed)) <==> HeardRow(id) in Ids(Rows(ShownHeard(history)));
  }

  lemma RowsOfShown(shown: seq<Heard>, id: string)
    ensures HeardRow(id) in Ids(Rows(shown)) <==> exists h :: h in shown && h.id == id
  {
    if h :| h in shown && h.id == id {
      var i :| 0 <= i < |shown| && shown[i] == h;
      assert Rows(shown)[i] == RowOfHeard(h);
    }
    if row :| row in Rows(shown) && row.id == HeardRow(id) {
      var i :| 0 <= i < |Rows(shown)| && Rows(shown)[i] == row;
      assert shown[i] in shown;
    }
  }
}
