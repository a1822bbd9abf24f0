/** The spoken lines kept on disk, oldest first, within a size. */
module History {
  import opened Options
  import opened Seqs

  /** A complete line: its place in time (the name its files sort by), the
      bytes of its two files, and whether its sidecar can be read. */
  datatype Line = Line(stem: nat, size: nat, readable: bool)

  const BYTES_PER_GB := 1_000_000_000.0

  predicate InOrder(lines: seq<Line>) { forall i, j :: 0 <= i < j < |lines| ==> lines[i].stem < lines[j].stem }

  function Total(lines: seq<Line>): (t: nat) { if lines == [] then 0 else lines[0].size + Total(lines[1..]) }

  /** The store keeps to the limit as far as it may: the newest line stays. */
  predicate Within(lines: seq<Line>, limit: real) { |lines| <= 1 || Total(lines) as real <= limit }

  /** How many of the oldest lines go. */
  function Excess(lines: seq<Line>, limit: real): (n: nat)
    ensures n <= |lines|
  {
    if Within(lines, limit) then 0 else 1 + Excess(lines[1..], limit)
  }

  /** The lines older and newer than `stem`. */
  function Older(lines: seq<Line>, stem: nat): seq<Line> {
    if lines == [] then [] else (if lines[0].stem < stem then [lines[0]] else []) + Older(lines[1..], stem)
  }

  function Newer(lines: seq<Line>, stem: nat): seq<Line> {
    if lines == [] then [] else (if lines[0].stem > stem then [lines[0]] else []) + Newer(lines[1..], stem)
  }

  function With(lines: seq<Line>, line: Line): seq<Line> { Older(lines, line.stem) + [line] + Newer(lines, line.stem) }

  function Pruned(lines: seq<Line>, limit: real): seq<Line> { lines[Excess(lines, limit)..] }

  // --------------------------------------------------------------------- lemmas

  /** Exactly the needed prefix goes: what stays is within the limit or the
      newest line alone, and no shorter prefix would do. */
  lemma {:induction false} PrunedIsTheLongestSuffix(lines: seq<Line>, limit: real)
    ensures Within(Pruned(lines, limit), limit)
    ensures forall n :: 0 <= n < Excess(lines, limit) ==> !Within(lines[n..], limit)
    ensures lines != [] ==> Excess(lines, limit) < |lines| && Pruned(lines, limit)[|Pruned(lines, limit)| - 1] == lines[|lines| - 1]
  {
    if Within(lines, limit) {
      assert lines[0..] == lines;
    } else {
      PrunedIsTheLongestSuffix(lines[1..], limit);
      assert Pruned(lines, limit) == Pruned(lines[1..], limit);
      forall n | 0 <= n < Excess(lines, limit) ensures !Within(lines[n..], limit) {
        assert n == 0 ==> lines[n..] == lines;
        assert n > 0 ==> lines[1..][n - 1..] == lines[n..];
      }
    }
  }

  lemma {:induction false} ExcessIsDetermined(lines: seq<Line>, limit: real, n: nat)
    requires n <= |lines| && Within(lines[n..], limit) && forall k :: 0 <= k < n ==> !Within(lines[k..], limit)
    ensures n == Excess(lines, limit)
  {
    PrunedIsTheLongestSuffix(lines, limit);
  }

  lemma {:induction false} TotalOfSum(a: seq<Line>, b: seq<Line>)
    ensures Total(a + b) == Total(a) + Total(b)
  {
    if a == [] {
      assert a + b == b;
    } else {
      TotalOfSum(a[1..], b);
      FirstOfSum(a, b);
    }
  }

  /** Pruning before a newer line comes changes nothing. */
  lemma {:induction false} PruneEarlyOrLate(lines: seq<Line>, more: Line, limit: real)
    ensures Pruned(Pruned(lines, limit) + [more], limit) == Pruned(lines + [more], limit)
  {
    if !Within(lines, limit) {
      PruneEarlyOrLate(lines[1..], more, limit);
      assert Pruned(lines, limit) == Pruned(lines[1..], limit);
      TotalOfSum(lines, [more]);
      assert (lines + [more])[1..] == lines[1..] + [more];
      assert Pruned(lines + [more], limit) == Pruned(lines[1..] + [more], limit);
    } else {
      assert Pruned(lines, limit) == lines;
    }
  }

  lemma RestInOrder(lines: seq<Line>)
    requires lines != [] && InOrder(lines)
    ensures InOrder(lines[1..])
    ensures forall l :: l in lines[1..] ==> lines[0].stem < l.stem
    ensures forall l :: l in lines <==> l == lines[0] || l in lines[1..]
  {
    First(lines);
    assert forall i :: 0 <= i < |lines[1..]| ==> lines[1..][i] == lines[i + 1];
  }

  /** The first line goes in front of any of the others kept in order. */
  lemma FirstInOrder(lines: seq<Line>, kept: seq<Line>)
    requires lines != [] && InOrder(kept) && forall l :: l in kept ==> lines[0].stem < l.stem
    ensures InOrder([lines[0]] + kept)
  {
    assert forall i :: 0 <= i < |kept| ==> kept[i] in kept;
  }

  lemma {:induction false} OlderIsInOrder(lines: seq<Line>, stem: nat)
    requires InOrder(lines)
    ensures InOrder(Older(lines, stem)) && forall l :: l in Older(lines, stem) <==> l in lines && l.stem < stem
  {
    if lines != [] {
      RestInOrder(lines);
      OlderIsInOrder(lines[1..], stem);
      FirstInOrder(lines, Older(lines[1..], stem));
    }
  }

  lemma {:induction false} NewerIsInOrder(lines: seq<Line>, stem: nat)
    requires InOrder(lines)
    ensures InOrder(Newer(lines, stem)) && forall l :: l in Newer(lines, stem) <==> l in lines && l.stem > stem
  {
    if lines != [] {
      RestInOrder(lines);
      NewerIsInOrder(lines[1..], stem);
      FirstInOrder(lines, Newer(lines[1..], stem));
    }
  }

  /** A new line takes its place in time. */
  lemma WithIsInOrder(lines: seq<Line>, line: Line)
    requires InOrder(lines)
    ensures InOrder(With(lines, line))
    ensures forall l :: l in With(lines, line) <==> l == line || (l in lines && l.stem != line.stem)
  {
    var a, b := Older(lines, line.stem), Newer(lines, line.stem);
    OlderIsInOrder(lines, line.stem);
    NewerIsInOrder(lines, line.stem);
    assert forall i :: 0 <= i < |a| ==> a[i] in a && a[i].stem < line.stem;
    assert forall i :: 0 <= i < |b| ==> b[i] in b && b[i].stem > line.stem;
    InOrderAround(a, line, b);
  }

  lemma InOrderAround(a: seq<Line>, line: Line, b: seq<Line>)
    requires InOrder(a) && InOrder(b)
    requires forall i :: 0 <= i < |a| ==> a[i].stem < line.stem
    requires forall i :: 0 <= i < |b| ==> b[i].stem > line.stem
    ensures InOrder(a + [line] + b)
  {
  }

  /** A line newer than all is put last. */
  lemma {:induction false} NewestGoesLast(lines: seq<Line>, line: Line)
    requires forall l :: l in lines ==> l.stem < line.stem
    ensures With(lines, line) == lines + [line]
  {
    if lines != [] {
      NewestGoesLast(lines[1..], line);
    }
    AllOlder(lines, line.stem);
  }

  lemma {:induction false} AllOlder(lines: seq<Line>, stem: nat)
    requires forall l :: l in lines ==> l.stem < stem
    ensures Older(lines, stem) == lines && Newer(lines, stem) == []
  {
    if lines != [] {
      AllOlder(lines[1..], stem);
      assert lines == [lines[0]] + lines[1..];
    }
  }

  // -------------------------------------------------------------- runs of exports

  /** What one export leaves: the line in its place, and then the prune. */
  function AfterExport(store: seq<Line>, line: Line, limit: real): seq<Line> { Pruned(With(store, line), limit) }

  function Exported(store: seq<Line>, lines: seq<Line>, limit: real): seq<Line>
    decreases |lines|
  {
    if lines == [] then store else Exported(AfterExport(store, lines[0], limit), lines[1..], limit)
  }

  lemma NewestOfAll(all: seq<Line>, lines: seq<Line>)
    requires InOrder(all + lines) && lines != []
    ensures forall l :: l in all ==> l.stem < lines[0].stem
    ensures all + lines == (all + [lines[0]]) + lines[1..]
  {
    assert forall i :: 0 <= i < |all| ==> (all + lines)[i] == all[i] && (all + lines)[|all|] == lines[0];
  }

  /** Lines exported one by one as time goes on, each export pruning the store,
      leave exactly the longest suffix of all of them that fits: the running
      prune is the prune of the whole. */
  lemma {:induction false} RunningPruneIsOnePrune(all: seq<Line>, lines: seq<Line>, limit: real)
    requires InOrder(all + lines)
    ensures Exported(Pruned(all, limit), lines, limit) == Pruned(all + lines, limit)
    decreases |lines|
  {
    if lines == [] {
      assert all + lines == all;
    } else {
      NewestOfAll(all, lines);
      NewestGoesLast(Pruned(all, limit), lines[0]);
      PruneEarlyOrLate(all, lines[0], limit);
      RunningPruneIsOnePrune(all + [lines[0]], lines[1..], limit);
    }
  }

  // ------------------------------------------------------ with a clock set back

  lemma {:induction false} OlderOfSum(a: seq<Line>, b: seq<Line>, stem: nat)
    ensures Older(a + b, stem) == Older(a, stem) + Older(b, stem)
  {
    if a == [] {
      assert a + b == b;
    } else {
      OlderOfSum(a[1..], b, stem);
      FirstOfSum(a, b);
      SumAgain(if a[0].stem < stem then [a[0]] else [], Older(a[1..], stem), Older(b, stem));
    }
  }

  lemma {:induction false} NewerOfSum(a: seq<Line>, b: seq<Line>, stem: nat)
    ensures Newer(a + b, stem) == Newer(a, stem) + Newer(b, stem)
  {
    if a == [] {
      assert a + b == b;
    } else {
      NewerOfSum(a[1..], b, stem);
      FirstOfSum(a, b);
      SumAgain(if a[0].stem > stem then [a[0]] else [], Newer(a[1..], stem), Newer(b, stem));
    }
  }

  lemma {:induction false} AllNewer(lines: seq<Line>, stem: nat)
    requires forall l :: l in lines ==> l.stem > stem
    ensures Older(lines, stem) == [] && Newer(lines, stem) == lines
  {
    if lines != [] {
      AllNewer(lines[1..], stem);
      First(lines);
    }
  }

  /** In front of what it cannot be kept with, nothing is kept. */
  lemma {:induction false} PrunedInFront(front: seq<Line>, rest: seq<Line>, limit: real)
    requires rest != [] && front != [] && Total([front[|front| - 1]] + rest) as real > limit
    ensures Pruned(front + rest, limit) == Pruned(rest, limit)
  {
    FirstOfSum(front, rest);
    assert (front + rest)[1..] == front[1..] + rest;
    if |front| == 1 {
      assert front == [front[0]] && front[1..] + rest == rest;
    } else {
      PrunedInFront(front[1..], rest, limit);
      LastCounts(front, rest);
    }
    assert Pruned(front + rest, limit) == Pruned(front[1..] + rest, limit);
  }

  lemma LastCounts(front: seq<Line>, rest: seq<Line>)
    requires front != []
    ensures Total(front + rest) >= Total([front[|front| - 1]] + rest)
  {
    var last := [front[|front| - 1]];
    assert front + rest == front[..|front| - 1] + (last + rest);
    TotalOfSum(front[..|front| - 1], last + rest);
  }

  lemma {:induction false} TotalWith(lines: seq<Line>, line: Line)
    requires forall l :: l in lines ==> l.stem != line.stem
    ensures Total(With(lines, line)) == Total(lines) + line.size
  {
    TotalOfSum(Older(lines, line.stem) + [line], Newer(lines, line.stem));
    TotalOfSum(Older(lines, line.stem), [line]);
    OldAndNew(lines, line.stem);
    assert Total([line]) == line.size;
  }

  lemma {:induction false} OldAndNew(lines: seq<Line>, stem: nat)
    requires forall l :: l in lines ==> l.stem != stem
    ensures Total(Older(lines, stem)) + Total(Newer(lines, stem)) == Total(lines)
  {
    if lines != [] {
      OldAndNew(lines[1..], stem);
      TotalOfSum(if lines[0].stem < stem then [lines[0]] else [], Older(lines[1..], stem));
      TotalOfSum(if lines[0].stem > stem then [lines[0]] else [], Newer(lines[1..], stem));
    }
  }

  /** What went in the prune, and what stayed. */
  lemma PrunedParts(all: seq<Line>, limit: real) returns (gone: seq<Line>, kept: seq<Line>)
    ensures gone == all[..Excess(all, limit)] && kept == Pruned(all, limit) && all == gone + kept
    ensures Within(kept, limit)
    ensures gone != [] ==> kept != [] && Total([gone[|gone| - 1]] + kept) as real > limit
  {
    var n := Excess(all, limit);
    gone, kept := all[..n], all[n..];
    PrunedIsTheLongestSuffix(all, limit);
    if n > 0 {
      assert [gone[n - 1]] + kept == all[n - 1..];
      assert !Within(all[n - 1..], limit);
    }
  }

  /** The newest line the prune took away, where it took any, is newer. */
  predicate NewerWasPruned(all: seq<Line>, line: Line, limit: real) {
    Excess(all, limit) > 0 && Excess(all, limit) <= |all| && all[Excess(all, limit) - 1].stem > line.stem
  }

  /** Exported late, a line stays or goes as if it had come in time, exactly
      unless a newer line than it was pruned before, and there is room for it
      beside what stayed: then it stays though one prune of all would take it. */
  lemma LateExportIsInTimeExactlyUnless(all: seq<Line>, line: Line, limit: real)
    requires InOrder(all) && forall l :: l in all ==> l.stem != line.stem
    ensures AfterExport(Pruned(all, limit), line, limit) == Pruned(With(all, line), limit)
       <==> !(NewerWasPruned(all, line, limit) && (Total(Pruned(all, limit)) + line.size) as real <= limit)
  {
    var gone, kept := PrunedParts(all, limit);
    if gone != [] {
      assert gone[|gone| - 1] == all[|gone| - 1];
      GoneThenKept(all, |gone|);
      if gone[|gone| - 1].stem < line.stem {
        InTime(gone, kept, line, limit);
      } else {
        TooLate(gone, kept, line, limit);
      }
    }
  }

  lemma GoneThenKept(all: seq<Line>, n: nat)
    requires InOrder(all) && 0 < n <= |all|
    ensures forall l :: l in all[..n] ==> l.stem <= all[n - 1].stem
    ensures forall l :: l in all[n..] ==> l.stem > all[n - 1].stem && l in all
  {
  }

  lemma WithBehind(gone: seq<Line>, kept: seq<Line>, line: Line)
    requires forall l :: l in gone ==> l.stem < line.stem
    ensures With(gone + kept, line) == gone + With(kept, line)
  {
    AllOlder(gone, line.stem);
    OlderOfSum(gone, kept, line.stem);
    NewerOfSum(gone, kept, line.stem);
    var older, newer := Older(kept, line.stem), Newer(kept, line.stem);
    assert [] + newer == newer;
    SumAgain(gone, older, [line]);
    SumAgain(gone, older + [line], newer);
  }

  lemma WithInFront(gone: seq<Line>, kept: seq<Line>, line: Line)
    requires forall l :: l in kept ==> l.stem > line.stem
    ensures With(gone + kept, line) == With(gone, line) + kept
  {
    AllNewer(kept, line.stem);
    OlderOfSum(gone, kept, line.stem);
    NewerOfSum(gone, kept, line.stem);
    assert Older(gone, line.stem) + [] == Older(gone, line.stem);
    SumAgain(Older(gone, line.stem) + [line], Newer(gone, line.stem), kept);
  }

  lemma InTime(gone: seq<Line>, kept: seq<Line>, line: Line, limit: real)
    requires gone != [] && kept != [] && Total([gone[|gone| - 1]] + kept) as real > limit
    requires (forall l :: l in gone ==> l.stem < line.stem) && forall l :: l in kept ==> l.stem != line.stem
    ensures Pruned(With(kept, line), limit) == Pruned(With(gone + kept, line), limit)
  {
    WithBehind(gone, kept, line);
    TotalWith(kept, line);
    var last := [gone[|gone| - 1]];
    TotalOfSum(last, kept);
    TotalOfSum(last, With(kept, line));
    PrunedInFront(gone, With(kept, line), limit);
  }

  lemma TooLate(gone: seq<Line>, kept: seq<Line>, line: Line, limit: real)
    requires gone != [] && kept != [] && Within(kept, limit) && Total([gone[|gone| - 1]] + kept) as real > limit
    requires gone[|gone| - 1].stem > line.stem && forall l :: l in kept ==> l.stem > line.stem
    ensures Pruned(With(gone + kept, line), limit) == kept
    ensures Pruned(With(kept, line), limit) == kept <==> (Total(kept) + line.size) as real > limit
  {
    var front := With(gone, line);
    WithInFront(gone, kept, line);
    LastIsNewer(gone, line.stem);
    assert front[|front| - 1] == gone[|gone| - 1];
    PrunedInFront(front, kept, limit);
    WithInFront([], kept, line);
    assert [] + kept == kept && With([], line) == [line];
    OneInFront(line, kept, limit);
  }

  lemma OneInFront(line: Line, kept: seq<Line>, limit: real)
    requires kept != [] && Within(kept, limit)
    ensures Pruned(kept, limit) == kept
    ensures Pruned([line] + kept, limit) == kept <==> (Total(kept) + line.size) as real > limit
  {
    assert ([line] + kept)[1..] == kept;
    if (Total(kept) + line.size) as real > limit {
      assert Pruned([line] + kept, limit) == Pruned(kept, limit);
    } else {
      assert Pruned([line] + kept, limit) == [line] + kept;
    }
  }

  lemma {:induction false} LastIsNewer(lines: seq<Line>, stem: nat)
    requires lines != [] && lines[|lines| - 1].stem > stem
    ensures Newer(lines, stem) != [] && Newer(lines, stem)[|Newer(lines, stem)| - 1] == lines[|lines| - 1]
  {
    if |lines| > 1 { LastIsNewer(lines[1..], stem); }
  }

  /** It happens: an older line than what was pruned stays. */
  lemma AnOlderLineMayStay()
    ensures var all, older := [Line(2, 3, true), Line(3, 1, true)], Line(1, 1, true);
            Exported(Pruned(all, 2.0), [older], 2.0) == [older, all[1]] != [all[1]] == Pruned(With(all, older), 2.0)
  {
    var b, c, older := Line(2, 3, true), Line(3, 1, true), Line(1, 1, true);
    assert [b, c][1..] == [c] && [older, b, c][1..] == [b, c];
    assert Newer([b, c], 1) == [b, c] && Newer([c], 1) == [c];
    assert Total([b, c]) == 4 && Total([older, c]) == 2 && Total([older, b, c]) == 5;
    assert Exported([c], [older], 2.0) == AfterExport([c], older, 2.0);
  }

  function Readable(lines: seq<Line>): seq<Line> {
    if lines == [] then [] else (if lines[0].readable then [lines[0]] else []) + Readable(lines[1..])
  }

  function LastOf(lines: seq<Line>, limit: Option<int>): seq<Line> {
    if limit.None? then lines
    else if limit.value <= 0 then []
    else if limit.value >= |lines| then lines
    else lines[|lines| - limit.value..]
  }

  /** A limit keeps so many lines, all if there are no more, of the newest end. */
  lemma TheNewestAreLoaded(lines: seq<Line>, limit: int)
    ensures LastOf(lines, None) == lines
    ensures var r := LastOf(lines, Some(limit));
            && |r| == (if limit < 0 then 0 else if limit < |lines| then limit else |lines|)
            && lines == lines[..|lines| - |r|] + r
  {
  }

  /** Those that can be read, each as often as it was there and in order. */
  lemma {:induction false} TheReadableAreLoaded(lines: seq<Line>, l: Line)
    ensures PartOf(Readable(lines), lines)
    ensures multiset(Readable(lines))[l] == if l.readable then multiset(lines)[l] else 0
  {
    if lines != [] {
      TheReadableAreLoaded(lines[1..], l);
      First(lines);
      if lines[0].readable {
        RestOfMore(lines[0], Readable(lines[1..]));
      } else {
        PartOfOneMore(Readable(lines[1..]), lines[0], lines[1..]);
        assert Readable(lines) == Readable(lines[1..]);
      }
    }
  }

  // ---------------------------------------------------------------------- class

  class SpeechHistory {
    var lines: seq<Line>

    ghost predicate Valid() reads this { InOrder(lines) }

    constructor ()
      ensures Valid() && lines == []
    {
      lines := [];
    }

    method Prune(maxGb: real) returns (removed: nat)
      requires Valid()
      modifies this
      ensures Valid() && removed == Excess(old(lines), maxGb * BYTES_PER_GB)
      ensures lines == Pruned(old(lines), maxGb * BYTES_PER_GB)
    {
      var entries, limit := lines, maxGb * BYTES_PER_GB;
      var total := Total(entries);
      removed := 0;
      assert entries[0..] == entries;
      while removed < |entries| - 1 && total as real > limit
        invariant removed <= |entries| && (entries != [] ==> removed < |entries|)
        invariant lines == entries[removed..] && total == Total(lines)
        invariant forall k :: 0 <= k < removed ==> !Within(entries[k..], limit)
      {
        assert entries[removed..][1..] == entries[removed + 1..];
        total := total - entries[removed].size;
        lines := lines[1..];
        removed := removed + 1;
      }
      ExcessIsDetermined(entries, limit, removed);
    }

    /** Keeps the line and prunes; nothing when switched off. */
    method Export(line: Line, enabled: bool, maxGb: real)
      requires Valid()
      modifies this
      ensures Valid() && (!enabled ==> lines == old(lines))
      ensures enabled ==> lines == AfterExport(old(lines), line, maxGb * BYTES_PER_GB)
    {
      if !enabled { return; }
      WithIsInOrder(lines, line);
      lines := With(lines, line);
      var removed := Prune(maxGb);
    }

    /** The newest `limit` lines, oldest first, but those it cannot read. */
    method Load(limit: Option<int>) returns (r: seq<Line>)
      ensures r == Readable(LastOf(lines, limit))
    {
      var stems := LastOf(lines, limit);
      r := [];
      var i := 0;
      while i < |stems|
        invariant i <= |stems| && r + Readable(stems[i..]) == Readable(stems)
      {
        if stems[i].readable { r := r + [stems[i]]; }
        i := i + 1;
      }
    }
  }
}
