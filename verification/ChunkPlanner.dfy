/** Where a chunk of a transcript ends, and how a transcript is cut into
    chunks of Fibonacci sizes. */
module Chunks {
  import opened Options
  import opened Reals
  import opened Text

  // ----------------------------------------------------------- boundary classes

  /** In the order they are preferred. */
  datatype Boundary = Paragraph | Sentence | Clause | Word

  /** The blanks from `i` on. */
  function BlanksEnd(w: string, i: nat): (e: nat)
    requires i <= |w|
    ensures i <= e <= |w|
    ensures forall k :: i <= k < e ==> w[k] == ' ' || w[k] == '\t'
    ensures e < |w| ==> w[e] != ' ' && w[e] != '\t'
    decreases |w| - i
  {
    if i < |w| && (w[i] == ' ' || w[i] == '\t') then BlanksEnd(w, i + 1) else i
  }

  predicate BreakAt(w: string, i: nat, e: nat) {
    && i + 2 <= e <= |w| && w[i] == '\n' && w[e - 1] == '\n'
    && forall k :: i < k < e - 1 ==> w[k] == ' ' || w[k] == '\t'
  }

  predicate MarkAt(w: string, i: nat, marks: string) {
    i < |w| && w[i] in marks && (i + 1 == |w| || IsSpace(w[i + 1]))
  }

  /** The class matches `w[i..e]`. */
  predicate Matches(kind: Boundary, w: string, i: nat, e: nat) {
    match kind
    case Paragraph => BreakAt(w, i, e)
    case Sentence => e == i + 1 && MarkAt(w, i, ".!?")
    case Clause => e == i + 1 && MarkAt(w, i, ",;:")
    case Word => e == i + 1 && i < |w| && IsSpace(w[i])
  }

  /** What the classes match, character by character. */
  lemma WhatABoundaryIs(w: string, i: nat, e: nat)
    requires i <= e <= |w|
    ensures Matches(Paragraph, w, i, e) <==>
              e - i >= 2 && w[i] == w[e - 1] == '\n' && OnlyBlanks(w[i + 1..e - 1])
    ensures Matches(Sentence, w, i, e) <==> EndsMark(w, i, e, {'.', '!', '?'})
    ensures Matches(Clause, w, i, e) <==> EndsMark(w, i, e, {',', ';', ':'})
    ensures Matches(Word, w, i, e) <==> e == i + 1 && IsSpace(w[i])
  {
    if e - i >= 2 { assert forall k :: i < k < e - 1 ==> w[k] == w[i + 1..e - 1][k - i - 1]; }
  }

  predicate OnlyBlanks(s: string) { forall k :: 0 <= k < |s| ==> s[k] == ' ' || s[k] == '\t' }

  /** One of the marks, at the end of the text or before white space. */
  predicate EndsMark(w: string, i: nat, e: nat, marks: set<char>)
    requires i <= e <= |w|
  {
    e == i + 1 && w[i] in marks && (e < |w| ==> IsSpace(w[e]))
  }

  ghost predicate StartsAt(kind: Boundary, w: string, i: nat) { exists e :: Matches(kind, w, i, e) }

  /** The match that starts at `i`, by its end. */
  function MatchEnd(kind: Boundary, w: string, i: nat): (r: Option<nat>)
    requires i <= |w|
    ensures r.Some? ==> Matches(kind, w, i, r.value)
  {
    match kind
    case Paragraph =>
      if i < |w| && w[i] == '\n' && BlanksEnd(w, i + 1) < |w| && w[BlanksEnd(w, i + 1)] == '\n'
      then Some(BlanksEnd(w, i + 1) + 1) else None
    case Sentence => if MarkAt(w, i, ".!?") then Some(i + 1) else None
    case Clause => if MarkAt(w, i, ",;:") then Some(i + 1) else None
    case Word => if i < |w| && IsSpace(w[i]) then Some(i + 1) else None
  }

  lemma MatchEndIsTheOnlyMatch(kind: Boundary, w: string, i: nat, e: nat)
    requires Matches(kind, w, i, e)
    ensures MatchEnd(kind, w, i) == Some(e)
  {
    if kind == Paragraph {
      var b := BlanksEnd(w, i + 1);
      assert b == e - 1;
    }
  }

  lemma StartsExactlyWhen(kind: Boundary, w: string, i: nat)
    requires i <= |w|
    ensures StartsAt(kind, w, i) <==> MatchEnd(kind, w, i).Some?
  {
    if StartsAt(kind, w, i) {
      var e :| Matches(kind, w, i, e);
      MatchEndIsTheOnlyMatch(kind, w, i, e);
    }
  }

  /** The end of the last of the matches taken from `from` on, left to right,
      each starting no earlier than the one before ends. */
  function LastMatch(kind: Boundary, w: string, from: nat): (r: Option<nat>)
    requires from <= |w|
    ensures r.Some? ==> from < r.value <= |w|
    decreases |w| - from
  {
    if from == |w| then None
    else
      var here := MatchEnd(kind, w, from);
      if here.Some? then Some(LastMatch(kind, w, here.value).GetOr(here.value))
      else LastMatch(kind, w, from + 1)
  }

  /** A match ends there, and none starts at or after it; there is no last
      match exactly when there is no match. */
  lemma {:induction false} LastMatchIsLast(kind: Boundary, w: string, from: nat)
    requires from <= |w|
    ensures var r := LastMatch(kind, w, from);
            && (r.Some? ==> exists i :: from <= i && Matches(kind, w, i, r.value))
            && forall i :: r.GetOr(from) <= i <= |w| ==> !StartsAt(kind, w, i)
    decreases |w| - from
  {
    StartsExactlyWhen(kind, w, from);
    if from < |w| {
      var here := MatchEnd(kind, w, from);
      var next := if here.Some? then here.value else from + 1;
      LastMatchIsLast(kind, w, next);
    }
  }

  /** For every class but the paragraph break (whose matches can overlap) the
      last match is the one that ends last. */
  lemma LastMatchEndsLast(kind: Boundary, w: string, i: nat, e: nat)
    requires kind != Paragraph && Matches(kind, w, i, e)
    ensures LastMatch(kind, w, 0).Some? && e <= LastMatch(kind, w, 0).value
  {
    LastMatchIsLast(kind, w, 0);
    assert StartsAt(kind, w, i);
  }

  method FindLast(kind: Boundary, w: string) returns (last: Option<nat>)
    ensures last == LastMatch(kind, w, 0)
  {
    last := None;
    var at := 0;
    while at < |w|
      invariant at <= |w|
      invariant LastMatch(kind, w, 0) == if LastMatch(kind, w, at).Some? then LastMatch(kind, w, at) else last
    {
      var here := MatchEnd(kind, w, at);
      if here.Some? {
        last := here;
        at := here.value;
      } else {
        at := at + 1;
      }
    }
  }

  // ---------------------------------------------------------------------- snap

  function Best(w: string): Option<nat> {
    var p, s := LastMatch(Paragraph, w, 0), LastMatch(Sentence, w, 0);
    var c, b := LastMatch(Clause, w, 0), LastMatch(Word, w, 0);
    if p.Some? then p else if s.Some? then s else if c.Some? then c else b
  }

  /** The target and its tolerance, the part behind the point left out. */
  function Reach(target: int, tolerance: real): (n: int)
    ensures var x := target as real + target as real * tolerance;
            (x >= 0.0 ==> n as real <= x < n as real + 1.0) && (x <= 0.0 ==> n as real - 1.0 < x <= n as real)
  {
    Distributed(1.0, tolerance, target as real);
    Truncated(target as real * (1.0 + tolerance))
  }

  function Window(text: string, start: nat, target: int, tolerance: real): (w: string)
    requires start <= |text|
    ensures var reach := Reach(target, tolerance);
            reach >= 0 ==> w == text[start..if start + reach <= |text| then start + reach else |text|]
  {
    var reach := start + Reach(target, tolerance);
    Slice(text, start, if reach <= |text| then reach else |text|)
  }

  /** The last white space over indices `(start, from]`. */
  function SpaceBack(text: string, start: nat, from: int): (r: Option<nat>)
    requires from < |text|
    ensures r.Some? ==> start + 1 < r.value <= from + 1 && IsSpace(text[r.value - 1])
    ensures forall i :: r.GetOr(start + 1) <= i <= from ==> !IsSpace(text[i])
  {
    if from <= start then None
    else if IsSpace(text[from]) then Some(from + 1)
    else SpaceBack(text, start, from - 1)
  }

  function ScanFrom(text: string, start: nat, target: int): int {
    if start + target <= |text| - 1 then start + target else |text| - 1
  }

  /** The exclusive end of the chunk that starts at `start`. */
  function SnapAt(text: string, start: nat, target: int, tolerance: real): int {
    if |text| - start <= 0 || target >= |text| - start then |text|
    else
      var best := Best(Window(text, start, target, tolerance));
      if best.Some? then start + best.value
      else
        var back := SpaceBack(text, start, ScanFrom(text, start, target));
        if back.Some? then back.value else start + target
  }

  method Snap(text: string, start: nat, target: int, tolerance: real) returns (end: int)
    ensures end == SnapAt(text, start, target, tolerance)
  {
    if text == "" { return 0; }
    var remaining := |text| - start;
    if remaining <= 0 { return |text|; }
    if target >= remaining { return |text|; }

    var window := Window(text, start, target, tolerance);
    var best := FindBest(window);
    if best.Some? { return start + best.value; }
    var back := ScanBack(text, start, ScanFrom(text, start, target));
    return if back.Some? then back.value else start + target;
  }

  /** The last match of the first class that has one. */
  method FindBest(window: string) returns (last: Option<nat>)
    ensures last == Best(window)
  {
    last := FindLast(Paragraph, window);
    if last.Some? { return; }
    last := FindLast(Sentence, window);
    if last.Some? { return; }
    last := FindLast(Clause, window);
    if last.Some? { return; }
    last := FindLast(Word, window);
  }

  method ScanBack(text: string, start: nat, from: int) returns (back: Option<nat>)
    requires from < |text|
    ensures back == SpaceBack(text, start, from)
  {
    var i := from;
    while i > start
      invariant i < |text|
      invariant SpaceBack(text, start, from) == SpaceBack(text, start, i)
    {
      if IsSpace(text[i]) { return Some(i + 1); }
      i := i - 1;
    }
    return None;
  }

  /** For every target of at least one character the snap moves on, inside the
      text, whatever the tolerance. */
  lemma SnapAdvances(text: string, start: nat, target: int, tolerance: real)
    requires start < |text| && target >= 1
    ensures start < SnapAt(text, start, target, tolerance) <= |text|
  {
  }

  lemma ProductIsNonNegative(a: real, b: real)
    requires a >= 0.0 && b >= 0.0
    ensures a * b >= 0.0
  {
  }

  /** A chunk is no longer than the window, or one more than the target. */
  lemma SnapIsNoLonger(text: string, start: nat, target: int, tolerance: real)
    requires start < |text| && target >= 1 && tolerance >= -1.0
    ensures var length := SnapAt(text, start, target, tolerance) - start;
            length <= Reach(target, tolerance) || length <= target + 1
  {
    ProductIsNonNegative(target as real, 1.0 + tolerance);
    assert Reach(target, tolerance) >= 0;
  }

  /** The preferred classes before `kind` have no match in the window. */
  ghost predicate NoneBefore(kind: Boundary, w: string) {
    forall k: Boundary, i :: Rank(k) < Rank(kind) && 0 <= i <= |w| ==> !StartsAt(k, w, i)
  }

  function Rank(kind: Boundary): int {
    match kind case Paragraph => 0 case Sentence => 1 case Clause => 2 case Word => 3
  }

  /** Before the end of the text the snap is at the last match of the first
      class the window holds, or no class is in the window. */
  lemma SnapEndsAtTheBestBoundary(text: string, start: nat, target: int, tolerance: real)
    requires start < |text| && target < |text| - start
    ensures var w := Window(text, start, target, tolerance);
            var end := SnapAt(text, start, target, tolerance) - start;
            || (exists kind :: NoneBefore(kind, w) && LastMatch(kind, w, 0) == Some(end))
            || (forall k: Boundary, i :: 0 <= i <= |w| ==> !StartsAt(k, w, i))
  {
    var w := Window(text, start, target, tolerance);
    forall k: Boundary, i | LastMatch(k, w, 0) == None && 0 <= i <= |w| ensures !StartsAt(k, w, i) {
      LastMatchIsLast(k, w, 0);
    }
    var p, s := LastMatch(Paragraph, w, 0), LastMatch(Sentence, w, 0);
    var c, b := LastMatch(Clause, w, 0), LastMatch(Word, w, 0);
    if p.Some? { assert NoneBefore(Paragraph, w); }
    else if s.Some? { assert NoneBefore(Sentence, w); }
    else if c.Some? { assert NoneBefore(Clause, w); }
    else if b.Some? { assert NoneBefore(Word, w); }
    else {
      forall k: Boundary ensures LastMatch(k, w, 0) == None {
        match k case Paragraph => case Sentence => case Clause => case Word =>
      }
    }
  }

  /** Without a boundary in the window the cut is behind the last white space no
      further than the target, if there is one, else at the target. */
  lemma NoBoundaryScansBack(text: string, start: nat, target: int, tolerance: real, space: int)
    requires start < |text| && 1 <= target < |text| - start && Best(Window(text, start, target, tolerance)).None?
    requires start <= space <= start + target && (space > start ==> IsSpace(text[space]))
    requires forall i :: space < i <= start + target && i < |text| ==> !IsSpace(text[i])
    ensures SnapAt(text, start, target, tolerance) == if space > start then space + 1 else start + target
  {
  }

  /** With the window reaching past the target, as it does for the default
      tolerance from four characters on, a window without a boundary is cut at
      exactly the target: the backward scan finds nothing. */
  lemma NoBoundaryIsAHardCut(text: string, start: nat, target: int, tolerance: real)
    requires start < |text| && 1 <= target < |text| - start
    requires Reach(target, tolerance) > target
    requires forall k: Boundary, i ::
      0 <= i <= |Window(text, start, target, tolerance)| ==> !StartsAt(k, Window(text, start, target, tolerance), i)
    ensures SnapAt(text, start, target, tolerance) == start + target
  {
    var w := Window(text, start, target, tolerance);
    forall k: Boundary ensures LastMatch(k, w, 0) == None {
      LastMatchIsLast(k, w, 0);
      assert LastMatch(k, w, 0).Some? ==> exists i :: 0 <= i && Matches(k, w, i, LastMatch(k, w, 0).value);
      assert forall i, e :: 0 <= i && Matches(k, w, i, e) ==> i <= |w| && StartsAt(k, w, i);
    }
    forall i | start < i <= start + target ensures !IsSpace(text[i]) {
      assert w[i - start] == text[i];
      StartsExactlyWhen(Word, w, i - start);
    }
  }

  const TOLERANCE := 0.25

  lemma DefaultWindowPassesTheTarget(target: int)
    requires target >= 1
    ensures Reach(target, TOLERANCE) > target <==> target >= 4
    ensures target as real * 1.25 - 1.0 < Reach(target, TOLERANCE) as real <= target as real * 1.25
  {
  }

  // ----------------------------------------------------------------- Fibonacci

  function Fib(n: nat): (f: nat)
    ensures n > 0 ==> f > 0
  {
    if n < 2 then n else Fib(n - 1) + Fib(n - 2)
  }

  lemma FibIs(n: nat)
    ensures Fib(1) == 1 && Fib(2) == 1 && Fib(n + 2) == Fib(n) + Fib(n + 1)
  {
  }

  class FibonacciSeq {
    var a: nat
    var b: nat
    var emitted: nat

    ghost predicate Valid() reads this {
      if emitted < 2 then a == 1 && b == 1 else a == Fib(emitted - 1) && b == Fib(emitted)
    }

    constructor ()
      ensures Valid() && emitted == 0
    {
      a, b, emitted := 1, 1, 0;
    }

    method NextTarget() returns (value: nat)
      requires Valid()
      modifies this
      ensures Valid() && emitted == old(emitted) + 1
      ensures value == Fib(emitted)
    {
      emitted := emitted + 1;
      if emitted == 1 { return a; }
      if emitted == 2 { return b; }
      var next := a + b;
      a := b;
      b := next;
      return next;
    }
  }

  // ---------------------------------------------------------------------- plan

  datatype Chunk = Chunk(index: nat, fibValue: nat, target: int, count: int, text: string,
                         seconds: real, start: nat, end: nat)

  datatype PlanResult = EmptyText | BadRate | Plan(chunks: seq<Chunk>, seconds: real, count: nat)

  function Target(fibValue: nat, base: real, rate: real): (t: int)
    ensures fibValue as real * base * rate >= 1.0 ==> t as real <= fibValue as real * base * rate < t as real + 1.0
    ensures fibValue as real * base * rate < 1.0 ==> t == 1
    ensures t >= 1
  {
    var t := Truncated(fibValue as real * base * rate);
    if t >= 1 then t else 1
  }

  function Seconds(count: int, rate: real): (t: real)
    requires rate > 0.0
    ensures t * rate == count as real
  {
    count as real / rate
  }

  /** Where chunk `i` has to start. */
  function StartOf(chunks: seq<Chunk>, i: nat): nat
    requires i <= |chunks|
  {
    if i == 0 then 0 else chunks[i - 1].end
  }

  ghost predicate IsStretch(chunks: seq<Chunk>, i: nat, text: string)
    requires i < |chunks|
  {
    var c := chunks[i];
    && c.start == StartOf(chunks, i) < c.end <= |text|
    && c.text == text[c.start..c.end] && c.count == c.end - c.start
  }

  /** Each chunk is the stretch of the text from where the last one ended. */
  ghost predicate Tiles(chunks: seq<Chunk>, text: string) {
    forall i :: 0 <= i < |chunks| ==> IsStretch(chunks, i, text)
  }

  ghost predicate IsSized(c: Chunk, k: nat, text: string, base: real, rate: real, tolerance: real) {
    && c.index == k && c.fibValue == Fib(k) && c.target == Target(Fib(k), base, rate)
    && c.start < |text| && c.end == SnapAt(text, c.start, c.target, tolerance)
  }

  /** Chunk `i` is numbered `i + 1`, aims at its Fibonacci number's size and
      ends where the snap says. */
  ghost predicate Sized(chunks: seq<Chunk>, text: string, base: real, rate: real, tolerance: real) {
    forall i :: 0 <= i < |chunks| ==> IsSized(chunks[i], i + 1, text, base, rate, tolerance)
  }

  ghost predicate Timed(chunks: seq<Chunk>, rate: real)
    requires rate > 0.0
  {
    forall i :: 0 <= i < |chunks| ==> chunks[i].seconds == Seconds(chunks[i].count, rate)
  }

  lemma TilesGrow(chunks: seq<Chunk>, c: Chunk, text: string)
    requires Tiles(chunks, text) && IsStretch(chunks + [c], |chunks|, text)
    ensures Tiles(chunks + [c], text)
  {
    forall i | 0 <= i < |chunks + [c]| ensures IsStretch(chunks + [c], i, text) {
      assert i < |chunks| ==> IsStretch(chunks, i, text);
    }
  }

  method MakePlan(text: string, rate: real, base: real, tolerance: real) returns (r: PlanResult)
    ensures r.EmptyText? <==> text == ""
    ensures r.BadRate? <==> text != "" && rate <= 0.0
    ensures r.Plan? ==> && Tiles(r.chunks, text) && StartOf(r.chunks, |r.chunks|) == |text| == r.count
                        && Sized(r.chunks, text, base, rate, tolerance)
                        && Timed(r.chunks, rate) && r.seconds == Seconds(|text|, rate)
  {
    if text == "" { return EmptyText; }
    if rate <= 0.0 { return BadRate; }
    var fib := new FibonacciSeq();
    var chunks: seq<Chunk> := [];
    var offset := 0;
    while offset < |text|
      invariant fib.Valid() && fresh(fib) && fib.emitted == |chunks|
      invariant 0 <= offset <= |text| && StartOf(chunks, |chunks|) == offset
      invariant Tiles(chunks, text) && Sized(chunks, text, base, rate, tolerance) && Timed(chunks, rate)
      decreases |text| - offset
    {
      var fibValue := fib.NextTarget();
      var target := Target(fibValue, base, rate);
      var end := Snap(text, offset, target, tolerance);
      SnapAdvances(text, offset, target, tolerance);
      if end <= offset {
        end := if offset + 1 <= |text| then offset + 1 else |text|;
      }
      var slice := text[offset..end];
      var chunk := Chunk(|chunks| + 1, fibValue, target, |slice|, slice, Seconds(|slice|, rate), offset, end);
      TilesGrow(chunks, chunk, text);
      chunks := chunks + [chunk];
      offset := end;
    }
    r := Plan(chunks, Seconds(|text|, rate), |text|);
  }

  function Texts(chunks: seq<Chunk>): string {
    if chunks == [] then "" else Texts(chunks[..|chunks| - 1]) + chunks[|chunks| - 1].text
  }

  function TotalSeconds(chunks: seq<Chunk>): real {
    if chunks == [] then 0.0 else TotalSeconds(chunks[..|chunks| - 1]) + chunks[|chunks| - 1].seconds
  }

  lemma {:induction false} TilesKeepTheText(chunks: seq<Chunk>, n: nat, text: string)
    requires Tiles(chunks, text) && n <= |chunks|
    ensures StartOf(chunks, n) <= |text|
    ensures Texts(chunks[..n]) == text[..StartOf(chunks, n)]
  {
    if n > 0 {
      TilesKeepTheText(chunks, n - 1, text);
      assert chunks[..n][..n - 1] == chunks[..n - 1];
      assert IsStretch(chunks, n - 1, text);
    }
  }

  /** Nothing is lost, repeated or moved: the texts of a whole plan's chunks,
      in order, are the transcript. */
  lemma PlanKeepsTheText(chunks: seq<Chunk>, text: string)
    requires Tiles(chunks, text) && StartOf(chunks, |chunks|) == |text|
    ensures Texts(chunks) == text
  {
    TilesKeepTheText(chunks, |chunks|, text);
    assert chunks[..|chunks|] == chunks && text[..|text|] == text;
  }

  lemma SecondsAdd(a: int, b: int, rate: real)
    requires rate > 0.0
    ensures Seconds(a, rate) + Seconds(b, rate) == Seconds(a + b, rate)
  {
  }

  /** The estimated durations of a plan's first chunks add up to the estimate
      for their text; those of all chunks to the estimate of the whole. */
  lemma {:induction false} DurationsAddUp(chunks: seq<Chunk>, n: nat, text: string, rate: real)
    requires rate > 0.0 && Tiles(chunks, text) && Timed(chunks, rate) && n <= |chunks|
    ensures TotalSeconds(chunks[..n]) == Seconds(StartOf(chunks, n), rate)
  {
    if n > 0 {
      DurationsAddUp(chunks, n - 1, text, rate);
      assert chunks[..n][..n - 1] == chunks[..n - 1];
      assert IsStretch(chunks, n - 1, text);
      SecondsAdd(StartOf(chunks, n - 1), chunks[n - 1].count, rate);
    }
  }

  /** Every chunk, the last one too, is within its window or one character past
      its target; each has a character, so the safety step is never taken; and
      only the last ends the text. */
  lemma EachChunkHasItsSize(chunks: seq<Chunk>, i: nat, text: string, base: real, rate: real, tolerance: real)
    requires tolerance >= -1.0 && Tiles(chunks, text) && Sized(chunks, text, base, rate, tolerance) && i < |chunks|
    ensures var c := chunks[i];
            && 1 <= c.count && (i + 1 < |chunks| ==> c.end < |text|)
            && (c.count <= Reach(c.target, tolerance) || c.count <= c.target + 1)
  {
    var c := chunks[i];
    assert IsStretch(chunks, i, text);
    assert i + 1 < |chunks| ==> IsStretch(chunks, i + 1, text);
    assert IsSized(c, i + 1, text, base, rate, tolerance);
    SnapIsNoLonger(text, c.start, c.target, tolerance);
  }

  ghost predicate NoBoundary(w: string) {
    forall k: Boundary, i :: 0 <= i <= |w| ==> !StartsAt(k, w, i)
  }

  /** `length` ends with the last match of the best class that the default
      window holds, or it is the target and the window holds no boundary. */
  ghost predicate EndsWell(text: string, start: nat, target: int, length: int)
    requires start <= |text|
  {
    var w := Window(text, start, target, TOLERANCE);
    || (exists kind :: NoneBefore(kind, w) && LastMatch(kind, w, 0) == Some(length))
    || (NoBoundary(w) && length == target)
  }

  lemma SnapEndsWell(text: string, start: nat, target: int)
    requires start < |text| && target >= 4 && SnapAt(text, start, target, TOLERANCE) < |text|
    ensures EndsWell(text, start, target, SnapAt(text, start, target, TOLERANCE) - start)
  {
    SnapEndsAtTheBestBoundary(text, start, target, TOLERANCE);
    DefaultWindowPassesTheTarget(target);
    if NoBoundary(Window(text, start, target, TOLERANCE)) {
      NoBoundaryIsAHardCut(text, start, target, TOLERANCE);
    }
  }

  lemma SizedEndsWell(c: Chunk, k: nat, text: string, base: real, rate: real)
    requires IsSized(c, k, text, base, rate, TOLERANCE) && c.target >= 4
    requires c.end < |text| && c.count == c.end - c.start
    ensures EndsWell(text, c.start, c.target, c.count)
  {
    SnapEndsWell(text, c.start, c.target);
  }

  /** With the default tolerance and a target of at least four characters,
      every chunk but the last ends at a best boundary or at its target. */
  lemma EachChunkEndsWell(chunks: seq<Chunk>, i: nat, text: string, base: real, rate: real)
    requires Tiles(chunks, text) && Sized(chunks, text, base, rate, TOLERANCE)
    requires i + 1 < |chunks| && chunks[i].target >= 4
    ensures chunks[i].start <= |text| && EndsWell(text, chunks[i].start, chunks[i].target, chunks[i].count)
  {
    assert IsStretch(chunks, i, text) && IsStretch(chunks, i + 1, text);
    assert IsSized(chunks[i], i + 1, text, base, rate, TOLERANCE);
    SizedEndsWell(chunks[i], i + 1, text, base, rate);
  }
}
