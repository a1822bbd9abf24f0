/** The incremental tail of the event log: whole lines only, each once and in
    order, however the appends (part lines too), polls and restarts fall. */
module EventTail {
  import opened Options
  import opened Seqs

  newtype byte = x: int | 0 <= x < 256
  type Bytes = seq<byte>

  const NEWLINE: byte := 10

  /** Just past the last newline before `n`; 0 when there is none. */
  function LineStart(s: Bytes, n: nat): (cut: nat)
    requires n <= |s|
    ensures cut <= n && AtLineStart(s, cut)
    ensures forall i :: cut <= i < n ==> s[i] != NEWLINE
  {
    if n == 0 || s[n - 1] == NEWLINE then n else LineStart(s, n - 1)
  }

  /** How much of a chunk is whole lines. */
  function Consumed(chunk: Bytes): (n: nat)
    ensures n <= |chunk| && AtLineStart(chunk, n)
    ensures forall i :: n <= i < |chunk| ==> chunk[i] != NEWLINE
  {
    LineStart(chunk, |chunk|)
  }

  /** The newline-ended lines of the first `n` bytes, without their newlines. */
  function LinesTo(s: Bytes, n: nat): seq<Bytes>
    requires n <= |s|
  {
    if n == 0 || s[n - 1] != NEWLINE then [] else LinesTo(s, LineStart(s, n - 1)) + [s[LineStart(s, n - 1)..n - 1]]
  }

  function Lines(s: Bytes): seq<Bytes> { LinesTo(s, |s|) }

  predicate IsSpace(b: byte) { b == 32 || (9 <= b <= 13) }

  predicate IsBlank(line: Bytes) { forall i :: 0 <= i < |line| ==> IsSpace(line[i]) }

  function NonBlank(lines: seq<Bytes>): seq<Bytes> {
    if lines == [] then [] else (if IsBlank(lines[0]) then [] else [lines[0]]) + NonBlank(lines[1..])
  }

  predicate AtLineStart(log: Bytes, offset: nat) { offset <= |log| && (offset > 0 ==> log[offset - 1] == NEWLINE) }

  // ------------------------------------------------------------- what Lines means

  function Join(lines: seq<Bytes>): Bytes {
    if lines == [] then [] else lines[0] + [NEWLINE] + Join(lines[1..])
  }

  lemma {:induction false} JoinOfSum(a: seq<Bytes>, b: seq<Bytes>)
    ensures Join(a + b) == Join(a) + Join(b)
  {
    if a == [] {
      assert a + b == b;
    } else {
      JoinOfSum(a[1..], b);
      FirstOfSum(a, b);
    }
  }

  lemma JoinOfLast(lines: seq<Bytes>, last: Bytes)
    ensures Join(lines + [last]) == Join(lines) + last + [NEWLINE]
  {
    JoinOfSum(lines, [last]);
    assert Join([last]) == last + [NEWLINE];
  }

  lemma {:induction false} LinesToAreThePrefix(s: Bytes, n: nat)
    requires AtLineStart(s, n)
    ensures Join(LinesTo(s, n)) == s[..n]
  {
    if n > 0 {
      var cut := LineStart(s, n - 1);
      LinesToAreThePrefix(s, cut);
      JoinOfLast(LinesTo(s, cut), s[cut..n - 1]);
      PrefixOf(s, cut, n);
    }
  }

  lemma PrefixOf(s: Bytes, cut: nat, n: nat)
    requires cut < n <= |s| && s[n - 1] == NEWLINE
    ensures s[..n] == s[..cut] + s[cut..n - 1] + [NEWLINE]
  {
  }

  /** A stretch that ends at a line boundary is its lines, each with its
      newline back. */
  lemma LinesAreTheStretch(s: Bytes)
    requires AtLineStart(s, |s|)
    ensures Join(Lines(s)) == s
  {
    LinesToAreThePrefix(s, |s|);
    assert s[..|s|] == s;
  }

  lemma {:induction false} LinesToAreWhole(s: Bytes, n: nat)
    requires n <= |s|
    ensures forall line :: line in LinesTo(s, n) ==> NEWLINE !in line
  {
    if n > 0 && s[n - 1] == NEWLINE { LinesToAreWhole(s, LineStart(s, n - 1)); }
  }

  /** No line has a newline inside. */
  lemma LinesAreWhole(s: Bytes)
    ensures forall line :: line in Lines(s) ==> NEWLINE !in line
  {
    LinesToAreWhole(s, |s|);
  }

  /** Behind a line boundary the lines begin where they would alone. */
  lemma {:induction false} LineStartBeyond(a: Bytes, b: Bytes, n: nat)
    requires AtLineStart(a, |a|) && n <= |b|
    ensures LineStart(a + b, |a| + n) == |a| + LineStart(b, n)
  {
    assert n > 0 ==> (a + b)[|a| + n - 1] == b[n - 1];
    if n > 0 && b[n - 1] != NEWLINE { LineStartBeyond(a, b, n - 1); }
  }

  lemma {:induction false} LineStartWithin(a: Bytes, b: Bytes, n: nat)
    requires n <= |a|
    ensures LineStart(a + b, n) == LineStart(a, n)
  {
    if n > 0 && a[n - 1] != NEWLINE { LineStartWithin(a, b, n - 1); }
  }

  lemma {:induction false} LinesToWithin(a: Bytes, b: Bytes, n: nat)
    requires n <= |a|
    ensures LinesTo(a + b, n) == LinesTo(a, n)
  {
    if n > 0 && a[n - 1] == NEWLINE {
      var cut := LineStart(a, n - 1);
      LineStartWithin(a, b, n - 1);
      LinesToWithin(a, b, cut);
      SliceWithin(a, b, cut, n - 1);
    }
  }

  lemma {:induction false} LinesToOfSum(a: Bytes, b: Bytes, n: nat)
    requires AtLineStart(a, |a|) && AtLineStart(b, n)
    ensures LinesTo(a + b, |a| + n) == Lines(a) + LinesTo(b, n)
  {
    if n == 0 {
      LinesToWithin(a, b, |a|);
    } else {
      var cut := LineStart(b, n - 1);
      LineStartBeyond(a, b, n - 1);
      LinesToOfSum(a, b, cut);
      LastLineBeyond(a, b, cut, n);
    }
  }

  lemma LastLineBeyond(a: Bytes, b: Bytes, cut: nat, n: nat)
    requires cut < n <= |b| && AtLineStart(a, |a|) && AtLineStart(b, n) && LineStart(b, n - 1) == cut
    requires LinesTo(a + b, |a| + cut) == Lines(a) + LinesTo(b, cut) && LineStart(a + b, |a| + n - 1) == |a| + cut
    ensures LinesTo(a + b, |a| + n) == Lines(a) + LinesTo(b, n)
  {
    SliceBeyond(a, b, cut, n - 1);
    SumAgain(Lines(a), LinesTo(b, cut), [b[cut..n - 1]]);
  }

  /** Split at a line boundary, the lines are those before and those after. */
  lemma LinesOfSum(a: Bytes, b: Bytes)
    requires AtLineStart(a, |a|) && AtLineStart(b, |b|)
    ensures Lines(a + b) == Lines(a) + Lines(b)
  {
    LinesToOfSum(a, b, |b|);
  }

  /** A line is blank when it has nothing but tabs, line and page breaks and
      blanks; all others are told, in order. */
  lemma {:induction false} ToldExactlyWhen(lines: seq<Bytes>, line: Bytes)
    ensures PartOf(NonBlank(lines), lines)
    ensures multiset(NonBlank(lines))[line]
         == if exists b :: b in line && b !in {9, 10, 11, 12, 13, 32} then multiset(lines)[line] else 0
  {
    if lines != [] {
      ToldExactlyWhen(lines[1..], line);
      NonBlankOfMore(lines[0], lines[1..]);
      First(lines);
      BlankExactlyWhen(lines[0]);
      if IsBlank(lines[0]) {
        PartOfOneMore(NonBlank(lines[1..]), lines[0], lines[1..]);
        assert [] + NonBlank(lines[1..]) == NonBlank(lines[1..]);
      } else {
        RestOfMore(lines[0], NonBlank(lines[1..]));
      }
    }
  }

  lemma BlankExactlyWhen(line: Bytes)
    ensures IsBlank(line) <==> forall b :: b in line ==> b in {9, 10, 11, 12, 13, 32}
  {
    forall b ensures IsSpace(b) <==> b in {9, 10, 11, 12, 13, 32} {}
    if forall b :: b in line ==> b in {9, 10, 11, 12, 13, 32} {
      forall i | 0 <= i < |line| ensures IsSpace(line[i]) { assert line[i] in line; }
    }
  }

  lemma {:induction false} NonBlankOfSum(a: seq<Bytes>, b: seq<Bytes>)
    ensures NonBlank(a + b) == NonBlank(a) + NonBlank(b)
  {
    if a == [] {
      assert a + b == b;
    } else {
      NonBlankOfSum(a[1..], b);
      NonBlankOfMore(a[0], a[1..] + b);
      NonBlankOfMore(a[0], a[1..]);
      FirstOfSum(a, b);
      First(a);
    }
  }

  lemma NonBlankOfMore(line: Bytes, lines: seq<Bytes>)
    ensures NonBlank([line] + lines) == (if IsBlank(line) then [] else [line]) + NonBlank(lines)
  {
    assert ([line] + lines)[1..] == lines;
  }

  // --------------------------------------------------------------------- a run

  datatype State = State(log: Bytes, offset: nat, watermark: Option<nat>, handled: seq<Bytes>)

  datatype Action = Append(bytes: Bytes) | Poll(saved: bool) | Restart

  /** Where a starting daemon begins: the saved watermark, else the end. */
  function StartOffset(log: Bytes, watermark: Option<nat>): nat { watermark.GetOr(|log|) }

  /** What is processed of a stretch of the log: its lines but the blank ones. */
  function Told(log: Bytes, start: nat, end: nat): seq<Bytes>
    requires start <= end <= |log|
  {
    NonBlank(Lines(log[start..end]))
  }

  /** A log shorter than the offset was cut outside: read it from its start. */
  function Rewound(s: State): State { if |s.log| < s.offset then s.(offset := 0) else s }

  function AfterPoll(s: State, saved: bool): State { AfterRead(Rewound(s), saved) }

  function AfterRead(s: State, saved: bool): State
    requires s.offset <= |s.log|
  {
    var n := Consumed(s.log[s.offset..]);
    if n == 0 then s
    else s.(offset := s.offset + n,
            handled := s.handled + Told(s.log, s.offset, s.offset + n),
            watermark := if saved then Some(s.offset + n) else s.watermark)
  }

  function Step(s: State, a: Action): State {
    match a
    case Append(bytes) => s.(log := s.log + bytes)
    case Poll(saved) => AfterPoll(s, saved)
    case Restart => s.(offset := StartOffset(s.log, s.watermark))
  }

  function After(s: State, acts: seq<Action>): State
    decreases acts
  {
    if acts == [] then s else After(Step(s, acts[0]), acts[1..])
  }

  /** Everything from `start` to the offset is handled, once and in order. */
  predicate Handled(s: State, start: nat, before: seq<Bytes>) {
    && start <= s.offset && AtLineStart(s.log, start) && AtLineStart(s.log, s.offset)
    && (s.watermark.Some? ==> s.watermark.value == s.offset)
    && s.handled == before + Told(s.log, start, s.offset)
  }

  lemma StretchesJoin(log: Bytes, start: nat, mid: nat, end: nat)
    requires start <= mid <= end && AtLineStart(log, mid) && AtLineStart(log, end)
    ensures Told(log, start, end) == Told(log, start, mid) + Told(log, mid, end)
  {
    var a, b := log[start..mid], log[mid..end];
    assert log[start..end] == a + b;
    LinesOfSum(a, b);
    NonBlankOfSum(Lines(a), Lines(b));
  }

  lemma LineStartInRest(log: Bytes, offset: nat)
    requires AtLineStart(log, offset)
    ensures offset + Consumed(log[offset..]) <= |log| && AtLineStart(log, offset + Consumed(log[offset..]))
  {
  }

  lemma TellingJoins(before: seq<Bytes>, log: Bytes, start: nat, mid: nat, end: nat)
    requires start <= mid <= end && AtLineStart(log, mid) && AtLineStart(log, end)
    ensures before + Told(log, start, end) == before + Told(log, start, mid) + Told(log, mid, end)
  {
    StretchesJoin(log, start, mid, end);
  }

  lemma PollHandles(s: State, start: nat, before: seq<Bytes>)
    requires Handled(s, start, before)
    ensures Handled(AfterPoll(s, true), start, before)
  {
    LineStartInRest(s.log, s.offset);
    PollTells(s, true);
    TellingJoins(before, s.log, start, s.offset, AfterPoll(s, true).offset);
  }

  lemma StepHandles(s: State, a: Action, start: nat, before: seq<Bytes>)
    requires Handled(s, start, before) && (a.Poll? ==> a.saved) && (a.Restart? ==> s.watermark.Some?)
    ensures Handled(Step(s, a), start, before)
  {
    match a
    case Append(bytes) => assert (s.log + bytes)[start..s.offset] == s.log[start..s.offset];
    case Poll(_) => PollHandles(s, start, before);
    case Restart =>
  }

  /** No restart comes before a watermark is saved. */
  predicate RestartsAreSaved(s: State, acts: seq<Action>)
    decreases |acts|
  {
    acts == [] || ((acts[0].Restart? ==> s.watermark.Some?) && RestartsAreSaved(Step(s, acts[0]), acts[1..]))
  }

  /** From a line start such as 0, or a saved watermark, under every
      interleaving of appends, polls and restarts: the offset stays at a line
      start, and the lines handled are exactly those of the stretch read, once
      and in order. */
  lemma {:induction false} EveryLineIsHandledOnce(s: State, acts: seq<Action>, start: nat, before: seq<Bytes>)
    requires Handled(s, start, before)
    requires forall k :: 0 <= k < |acts| ==> acts[k].Poll? ==> acts[k].saved
    requires RestartsAreSaved(s, acts)
    ensures Handled(After(s, acts), start, before)
    decreases acts
  {
    if acts != [] {
      StepHandles(s, acts[0], start, before);
      EveryLineIsHandledOnce(Step(s, acts[0]), acts[1..], start, before);
    }
  }

  /** After a poll nothing complete is left unread: only part of a line. */
  lemma PollCatchesUp(s: State, saved: bool)
    requires s.offset <= |s.log|
    ensures forall i :: AfterPoll(s, saved).offset <= i < |s.log| ==> s.log[i] != NEWLINE
  {
    var rest := s.log[s.offset..];
    forall i | AfterPoll(s, saved).offset <= i < |s.log| ensures s.log[i] != NEWLINE {
      assert rest[i - s.offset] == s.log[i];
    }
  }

  /** Exactly when a poll whose watermark was not written is made up for by a
      restart: when it consumed nothing but blank lines. Otherwise its lines
      are handled a second time. */
  lemma UnsavedPollThenRestart(s: State, start: nat, before: seq<Bytes>)
    requires Handled(s, start, before) && s.watermark.Some?
    ensures var again := After(s, [Poll(false), Restart, Poll(true)]);
            var once := After(s, [Poll(true)]);
            && again.offset == once.offset
            && again.handled == once.handled + once.handled[|s.handled|..]
            && (again.handled == once.handled <==> Told(s.log, s.offset, once.offset) == [])
  {
    UnsavedPollAgain(s);
    var told := Told(s.log, s.offset, AfterPoll(s, true).offset);
    assert (s.handled + told)[|s.handled|..] == told;
  }

  lemma UnsavedPollAgain(s: State)
    requires s.offset <= |s.log| && s.watermark == Some(s.offset)
    ensures var again, once := After(s, [Poll(false), Restart, Poll(true)]), After(s, [Poll(true)]);
            && once == AfterPoll(s, true) && again.offset == once.offset
            && s.offset <= once.offset <= |s.log|
            && once.handled == s.handled + Told(s.log, s.offset, once.offset)
            && again.handled == once.handled + Told(s.log, s.offset, once.offset)
  {
    var two := Step(AfterPoll(s, false), Restart);
    ThreeSteps(s, Poll(false), Restart, Poll(true));
    OneStep(s, Poll(true));
    PollTells(s, true);
    PollTells(s, false);
    PollTells(two, true);
  }

  lemma OneStep(s: State, a: Action)
    ensures After(s, [a]) == Step(s, a)
  {
    assert [a][1..] == [];
  }

  lemma ThreeSteps(s: State, a: Action, b: Action, c: Action)
    ensures After(s, [a, b, c]) == Step(Step(Step(s, a), b), c)
  {
    assert [a, b, c][1..] == [b, c];
    assert [b, c][1..] == [c];
    OneStep(Step(Step(s, a), b), c);
  }

  lemma PollTells(s: State, saved: bool)
    requires s.offset <= |s.log|
    ensures var next := AfterPoll(s, saved);
            && next.log == s.log && next.offset == s.offset + Consumed(s.log[s.offset..]) && next.offset <= |s.log|
            && next.handled == s.handled + Told(s.log, s.offset, next.offset)
            && next.watermark == if saved && next.offset > s.offset then Some(next.offset) else s.watermark
  {
    assert s.log[s.offset..s.offset] == [];
  }

  /** With no watermark the tail starts at the end: at a line start exactly
      when the log then ends with a whole line. */
  lemma StartAtTheEnd(log: Bytes)
    ensures AtLineStart(log, StartOffset(log, None)) <==> log == [] || log[|log| - 1] == NEWLINE
  {
  }

  // ------------------------------------------------------ runs that lose saves

  /** Where a restart would begin. */
  function Saved(s: State, start: nat): nat { s.watermark.GetOr(start) }

  /** `kept` was handled up to the saved offset, everything at least once and
      `again` lines once more; the rest since then once. */
  predicate Retold(s: State, start: nat, before: seq<Bytes>, kept: seq<Bytes>, again: nat) {
    var w := Saved(s, start);
    && start <= w <= s.offset && AtLineStart(s.log, start) && AtLineStart(s.log, w) && AtLineStart(s.log, s.offset)
    && PartOf(before + Told(s.log, start, w), kept) && |kept| == |before| + |Told(s.log, start, w)| + again
    && s.handled == kept + Told(s.log, w, s.offset)
  }

  /** The lines a step will have handled twice. */
  function ToldAgain(s: State, a: Action): nat {
    if a.Restart? && s.watermark.Some? && s.watermark.value <= s.offset <= |s.log|
    then |Told(s.log, s.watermark.value, s.offset)| else 0
  }

  function AllToldAgain(s: State, acts: seq<Action>): nat
    decreases |acts|
  {
    if acts == [] then 0 else ToldAgain(s, acts[0]) + AllToldAgain(Step(s, acts[0]), acts[1..])
  }

  lemma PollRetells(s: State, saved: bool, start: nat, before: seq<Bytes>, kept: seq<Bytes>, again: nat) returns (now: seq<Bytes>)
    requires Retold(s, start, before, kept, again)
    ensures Retold(AfterPoll(s, saved), start, before, now, again)
  {
    var w, next := Saved(s, start), AfterPoll(s, saved);
    LineStartInRest(s.log, s.offset);
    PollTells(s, saved);
    TellingJoins(kept, s.log, w, s.offset, next.offset);
    now := kept;
    if saved && next.offset > s.offset {
      now := next.handled;
      TellingJoins(before, s.log, start, w, next.offset);
      PartOfMore(before + Told(s.log, start, w), kept, Told(s.log, w, next.offset));
      NothingTold(s.log, next.offset);
    }
  }

  lemma NothingTold(log: Bytes, at: nat)
    requires at <= |log|
    ensures Told(log, at, at) == []
  {
    assert log[at..at] == [];
  }

  lemma StepRetells(s: State, a: Action, start: nat, before: seq<Bytes>, kept: seq<Bytes>, again: nat) returns (now: seq<Bytes>)
    requires Retold(s, start, before, kept, again) && (a.Restart? ==> s.watermark.Some?)
    ensures Retold(Step(s, a), start, before, now, again + ToldAgain(s, a))
  {
    var w := Saved(s, start);
    match a
    case Append(bytes) =>
      now := kept;
      assert (s.log + bytes)[start..w] == s.log[start..w] && (s.log + bytes)[w..s.offset] == s.log[w..s.offset];
    case Poll(saved) => now := PollRetells(s, saved, start, before, kept, again);
    case Restart =>
      now := s.handled;
      PartOfMore(before + Told(s.log, start, w), kept, Told(s.log, w, s.offset));
      NothingTold(s.log, w);
  }

  /** Whatever saves are lost, in every run no line is left out and the order is
      kept: the lines of the stretch read are among those handled, and what is
      handled besides is what each restart goes back over. */
  lemma {:induction false} NoLineIsLeftOut(s: State, acts: seq<Action>, start: nat, before: seq<Bytes>, kept: seq<Bytes>, again: nat)
    requires Retold(s, start, before, kept, again) && RestartsAreSaved(s, acts)
    ensures var after := After(s, acts);
            && start <= after.offset && AtLineStart(after.log, after.offset)
            && PartOf(before + Told(after.log, start, after.offset), after.handled)
            && |after.handled| == |before| + |Told(after.log, start, after.offset)| + again + AllToldAgain(s, acts)
    decreases |acts|
  {
    if acts == [] {
      var w := Saved(s, start);
      PartOfMore(before + Told(s.log, start, w), kept, Told(s.log, w, s.offset));
      TellingJoins(before, s.log, start, w, s.offset);
    } else {
      var now := StepRetells(s, acts[0], start, before, kept, again);
      NoLineIsLeftOut(Step(s, acts[0]), acts[1..], start, before, now, again + ToldAgain(s, acts[0]));
    }
  }

  /** Exactly once, in every run, exactly when every restart goes back over
      nothing but blank lines. */
  lemma HandledOnceExactlyWhen(s: State, acts: seq<Action>, start: nat, before: seq<Bytes>)
    requires Handled(s, start, before) && RestartsAreSaved(s, acts)
    ensures var after := After(s, acts);
            && start <= after.offset <= |after.log|
            && (after.handled == before + Told(after.log, start, after.offset) <==> AllToldAgain(s, acts) == 0)
  {
    var w := Saved(s, start);
    var kept := before + Told(s.log, start, w);
    PartOfItself(kept);
    NothingTold(s.log, start);
    NothingTold(s.log, s.offset);
    NoLineIsLeftOut(s, acts, start, before, kept, 0);
    var after := After(s, acts);
    PartAsLong(before + Told(after.log, start, after.offset), after.handled);
  }

  lemma RewindThenPoll(s: State, saved: bool)
    ensures AfterPoll(s, saved) == AfterPoll(Rewound(s), saved)
  {
  }

  predicate ReadsFrom(s: State, from: nat, after: State, saved: bool) {
    && after.log == s.log && from <= after.offset <= |s.log|
    && (forall k :: after.offset <= k < |s.log| ==> s.log[k] != 10)
    && (from < after.offset ==> s.log[after.offset - 1] == 10)
    && after.handled == s.handled + Told(s.log, from, after.offset)
    && after.watermark == if saved && from < after.offset then Some(after.offset) else s.watermark
  }

  /** A log cut to less than what was read is read again from its start, up to
      its last newline; any other is read on from where the last look ended. */
  lemma APollReadsFrom(s: State, saved: bool)
    ensures ReadsFrom(s, if |s.log| < s.offset then 0 else s.offset, AfterPoll(s, saved), saved)
  {
    if |s.log| < s.offset { AReadReadsOn(s.(offset := 0), saved); } else { AReadReadsOn(s, saved); }
  }

  lemma AReadReadsOn(s: State, saved: bool)
    requires s.offset <= |s.log|
    ensures ReadsFrom(s, s.offset, AfterRead(s, saved), saved)
  {
    var rest, n := s.log[s.offset..], Consumed(s.log[s.offset..]);
    ConsumedIsUpToTheLast(rest);
    forall k | s.offset + n <= k < |s.log| ensures s.log[k] != NEWLINE { assert rest[k - s.offset] == s.log[k]; }
    if n == 0 { NothingIsTold(s.log, s.offset); } else { assert rest[n - 1] == s.log[s.offset + n - 1]; }
  }

  lemma NothingIsTold(log: Bytes, at: nat)
    requires at <= |log|
    ensures Told(log, at, at) == []
  {
    assert log[at..at] == [];
  }

  lemma ConsumedIsUpToTheLast(chunk: Bytes)
    ensures Consumed(chunk) <= |chunk| && (Consumed(chunk) > 0 ==> chunk[Consumed(chunk) - 1] == NEWLINE)
    ensures forall k :: Consumed(chunk) <= k < |chunk| ==> chunk[k] != NEWLINE
  {
  }

  // -------------------------------------------------------------------- class

  class Tail {
    var offset: nat
    var watermark: Option<nat>
    var handled: seq<Bytes>

    constructor (log: Bytes, watermark: Option<nat>)
      ensures offset == StartOffset(log, watermark) && this.watermark == watermark && handled == []
    {
      offset := if watermark.Some? then watermark.value else |log|;
      this.watermark := watermark;
      handled := [];
    }

    /** One look at the log: the whole lines past the offset, processed. */
    method Look(log: Bytes, saved: bool)
      modifies this
      ensures State(log, offset, watermark, handled) == AfterPoll(State(log, old(offset), old(watermark), old(handled)), saved)
    {
      ghost var s := State(log, offset, watermark, handled);
      if |log| < offset {
        offset := 0;
      }
      RewindThenPoll(s, saved);
      PollTells(State(log, offset, watermark, handled), saved);
      if |log| > offset { ReadOn(log, saved); }
    }

    method ReadOn(log: Bytes, saved: bool)
      requires offset <= |log|
      modifies this
      ensures offset == old(offset) + Consumed(log[old(offset)..]) && offset <= |log|
      ensures handled == old(handled) + Told(log, old(offset), offset)
      ensures watermark == if saved && offset > old(offset) then Some(offset) else old(watermark)
    {
      assert log[offset..offset] == [];
      var chunk := log[offset..];
      var lastNewline := RFind(chunk);
      if lastNewline != -1 {
        var consumed := lastNewline + 1;
        assert chunk[..consumed] == log[offset..offset + consumed];
        Process(chunk[..consumed]);
        offset := offset + consumed;
        if saved { watermark := Some(offset); }
      }
    }

    method Process(chunk: Bytes)
      modifies this`handled
      ensures handled == old(handled) + NonBlank(Lines(chunk))
    {
      var lines := Lines(chunk);
      var i := 0;
      while i < |lines|
        invariant i <= |lines|
        invariant handled == old(handled) + NonBlank(lines[..i])
      {
        NonBlankOfSum(lines[..i], [lines[i]]);
        assert lines[..i + 1] == lines[..i] + [lines[i]];
        assert [lines[i]][1..] == [];
        if !IsBlank(lines[i]) { handled := handled + [lines[i]]; }
        i := i + 1;
      }
      assert lines[..i] == lines;
    }
  }

  method RFind(chunk: Bytes) returns (at: int)
    ensures at == Consumed(chunk) - 1
    ensures -1 <= at < |chunk|
    ensures at >= 0 ==> chunk[at] == NEWLINE
    ensures forall i :: at < i < |chunk| ==> chunk[i] != NEWLINE
  {
    at := |chunk| - 1;
    while at >= 0 && chunk[at] != NEWLINE
      invariant -1 <= at < |chunk|
      invariant forall i :: at < i < |chunk| ==> chunk[i] != NEWLINE
    {
      at := at - 1;
    }
  }
}
