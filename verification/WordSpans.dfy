/** When each word of a clip is heard: its letters' share of the time that the
    stated silences leave, the pauses and silences between the words. Exact
    arithmetic; the rounding to milliseconds is any function. */
module WordSpans {
  import opened Options
  import opened Reals
  import opened Seqs
  import opened Text
  import opened WordTimings

  datatype Weight = Weight(speech: real, pause: real)

  datatype Span = Span(word: string, start: real, end: real)

  const SENTENCE_PAUSE := 6.0
  const CLAUSE_PAUSE := 3.0
  const ROOM := 0.9

  // -------------------------------------------------------------------- weights

  /** The length of the word without closing quotes and brackets. */
  function OpenLength(w: string): (n: nat)
    ensures n <= |w|
  {
    if w != "" && w[|w| - 1] in "\"'\U{201d}\U{2019})]" then OpenLength(w[..|w| - 1]) else |w|
  }

  predicate EndsIn(w: string, marks: string) { OpenLength(w) > 0 && w[OpenLength(w) - 1] in marks }

  function WordCharacters(w: string, isWord: char -> bool): (n: nat) {
    if w == "" then 0 else (if isWord(w[0]) then 1 else 0) + WordCharacters(w[1..], isWord)
  }

  function WeightOf(w: string, isWord: char -> bool, last: bool): (r: Weight)
    ensures r.speech >= 1.0 && r.pause >= 0.0 && (last ==> r.pause == 0.0)
  {
    var n := WordCharacters(w, isWord);
    var speech := if n > 0 then n else if |w| > 0 then |w| else 1;
    Weight(speech as real,
           if last then 0.0
           else if EndsIn(w, ".!?\U{2026}:;") then SENTENCE_PAUSE
           else if EndsIn(w, ",\U{2014}\U{2013}") then CLAUSE_PAUSE
           else 0.0)
  }

  function Weights(words: seq<string>, isWord: char -> bool): (r: seq<Weight>)
    ensures |r| == |words| && Heavy(r)
    ensures r != [] ==> r[|r| - 1].pause == 0.0
  {
    seq(|words|, i requires 0 <= i < |words| => WeightOf(words[i], isWord, i == |words| - 1))
  }

  /** What the first `n` words weigh, pauses included. */
  function Weighed(ws: seq<Weight>, n: nat): real
    requires n <= |ws|
  {
    if n == 0 then 0.0 else Weighed(ws, n - 1) + (ws[n - 1].speech + ws[n - 1].pause)
  }

  /** The stated silence before word `n`, before the first one included. */
  function Quiet(silences: map<int, real>, n: nat): real {
    if n == 0 then At(silences, -1) else Quiet(silences, n - 1) + At(silences, n - 1)
  }

  // ------------------------------------------------------------------ the spans

  /** Where word `i` starts. */
  function StartAt(ws: seq<Weight>, silences: map<int, real>, scale: real, i: nat): real
    requires i <= |ws|
  {
    Weighed(ws, i) * scale + Quiet(silences, i)
  }

  function SpanAt(words: seq<string>, ws: seq<Weight>, silences: map<int, real>, scale: real, i: nat): Span
    requires i < |words| == |ws|
  {
    var start := StartAt(ws, silences, scale, i);
    Span(words[i], start, start + ws[i].speech * scale)
  }

  predicate Before(i: int, n: int) { i < n }

  /** The silences that count: not after the last word, and none at all when
      they leave less than a tenth of the clip to speak in. */
  function Trusted(h: Heard, duration: real): map<int, real>
    requires h.words != []
  {
    var inside := Inside(h.silences, |h.words| - 1);
    if Quiet(inside, |h.words| - 1) >= duration * ROOM then map[] else inside
  }

  function Inside(silences: map<int, real>, n: int): map<int, real> {
    map i | i in silences && Before(i, n) :: silences[i]
  }

  function Scale(h: Heard, duration: real, isWord: char -> bool): real
    requires h.words != []
  {
    ScaleOf(Weights(h.words, isWord), Trusted(h, duration), duration)
  }

  /** The time the silences leave, per unit of weight. */
  function ScaleOf(ws: seq<Weight>, silences: map<int, real>, duration: real): real
    requires ws != [] && Heavy(ws)
  {
    WeighedIsPositive(ws, |ws|);
    Quotient(duration - Quiet(silences, |ws| - 1), Weighed(ws, |ws|))
  }

  function Spans(h: Heard, duration: real, isWord: char -> bool): (r: seq<Span>)
    requires h.words != []
    ensures |r| == |h.words|
  {
    SpansWith(h.words, Weights(h.words, isWord), Trusted(h, duration), Scale(h, duration, isWord))
  }

  function SpansWith(words: seq<string>, ws: seq<Weight>, silences: map<int, real>, scale: real): (r: seq<Span>)
    requires |words| == |ws|
    ensures |r| == |words|
  {
    seq(|words|, i requires 0 <= i < |words| => SpanAt(words, ws, silences, scale, i))
  }

  function Rounded(spans: seq<Span>, round: real -> real): (r: seq<Span>)
    ensures |r| == |spans|
  {
    seq(|spans|, i requires 0 <= i < |spans| => Span(spans[i].word, round(spans[i].start), round(spans[i].end)))
  }

  // ------------------------------------------------------------- lemmas on sums

  predicate Heavy(ws: seq<Weight>) { forall i :: 0 <= i < |ws| ==> ws[i].speech >= 1.0 && ws[i].pause >= 0.0 }

  lemma {:induction false} WeighedIsPositive(ws: seq<Weight>, n: nat)
    requires n <= |ws| && Heavy(ws)
    ensures Weighed(ws, n) >= n as real
  {
    if n > 0 { WeighedIsPositive(ws, n - 1); }
  }

  lemma {:induction false} QuietWithout(silences: map<int, real>, key: int, n: nat)
    requires key in silences && -1 <= key
    ensures Quiet(silences, n) == Quiet(silences - {key}, n) + if key < n then silences[key] else 0.0
  {
    if n > 0 { QuietWithout(silences, key, n - 1); }
  }

  lemma {:induction false} QuietOfNone(n: nat)
    ensures Quiet(map[], n) == 0.0
  {
    if n > 0 { QuietOfNone(n - 1); }
  }

  /** The sum of the values, in any order. */
  method Sum(silences: map<int, real>, ghost n: nat) returns (total: real)
    requires forall i :: i in silences ==> -1 <= i < n
    ensures total == Quiet(silences, n)
  {
    total := 0.0;
    var rest := silences;
    while rest.Keys != {}
      invariant rest.Keys <= silences.Keys && forall i :: i in rest ==> -1 <= i < n
      invariant total + Quiet(rest, n) == Quiet(silences, n)
      decreases |rest.Keys|
    {
      var i :| i in rest;
      QuietWithout(rest, i, n);
      total := total + rest[i];
      assert (rest - {i}).Keys == rest.Keys - {i};
      rest := rest - {i};
    }
    assert rest == map[];
    QuietOfNone(n);
  }

  // ------------------------------------------------------------------ the loops

  method Weigh(words: seq<string>, isWord: char -> bool) returns (ws: seq<Weight>)
    ensures ws == Weights(words, isWord)
  {
    ws := [];
    var i := 0;
    while i < |words|
      invariant i <= |words| && |ws| == i
      invariant forall k :: 0 <= k < i ==> ws[k] == WeightOf(words[k], isWord, false)
    {
      ws := ws + [WeightOf(words[i], isWord, false)];
      i := i + 1;
    }
    if |ws| > 0 {
      ws := ws[|ws| - 1 := Weight(ws[|ws| - 1].speech, 0.0)];
    }
  }

  lemma NextStart(ws: seq<Weight>, silences: map<int, real>, scale: real, i: nat)
    requires i < |ws|
    ensures StartAt(ws, silences, scale, i + 1)
         == StartAt(ws, silences, scale, i) + ws[i].speech * scale + ws[i].pause * scale + At(silences, i)
  {
    Distributed(Weighed(ws, i), ws[i].speech + ws[i].pause, scale);
    Distributed(ws[i].speech, ws[i].pause, scale);
  }

  method Lay(words: seq<string>, ws: seq<Weight>, silences: map<int, real>, scale: real, round: real -> real)
    returns (out: seq<Span>)
    requires |words| == |ws|
    ensures out == Rounded(SpansWith(words, ws, silences, scale), round)
  {
    out := [];
    var t := At(silences, -1);
    var i := 0;
    while i < |words|
      invariant i <= |words| && |out| == i
      invariant t == StartAt(ws, silences, scale, i)
      invariant forall k :: 0 <= k < i ==>
        var s := SpanAt(words, ws, silences, scale, k);
        out[k] == Span(words[k], round(s.start), round(s.end))
    {
      var end := t + ws[i].speech * scale;
      out := out + [Span(words[i], round(t), round(end))];
      NextStart(ws, silences, scale, i);
      t := end + ws[i].pause * scale + At(silences, i);
      i := i + 1;
    }
  }

  /** The end set on the last span is the one the running sum comes to. */
  method EstimateWordTimings(h: Heard, duration: real, isWord: char -> bool, round: real -> real)
    returns (out: seq<Span>)
    requires Placed(h)
    ensures out == if h.words == [] || duration <= 0.0 then [] else Rounded(Spans(h, duration, isWord), round)
  {
    if h.words == [] || duration <= 0.0 { return []; }
    var silences, fixed := Room(h, duration);
    var ws, scale := Share(h, duration, fixed, isWord);
    out := Lay(h.words, ws, silences, scale, round);
    TheLastEndsTheClip(h, duration, isWord);
    out := LastEnd(out, Spans(h, duration, isWord), duration, round);
  }

  /** The words' weights, and the seconds that one unit of weight gets. */
  method Share(h: Heard, duration: real, fixed: real, isWord: char -> bool) returns (ws: seq<Weight>, scale: real)
    requires h.words != [] && fixed == Quiet(Trusted(h, duration), |h.words| - 1)
    ensures ws == Weights(h.words, isWord) && scale == Scale(h, duration, isWord)
  {
    ws := Weigh(h.words, isWord);
    WeighedIsPositive(ws, |ws|);
    scale := Quotient(duration - fixed, Weighed(ws, |ws|));
  }

  /** The silences to keep, and what they add up to. */
  method Room(h: Heard, duration: real) returns (silences: map<int, real>, fixed: real)
    requires Placed(h) && h.words != []
    ensures silences == Trusted(h, duration) && fixed == Quiet(silences, |h.words| - 1)
  {
    silences := Inside(h.silences, |h.words| - 1);
    fixed := Sum(silences, |h.words| - 1);
    if fixed >= duration * ROOM {
      silences, fixed := map[], 0.0;
      QuietOfNone(|h.words| - 1);
    }
  }

  method LastEnd(spans: seq<Span>, ghost exact: seq<Span>, duration: real, round: real -> real) returns (out: seq<Span>)
    requires exact != [] && exact[|exact| - 1].end == duration && spans == Rounded(exact, round)
    ensures out == Rounded(exact, round)
  {
    var last := spans[|spans| - 1];
    out := spans[|spans| - 1 := Span(last.word, last.start, round(duration))];
  }

  method TimingsOf(text: string, duration: real, number: string -> Option<real>, isWord: char -> bool, round: real -> real)
    returns (out: seq<Span>)
    ensures out == [] <==> duration <= 0.0 || WordsOf(StripSayMarkup(text)) == []
    ensures out != [] ==> Names(out) == WordsOf(StripSayMarkup(text))
  {
    SilencesArePlaced(Heard([], map[]), text, 0, number);
    TimedWordsAreTheHeardWords(text, number);
    var h := WordsAndSilences(text, number);
    out := TimingsOfWords(h, duration, isWord, round);
  }

  function Names(spans: seq<Span>): seq<string> {
    seq(|spans|, i requires 0 <= i < |spans| => spans[i].word)
  }

  method TimingsOfWords(h: Heard, duration: real, isWord: char -> bool, round: real -> real) returns (out: seq<Span>)
    requires Placed(h)
    ensures out == [] <==> h.words == [] || duration <= 0.0
    ensures out != [] ==> Names(out) == h.words
  {
    out := EstimateWordTimings(h, duration, isWord, round);
  }

  // ------------------------------------------------------------------- theorems

  /** The silences leave room: every word gets time. */
  lemma ScaleIsPositive(h: Heard, duration: real, isWord: char -> bool)
    requires h.words != [] && duration > 0.0
    ensures Scale(h, duration, isWord) > 0.0
  {
    QuietOfNone(|h.words| - 1);
    WeighedIsPositive(Weights(h.words, isWord), |h.words|);
  }

  lemma RunningSumEndsAt(ws: seq<Weight>, silences: map<int, real>, duration: real, scale: real)
    requires ws != [] && ws[|ws| - 1].pause == 0.0
    requires scale * Weighed(ws, |ws|) == duration - Quiet(silences, |ws| - 1)
    ensures StartAt(ws, silences, scale, |ws| - 1) + ws[|ws| - 1].speech * scale == duration
  {
    var n := |ws|;
    Distributed(Weighed(ws, n - 1), ws[n - 1].speech, scale);
  }

  lemma TheLastEndsTheClip(h: Heard, duration: real, isWord: char -> bool)
    requires h.words != []
    ensures Spans(h, duration, isWord)[|h.words| - 1].end == duration
  {
    var ws, silences := Weights(h.words, isWord), Trusted(h, duration);
    WeighedIsPositive(ws, |ws|);
    LastSpan(h.words, ws, silences, duration, ScaleOf(ws, silences, duration));
  }

  lemma LastSpan(words: seq<string>, ws: seq<Weight>, silences: map<int, real>, duration: real, scale: real)
    requires |words| == |ws| > 0 && ws[|ws| - 1].pause == 0.0
    requires scale * Weighed(ws, |ws|) == duration - Quiet(silences, |ws| - 1)
    ensures SpansWith(words, ws, silences, scale)[|words| - 1].end == duration
  {
    RunningSumEndsAt(ws, silences, duration, scale);
  }

  /** The words in order, each with time of its own, no two at once, and after
      each at least the silence stated there. */
  lemma SpansAreInOrder(h: Heard, duration: real, isWord: char -> bool, i: nat)
    requires h.words != [] && duration > 0.0 && Placed(h) && i < |h.words|
    ensures var r, silences := Spans(h, duration, isWord), Trusted(h, duration);
            && r[i].word == h.words[i] && r[i].start < r[i].end
            && (i == 0 ==> r[i].start == At(silences, -1))
            && (i + 1 < |r| ==> r[i].end + At(silences, i) <= r[i + 1].start && At(silences, i) >= 0.0)
  {
    ScaleIsPositive(h, duration, isWord);
    SpansWithAreInOrder(h.words, Weights(h.words, isWord), Trusted(h, duration), Scale(h, duration, isWord), i);
  }

  lemma SpansWithAreInOrder(words: seq<string>, ws: seq<Weight>, silences: map<int, real>, scale: real, i: nat)
    requires |words| == |ws| && i < |words| && scale > 0.0
    requires ws[i].speech >= 1.0 && ws[i].pause >= 0.0 && At(silences, i) >= 0.0
    ensures var r := SpansWith(words, ws, silences, scale);
            && r[i].word == words[i] && r[i].start < r[i].end
            && (i == 0 ==> r[i].start == At(silences, -1))
            && (i + 1 < |r| ==> r[i].end + At(silences, i) <= r[i + 1].start)
  {
    Positive(ws[i].speech, scale);
    NotNegative(ws[i].pause, scale);
    if i + 1 < |ws| { NextStart(ws, silences, scale, i); }
  }

  // ------------------------------------------------ on the words' own characters

  /** How many characters of the word are word characters; all, when none is. */
  ghost function LettersIn(w: string, isWord: char -> bool): nat {
    var letters := set k: nat | k < |w| && isWord(w[k]);
    if letters != {} then |letters| else |w|
  }

  /** One of these marks ends the word, but for closing quotes and brackets. */
  predicate ClosesOn(w: string, marks: string) {
    exists n: nat :: n <= |w| && ClosesAt(w, marks, n)
  }

  predicate ClosesAt(w: string, marks: string, n: nat)
    requires n <= |w|
  {
    0 < n && w[n - 1] in marks && forall k :: n <= k < |w| ==> w[k] in "\"'\U{201d}\U{2019})]"
  }

  /** The letters' time of the pause after a word: six after a sentence, three
      after a clause. */
  function PauseAfter(w: string): real {
    if ClosesOn(w, ".!?\U{2026}:;") then 6.0 else if ClosesOn(w, ",\U{2014}\U{2013}") then 3.0 else 0.0
  }

  lemma {:induction false} OneLetterMore(w: string, c: char, isWord: char -> bool)
    ensures WordCharacters(w + [c], isWord) == WordCharacters(w, isWord) + if isWord(c) then 1 else 0
  {
    if w == "" {
      assert w + [c] == [c];
    } else {
      OneLetterMore(w[1..], c, isWord);
      FirstOfSum(w, [c]);
    }
  }

  lemma {:induction false} CountedLetters(w: string, isWord: char -> bool, n: nat)
    requires n <= |w|
    ensures WordCharacters(w[..n], isWord) == |set k: nat | k < n && isWord(w[k])|
  {
    var letters := set k: nat | k < n && isWord(w[k]);
    if n == 0 {
      assert letters == {};
    } else {
      CountedLetters(w, isWord, n - 1);
      OneLetterMore(w[..n - 1], w[n - 1], isWord);
      assert w[..n] == w[..n - 1] + [w[n - 1]];
      assert letters == (set k: nat | k < n - 1 && isWord(w[k])) + if isWord(w[n - 1]) then {n - 1} else {};
    }
  }

  lemma {:induction false} OpenLengthIsBeforeTheClosers(w: string)
    ensures forall k :: OpenLength(w) <= k < |w| ==> w[k] in "\"'\U{201d}\U{2019})]"
    ensures OpenLength(w) > 0 ==> w[OpenLength(w) - 1] !in "\"'\U{201d}\U{2019})]"
  {
    if w != "" && w[|w| - 1] in "\"'\U{201d}\U{2019})]" { OpenLengthIsBeforeTheClosers(w[..|w| - 1]); }
  }

  /** No mark is a closing quote or bracket. */
  lemma EndsOnItsMark(w: string, marks: string)
    requires forall c :: c in marks ==> c !in "\"'\U{201d}\U{2019})]"
    ensures EndsIn(w, marks) <==> ClosesOn(w, marks)
  {
    OpenLengthIsBeforeTheClosers(w);
    if EndsIn(w, marks) { assert ClosesAt(w, marks, OpenLength(w)); }
  }

  lemma WeightsByCharacters(words: seq<string>, isWord: char -> bool, i: nat)
    requires i < |words| && words[i] != ""
    ensures Weights(words, isWord)[i]
         == Weight(LettersIn(words[i], isWord) as real, if i == |words| - 1 then 0.0 else PauseAfter(words[i]))
  {
    var letters := set k: nat | k < |words[i]| && isWord(words[i][k]);
    CountedLetters(words[i], isWord, |words[i]|);
    assert words[i][..|words[i]|] == words[i];
    EndsOnItsMark(words[i], ".!?\U{2026}:;");
    EndsOnItsMark(words[i], ",\U{2014}\U{2013}");
    assert letters != {} <==> |letters| > 0;
  }

  /** Word `i` lasts `n` letters where word `j` lasts `m`, and the next word
      comes after its silence and a pause of so many letters. */
  predicate ByTheLetter(r: seq<Span>, silences: map<int, real>, i: nat, j: nat, n: real, m: real, pause: real)
    requires i < |r| && j < |r|
  {
    && (r[i].end - r[i].start) * m == (r[j].end - r[j].start) * n
    && (i + 1 < |r| ==> (r[i + 1].start - r[i].end - At(silences, i)) * m == (r[j].end - r[j].start) * pause)
  }

  /** Each word lasts as long as any other by the letter, and the next one comes
      after the silence stated there and so many letters' time as its mark asks. */
  lemma SpansAreByTheLetter(h: Heard, duration: real, isWord: char -> bool, i: nat, j: nat)
    requires h.words != [] && duration > 0.0 && i < |h.words| && j < |h.words|
    requires forall w :: w in h.words ==> w != ""
    ensures LettersIn(h.words[i], isWord) > 0 && LettersIn(h.words[j], isWord) > 0
    ensures ByTheLetter(Spans(h, duration, isWord), Trusted(h, duration), i, j,
                        LettersIn(h.words[i], isWord) as real, LettersIn(h.words[j], isWord) as real, PauseAfter(h.words[i]))
  {
    assert h.words[i] in h.words && h.words[j] in h.words;
    WeightsByCharacters(h.words, isWord, i);
    WeightsByCharacters(h.words, isWord, j);
    LettersArePositive(h.words[i], isWord);
    LettersArePositive(h.words[j], isWord);
    SpansByWeight(h.words, Weights(h.words, isWord), Trusted(h, duration), Scale(h, duration, isWord), i, j);
  }

  lemma LettersArePositive(w: string, isWord: char -> bool)
    requires w != ""
    ensures LettersIn(w, isWord) > 0
  {
  }

  lemma SpansByWeight(words: seq<string>, ws: seq<Weight>, silences: map<int, real>, scale: real, i: nat, j: nat)
    requires |words| == |ws| && i < |words| && j < |words|
    ensures ByTheLetter(SpansWith(words, ws, silences, scale), silences, i, j, ws[i].speech, ws[j].speech, ws[i].pause)
  {
    Exchanged(ws[i].speech, scale, ws[j].speech);
    Exchanged(ws[i].pause, scale, ws[j].speech);
    if i + 1 < |ws| { NextStart(ws, silences, scale, i); }
  }

  /** The stated silences count, but the one at the end, unless they leave no
      more than a tenth of the clip; then none does. */
  lemma StatedSilencesCount(h: Heard, duration: real, i: int)
    requires h.words != []
    ensures var room := Stated(h.silences, |h.words| - 1) * 10.0 < duration * 9.0;
            At(Trusted(h, duration), i) == if room && i in h.silences && i < |h.words| - 1 then h.silences[i] else 0.0
  {
    StatedIsQuiet(h.silences, |h.words| - 1, |h.words| - 1);
  }

  /** The sum of the silences stated before word `n`. */
  function Stated(silences: map<int, real>, n: nat): real
    decreases n
  {
    (if n - 1 in silences then silences[n - 1] else 0.0) + if n == 0 then 0.0 else Stated(silences, n - 1)
  }

  lemma {:induction false} StatedIsQuiet(silences: map<int, real>, n: nat, bound: int)
    requires n <= bound
    ensures Quiet(Inside(silences, bound), n) == Stated(silences, n)
  {
    if n > 0 { StatedIsQuiet(silences, n - 1, bound); }
  }

  /** Any rounding that keeps order keeps the spans in order, in the clip. */
  lemma RoundedSpansAreInOrder(h: Heard, duration: real, isWord: char -> bool, round: real -> real, i: nat)
    requires h.words != [] && duration > 0.0 && Placed(h) && i < |h.words|
    requires forall x, y :: x <= y ==> round(x) <= round(y)
    ensures var r := Rounded(Spans(h, duration, isWord), round);
            && r[i].start <= r[i].end && (i + 1 < |r| ==> r[i].end <= r[i + 1].start)
            && (i + 1 == |r| ==> r[i].end == round(duration))
  {
    SpansAreInOrder(h, duration, isWord, i);
    TheLastEndsTheClip(h, duration, isWord);
  }
}
