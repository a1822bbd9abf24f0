/** The next-finer split of a span of text: sentences, else clauses, else the
    two halves of its words, else the span itself. */
module Splitter {
  import opened Options
  import opened Text
  import opened Seqs

  datatype Level = Sentences | Clauses

  predicate IsClauseMark(c: char) { c in ",;:\U{2014}\U{2013}" }

  /** The separator of the level that starts at `i`, by its end. */
  function SeparatorEnd(level: Level, s: string, i: nat): (r: Option<nat>)
    requires i <= |s|
    ensures r.Some? ==> i < r.value <= |s|
  {
    match level
    case Sentences =>
      if 0 < i < |s| && s[i - 1] in ".!?" && IsSpace(s[i]) then Some(SpacesEnd(s, i + 1)) else None
    case Clauses =>
      var mark := SpacesEnd(s, i);
      if mark < |s| && IsClauseMark(s[mark]) then Some(SpacesEnd(s, mark + 1)) else None
  }

  /** The pieces between the separators from `i` on, the first from `from`. */
  function Pieces(level: Level, s: string, from: nat, i: nat): (r: seq<string>)
    requires from <= i <= |s|
    ensures r != []
    decreases |s| - i
  {
    if i == |s| then [s[from..]]
    else
      var e := SeparatorEnd(level, s, i);
      if e.Some? then [s[from..i]] + Pieces(level, s, e.value, e.value) else Pieces(level, s, from, i + 1)
  }

  /** The pieces trimmed, without those that then are empty. */
  function Tidy(pieces: seq<string>): (r: seq<string>)
    ensures |r| <= |pieces|
  {
    if pieces == [] then []
    else (if Trimmed(pieces[0]) == "" then [] else [Trimmed(pieces[0])]) + Tidy(pieces[1..])
  }

  function Spaced(words: seq<string>): string {
    if words == [] then "" else if |words| == 1 then words[0] else words[0] + " " + Spaced(words[1..])
  }

  function Halves(words: seq<string>): (r: seq<string>)
    ensures |r| == 2
  {
    [Spaced(words[..|words| / 2]), Spaced(words[|words| / 2..])]
  }

  function Split(text: string): (r: seq<string>)
    ensures r != []
    ensures |r| == 1 ==> r == [Trimmed(text)] && |WordsOf(Trimmed(text))| <= 1
  {
    var t := Trimmed(text);
    var sentences, clauses, words := Tidy(Pieces(Sentences, t, 0, 0)), Tidy(Pieces(Clauses, t, 0, 0)), WordsOf(t);
    if |sentences| > 1 then sentences
    else if |clauses| > 1 then clauses
    else if |words| > 1 then Halves(words)
    else [t]
  }

  // ------------------------------------------------------------------ what is kept

  /** The text without white space and clause marks. */
  function Letters(s: string): string {
    if s == "" then "" else (if IsSpace(s[0]) || IsClauseMark(s[0]) then "" else [s[0]]) + Letters(s[1..])
  }

  function Concat(parts: seq<string>): string {
    if parts == [] then "" else parts[0] + Concat(parts[1..])
  }

  lemma {:induction false} LettersOfSum(a: string, b: string)
    ensures Letters(a + b) == Letters(a) + Letters(b)
  {
    if a == "" {
      assert a + b == b;
    } else {
      LettersOfSum(a[1..], b);
      FirstOfSum(a, b);
    }
  }

  lemma {:induction false} ConcatOfSum(a: seq<string>, b: seq<string>)
    ensures Concat(a + b) == Concat(a) + Concat(b)
  {
    if a == [] {
      assert a + b == b;
    } else {
      ConcatOfSum(a[1..], b);
      FirstOfSum(a, b);
    }
  }

  lemma {:induction false} NoLettersIn(s: string)
    requires forall k :: 0 <= k < |s| ==> IsSpace(s[k]) || IsClauseMark(s[k])
    ensures Letters(s) == ""
  {
    if s != "" { NoLettersIn(s[1..]); }
  }

  lemma TrimmedKeepsLetters(s: string)
    ensures Letters(Trimmed(s)) == Letters(s)
  {
    var b := SpacesEnd(s, 0);
    var e := SpacesStart(s, b, |s|);
    SpacesEndSkipsSpaces(s, 0);
    SpacesStartSkipsSpaces(s, b, |s|);
    Around(s, b, e);
  }

  lemma Around(s: string, b: nat, e: nat)
    requires b <= e <= |s| && AllSpace(s[..b]) && AllSpace(s[e..])
    ensures Letters(s[b..e]) == Letters(s)
  {
    NoLettersIn(s[..b]);
    NoLettersIn(s[e..]);
    LettersOfThree(s[..b], s[b..e], s[e..]);
    CutTwice(s, b, e);
  }

  lemma SeparatorHasNoLetters(level: Level, s: string, i: nat)
    requires i <= |s| && SeparatorEnd(level, s, i).Some?
    ensures Letters(s[i..SeparatorEnd(level, s, i).value]) == ""
  {
    var e := SeparatorEnd(level, s, i).value;
    if level == Sentences {
      SpacesEndSkipsSpaces(s, i + 1);
      assert s[i..e] == [s[i]] + s[i + 1..e];
    } else {
      var mark := SpacesEnd(s, i);
      SpacesEndSkipsSpaces(s, i);
      SpacesEndSkipsSpaces(s, mark + 1);
      assert s[i..e] == s[i..mark] + [s[mark]] + s[mark + 1..e];
    }
    NoLettersIn(s[i..e]);
  }

  lemma CutInThree(s: string, from: nat, i: nat, e: nat)
    requires from <= i <= e <= |s| && Letters(s[i..e]) == ""
    ensures Letters(s[from..]) == Letters(s[from..i]) + Letters(s[e..])
  {
    LettersOfThree(s[from..i], s[i..e], s[e..]);
    CutRest(s, from, i, e);
  }

  lemma LettersOfThree(a: string, b: string, c: string)
    ensures Letters(a + (b + c)) == Letters(a) + (Letters(b) + Letters(c))
  {
    LettersOfSum(a, b + c);
    LettersOfSum(b, c);
  }

  lemma {:induction false} PiecesKeepLetters(level: Level, s: string, from: nat, i: nat)
    requires from <= i <= |s|
    ensures Letters(Concat(Pieces(level, s, from, i))) == Letters(s[from..])
    decreases |s| - i
  {
    if i == |s| {
      OnePiece(s[from..]);
    } else if SeparatorEnd(level, s, i).Some? {
      var e := SeparatorEnd(level, s, i).value;
      SeparatorHasNoLetters(level, s, i);
      CutInThree(s, from, i, e);
      PiecesKeepLetters(level, s, e, e);
      OnePieceMore(s[from..i], Pieces(level, s, e, e));
    } else {
      PiecesKeepLetters(level, s, from, i + 1);
    }
  }

  lemma OnePiece(s: string)
    ensures Concat([s]) == s
  {
    assert [s][1..] == [];
  }

  lemma OnePieceMore(s: string, rest: seq<string>)
    ensures Letters(Concat([s] + rest)) == Letters(s) + Letters(Concat(rest))
  {
    assert ([s] + rest)[1..] == rest;
    LettersOfSum(s, Concat(rest));
  }

  lemma {:induction false} TidyKeepsLetters(pieces: seq<string>)
    ensures Letters(Concat(Tidy(pieces))) == Letters(Concat(pieces))
  {
    if pieces != [] {
      TidyKeepsLetters(pieces[1..]);
      TrimmedKeepsLetters(pieces[0]);
      OnePieceMore(Trimmed(pieces[0]), Tidy(pieces[1..]));
      OnePieceMore(pieces[0], pieces[1..]);
      assert pieces == [pieces[0]] + pieces[1..];
      assert [] + Tidy(pieces[1..]) == Tidy(pieces[1..]);
    }
  }

  /** Words put together again are the text without its white space. */
  lemma ConcatOfWords(c: char, rest: string)
    requires !IsSpace(c)
    ensures Concat(WordsOf([c] + rest)) == [c] + Concat(WordsOf(rest))
  {
    var words := WordsOf(rest);
    assert ([c] + rest)[1..] == rest;
    if Glued(rest) {
      JoinedFirst(c, words);
    } else {
      assert ([[c]] + words)[1..] == words;
    }
  }

  lemma JoinedFirst(c: char, words: seq<string>)
    requires words != []
    ensures Concat([[c] + words[0]] + words[1..]) == [c] + Concat(words)
  {
    RestOfMore([c] + words[0], words[1..]);
  }

  lemma {:induction false} WordsKeepLetters(s: string)
    ensures Letters(Concat(WordsOf(s))) == Letters(s)
  {
    if s != "" {
      var rest := s[1..];
      WordsKeepLetters(rest);
      assert s == [s[0]] + rest;
      if !IsSpace(s[0]) {
        ConcatOfWords(s[0], rest);
        LettersOfSum([s[0]], Concat(WordsOf(rest)));
        LettersOfSum([s[0]], rest);
      }
    }
  }

  lemma {:induction false} SpacedKeepsLetters(words: seq<string>)
    ensures Letters(Spaced(words)) == Letters(Concat(words))
  {
    if |words| == 1 {
      assert words == [words[0]];
      OnePiece(words[0]);
    } else if words != [] {
      SpacedKeepsLetters(words[1..]);
      LettersOfSum(words[0] + " ", Spaced(words[1..]));
      LettersOfSum(words[0], " ");
      LettersOfSum(words[0], Concat(words[1..]));
      NoLettersIn(" ");
    }
  }

  lemma LettersOfConcat(a: seq<string>, b: seq<string>)
    ensures Letters(Concat(a + b)) == Letters(Concat(a)) + Letters(Concat(b))
  {
    ConcatOfSum(a, b);
    LettersOfSum(Concat(a), Concat(b));
  }

  lemma TwoPieces(a: string, b: string)
    ensures Letters(Concat([a, b])) == Letters(a) + Letters(b)
  {
    assert [a, b] == [a] + [b];
    OnePieceMore(a, [b]);
    OnePiece(b);
  }

  lemma HalvesKeepLetters(words: seq<string>)
    ensures Letters(Concat(Halves(words))) == Letters(Concat(words))
  {
    var a, b := words[..|words| / 2], words[|words| / 2..];
    TwoHalvesKeepLetters(a, b);
    assert words == a + b;
  }

  lemma TwoHalvesKeepLetters(a: seq<string>, b: seq<string>)
    ensures Letters(Concat([Spaced(a), Spaced(b)])) == Letters(Concat(a + b))
  {
    TwoPieces(Spaced(a), Spaced(b));
    SpacedKeepsLetters(a);
    SpacedKeepsLetters(b);
    LettersOfConcat(a, b);
  }

  lemma LevelKeepsLetters(level: Level, t: string)
    ensures Letters(Concat(Tidy(Pieces(level, t, 0, 0)))) == Letters(t)
  {
    PiecesKeepLetters(level, t, 0, 0);
    TidyKeepsLetters(Pieces(level, t, 0, 0));
    assert t[0..] == t;
  }

  /** Whatever level it splits at, the parts in order are the text, but for
      white space and clause marks. */
  lemma SplitKeepsLetters(text: string)
    ensures Letters(Concat(Split(text))) == Letters(text)
  {
    var t := Trimmed(text);
    TrimmedKeepsLetters(text);
    LevelKeepsLetters(Sentences, t);
    LevelKeepsLetters(Clauses, t);
    WordsKeepLetters(t);
    HalvesKeepLetters(WordsOf(t));
    OnePiece(t);
  }

  // ------------------------------------------------------------- where it is cut

  /** Here two parts of the level are apart: the white space behind a sentence's
      mark, up to the next word; or a clause mark with the white space around. */
  predicate Separates(level: Level, s: string, i: nat, j: nat) {
    i < j <= |s|
    && match level
       case Sentences => 0 < i && j < |s| && s[i - 1] in ".!?" && AllSpace(s[i..j]) && !IsSpace(s[j])
       case Clauses => exists m: nat :: i <= m < j && MarkAmongSpaces(s, i, m, j)
  }

  predicate MarkAmongSpaces(s: string, i: nat, m: nat, j: nat)
    requires i <= m < j <= |s|
  {
    s[m] in ",;:\U{2014}\U{2013}" && AllSpace(s[i..m]) && AllSpace(s[m + 1..j])
  }

  predicate Unbroken(level: Level, s: string, a: nat, b: nat)
    requires a <= b <= |s|
  {
    match level
    case Sentences => forall i: nat, j: nat :: a < i < j < b ==> !Separates(Sentences, s, i, j)
    case Clauses => forall m :: a <= m < b ==> s[m] !in ",;:\U{2014}\U{2013}"
  }

  /** A stretch from a word to a word, between two such places or the text's
      ends, with none inside. */
  predicate Stretch(level: Level, s: string, a: nat, b: nat) {
    && a < b <= |s| && !IsSpace(s[a]) && !IsSpace(s[b - 1]) && Unbroken(level, s, a, b)
    && (a == 0 || EndsHere(level, s, a)) && (b == |s| || StartsHere(level, s, b))
  }

  predicate EndsHere(level: Level, s: string, a: nat) { exists i: nat :: i < a && Separates(level, s, i, a) }

  predicate StartsHere(level: Level, s: string, b: nat) { exists j: nat :: j <= |s| && Separates(level, s, b, j) }

  type Places = seq<(nat, nat)>

  predicate InOrder(places: Places, from: nat, end: nat) {
    && (forall k :: 0 <= k < |places| ==> from <= places[k].0 < places[k].1 <= end)
    && (forall k, l :: 0 <= k < l < |places| ==> places[k].1 <= places[l].0)
  }

  function SlicesAt(s: string, places: Places): (r: seq<string>)
    requires InOrder(places, 0, |s|)
    ensures |r| == |places|
  {
    seq(|places|, k requires 0 <= k < |places| => s[places[k].0..places[k].1])
  }

  /** The parts are exactly the stretches of the level, each once, in order. */
  ghost predicate CutAt(level: Level, s: string, parts: seq<string>) {
    exists places: Places :: AreTheStretches(level, s, places) && parts == SlicesAt(s, places)
  }

  ghost predicate AreTheStretches(level: Level, s: string, places: Places) {
    && GoodPlaces(level, s, places, 0)
    && (forall a: nat, b: nat :: Stretch(level, s, a, b) ==> (a, b) in places)
  }

  /** The pieces' places, the empty ones left out. */
  ghost function PlacesFrom(level: Level, s: string, from: nat, i: nat): Places
    requires from <= i <= |s|
    decreases |s| - i
  {
    if i == |s| then (if from < i then [(from, i)] else [])
    else
      var e := SeparatorEnd(level, s, i);
      if e.Some? then (if from < i then [(from, i)] else []) + PlacesFrom(level, s, e.value, e.value)
      else PlacesFrom(level, s, from, i + 1)
  }

  predicate WordAtEnds(s: string) { s != "" ==> !IsSpace(s[0]) && !IsSpace(s[|s| - 1]) }

  /** A piece begins at `from`, and up to `i` nothing separates. */
  predicate Begun(level: Level, s: string, from: nat, i: nat) {
    && from <= i <= |s| && WordAtEnds(s) && (from < |s| ==> !IsSpace(s[from]))
    && (from == 0 || EndsHere(level, s, from))
    && forall k :: from <= k < i ==> SeparatorEnd(level, s, k).None?
  }

  lemma SpacesEndStops(s: string, i: nat)
    requires i <= |s|
    ensures var e := SpacesEnd(s, i); AllSpace(s[i..e]) && (e < |s| ==> !IsSpace(s[e]))
    decreases |s| - i
  {
    SpacesEndSkipsSpaces(s, i);
    SpacesEndAtAWord(s, i);
  }

  lemma {:induction false} SpacesEndAtAWord(s: string, i: nat)
    requires i <= |s|
    ensures SpacesEnd(s, i) < |s| ==> !IsSpace(s[SpacesEnd(s, i)])
    decreases |s| - i
  {
    if i < |s| && IsSpace(s[i]) { SpacesEndAtAWord(s, i + 1); }
  }

  lemma SpacesBetween(s: string, i: nat, e: nat)
    requires i <= e <= |s| && AllSpace(s[i..e])
    ensures forall k :: i <= k < e ==> IsSpace(s[k])
  {
    forall k | i <= k < e ensures IsSpace(s[k]) { assert s[i..e][k - i] == s[k]; }
  }

  /** What the scan finds separates, and the next piece begins behind it. */
  lemma FoundSeparates(level: Level, s: string, from: nat, i: nat)
    requires Begun(level, s, from, i) && i < |s| && SeparatorEnd(level, s, i).Some?
    ensures var e := SeparatorEnd(level, s, i).value; Separates(level, s, i, e) && Begun(level, s, e, e)
    ensures from < i ==> !IsSpace(s[i - 1])
  {
    var e := SeparatorEnd(level, s, i).value;
    if level == Sentences {
      SpacesEndStops(s, i + 1);
      assert s[i..e] == [s[i]] + s[i + 1..e];
      SpacesBetween(s, i, e);
    } else {
      var mark := SpacesEnd(s, i);
      SpacesEndStops(s, i);
      SpacesEndStops(s, mark + 1);
      assert MarkAmongSpaces(s, i, mark, e);
      assert from < i && IsSpace(s[i - 1]) ==> SpacesEnd(s, i - 1) == mark;
      assert from < i ==> SeparatorEnd(level, s, i - 1).None?;
    }
    assert Separates(level, s, i, e);
  }

  /** Where something separates, the scan finds a separator: where it starts, or
      (between clauses) at its mark. */
  lemma SeparatesIsFound(level: Level, s: string, i: nat, j: nat)
    requires Separates(level, s, i, j)
    ensures SeparatorEnd(level, s, i).Some?
  {
    if level == Sentences {
      assert s[i..j][0] == s[i];
    } else {
      var m: nat :| i <= m < j && MarkAmongSpaces(s, i, m, j);
      SpacesEndIs(s, i, m);
    }
  }

  lemma MarkIsFound(s: string, m: nat)
    requires m < |s| && s[m] in ",;:\U{2014}\U{2013}"
    ensures SeparatorEnd(Clauses, s, m).Some?
  {
    SpacesEndIs(s, m, m);
  }

  lemma NothingSeparates(level: Level, s: string, from: nat, i: nat)
    requires Begun(level, s, from, i)
    ensures Unbroken(level, s, from, i)
  {
    if level == Sentences {
      forall a: nat, b: nat | from < a < b < i ensures !Separates(Sentences, s, a, b) {
        if Separates(Sentences, s, a, b) { SeparatesIsFound(Sentences, s, a, b); }
      }
    } else {
      forall m | from <= m < i ensures s[m] !in ",;:\U{2014}\U{2013}" {
        if s[m] in ",;:\U{2014}\U{2013}" { MarkIsFound(s, m); }
      }
    }
  }

  lemma PieceIsStretch(level: Level, s: string, from: nat, i: nat)
    requires Begun(level, s, from, i) && from < i && (i == |s| || SeparatorEnd(level, s, i).Some?)
    ensures Stretch(level, s, from, i)
  {
    NothingSeparates(level, s, from, i);
    if i < |s| { FoundSeparates(level, s, from, i); }
  }

  lemma StretchIsTrimmed(level: Level, s: string, a: nat, b: nat)
    requires Stretch(level, s, a, b)
    ensures Trimmed(s[a..b]) == s[a..b]
  {
    var t := s[a..b];
    assert t[0] == s[a] && t[b - a - 1] == s[b - 1];
    TrimmedIsWithin("", t, "");
    assert "" + t + "" == t;
  }

  predicate AllStretches(level: Level, s: string, places: Places) {
    forall k :: 0 <= k < |places| ==> Stretch(level, s, places[k].0, places[k].1)
  }

  lemma InFront(p: (nat, nat), places: Places, from: nat, mid: nat, end: nat)
    requires from <= p.0 < p.1 <= mid <= end && InOrder(places, mid, end)
    ensures InOrder([p] + places, from, end)
  {
  }

  lemma OneStretchMore(level: Level, s: string, p: (nat, nat), places: Places, from: nat, mid: nat)
    requires from <= p.0 < p.1 <= mid <= |s| && InOrder(places, mid, |s|) && AllStretches(level, s, places) && Stretch(level, s, p.0, p.1)
    ensures InOrder([p] + places, from, |s|) && AllStretches(level, s, [p] + places)
  {
    InFront(p, places, from, mid, |s|);
  }

  predicate GoodPlaces(level: Level, s: string, places: Places, from: nat) {
    InOrder(places, from, |s|) && AllStretches(level, s, places)
  }

  lemma LastPlaceIsGood(level: Level, s: string, from: nat)
    requires Begun(level, s, from, |s|)
    ensures GoodPlaces(level, s, PlacesFrom(level, s, from, |s|), from)
  {
    if from < |s| { PieceIsStretch(level, s, from, |s|); }
  }

  lemma OnePlaceMoreIsGood(level: Level, s: string, from: nat, i: nat, e: nat)
    requires Begun(level, s, from, i) && i < |s| && SeparatorEnd(level, s, i) == Some(e) && i <= e <= |s|
    requires GoodPlaces(level, s, PlacesFrom(level, s, e, e), e)
    ensures GoodPlaces(level, s, PlacesFrom(level, s, from, i), from)
  {
    var rest := PlacesFrom(level, s, e, e);
    if from < i {
      PieceIsStretch(level, s, from, i);
      OneStretchMore(level, s, (from, i), rest, from, e);
      assert PlacesFrom(level, s, from, i) == [(from, i)] + rest;
    } else {
      assert PlacesFrom(level, s, from, i) == [] + rest == rest;
    }
  }

  lemma {:induction false} PlacesAreStretches(level: Level, s: string, from: nat, i: nat)
    requires Begun(level, s, from, i)
    ensures GoodPlaces(level, s, PlacesFrom(level, s, from, i), from)
    decreases |s| - i
  {
    if i == |s| {
      LastPlaceIsGood(level, s, from);
    } else if SeparatorEnd(level, s, i).Some? {
      var e := SeparatorEnd(level, s, i).value;
      FoundSeparates(level, s, from, i);
      PlacesAreStretches(level, s, e, e);
      OnePlaceMoreIsGood(level, s, from, i, e);
    } else {
      PlacesAreStretches(level, s, from, i + 1);
    }
  }

  // every stretch is found

  lemma BeginsWithIt(level: Level, s: string, from: nat, i: nat, a: nat, b: nat)
    requires Begun(level, s, from, i) && Stretch(level, s, a, b) && from <= a < i
    ensures a == from
  {
    if from < a {
      var k: nat :| k < a && Separates(level, s, k, a);
      if level == Sentences {
        SpacesBetween(s, k, a);
        SeparatesIsFound(level, s, k, a);
      } else {
        var m: nat :| k <= m < a && MarkAmongSpaces(s, k, m, a);
        SpacesBetween(s, m + 1, a);
        MarkIsFound(s, m);
      }
    }
  }

  lemma EndsWithIt(level: Level, s: string, from: nat, i: nat, b: nat)
    requires Begun(level, s, from, i) && Stretch(level, s, from, b) && from < i
    requires i == |s| || SeparatorEnd(level, s, i).Some?
    ensures b == i
  {
    if b < i {
      var j: nat :| j <= |s| && Separates(level, s, b, j);
      SeparatesIsFound(level, s, b, j);
    } else if i < b {
      NotThrough(level, s, from, i, from, b);
    }
  }

  /** No stretch goes on through a separator, or starts in one. */
  lemma NotThrough(level: Level, s: string, from: nat, i: nat, a: nat, b: nat)
    requires Begun(level, s, from, i) && i < |s| && SeparatorEnd(level, s, i).Some? && Stretch(level, s, a, b)
    ensures a < i ==> b <= i
    ensures i <= a ==> SeparatorEnd(level, s, i).value <= a
  {
    var e := SeparatorEnd(level, s, i).value;
    FoundSeparates(level, s, from, i);
    if level == Sentences {
      SpacesBetween(s, i, e);
    } else {
      var m: nat :| i <= m < e && MarkAmongSpaces(s, i, m, e);
      SpacesBetween(s, i, m);
      SpacesBetween(s, m + 1, e);
    }
  }

  lemma {:induction false} EveryStretchIsFound(level: Level, s: string, from: nat, i: nat, a: nat, b: nat)
    requires Begun(level, s, from, i) && Stretch(level, s, a, b) && from <= a
    ensures (a, b) in PlacesFrom(level, s, from, i)
    decreases |s| - i
  {
    if i == |s| {
      BeginsWithIt(level, s, from, i, a, b);
      EndsWithIt(level, s, from, i, b);
    } else if SeparatorEnd(level, s, i).Some? {
      var e := SeparatorEnd(level, s, i).value;
      FoundSeparates(level, s, from, i);
      if a < i {
        BeginsWithIt(level, s, from, i, a, b);
        EndsWithIt(level, s, from, i, b);
      } else {
        NotThrough(level, s, from, i, a, b);
        EveryStretchIsFound(level, s, e, e, a, b);
      }
    } else {
      EveryStretchIsFound(level, s, from, i + 1, a, b);
    }
  }

  /** Every character but white space and clause marks is in a stretch. */
  lemma {:induction false} EveryLetterIsFound(level: Level, s: string, from: nat, i: nat, x: nat)
    requires Begun(level, s, from, i) && from <= x < |s| && !IsSpace(s[x]) && (level == Clauses ==> s[x] !in ",;:\U{2014}\U{2013}")
    ensures exists p :: p in PlacesFrom(level, s, from, i) && p.0 <= x < p.1
    decreases |s| - i
  {
    if i == |s| {
      assert (from, i) in PlacesFrom(level, s, from, i);
    } else if SeparatorEnd(level, s, i).Some? {
      var e := SeparatorEnd(level, s, i).value;
      FoundSeparates(level, s, from, i);
      if x < i {
        assert (from, i) in PlacesFrom(level, s, from, i);
      } else {
        NotInSeparator(level, s, i, e, x);
        EveryLetterIsFound(level, s, e, e, x);
        var p :| p in PlacesFrom(level, s, e, e) && p.0 <= x < p.1;
        assert p in PlacesFrom(level, s, from, i);
      }
    } else {
      EveryLetterIsFound(level, s, from, i + 1, x);
    }
  }

  lemma NotInSeparator(level: Level, s: string, i: nat, e: nat, x: nat)
    requires Separates(level, s, i, e) && i <= x < |s| && !IsSpace(s[x]) && (level == Clauses ==> s[x] !in ",;:\U{2014}\U{2013}")
    ensures e <= x
  {
    if level == Sentences {
      SpacesBetween(s, i, e);
    } else {
      var m: nat :| i <= m < e && MarkAmongSpaces(s, i, m, e);
      SpacesBetween(s, i, m);
      SpacesBetween(s, m + 1, e);
    }
  }

  // the pieces are the slices there

  lemma SlicesOfMore(s: string, p: (nat, nat), places: Places)
    requires InOrder([p] + places, 0, |s|) && InOrder(places, 0, |s|) && p.0 < p.1 <= |s|
    ensures SlicesAt(s, [p] + places) == [s[p.0..p.1]] + SlicesAt(s, places)
  {
  }

  lemma TidyOfMore(piece: string, pieces: seq<string>)
    ensures Tidy([piece] + pieces) == (if Trimmed(piece) == "" then [] else [Trimmed(piece)]) + Tidy(pieces)
  {
    assert ([piece] + pieces)[1..] == pieces;
  }

  lemma NothingIsTrimmed()
    ensures Trimmed("") == ""
  {
  }

  /** One piece more in front: a part where it is not empty. */
  lemma OneSliceMore(s: string, from: nat, i: nat, places: Places, pieces: seq<string>)
    requires from <= i <= |s| && InOrder(places, i, |s|) && Tidy(pieces) == SlicesAt(s, places)
    requires from < i ==> Trimmed(s[from..i]) == s[from..i]
    ensures var more := (if from < i then [(from, i)] else []) + places;
            InOrder(more, 0, |s|) && Tidy([s[from..i]] + pieces) == SlicesAt(s, more)
  {
    if from < i { OneRealSliceMore(s, from, i, places, pieces); } else { OneEmptySliceMore(s, from, places, pieces); }
  }

  lemma OneEmptySliceMore(s: string, from: nat, places: Places, pieces: seq<string>)
    requires from <= |s|
    ensures [] + places == places && Tidy([s[from..from]] + pieces) == Tidy(pieces)
  {
    NothingIsTrimmed();
    TidyOfMore(s[from..from], pieces);
    assert s[from..from] == "" && [] + Tidy(pieces) == Tidy(pieces);
  }

  lemma OneRealSliceMore(s: string, from: nat, i: nat, places: Places, pieces: seq<string>)
    requires from < i <= |s| && InOrder(places, i, |s|) && Tidy(pieces) == SlicesAt(s, places)
    requires Trimmed(s[from..i]) == s[from..i]
    ensures InOrder([(from, i)] + places, 0, |s|) && Tidy([s[from..i]] + pieces) == SlicesAt(s, [(from, i)] + places)
  {
    TidyOfMore(s[from..i], pieces);
    InFront((from, i), places, 0, i, |s|);
    SlicesOfMore(s, (from, i), places);
  }

  lemma LastPieceIsASlice(level: Level, s: string, from: nat)
    requires Begun(level, s, from, |s|) && InOrder(PlacesFrom(level, s, from, |s|), from, |s|)
    ensures Tidy(Pieces(level, s, from, |s|)) == SlicesAt(s, PlacesFrom(level, s, from, |s|))
  {
    if from < |s| {
      PieceIsStretch(level, s, from, |s|);
      StretchIsTrimmed(level, s, from, |s|);
    }
    OneSliceMore(s, from, |s|, [], []);
    assert [s[from..]] + [] == [s[from..]] && s[from..|s|] == s[from..];
    assert PlacesFrom(level, s, from, |s|) + [] == PlacesFrom(level, s, from, |s|);
  }

  lemma PieceIsASlice(level: Level, s: string, from: nat, i: nat, e: nat)
    requires Begun(level, s, from, i) && i < |s| && SeparatorEnd(level, s, i) == Some(e)
    requires InOrder(PlacesFrom(level, s, e, e), e, |s|) && InOrder(PlacesFrom(level, s, from, i), from, |s|)
    requires Tidy(Pieces(level, s, e, e)) == SlicesAt(s, PlacesFrom(level, s, e, e))
    ensures Tidy(Pieces(level, s, from, i)) == SlicesAt(s, PlacesFrom(level, s, from, i))
  {
    if from < i {
      PieceIsStretch(level, s, from, i);
      StretchIsTrimmed(level, s, from, i);
    }
    OneSliceMore(s, from, i, PlacesFrom(level, s, e, e), Pieces(level, s, e, e));
  }

  lemma {:induction false} PiecesAreTheSlices(level: Level, s: string, from: nat, i: nat)
    requires Begun(level, s, from, i)
    ensures InOrder(PlacesFrom(level, s, from, i), from, |s|)
    ensures Tidy(Pieces(level, s, from, i)) == SlicesAt(s, PlacesFrom(level, s, from, i))
    decreases |s| - i
  {
    PlacesAreStretches(level, s, from, i);
    if i == |s| {
      LastPieceIsASlice(level, s, from);
    } else if SeparatorEnd(level, s, i).Some? {
      var e := SeparatorEnd(level, s, i).value;
      FoundSeparates(level, s, from, i);
      PiecesAreTheSlices(level, s, e, e);
      PieceIsASlice(level, s, from, i, e);
    } else {
      PiecesAreTheSlices(level, s, from, i + 1);
      assert PlacesFrom(level, s, from, i) == PlacesFrom(level, s, from, i + 1);
      assert Pieces(level, s, from, i) == Pieces(level, s, from, i + 1);
    }
  }

  /** The parts of a level are exactly its stretches. */
  lemma LevelIsCut(level: Level, t: string)
    requires WordAtEnds(t)
    ensures AreTheStretches(level, t, PlacesFrom(level, t, 0, 0))
    ensures Tidy(Pieces(level, t, 0, 0)) == SlicesAt(t, PlacesFrom(level, t, 0, 0))
  {
    PlacesAreStretches(level, t, 0, 0);
    PiecesAreTheSlices(level, t, 0, 0);
    forall a: nat, b: nat | Stretch(level, t, a, b) ensures (a, b) in PlacesFrom(level, t, 0, 0) {
      EveryStretchIsFound(level, t, 0, 0, a, b);
    }
  }

  // --------------------------------------------------------- which level, and how

  /** Two words with a clause mark between them. */
  predicate HasClauses(s: string) {
    exists x: nat, m: nat, y: nat :: x < m < y < |s| && IsWordThere(s, x) && s[m] in ",;:\U{2014}\U{2013}" && IsWordThere(s, y)
  }

  predicate IsWordThere(s: string, x: nat)
    requires x < |s|
  {
    !IsSpace(s[x]) && s[x] !in ",;:\U{2014}\U{2013}"
  }

  ghost predicate HasSentences(s: string) { exists i: nat, j: nat :: Separates(Sentences, s, i, j) }

  lemma TwoPlaces(places: Places, p: (nat, nat), q: (nat, nat))
    requires p in places && q in places && p != q
    ensures |places| > 1
  {
  }

  /** There is more than one sentence exactly when some white space stands
      between a sentence's mark and a word. */
  lemma SentencesExactlyWhen(t: string)
    requires WordAtEnds(t)
    ensures |Tidy(Pieces(Sentences, t, 0, 0))| > 1 <==> HasSentences(t)
  {
    var places := PlacesFrom(Sentences, t, 0, 0);
    LevelIsCut(Sentences, t);
    if |places| > 1 { MoreThanOneSentence(t, places); }
    if HasSentences(t) { SomeSentences(t); }
  }

  lemma MoreThanOneSentence(t: string, places: Places)
    requires AreTheStretches(Sentences, t, places) && |places| > 1
    ensures HasSentences(t)
  {
    assert Stretch(Sentences, t, places[0].0, places[0].1) && places[0].1 <= places[1].0;
    var j: nat :| j <= |t| && Separates(Sentences, t, places[0].1, j);
  }

  lemma SomeSentences(t: string)
    requires WordAtEnds(t) && HasSentences(t)
    ensures |PlacesFrom(Sentences, t, 0, 0)| > 1
  {
    var i: nat, j: nat :| Separates(Sentences, t, i, j);
    LevelIsCut(Sentences, t);
    EveryLetterIsFound(Sentences, t, 0, 0, 0);
    EveryLetterIsFound(Sentences, t, 0, 0, j);
    var p :| p in PlacesFrom(Sentences, t, 0, 0) && p.0 <= 0 < p.1;
    var q :| q in PlacesFrom(Sentences, t, 0, 0) && q.0 <= j < q.1;
    assert Stretch(Sentences, t, p.0, p.1);
    TwoPlaces(PlacesFrom(Sentences, t, 0, 0), p, q);
  }

  /** There is more than one clause exactly when a clause mark stands between
      two words. */
  lemma ClausesExactlyWhen(t: string)
    requires WordAtEnds(t)
    ensures |Tidy(Pieces(Clauses, t, 0, 0))| > 1 <==> HasClauses(t)
  {
    var places := PlacesFrom(Clauses, t, 0, 0);
    LevelIsCut(Clauses, t);
    if |places| > 1 { TwoClauses(t, places[0], places[1]); }
    if HasClauses(t) { SomeClauses(t); }
  }

  lemma SomeClauses(t: string)
    requires WordAtEnds(t) && HasClauses(t)
    ensures |PlacesFrom(Clauses, t, 0, 0)| > 1
  {
    var x: nat, m: nat, y: nat :| x < m < y < |t| && IsWordThere(t, x) && t[m] in ",;:\U{2014}\U{2013}" && IsWordThere(t, y);
    LevelIsCut(Clauses, t);
    EveryLetterIsFound(Clauses, t, 0, 0, x);
    EveryLetterIsFound(Clauses, t, 0, 0, y);
    var p :| p in PlacesFrom(Clauses, t, 0, 0) && p.0 <= x < p.1;
    var q :| q in PlacesFrom(Clauses, t, 0, 0) && q.0 <= y < q.1;
    assert Stretch(Clauses, t, p.0, p.1);
    TwoPlaces(PlacesFrom(Clauses, t, 0, 0), p, q);
  }

  lemma TwoClauses(t: string, p: (nat, nat), q: (nat, nat))
    requires Stretch(Clauses, t, p.0, p.1) && Stretch(Clauses, t, q.0, q.1) && p.1 <= q.0
    ensures HasClauses(t)
  {
    var j: nat :| j <= |t| && Separates(Clauses, t, p.1, j);
    var m: nat :| p.1 <= m < j && MarkAmongSpaces(t, p.1, m, j);
    SpacesBetween(t, p.1, m);
    assert IsWordThere(t, p.0) && IsWordThere(t, q.0);
  }

  /** Its words with one blank between each two. */
  predicate IsSpaced(s: string, words: seq<string>) {
    && WordsOf(s) == words
    && forall k :: 0 <= k < |s| && IsSpace(s[k]) ==>
         s[k] == ' ' && 0 < k && k + 1 < |s| && !IsSpace(s[k - 1]) && !IsSpace(s[k + 1])
  }

  lemma {:induction false} SpacedIsSpaced(words: seq<string>)
    requires forall w :: w in words ==> w != "" && forall k :: 0 <= k < |w| ==> !IsSpace(w[k])
    ensures IsSpaced(Spaced(words), words)
    ensures words != [] ==> Spaced(words) != "" && !IsSpace(Spaced(words)[0]) && !IsSpace(Spaced(words)[|Spaced(words)| - 1])
  {
    if |words| == 1 {
      OneWord(words[0]);
      assert words == [words[0]];
    } else if words != [] {
      SpacedIsSpaced(words[1..]);
      OneWordMore(words[0], Spaced(words[1..]), words[1..]);
      assert words == [words[0]] + words[1..];
    }
  }

  lemma OneWordMore(w: string, rest: string, words: seq<string>)
    requires w != "" && (forall k :: 0 <= k < |w| ==> !IsSpace(w[k])) && rest != "" && !IsSpace(rest[0]) && IsSpaced(rest, words)
    ensures IsSpaced(w + " " + rest, [w] + words)
  {
    OneWord(w);
    WordsOfCut(w, ' ', rest);
    var s := w + " " + rest;
    forall k | 0 <= k < |s| && IsSpace(s[k])
      ensures s[k] == ' ' && 0 < k && k + 1 < |s| && !IsSpace(s[k - 1]) && !IsSpace(s[k + 1])
    {
      if k > |w| { assert s[k] == rest[k - |w| - 1]; }
    }
  }

  /** The words' halves, the first rounded down. */
  predicate IsHalved(parts: seq<string>, words: seq<string>) {
    |parts| == 2 && IsSpaced(parts[0], words[..|words| / 2]) && IsSpaced(parts[1], words[|words| / 2..])
  }

  /** The split of a text, white space at its ends aside: at every sentence's
      end when there is one inside; else at every clause mark when there is one
      between words; else in two halves of its words; else not at all. */
  lemma SplitIsAtTheCoarsestLevel(text: string, front: string, t: string, back: string)
    requires text == front + t + back && AllSpace(front) && AllSpace(back) && WordAtEnds(t)
    ensures HasSentences(t) ==> CutAt(Sentences, t, Split(text)) && NoSentencesInside(Split(text))
    ensures !HasSentences(t) && HasClauses(t) ==> CutAt(Clauses, t, Split(text)) && NoMarksInside(Split(text))
    ensures !HasSentences(t) && !HasClauses(t) && |WordsOf(t)| > 1 ==> IsHalved(Split(text), WordsOf(t))
    ensures !HasSentences(t) && !HasClauses(t) && |WordsOf(t)| <= 1 ==> Split(text) == [t]
  {
    TrimmedIsWithin(front, t, back);
    SentencesExactlyWhen(t);
    ClausesExactlyWhen(t);
    SentencesHaveNoneInside(t);
    ClausesHaveNoMarks(t);
    LevelsAreCut(t);
    HalvesAreHalved(WordsOf(t));
  }

  lemma LevelsAreCut(t: string)
    requires WordAtEnds(t)
    ensures CutAt(Sentences, t, Tidy(Pieces(Sentences, t, 0, 0))) && CutAt(Clauses, t, Tidy(Pieces(Clauses, t, 0, 0)))
  {
    LevelIsCut(Sentences, t);
    LevelIsCut(Clauses, t);
  }

  lemma HalvesAreHalved(words: seq<string>)
    requires forall w :: w in words ==> w != "" && forall k :: 0 <= k < |w| ==> !IsSpace(w[k])
    ensures IsHalved(Halves(words), words)
  {
    SpacedIsSpaced(words[..|words| / 2]);
    SpacedIsSpaced(words[|words| / 2..]);
  }

  ghost predicate NoSentencesInside(parts: seq<string>) { forall p :: p in parts ==> !HasSentences(p) }

  predicate NoMarksInside(parts: seq<string>) {
    forall p :: p in parts ==> forall k :: 0 <= k < |p| ==> p[k] !in ",;:\U{2014}\U{2013}"
  }

  lemma SentencesHaveNoneInside(t: string)
    requires WordAtEnds(t)
    ensures NoSentencesInside(Tidy(Pieces(Sentences, t, 0, 0)))
  {
    LevelIsCut(Sentences, t);
    var places := PlacesFrom(Sentences, t, 0, 0);
    forall k, i: nat, j: nat | 0 <= k < |places| ensures !Separates(Sentences, t[places[k].0..places[k].1], i, j) {
      AStretchHasNoneInside(t, places[k].0, places[k].1, i, j);
    }
  }

  lemma AStretchHasNoneInside(t: string, a: nat, b: nat, i: nat, j: nat)
    requires Stretch(Sentences, t, a, b)
    ensures !Separates(Sentences, t[a..b], i, j)
  {
    if Separates(Sentences, t[a..b], i, j) { SeparatesInTheWhole(t, a, b, i, j); }
  }

  lemma SeparatesInTheWhole(t: string, a: nat, b: nat, i: nat, j: nat)
    requires a <= b <= |t| && Separates(Sentences, t[a..b], i, j)
    ensures Separates(Sentences, t, a + i, a + j) && a < a + i < a + j < b
  {
    SliceOfSlice(t, a, b, i, j);
  }

  lemma ClausesHaveNoMarks(t: string)
    requires WordAtEnds(t)
    ensures NoMarksInside(Tidy(Pieces(Clauses, t, 0, 0)))
  {
    LevelIsCut(Clauses, t);
  }
}
