/** The words of a spoken line, the silences between them, and an estimate of
    when each word is heard. */
module WordTimings {
  import opened Options
  import opened Text

  // ------------------------------------------------------------------ commands

  datatype Command = Command(start: nat, end: nat, name: string, argument: string)

  predicate IsLetter(c: char) { 'A' <= c <= 'Z' || 'a' <= c <= 'z' }

  function LettersEnd(s: string, i: nat): (e: nat)
    requires i <= |s|
    ensures i <= e <= |s|
    decreases |s| - i
  {
    if i < |s| && IsLetter(s[i]) then LettersEnd(s, i + 1) else i
  }

  /** The first `]` from `i` on, or the end of the text. */
  function Closing(s: string, i: nat): (e: nat)
    requires i <= |s|
    ensures i <= e <= |s|
    decreases |s| - i
  {
    if i < |s| && s[i] != ']' then Closing(s, i + 1) else i
  }

  /** A `[[name argument]]` that starts at `i`. */
  function CommandAt(s: string, i: nat): (r: Option<Command>)
    requires i <= |s|
    ensures r.Some? ==> r.value.start == i < r.value.end <= |s|
  {
    if i + 2 <= |s| && s[i] == '[' && s[i + 1] == '['
    then NamedAt(s, i, SpacesEnd(s, i + 2), LettersEnd(s, SpacesEnd(s, i + 2)))
    else None
  }

  /** Its name from `n` to `m`. */
  function NamedAt(s: string, i: nat, n: nat, m: nat): (r: Option<Command>)
    requires i <= n <= m <= |s|
    ensures r.Some? ==> r.value.start == i < r.value.end <= |s|
  {
    var close := Closing(s, m);
    if n < m && close + 2 <= |s| && s[close + 1] == ']'
    then Some(Command(i, close + 2, s[n..m], Argument(s, m, close)))
    else None
  }

  function Argument(s: string, m: nat, close: nat): string
    requires m <= close <= |s|
  {
    var a := SpacesEnd(s, m);
    if a <= close then s[a..SpacesStart(s, a, close)] else ""
  }

  function NextCommand(s: string, from: nat): (r: Option<Command>)
    requires from <= |s|
    ensures r.Some? ==> from <= r.value.start < r.value.end <= |s|
    decreases |s| - from
  {
    if CommandAt(s, from).Some? then CommandAt(s, from)
    else if from < |s| then NextCommand(s, from + 1)
    else None
  }

  // ------------------------------------------------- a command, by its characters

  /** `[[`, white space, a name of letters, white space, an argument without a
      `]`, white space, `]]`: the name up to `m`, the argument from `a` to `b`. */
  predicate Spells(s: string, c: Command, n: nat, m: nat, a: nat, b: nat, close: nat) {
    && c.start + 2 <= n < m <= a <= b <= close && close + 2 == c.end <= |s|
    && s[c.start] == '[' && s[c.start + 1] == '[' && s[close + 1] == ']'
    && SpellsName(s, c.start + 2, n, m) && SpellsArgument(s, m, a, b, close)
    && c.name == s[n..m] && c.argument == s[a..b]
  }

  predicate SpellsName(s: string, i: nat, n: nat, m: nat)
    requires i <= n <= m <= |s|
  {
    && AllSpace(s[i..n]) && (forall k :: n <= k < m ==> 'a' <= s[k] <= 'z' || 'A' <= s[k] <= 'Z')
    && (m < |s| ==> !('a' <= s[m] <= 'z' || 'A' <= s[m] <= 'Z'))
  }

  predicate SpellsArgument(s: string, m: nat, a: nat, b: nat, close: nat)
    requires m <= a <= b <= close < |s|
  {
    && AllSpace(s[m..a]) && AllSpace(s[b..close]) && s[close] == ']' && (forall k :: m <= k < close ==> s[k] != ']')
    && if a < b then !IsSpace(s[a]) && !IsSpace(s[b - 1]) else a == close
  }

  ghost predicate IsCommand(s: string, c: Command) {
    exists n: nat, m: nat, a: nat, b: nat, close: nat :: Spells(s, c, n, m, a, b, close)
  }

  lemma {:induction false} LettersEndIs(s: string, i: nat, e: nat)
    requires i <= e <= |s| && (forall k :: i <= k < e ==> 'a' <= s[k] <= 'z' || 'A' <= s[k] <= 'Z')
    requires e < |s| ==> !('a' <= s[e] <= 'z' || 'A' <= s[e] <= 'Z')
    ensures LettersEnd(s, i) == e
    decreases e - i
  {
    if i < e { LettersEndIs(s, i + 1, e); }
  }

  lemma {:induction false} ClosingIs(s: string, i: nat, e: nat)
    requires i <= e <= |s| && (forall k :: i <= k < e ==> s[k] != ']') && (e < |s| ==> s[e] == ']')
    ensures Closing(s, i) == e
    decreases e - i
  {
    if i < e { ClosingIs(s, i + 1, e); }
  }

  lemma {:induction false} LettersEndStops(s: string, i: nat)
    requires i <= |s|
    ensures var e := LettersEnd(s, i);
            && (forall k :: i <= k < e ==> 'a' <= s[k] <= 'z' || 'A' <= s[k] <= 'Z')
            && (e < |s| ==> !('a' <= s[e] <= 'z' || 'A' <= s[e] <= 'Z'))
    decreases |s| - i
  {
    if i < |s| && IsLetter(s[i]) { LettersEndStops(s, i + 1); }
  }

  lemma {:induction false} ClosingStops(s: string, i: nat)
    requires i <= |s|
    ensures var e := Closing(s, i); (forall k :: i <= k < e ==> s[k] != ']') && (e < |s| ==> s[e] == ']')
    decreases |s| - i
  {
    if i < |s| && s[i] != ']' { ClosingStops(s, i + 1); }
  }

  lemma SpelledIsFound(s: string, c: Command, n: nat, m: nat, a: nat, b: nat, close: nat)
    requires Spells(s, c, n, m, a, b, close)
    ensures CommandAt(s, c.start) == Some(c)
  {
    SpelledName(s, c, n, m, a, b, close);
    SpelledArgument(s, c, n, m, a, b, close);
    FoundFromItsParts(s, c.start, n, m, a, b, close);
    assert c == Command(c.start, close + 2, s[n..m], s[a..b]);
  }

  lemma FoundFromItsParts(s: string, i: nat, n: nat, m: nat, a: nat, b: nat, close: nat)
    requires i + 2 <= n < m <= a <= b <= close && close + 2 <= |s| && s[i] == s[i + 1] == '[' && s[close + 1] == ']'
    requires SpacesEnd(s, i + 2) == n && LettersEnd(s, n) == m && SpacesEnd(s, m) == a && Closing(s, m) == close
    requires SpacesStart(s, a, close) == b
    ensures CommandAt(s, i) == Some(Command(i, close + 2, s[n..m], s[a..b]))
  {
  }

  lemma SpelledName(s: string, c: Command, n: nat, m: nat, a: nat, b: nat, close: nat)
    requires Spells(s, c, n, m, a, b, close)
    ensures SpacesEnd(s, c.start + 2) == n && LettersEnd(s, n) == m
  {
    SpacesEndIs(s, c.start + 2, n);
    LettersEndIs(s, n, m);
  }

  lemma SpelledArgument(s: string, c: Command, n: nat, m: nat, a: nat, b: nat, close: nat)
    requires Spells(s, c, n, m, a, b, close)
    ensures SpacesEnd(s, m) == a && Closing(s, m) == close && SpacesStart(s, a, close) == b
  {
    SpacesEndIs(s, m, a);
    ClosingIs(s, m, close);
    SpacesStartIs(s, a, close, b);
  }

  /** What is found at a place: a command exactly when one is spelled there. */
  lemma CommandAtExactlyWhen(s: string, c: Command)
    requires c.start <= |s|
    ensures CommandAt(s, c.start) == Some(c) <==> IsCommand(s, c)
  {
    if IsCommand(s, c) {
      var n: nat, m: nat, a: nat, b: nat, close: nat :| Spells(s, c, n, m, a, b, close);
      SpelledIsFound(s, c, n, m, a, b, close);
    }
    if CommandAt(s, c.start) == Some(c) { FoundIsSpelled(s, c); }
  }

  lemma FoundIsSpelled(s: string, c: Command)
    requires c.start <= |s| && CommandAt(s, c.start) == Some(c)
    ensures IsCommand(s, c)
  {
    var n := SpacesEnd(s, c.start + 2);
    PartsOfFound(s, c);
    TheNameIsSpelled(s, c.start + 2);
    NamedIsSpelled(s, c, n, LettersEnd(s, n));
  }

  lemma NamedIsSpelled(s: string, c: Command, n: nat, m: nat)
    requires c.start + 2 <= n < m <= |s| && s[c.start] == '[' && s[c.start + 1] == '[' && SpellsName(s, c.start + 2, n, m)
    requires var close := Closing(s, m);
             close + 2 == c.end <= |s| && s[close + 1] == ']' && c.name == s[n..m] && c.argument == Argument(s, m, close)
    ensures IsCommand(s, c)
  {
    TheArgumentIsSpelled(s, m);
    SpelledIsACommand(s, c, n, m, SpacesEnd(s, m), SpacesStart(s, SpacesEnd(s, m), Closing(s, m)), Closing(s, m));
  }

  lemma SpelledIsACommand(s: string, c: Command, n: nat, m: nat, a: nat, b: nat, close: nat)
    requires Spells(s, c, n, m, a, b, close)
    ensures IsCommand(s, c)
  {
  }

  lemma PartsOfFound(s: string, c: Command)
    requires c.start <= |s| && CommandAt(s, c.start) == Some(c)
    ensures c.start + 2 <= |s| && s[c.start] == '[' && s[c.start + 1] == '['
    ensures var n := SpacesEnd(s, c.start + 2); var m := LettersEnd(s, n); var close := Closing(s, m);
            && n < m && close + 2 == c.end <= |s| && s[close + 1] == ']' && c.name == s[n..m] && c.argument == Argument(s, m, close)
  {
    var n := SpacesEnd(s, c.start + 2);
    PartsOfNamed(s, c, n, LettersEnd(s, n));
  }

  lemma PartsOfNamed(s: string, c: Command, n: nat, m: nat)
    requires c.start <= n <= m <= |s| && NamedAt(s, c.start, n, m) == Some(c)
    ensures var close := Closing(s, m);
            n < m && close + 2 == c.end <= |s| && s[close + 1] == ']' && c.name == s[n..m] && c.argument == Argument(s, m, close)
  {
  }

  lemma TheNameIsSpelled(s: string, i: nat)
    requires i <= |s|
    ensures SpellsName(s, i, SpacesEnd(s, i), LettersEnd(s, SpacesEnd(s, i)))
  {
    SpacesEndSkipsSpaces(s, i);
    LettersEndStops(s, SpacesEnd(s, i));
  }

  lemma TheArgumentIsSpelled(s: string, m: nat)
    requires m <= |s| && Closing(s, m) < |s|
    ensures SpacesEnd(s, m) <= Closing(s, m)
    ensures SpellsArgument(s, m, SpacesEnd(s, m), SpacesStart(s, SpacesEnd(s, m), Closing(s, m)), Closing(s, m))
  {
    var close := Closing(s, m);
    ClosingStops(s, m);
    SpacesStopBefore(s, m, close);
    SpacesEndSkipsSpaces(s, m);
    SpacesStartSkipsSpaces(s, SpacesEnd(s, m), close);
    SpacesStartStops(s, SpacesEnd(s, m), close);
  }

  /** Up to a bracket there may be white space, and it stops there. */
  lemma SpacesStopBefore(s: string, i: nat, close: nat)
    requires i <= close < |s| && s[close] == ']'
    ensures SpacesEnd(s, i) <= close && !IsSpace(s[SpacesEnd(s, i)])
    decreases close - i
  {
    if i < close && IsSpace(s[i]) { SpacesStopBefore(s, i + 1, close); }
  }

  lemma SpacesStartStops(s: string, from: nat, e: nat)
    requires from <= e <= |s| && (from < e ==> !IsSpace(s[from]))
    ensures from < e ==> from < SpacesStart(s, from, e) && !IsSpace(s[SpacesStart(s, from, e) - 1])
    decreases e - from
  {
    if from < e && IsSpace(s[e - 1]) { SpacesStartStops(s, from, e - 1); }
  }

  /** The next command is the first there is from a place on. */
  lemma {:induction false} NextCommandIsTheFirst(s: string, from: nat, c: Command)
    requires from <= |s|
    ensures NextCommand(s, from) == Some(c) <==>
              from <= c.start <= |s| && IsCommand(s, c) && forall d: Command :: from <= d.start < c.start ==> !IsCommand(s, d)
    decreases |s| - from
  {
    if c.start <= |s| { CommandAtExactlyWhen(s, c); }
    if CommandAt(s, from).Some? {
      CommandAtExactlyWhen(s, CommandAt(s, from).value);
    } else {
      NoneSpelledHere(s, from);
      if from < |s| { NextCommandIsTheFirst(s, from + 1, c); }
    }
  }

  lemma NoneSpelledHere(s: string, i: nat)
    requires i <= |s| && CommandAt(s, i).None?
    ensures forall d: Command :: d.start == i ==> !IsCommand(s, d)
  {
    forall d: Command | d.start == i ensures !IsCommand(s, d) { CommandAtExactlyWhen(s, d); }
  }

  // ----------------------------------------------------------------- markup off

  /** Every command replaced by a space, from `from` on. */
  function Unmarked(s: string, from: nat): string
    requires from <= |s|
    decreases |s| - from
  {
    var c := NextCommand(s, from);
    if c.None? then s[from..] else s[from..c.value.start] + " " + Unmarked(s, c.value.end)
  }

  predicate IsBlank(c: char) { c == ' ' || c == '\t' }

  function BlanksEnd(s: string, i: nat): (e: nat)
    requires i <= |s|
    ensures i <= e <= |s|
    ensures forall k :: i <= k < e ==> IsBlank(s[k])
    decreases |s| - i
  {
    if i < |s| && IsBlank(s[i]) then BlanksEnd(s, i + 1) else i
  }

  /** A newline with the blanks around it becomes a newline. */
  function NewlinesClosed(s: string): string
    decreases |s|
  {
    if s == "" then ""
    else
      var b := BlanksEnd(s, 0);
      if b < |s| && s[b] == '\n' then "\n" + NewlinesClosed(s[BlanksEnd(s, b + 1)..])
      else [s[0]] + NewlinesClosed(s[1..])
  }

  /** Two blanks or more become a space. */
  function BlanksClosed(s: string): string
    decreases |s|
  {
    if s == "" then ""
    else
      var b := BlanksEnd(s, 0);
      if b >= 2 then " " + BlanksClosed(s[b..]) else [s[0]] + BlanksClosed(s[1..])
  }

  /** The text as heard. */
  function StripSayMarkup(text: string): string {
    if NextCommand(text, 0).None? then text else Trimmed(BlanksClosed(NewlinesClosed(Unmarked(text, 0))))
  }

  lemma BlanksAreOneSpace(s: string, e: nat, c: char, rest: string)
    requires 0 < e <= |s| && AllSpace(s[..e]) && IsSpace(c) && WordsOf(s[e..]) == WordsOf(rest)
    ensures Alike(s, [c] + rest)
  {
    assert s == s[..e] + s[e..];
    SpacesAreOneSpace(s[..e], s[e..], c, rest);
  }

  lemma SpacesAreOneSpace(blanks: string, tail: string, c: char, rest: string)
    requires blanks != "" && AllSpace(blanks) && IsSpace(c) && WordsOf(tail) == WordsOf(rest)
    ensures Alike(blanks + tail, [c] + rest)
  {
    SpacesInFront(blanks, tail);
    OneSpaceInFront(c, rest);
    NotGlued(blanks, tail);
  }

  lemma NotGlued(blanks: string, tail: string)
    requires blanks != "" && IsSpace(blanks[0])
    ensures !Glued(blanks + tail)
  {
  }

  lemma OneSpaceInFront(c: char, rest: string)
    requires IsSpace(c)
    ensures WordsOf([c] + rest) == WordsOf(rest) && !Glued([c] + rest)
  {
    assert ([c] + rest)[1..] == rest;
  }

  lemma {:induction false} NewlinesClosedAlike(s: string)
    ensures Alike(NewlinesClosed(s), s)
    decreases |s|
  {
    if s != "" {
      var b := BlanksEnd(s, 0);
      if b < |s| && s[b] == '\n' {
        var e := BlanksEnd(s, b + 1);
        NewlinesClosedAlike(s[e..]);
        assert forall k :: 0 <= k < e ==> IsSpace(s[..e][k]);
        BlanksAreOneSpace(s, e, '\n', NewlinesClosed(s[e..]));
      } else {
        NewlinesClosedAlike(s[1..]);
        AlikeBehind(s[0], NewlinesClosed(s[1..]), s[1..]);
        assert s == [s[0]] + s[1..];
      }
    }
  }

  lemma {:induction false} BlanksClosedAlike(s: string)
    ensures Alike(BlanksClosed(s), s)
    decreases |s|
  {
    if s != "" {
      var b := BlanksEnd(s, 0);
      if b >= 2 {
        BlanksClosedAlike(s[b..]);
        BlanksAreOneSpace(s, b, ' ', BlanksClosed(s[b..]));
      } else {
        BlanksClosedAlike(s[1..]);
        AlikeBehind(s[0], BlanksClosed(s[1..]), s[1..]);
        assert s == [s[0]] + s[1..];
      }
    }
  }

  // -------------------------------------------------------- closed up, no more

  /** No two blanks in a row, and none beside a newline. */
  predicate IsTidy(s: string) { forall k :: 0 <= k < |s| - 1 ==> !Untidy(s[k], s[k + 1]) && !(s[k] in " \t" && s[k + 1] in " \t") }

  predicate Untidy(a: char, b: char) { (a == '\n' && b in " \t") || (a in " \t" && b == '\n') }

  predicate NoBlankAtANewline(s: string) { forall k :: 0 <= k < |s| - 1 ==> !Untidy(s[k], s[k + 1]) }

  lemma InFrontOfTidy(c: char, s: string)
    requires NoBlankAtANewline(s) && (s != "" ==> !Untidy(c, s[0]))
    ensures NoBlankAtANewline([c] + s)
  {
    forall k | 0 <= k < |[c] + s| - 1 ensures !Untidy(([c] + s)[k], ([c] + s)[k + 1]) {
      assert k > 0 ==> ([c] + s)[k] == s[k - 1];
      assert ([c] + s)[k + 1] == s[k];
    }
  }

  /** What is left of the text starts with a blank only where it did. */
  lemma {:induction false} NewlinesAreClosed(s: string)
    ensures var r := NewlinesClosed(s);
            && NoBlankAtANewline(r) && (r != "" ==> s != "" && (r[0] in " \t" ==> s[0] in " \t"))
            && (r != "" && r[0] == '\n' ==> BlanksEnd(s, 0) < |s| && s[BlanksEnd(s, 0)] == '\n')
    decreases |s|
  {
    if s != "" {
      var b := BlanksEnd(s, 0);
      if b < |s| && s[b] == '\n' {
        var rest := s[BlanksEnd(s, b + 1)..];
        BlanksEndStops(s, b + 1);
        NewlinesAreClosed(rest);
        InFrontOfTidy('\n', NewlinesClosed(rest));
      } else {
        NewlinesAreClosed(s[1..]);
        BlanksEndOfRest(s);
        InFrontOfTidy(s[0], NewlinesClosed(s[1..]));
      }
    }
  }

  lemma {:induction false} BlanksEndStops(s: string, i: nat)
    requires i <= |s|
    ensures BlanksEnd(s, i) < |s| ==> s[BlanksEnd(s, i)] !in " \t"
    decreases |s| - i
  {
    if i < |s| && IsBlank(s[i]) { BlanksEndStops(s, i + 1); }
  }

  lemma {:induction false} BlanksEndMoved(s: string, i: nat)
    requires i <= |s| - 1
    ensures BlanksEnd(s[1..], i) + 1 == BlanksEnd(s, i + 1)
    decreases |s| - i
  {
    if i < |s[1..]| && IsBlank(s[1..][i]) { BlanksEndMoved(s, i + 1); }
  }

  lemma BlanksEndOfRest(s: string)
    requires s != ""
    ensures s[0] in " \t" ==> BlanksEnd(s, 0) == BlanksEnd(s[1..], 0) + 1
  {
    BlanksEndMoved(s, 0);
  }

  lemma {:induction false} BlanksAreClosed(s: string)
    requires NoBlankAtANewline(s)
    ensures var r := BlanksClosed(s);
            IsTidy(r) && (r != "" ==> s != "" && (r[0] in " \t" <==> s[0] in " \t") && (r[0] == '\n' <==> s[0] == '\n'))
    ensures s != "" ==> BlanksClosed(s) != ""
    decreases |s|
  {
    if s != "" {
      var b := BlanksEnd(s, 0);
      BlanksEndStops(s, 0);
      if b >= 2 {
        TidyRest(s, b);
        BlanksAreClosed(s[b..]);
        InFrontOfClosed(' ', BlanksClosed(s[b..]));
      } else {
        TidyRest(s, 1);
        BlanksAreClosed(s[1..]);
        InFrontOfClosed(s[0], BlanksClosed(s[1..]));
      }
    }
  }

  lemma TidyRest(s: string, b: nat)
    requires NoBlankAtANewline(s) && 0 < b <= |s|
    ensures NoBlankAtANewline(s[b..]) && (b < |s| ==> !Untidy(s[b - 1], s[b]))
  {
    forall k | 0 <= k < |s[b..]| - 1 ensures !Untidy(s[b..][k], s[b..][k + 1]) {
      assert s[b..][k] == s[b + k] && s[b..][k + 1] == s[b + k + 1];
    }
  }

  lemma InFrontOfClosed(c: char, s: string)
    requires IsTidy(s) && (s != "" ==> !Untidy(c, s[0]) && !(c in " \t" && s[0] in " \t"))
    ensures IsTidy([c] + s)
  {
    var r := [c] + s;
    forall k | 0 <= k < |r| - 1 ensures !Untidy(r[k], r[k + 1]) && !(r[k] in " \t" && r[k + 1] in " \t") {
      assert k > 0 ==> r[k] == s[k - 1];
      assert r[k + 1] == s[k];
    }
  }

  /** A text with a command comes out with its blanks closed up and none at its
      ends; one without comes out as it is. */
  lemma StrippedIsTidy(text: string)
    ensures NextCommand(text, 0).None? ==> StripSayMarkup(text) == text
    ensures NextCommand(text, 0).Some? ==> IsTidy(StripSayMarkup(text))
  {
    var closed := BlanksClosed(NewlinesClosed(Unmarked(text, 0)));
    NewlinesAreClosed(Unmarked(text, 0));
    BlanksAreClosed(NewlinesClosed(Unmarked(text, 0)));
    var b := SpacesEnd(closed, 0);
    var e := SpacesStart(closed, b, |closed|);
    forall k | 0 <= k && b + k + 1 < e
      ensures !Untidy(closed[b..e][k], closed[b..e][k + 1]) && !(closed[b..e][k] in " \t" && closed[b..e][k + 1] in " \t")
    {
      assert closed[b..e][k] == closed[b + k] && closed[b..e][k + 1] == closed[b + k + 1];
    }
  }

  // --------------------------------------------------------- words and silences

  datatype Heard = Heard(words: seq<string>, silences: map<int, real>)

  function At(silences: map<int, real>, i: int): real { if i in silences then silences[i] else 0.0 }

  function Lower(name: string): string
  {
    seq(|name|, i requires 0 <= i < |name| => if 'A' <= name[i] <= 'Z' then name[i] + ('a' - 'A') else name[i])
  }

  /** A positive `slnc` is that many milliseconds after the words so far; all
      other commands are dropped. */
  function Spoken(h: Heard, part: string): Heard { h.(words := h.words + WordsOf(part)) }

  function AfterCommand(h: Heard, c: Command, number: string -> Option<real>): Heard {
    var ms := number(c.argument);
    if Lower(c.name) == "slnc" && ms.Some? && ms.value > 0.0
    then h.(silences := h.silences[|h.words| - 1 := At(h.silences, |h.words| - 1) + ms.value / 1000.0])
    else h
  }

  /** A silence in milliseconds, whatever the case of its name, is added behind
      the words so far; no other command says anything. */
  lemma WhatACommandSays(h: Heard, c: Command, number: string -> Option<real>)
    ensures var silent := |c.name| == 4 && c.name[0] in "sS" && c.name[1] in "lL" && c.name[2] in "nN" && c.name[3] in "cC";
            var ms := number(c.argument); var after := AfterCommand(h, c, number); var at := |h.words| - 1;
            && after.words == h.words
            && (silent && ms.Some? && ms.value > 0.0 ==>
                  && after.silences.Keys == h.silences.Keys + {at}
                  && (after.silences[at] - if at in h.silences then h.silences[at] else 0.0) * 1000.0 == ms.value
                  && forall k :: k in h.silences && k != at ==> after.silences[k] == h.silences[k])
            && (!(silent && ms.Some? && ms.value > 0.0) ==> after == h)
  {
    var name := Lower(c.name);
    assert |name| == |c.name|;
    if |c.name| == 4 { assert name == [name[0], name[1], name[2], name[3]]; }
  }

  function HeardFrom(h: Heard, text: string, from: nat, number: string -> Option<real>): Heard
    requires from <= |text|
    decreases |text| - from
  {
    var c := NextCommand(text, from);
    if c.None? then Spoken(h, text[from..])
    else HeardFrom(AfterCommand(Spoken(h, text[from..c.value.start]), c.value, number), text, c.value.end, number)
  }

  lemma HeardOnePart(h: Heard, text: string, from: nat, c: Command, number: string -> Option<real>)
    requires from <= |text| && NextCommand(text, from) == Some(c)
    ensures HeardFrom(h, text, from, number)
         == HeardFrom(AfterCommand(Spoken(h, text[from..c.start]), c, number), text, c.end, number)
  {
  }

  lemma HeardTheRest(h: Heard, text: string, from: nat, number: string -> Option<real>)
    requires from <= |text| && NextCommand(text, from).None?
    ensures HeardFrom(h, text, from, number) == Spoken(h, text[from..])
  {
  }

  method Silence(words: seq<string>, silences: map<int, real>, c: Command, number: string -> Option<real>)
    returns (after: map<int, real>)
    ensures Heard(words, after) == AfterCommand(Heard(words, silences), c, number)
  {
    after := silences;
    if Lower(c.name) == "slnc" {
      var ms := number(c.argument);
      if ms.Some? && ms.value > 0.0 {
        var key := |words| - 1;
        after := after[key := At(after, key) + ms.value / 1000.0];
      }
    }
  }

  method WordsAndSilences(text: string, number: string -> Option<real>) returns (h: Heard)
    ensures h == HeardFrom(Heard([], map[]), text, 0, number)
  {
    ghost var whole := HeardFrom(Heard([], map[]), text, 0, number);
    var words: seq<string> := [];
    var silences: map<int, real> := map[];
    var pos := 0;
    var m := NextCommand(text, pos);
    while m.Some?
      invariant pos <= |text| && m == NextCommand(text, pos)
      invariant HeardFrom(Heard(words, silences), text, pos, number) == whole
      decreases |text| - pos
    {
      HeardOnePart(Heard(words, silences), text, pos, m.value, number);
      words := words + WordsOf(text[pos..m.value.start]);
      silences := Silence(words, silences, m.value, number);
      pos := m.value.end;
      m := NextCommand(text, pos);
    }
    HeardTheRest(Heard(words, silences), text, pos, number);
    words := words + WordsOf(text[pos..]);
    h := Heard(words, silences);
  }

  lemma {:induction false} HeardWordsAreTheUnmarked(h: Heard, text: string, from: nat, number: string -> Option<real>)
    requires from <= |text|
    ensures HeardFrom(h, text, from, number).words == h.words + WordsOf(Unmarked(text, from))
    decreases |text| - from
  {
    var c := NextCommand(text, from);
    if c.None? {
      HeardTheRest(h, text, from, number);
    } else {
      HeardOnePart(h, text, from, c.value, number);
      var before := text[from..c.value.start];
      HeardWordsAreTheUnmarked(AfterCommand(Spoken(h, before), c.value, number), text, c.value.end, number);
      PartsHaveTheWords(h.words, before, Unmarked(text, c.value.end));
    }
  }

  lemma PartsHaveTheWords(words: seq<string>, before: string, rest: string)
    ensures words + WordsOf(before) + WordsOf(rest) == words + WordsOf(before + " " + rest)
  {
    WordsOfCut(before, ' ', rest);
    assert " " == [' '];
  }

  /** The timed words are exactly the words of the text as heard. */
  lemma TimedWordsAreTheHeardWords(text: string, number: string -> Option<real>)
    ensures HeardFrom(Heard([], map[]), text, 0, number).words == WordsOf(StripSayMarkup(text))
  {
    HeardWordsAreTheUnmarked(Heard([], map[]), text, 0, number);
    if NextCommand(text, 0).None? {
      assert Unmarked(text, 0) == text;
    } else {
      var s := Unmarked(text, 0);
      NewlinesClosedAlike(s);
      BlanksClosedAlike(NewlinesClosed(s));
      TrimmedHasTheWords(BlanksClosed(NewlinesClosed(s)));
    }
  }

  /** Silences are positive and stand before the first word or after one of
      the words. */
  predicate Placed(h: Heard) {
    forall i :: i in h.silences ==> -1 <= i < |h.words| && h.silences[i] > 0.0
  }

  lemma {:induction false} SilencesArePlaced(h: Heard, text: string, from: nat, number: string -> Option<real>)
    requires from <= |text| && Placed(h)
    ensures Placed(HeardFrom(h, text, from, number))
    decreases |text| - from
  {
    var c := NextCommand(text, from);
    if c.Some? {
      SilencesArePlaced(AfterCommand(Spoken(h, text[from..c.value.start]), c.value, number), text, c.value.end, number);
    }
  }
}
