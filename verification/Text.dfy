/** Characters as the regular expressions and `str` methods class them. */
module Text {
  import opened Seqs

  /** `\s`, `str.isspace` and the separators of `str.split`. */
  predicate IsSpace(c: char) {
    || '\t' <= c <= '\r' || '\U{1c}' <= c <= ' ' || c == '\U{85}' || c == '\U{a0}' || c == '\U{1680}'
    || '\U{2000}' <= c <= '\U{200a}' || c == '\U{2028}' || c == '\U{2029}' || c == '\U{202f}'
    || c == '\U{205f}' || c == '\U{3000}'
  }

  /** The characters that are white space, one by one. */
  lemma TheSpaces(c: char)
    ensures IsSpace(c) <==> c in "\t\n\U{b}\U{c}\r\U{1c}\U{1d}\U{1e}\U{1f} \U{85}\U{a0}\U{1680}\U{2000}\U{2001}\U{2002}\U{2003}"
                               + "\U{2004}\U{2005}\U{2006}\U{2007}\U{2008}\U{2009}\U{200a}\U{2028}\U{2029}\U{202f}\U{205f}\U{3000}"
  {
  }

  /** `s[a:b]` for a start inside the text and any end. */
  function Slice(s: string, a: nat, b: int): (r: string)
    requires a <= |s|
    ensures r <= s[a..]
    ensures 0 <= b ==> |r| <= if a <= b then b - a else 0
    ensures a <= b <= |s| ==> r == s[a..b]
  {
    var end := if b > |s| then |s| else if b >= 0 then b else if b + |s| >= 0 then b + |s| else 0;
    if end <= a then [] else s[a..end]
  }

  /** `int(x)`: toward zero. */
  function Truncated(x: real): int { if x >= 0.0 then x.Floor else -(-x).Floor }

  // --------------------------------------------------------------------- words

  /** The text goes on with a character of a word. */
  predicate Glued(s: string) { s != "" && !IsSpace(s[0]) }

  /** The maximal runs without white space, in order. */
  function WordsOf(s: string): (r: seq<string>)
    ensures Glued(s) ==> r != []
    ensures forall w :: w in r ==> w != "" && forall k :: 0 <= k < |w| ==> !IsSpace(w[k])
  {
    if s == "" then []
    else if IsSpace(s[0]) then WordsOf(s[1..])
    else
      var rest := WordsOf(s[1..]);
      if Glued(s[1..]) then [[s[0]] + rest[0]] + rest[1..] else [[s[0]]] + rest
  }

  /** A text without white space is one word. */
  lemma {:induction false} OneWord(w: string)
    requires w != "" && forall k :: 0 <= k < |w| ==> !IsSpace(w[k])
    ensures WordsOf(w) == [w]
  {
    if |w| > 1 {
      OneWord(w[1..]);
      assert w == [w[0]] + w[1..];
    } else {
      assert w[1..] == "" && w == [w[0]];
    }
  }

  predicate AllSpace(s: string) { forall k :: 0 <= k < |s| ==> IsSpace(s[k]) }

  /** The two texts have the same words, whatever they are put behind. */
  predicate Alike(a: string, b: string) { WordsOf(a) == WordsOf(b) && (Glued(a) <==> Glued(b)) }

  lemma AlikeBehind(c: char, a: string, b: string)
    requires Alike(a, b)
    ensures Alike([c] + a, [c] + b)
  {
    assert ([c] + a)[1..] == a && ([c] + b)[1..] == b;
  }

  lemma {:induction false} SpacesInFront(blanks: string, s: string)
    requires AllSpace(blanks)
    ensures WordsOf(blanks + s) == WordsOf(s)
  {
    if blanks == "" {
      assert blanks + s == s;
    } else {
      assert (blanks + s)[1..] == blanks[1..] + s;
      SpacesInFront(blanks[1..], s);
    }
  }

  lemma {:induction false} SpacesBehind(s: string, blanks: string)
    requires AllSpace(blanks)
    ensures Alike(s + blanks, s)
  {
    if s == "" {
      SpacesInFront(blanks, "");
      assert s + blanks == blanks && blanks + "" == blanks;
    } else {
      SpacesBehind(s[1..], blanks);
      AlikeBehind(s[0], s[1..] + blanks, s[1..]);
      assert s + blanks == [s[0]] + (s[1..] + blanks);
      assert s == [s[0]] + s[1..];
    }
  }

  lemma {:induction false} WordsOfTail(a: string, tail: string)
    requires !Glued(tail)
    ensures WordsOf(a + tail) == WordsOf(a) + WordsOf(tail) && (Glued(a + tail) <==> Glued(a))
  {
    if a == "" {
      assert a + tail == tail;
    } else {
      var rest := a[1..];
      WordsOfTail(rest, tail);
      WordsOfMore(a[0], rest + tail, rest, WordsOf(tail));
      InFront(a, tail, a[0], rest);
    }
  }

  lemma InFront(a: string, tail: string, c: char, rest: string)
    requires a == [c] + rest
    ensures a + tail == [c] + (rest + tail)
  {
  }

  /** White space cuts a text: its words are those before and those after. */
  lemma WordsOfCut(a: string, c: char, b: string)
    requires IsSpace(c)
    ensures WordsOf(a + [c] + b) == WordsOf(a) + WordsOf(b)
  {
    WordsOfTail(a, [c] + b);
    assert a + [c] + b == a + ([c] + b) && ([c] + b)[1..] == b;
  }

  lemma WordsOfMore(c: char, s: string, t: string, more: seq<string>)
    requires WordsOf(s) == WordsOf(t) + more && (Glued(s) <==> Glued(t))
    ensures WordsOf([c] + s) == WordsOf([c] + t) + more
  {
    assert ([c] + s)[1..] == s && ([c] + t)[1..] == t;
  }

  // ---------------------------------------------------------------------- trimming

  function SpacesEnd(s: string, i: nat): (e: nat)
    requires i <= |s|
    ensures i <= e <= |s|
    decreases |s| - i
  {
    if i < |s| && IsSpace(s[i]) then SpacesEnd(s, i + 1) else i
  }

  function SpacesStart(s: string, from: nat, e: nat): (b: nat)
    requires from <= e <= |s|
    ensures from <= b <= e
  {
    if from < e && IsSpace(s[e - 1]) then SpacesStart(s, from, e - 1) else e
  }

  function Trimmed(s: string): string
  {
    var b := SpacesEnd(s, 0);
    s[b..SpacesStart(s, b, |s|)]
  }

  lemma {:induction false} SpacesEndSkipsSpaces(s: string, i: nat)
    requires i <= |s|
    ensures AllSpace(s[i..SpacesEnd(s, i)])
    decreases |s| - i
  {
    if i < |s| && IsSpace(s[i]) { SpacesEndSkipsSpaces(s, i + 1); }
  }

  lemma {:induction false} SpacesStartSkipsSpaces(s: string, from: nat, e: nat)
    requires from <= e <= |s|
    ensures AllSpace(s[SpacesStart(s, from, e)..e])
  {
    if from < e && IsSpace(s[e - 1]) {
      SpacesStartSkipsSpaces(s, from, e - 1);
      assert s[SpacesStart(s, from, e)..e] == s[SpacesStart(s, from, e)..e - 1] + [s[e - 1]];
    }
  }

  lemma SpacesAround(s: string, b: nat, e: nat)
    requires b <= e <= |s| && AllSpace(s[..b]) && AllSpace(s[e..])
    ensures WordsOf(s[b..e]) == WordsOf(s)
  {
    SpacesInFront(s[..b], s[b..]);
    SpacesBehind(s[b..e], s[e..]);
    CutTwice(s, b, e);
    Cut(s, b);
  }

  /** Only white space goes, and all of it at the two ends. */
  lemma TrimmedIsWithin(front: string, t: string, back: string)
    requires AllSpace(front) && AllSpace(back) && (t != "" ==> !IsSpace(t[0]) && !IsSpace(t[|t| - 1]))
    ensures Trimmed(front + t + back) == t
  {
    var s := front + t + back;
    if t == "" {
      assert AllSpace(s);
      SpacesEndIs(s, 0, |s|);
    } else {
      SpacesEndIs(s, 0, |front|);
      SpacesStartIs(s, |front|, |s|, |front| + |t|);
      assert s[|front|..|front| + |t|] == t;
    }
  }

  lemma {:induction false} SpacesEndIs(s: string, i: nat, e: nat)
    requires i <= e <= |s| && AllSpace(s[i..e]) && (e < |s| ==> !IsSpace(s[e]))
    ensures SpacesEnd(s, i) == e
    decreases e - i
  {
    if i < e {
      assert s[i..e][0] == s[i];
      assert s[i + 1..e] == s[i..e][1..];
      SpacesEndIs(s, i + 1, e);
    }
  }

  lemma {:induction false} SpacesStartIs(s: string, from: nat, e: nat, b: nat)
    requires from <= b <= e <= |s| && AllSpace(s[b..e]) && (from < b ==> !IsSpace(s[b - 1]))
    ensures SpacesStart(s, from, e) == b
  {
    if b < e {
      assert s[b..e][e - 1 - b] == s[e - 1];
      assert s[b..e - 1] == s[b..e][..e - 1 - b];
      SpacesStartIs(s, from, e - 1, b);
    }
  }

  lemma TrimmedHasTheWords(s: string)
    ensures WordsOf(Trimmed(s)) == WordsOf(s)
  {
    var b := SpacesEnd(s, 0);
    SpacesEndSkipsSpaces(s, 0);
    SpacesStartSkipsSpaces(s, b, |s|);
    SpacesAround(s, b, SpacesStart(s, b, |s|));
  }
}
