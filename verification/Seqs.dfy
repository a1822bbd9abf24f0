/** Ways to cut a sequence and put it together again, each proved once. */
module Seqs {

  lemma Cut<T>(s: seq<T>, i: nat)
    requires i <= |s|
    ensures s == s[..i] + s[i..]
  {
  }

  lemma CutTwice<T>(s: seq<T>, i: nat, j: nat)
    requires i <= j <= |s|
    ensures s == s[..i] + (s[i..j] + s[j..]) && s[i..] == s[i..j] + s[j..]
  {
  }

  lemma CutRest<T>(s: seq<T>, from: nat, i: nat, e: nat)
    requires from <= i <= e <= |s|
    ensures s[from..] == s[from..i] + (s[i..e] + s[e..])
  {
  }

  lemma CutAround<T>(s: seq<T>, i: nat)
    requires i < |s|
    ensures s == s[..i] + ([s[i]] + s[i + 1..])
  {
  }

  lemma First<T>(s: seq<T>)
    requires s != []
    ensures s == [s[0]] + s[1..]
  {
  }

  lemma FirstOfSum<T>(a: seq<T>, b: seq<T>)
    requires a != []
    ensures (a + b)[0] == a[0] && (a + b)[1..] == a[1..] + b
    ensures a + b == [a[0]] + (a[1..] + b)
  {
  }

  lemma RestOfMore<T>(x: T, s: seq<T>)
    ensures ([x] + s)[0] == x && ([x] + s)[1..] == s
  {
  }

  lemma FrontOfMore<T>(s: seq<T>, x: T)
    ensures (s + [x])[|s|] == x && (s + [x])[..|s|] == s
  {
  }

  lemma Ends<T>(a: seq<T>, b: seq<T>, c: seq<T>)
    ensures (a + b + c)[..|a|] == a && (a + b + c)[|a| + |b|..] == c
  {
  }

  /** Between two places behind a first part. */
  lemma SliceBeyond<T>(a: seq<T>, b: seq<T>, i: nat, j: nat)
    requires i <= j <= |b|
    ensures (a + b)[|a| + i..|a| + j] == b[i..j]
  {
  }

  lemma SumAgain<T>(a: seq<T>, b: seq<T>, c: seq<T>)
    ensures (a + b) + c == a + (b + c)
  {
  }

  lemma SliceOfSlice<T>(s: seq<T>, a: nat, b: nat, i: nat, j: nat)
    requires a <= b <= |s| && i <= j <= b - a
    ensures s[a..b][i..j] == s[a + i..a + j]
  {
    var t := s[a..b];
    forall k | 0 <= k < j - i ensures t[i..j][k] == s[a + i..a + j][k] {
      assert t[i..j][k] == t[i + k] == s[a + (i + k)];
    }
  }

  lemma SliceWithin<T>(a: seq<T>, b: seq<T>, i: nat, j: nat)
    requires i <= j <= |a|
    ensures (a + b)[i..j] == a[i..j]
  {
  }

  // ---------------------------------------------------------- items left out

  /** `a` is `b` with items left out. */
  predicate PartOf<T(==)>(a: seq<T>, b: seq<T>)
    decreases |b|
  {
    if a == [] then true
    else b != [] && ((a[0] == b[0] && PartOf(a[1..], b[1..])) || PartOf(a, b[1..]))
  }

  lemma {:induction false} PartOfItself<T>(a: seq<T>)
    ensures PartOf(a, a)
  {
    if a != [] { PartOfItself(a[1..]); }
  }

  lemma {:induction false} PartOfMore<T>(a: seq<T>, b: seq<T>, c: seq<T>)
    requires PartOf(a, b)
    ensures PartOf(a, b + c) && PartOf(a + c, b + c)
    decreases |b|
  {
    if b == [] {
      PartOfItself(c);
      assert a + c == c && b + c == c;
    } else {
      assert (b + c)[1..] == b[1..] + c;
      if a != [] && a[0] == b[0] && PartOf(a[1..], b[1..]) {
        PartOfMore(a[1..], b[1..], c);
        assert (a + c)[1..] == a[1..] + c;
      } else {
        PartOfRest(a, b);
        PartOfMore(a, b[1..], c);
        PartOfOneMore(a + c, b[0], b[1..] + c);
        PartOfOneMore(a, b[0], b[1..] + c);
        assert b + c == [b[0]] + (b[1..] + c);
      }
    }
  }

  lemma PartOfRest<T>(a: seq<T>, b: seq<T>)
    requires PartOf(a, b) && b != [] && !(a != [] && a[0] == b[0] && PartOf(a[1..], b[1..]))
    ensures PartOf(a, b[1..])
  {
  }

  lemma PartOfOneMore<T>(a: seq<T>, line: T, b: seq<T>)
    requires PartOf(a, b)
    ensures PartOf(a, [line] + b)
  {
    assert ([line] + b)[1..] == b;
  }

  /** As long, it leaves nothing out. */
  lemma {:induction false} PartAsLong<T>(a: seq<T>, b: seq<T>)
    requires PartOf(a, b)
    ensures |a| <= |b| && (|a| == |b| ==> a == b)
    decreases |b|
  {
    if a != [] {
      if a[0] == b[0] && PartOf(a[1..], b[1..]) {
        PartAsLong(a[1..], b[1..]);
      } else {
        PartAsLong(a, b[1..]);
      }
    }
  }

  lemma {:induction false} TailIsPart<T>(a: seq<T>, b: seq<T>)
    requires a != [] && PartOf(a, b)
    ensures PartOf(a[1..], b)
    decreases |b|
  {
    if a[0] == b[0] && PartOf(a[1..], b[1..]) {
      assert b == [b[0]] + b[1..];
      PartOfOneMore(a[1..], b[0], b[1..]);
    } else {
      TailIsPart(a, b[1..]);
      assert b == [b[0]] + b[1..];
      PartOfOneMore(a[1..], b[0], b[1..]);
    }
  }
}
