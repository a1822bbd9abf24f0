/** Synthesis that survives a bad span: a span that faults is split finer and
    tried again, its fragments kept in order in files of their own. */
module Resilient {
  import opened Seqs
  import opened Text
  import opened Splitter

  /** A file by its stem and suffix. */
  datatype File = File(stem: string, suffix: string)

  datatype Outcome = Spoken | Unspeakable | Fault

  /** What the engine makes of a text and a file. No call repeats a file, so
      this stands for any engine, a changing one too. */
  type Engine = (string, File) -> Outcome

  datatype Fate = Played | Skipped | Dropped

  /** A span that was not split. */
  datatype Leaf = Leaf(text: string, file: File, fate: Fate, depth: nat)

  // ---------------------------------------------------------------- file names

  function Digit(n: nat): char requires n < 10 { '0' + n as char }

  predicate IsDigit(c: char) { '0' <= c <= '9' }

  function Decimal(n: nat): (s: string)
    ensures s != "" && forall k :: 0 <= k < |s| ==> IsDigit(s[k])
  {
    if n < 10 then [Digit(n)] else Decimal(n / 10) + [Digit(n % 10)]
  }

  function Value(s: string): nat
    requires forall k :: 0 <= k < |s| ==> IsDigit(s[k])
  {
    if s == "" then 0
    else
      assert IsDigit(s[|s| - 1]);
      Value(s[..|s| - 1]) * 10 + (s[|s| - 1] - '0') as nat
  }

  lemma {:induction false} ValueOfDecimal(n: nat)
    ensures Value(Decimal(n)) == n
  {
    if n < 10 {
      assert [Digit(n)][..0] == "";
    } else {
      ValueOfDecimal(n / 10);
      assert Decimal(n)[..|Decimal(n)| - 1] == Decimal(n / 10);
    }
  }

  predicate NoDigitFirst(s: string) { s == "" || !IsDigit(s[0]) }

  lemma SameRun(x: string, y: string, a: string, b: string)
    requires NoDigitFirst(a) && x + a == y + b
    requires forall k :: 0 <= k < |y| ==> IsDigit(y[k])
    ensures |x| >= |y|
  {
    var w := x + a;
    assert forall k :: 0 <= k < |y| ==> IsDigit(w[k]);
    assert |x| < |w| ==> w[|x|] == a[0];
  }

  /** A number is read back from what follows it. */
  lemma NumbersDiffer(i: nat, j: nat, a: string, b: string)
    requires NoDigitFirst(a) && NoDigitFirst(b) && Decimal(i) + a == Decimal(j) + b
    ensures i == j
  {
    var x, y := Decimal(i), Decimal(j);
    SameRun(x, y, a, b);
    SameRun(y, x, b, a);
    assert x == (x + a)[..|x|] && y == (y + b)[..|y|];
    ValueOfDecimal(i);
    ValueOfDecimal(j);
  }

  function Head(file: File, depth: nat): string { file.stem + "-" + Decimal(depth) + "_" }

  function Sub(file: File, depth: nat, i: nat): File { File(Head(file, depth) + Decimal(i), ".wav") }

  // ------------------------------------------------------------------- the walk

  function Leaves(engine: Engine, text: string, file: File, depth: nat, max: int): seq<Leaf>
    decreases max - depth, 1, 0
  {
    match engine(text, file)
    case Spoken => [Leaf(text, file, Played, depth)]
    case Unspeakable => [Leaf(text, file, Skipped, depth)]
    case Fault =>
      if depth >= max || |Split(text)| <= 1 then [Leaf(text, file, Dropped, depth)]
      else LeavesOf(engine, Split(text), |Split(text)|, file, depth, max)
  }

  /** The leaves of the first `i` parts. */
  function LeavesOf(engine: Engine, parts: seq<string>, i: nat, file: File, depth: nat, max: int): seq<Leaf>
    requires i <= |parts| && depth < max
    decreases max - depth, 0, i
  {
    if i == 0 then []
    else LeavesOf(engine, parts, i - 1, file, depth, max)
         + Leaves(engine, parts[i - 1], Sub(file, depth, i - 1), depth + 1, max)
  }

  // -------------------------------------------------------------------- content

  function Texts(leaves: seq<Leaf>): (r: seq<string>)
    ensures |r| == |leaves|
  {
    seq(|leaves|, i requires 0 <= i < |leaves| => leaves[i].text)
  }

  function TextOf(leaves: seq<Leaf>): string { Concat(Texts(leaves)) }

  lemma TextOfSum(a: seq<Leaf>, b: seq<Leaf>)
    ensures TextOf(a + b) == TextOf(a) + TextOf(b)
  {
    ConcatOfSum(Texts(a), Texts(b));
    assert Texts(a + b) == Texts(a) + Texts(b);
  }

  lemma TextOfOne(leaf: Leaf)
    ensures TextOf([leaf]) == leaf.text
  {
    OnePiece(leaf.text);
    assert Texts([leaf]) == [leaf.text];
  }

  /** The leaves (played, skipped and dropped) put together are the text, but
      for white space and clause marks. */
  lemma {:induction false} LeavesKeepTheText(engine: Engine, text: string, file: File, depth: nat, max: int)
    ensures Letters(TextOf(Leaves(engine, text, file, depth, max))) == Letters(text)
    decreases max - depth, 1, 0
  {
    if engine(text, file) == Fault && depth < max && |Split(text)| > 1 {
      var parts := Split(text);
      PartsKeepTheText(engine, parts, |parts|, file, depth, max);
      SplitKeepsLetters(text);
      assert parts[..|parts|] == parts;
    } else {
      TextOfOne(Leaves(engine, text, file, depth, max)[0]);
    }
  }

  lemma {:induction false} PartsKeepTheText(engine: Engine, parts: seq<string>, i: nat, file: File, depth: nat, max: int)
    requires i <= |parts| && depth < max
    ensures Letters(TextOf(LeavesOf(engine, parts, i, file, depth, max))) == Letters(Concat(parts[..i]))
    decreases max - depth, 0, i
  {
    if i > 0 {
      var a := LeavesOf(engine, parts, i - 1, file, depth, max);
      var b := Leaves(engine, parts[i - 1], Sub(file, depth, i - 1), depth + 1, max);
      PartsKeepTheText(engine, parts, i - 1, file, depth, max);
      LeavesKeepTheText(engine, parts[i - 1], Sub(file, depth, i - 1), depth + 1, max);
      PartMore(a, b, parts, i);
    }
  }

  lemma PartMore(a: seq<Leaf>, b: seq<Leaf>, parts: seq<string>, i: nat)
    requires 0 < i <= |parts|
    requires Letters(TextOf(a)) == Letters(Concat(parts[..i - 1])) && Letters(TextOf(b)) == Letters(parts[i - 1])
    ensures Letters(TextOf(a + b)) == Letters(Concat(parts[..i]))
  {
    TextOfSum(a, b);
    LettersOfSum(TextOf(a), TextOf(b));
    LettersOfConcat(parts[..i - 1], [parts[i - 1]]);
    OnePiece(parts[i - 1]);
    assert parts[..i] == parts[..i - 1] + [parts[i - 1]];
  }

  // ---------------------------------------------------------------- distinctness

  /** The stem is `head` and something that does not go on with a digit. */
  predicate Under(stem: string, head: string) { head <= stem && NoDigitFirst(stem[|head|..]) }

  /** All in files named after `file`. */
  predicate NamedAfter(leaves: seq<Leaf>, file: File) {
    forall k :: 0 <= k < |leaves| ==> Under(leaves[k].file.stem, file.stem) && leaves[k].file.suffix == file.suffix
  }

  predicate AtDepths(leaves: seq<Leaf>, low: nat, high: int) {
    forall k :: 0 <= k < |leaves| ==> low <= leaves[k].depth <= high
  }

  predicate Distinct(leaves: seq<Leaf>) {
    forall j, k :: 0 <= j < k < |leaves| ==> leaves[j].file != leaves[k].file
  }

  predicate IsChild(stem: string, head: string, i: nat) { Under(stem, head + Decimal(i)) }

  /** All in files numbered below `i` behind `head`. */
  ghost predicate NumberedBelow(leaves: seq<Leaf>, head: string, i: nat) {
    forall k :: 0 <= k < |leaves| ==> HasNumberBelow(leaves[k].file, head, i)
  }

  ghost predicate HasNumberBelow(file: File, head: string, i: nat) {
    file.suffix == ".wav" && exists j: nat :: j < i && IsChild(file.stem, head, j)
  }

  lemma NumberedGrows(a: seq<Leaf>, b: seq<Leaf>, head: string, i: nat)
    requires NumberedBelow(a, head, i)
    requires forall k :: 0 <= k < |b| ==> b[k].file.suffix == ".wav" && IsChild(b[k].file.stem, head, i)
    ensures NumberedBelow(a + b, head, i + 1)
  {
    forall k | 0 <= k < |a + b| ensures HasNumberBelow((a + b)[k].file, head, i + 1) {
      if k < |a| {
        assert HasNumberBelow(a[k].file, head, i);
      } else {
        assert IsChild(b[k - |a|].file.stem, head, i);
      }
    }
  }

  lemma ChildrenDiffer(a: string, b: string, head: string, i: nat, j: nat)
    requires IsChild(a, head, i) && IsChild(b, head, j) && i != j
    ensures a != b
  {
    if a == b {
      var x, y := a[|head + Decimal(i)|..], b[|head + Decimal(j)|..];
      assert a == head + Decimal(i) + x && b == head + Decimal(j) + y;
      assert a[|head|..] == Decimal(i) + x && b[|head|..] == Decimal(j) + y;
      NumbersDiffer(i, j, x, y);
    }
  }

  lemma ChildIsUnder(stem: string, file: File, depth: nat, i: nat)
    requires IsChild(stem, Head(file, depth), i)
    ensures Under(stem, file.stem)
  {
    assert stem[|file.stem|] == (Head(file, depth) + Decimal(i))[|file.stem|] == '-';
  }

  lemma DistinctSum(a: seq<Leaf>, b: seq<Leaf>, head: string, i: nat)
    requires Distinct(a) && Distinct(b)
    requires NumberedBelow(a, head, i)
    requires forall k :: 0 <= k < |b| ==> IsChild(b[k].file.stem, head, i)
    ensures Distinct(a + b)
  {
    forall j, k | 0 <= j < |a| && 0 <= k < |b| ensures a[j].file != b[k].file {
      assert HasNumberBelow(a[j].file, head, i);
      var n: nat :| n < i && IsChild(a[j].file.stem, head, n);
      ChildrenDiffer(a[j].file.stem, b[k].file.stem, head, n, i);
    }
  }

  /** The walk goes no deeper than allowed, whatever the engine and the file. */
  lemma {:induction false} TheWalkIsBounded(engine: Engine, text: string, file: File, depth: nat, max: int)
    ensures AtDepths(Leaves(engine, text, file, depth, max), depth, if depth < max then max else depth)
    decreases max - depth, 1, 0
  {
    if engine(text, file) == Fault && depth < max && |Split(text)| > 1 {
      PartsAreBounded(engine, Split(text), |Split(text)|, file, depth, max);
    }
  }

  lemma {:induction false} PartsAreBounded(engine: Engine, parts: seq<string>, i: nat, file: File, depth: nat, max: int)
    requires i <= |parts| && depth < max
    ensures AtDepths(LeavesOf(engine, parts, i, file, depth, max), depth + 1, max)
    decreases max - depth, 0, i
  {
    if i > 0 {
      PartsAreBounded(engine, parts, i - 1, file, depth, max);
      TheWalkIsBounded(engine, parts[i - 1], Sub(file, depth, i - 1), depth + 1, max);
    }
  }

  /** Every leaf has a file of its own. */
  lemma {:induction false} LeavesHaveTheirOwnFiles(engine: Engine, text: string, file: File, depth: nat, max: int)
    ensures var r := Leaves(engine, text, file, depth, max);
            && Distinct(r) && (file.suffix == ".wav" ==> NamedAfter(r, file))
            && ((|r| == 1 && r[0].file == file) || NumberedBelow(r, Head(file, depth), |Split(text)|))
    decreases max - depth, 1, 0
  {
    if engine(text, file) == Fault && depth < max && |Split(text)| > 1 {
      PartsHaveTheirOwnFiles(engine, Split(text), |Split(text)|, file, depth, max);
    } else {
      assert NoDigitFirst(file.stem[|file.stem|..]);
    }
  }

  lemma {:induction false} PartsHaveTheirOwnFiles(engine: Engine, parts: seq<string>, i: nat, file: File, depth: nat, max: int)
    requires i <= |parts| && depth < max
    ensures var r := LeavesOf(engine, parts, i, file, depth, max);
            && Distinct(r) && NumberedBelow(r, Head(file, depth), i)
            && NamedAfter(r, File(file.stem, ".wav"))
    decreases max - depth, 0, i
  {
    if i > 0 {
      var sub := Sub(file, depth, i - 1);
      var a := LeavesOf(engine, parts, i - 1, file, depth, max);
      var b := Leaves(engine, parts[i - 1], sub, depth + 1, max);
      PartsHaveTheirOwnFiles(engine, parts, i - 1, file, depth, max);
      LeavesHaveTheirOwnFiles(engine, parts[i - 1], sub, depth + 1, max);
      forall k | 0 <= k < |b| ensures IsChild(b[k].file.stem, Head(file, depth), i - 1) && Under(b[k].file.stem, file.stem) {
        ChildIsUnder(b[k].file.stem, file, depth, i - 1);
      }
      DistinctSum(a, b, Head(file, depth), i - 1);
      NumberedGrows(a, b, Head(file, depth), i - 1);
    }
  }

  // ------------------------------------------------------------------ the floor

  /** A span is given up only at the depth cap or when it is a single word. */
  lemma {:induction false} DroppedOnlyAtTheFloor(engine: Engine, text: string, file: File, depth: nat, max: int)
    ensures forall leaf :: leaf in Leaves(engine, text, file, depth, max) && leaf.fate == Dropped ==>
              leaf.depth >= max || |WordsOf(Trimmed(leaf.text))| <= 1
    ensures forall leaf :: leaf in Leaves(engine, text, file, depth, max) ==>
              leaf.fate == match engine(leaf.text, leaf.file)
                           case Spoken => Played
                           case Unspeakable => Skipped
                           case Fault => Dropped
    decreases max - depth, 1, 0
  {
    if engine(text, file) == Fault && depth < max && |Split(text)| > 1 {
      PartsDroppedOnlyAtTheFloor(engine, Split(text), |Split(text)|, file, depth, max);
    }
  }

  lemma {:induction false} PartsDroppedOnlyAtTheFloor(engine: Engine, parts: seq<string>, i: nat, file: File, depth: nat, max: int)
    requires i <= |parts| && depth < max
    ensures forall leaf :: leaf in LeavesOf(engine, parts, i, file, depth, max) && leaf.fate == Dropped ==>
              leaf.depth >= max || |WordsOf(Trimmed(leaf.text))| <= 1
    ensures forall leaf :: leaf in LeavesOf(engine, parts, i, file, depth, max) ==>
              leaf.fate == match engine(leaf.text, leaf.file)
                           case Spoken => Played
                           case Unspeakable => Skipped
                           case Fault => Dropped
    decreases max - depth, 0, i
  {
    if i > 0 {
      PartsDroppedOnlyAtTheFloor(engine, parts, i - 1, file, depth, max);
      DroppedOnlyAtTheFloor(engine, parts[i - 1], Sub(file, depth, i - 1), depth + 1, max);
    }
  }

  // ------------------------------------------------------------------- the disk

  /** The leaves that were spoken, in order. */
  function Heard(leaves: seq<Leaf>): (r: seq<Leaf>)
    ensures forall leaf :: leaf in r <==> leaf in leaves && leaf.fate == Played
  {
    if leaves == [] then [] else (if leaves[0].fate == Played then [leaves[0]] else []) + Heard(leaves[1..])
  }

  function Files(leaves: seq<Leaf>): (r: seq<File>)
    ensures |r| == |leaves|
  {
    seq(|leaves|, i requires 0 <= i < |leaves| => leaves[i].file)
  }

  /** The files after the walk; each sounds as the text it was made from. */
  function Written(files: map<File, string>, leaves: seq<Leaf>): map<File, string>
    decreases |leaves|
  {
    if leaves == [] then files else Written(WithLeaf(files, leaves[0]), leaves[1..])
  }

  function WithLeaf(files: map<File, string>, leaf: Leaf): map<File, string> {
    if leaf.fate == Played then files[leaf.file := leaf.text] else files
  }

  lemma {:induction false} WrittenSum(files: map<File, string>, a: seq<Leaf>, b: seq<Leaf>)
    ensures Written(files, a + b) == Written(Written(files, a), b)
    decreases |a|
  {
    if a == [] {
      assert a + b == b;
    } else {
      FirstOfSum(a, b);
      WrittenSum(WithLeaf(files, a[0]), a[1..], b);
    }
  }

  lemma {:induction false} HeardSum(a: seq<Leaf>, b: seq<Leaf>)
    ensures Heard(a + b) == Heard(a) + Heard(b)
  {
    if a == [] {
      assert a + b == b;
    } else {
      FirstOfSum(a, b);
      HeardSum(a[1..], b);
    }
  }

  lemma DistinctTail(leaves: seq<Leaf>)
    requires Distinct(leaves) && leaves != []
    ensures Distinct(leaves[1..])
    ensures forall leaf :: leaf in leaves[1..] ==> leaf.file != leaves[0].file
  {
    forall leaf | leaf in leaves[1..] ensures leaf.file != leaves[0].file {
      var k :| 0 <= k < |leaves[1..]| && leaves[1..][k] == leaf;
      assert leaves[k + 1] == leaf;
    }
  }

  lemma {:induction false} HeardIsDistinct(leaves: seq<Leaf>)
    requires Distinct(leaves)
    ensures Distinct(Heard(leaves))
  {
    if leaves != [] {
      DistinctTail(leaves);
      HeardIsDistinct(leaves[1..]);
    }
  }

  /** With a file each, no leaf's audio is written over. */
  lemma {:induction false} WrittenIsKept(files: map<File, string>, leaves: seq<Leaf>, file: File)
    requires Distinct(leaves)
    ensures forall leaf :: leaf in Heard(leaves) ==>
              leaf.file in Written(files, leaves) && Written(files, leaves)[leaf.file] == leaf.text
    ensures (forall leaf :: leaf in Heard(leaves) ==> leaf.file != file) ==>
              && (file in Written(files, leaves) <==> file in files)
              && (file in files ==> Written(files, leaves)[file] == files[file])
    decreases |leaves|
  {
    if leaves != [] {
      var now := WithLeaf(files, leaves[0]);
      DistinctTail(leaves);
      WrittenIsKept(now, leaves[1..], file);
      WrittenIsKept(now, leaves[1..], leaves[0].file);
    }
  }

  lemma DiskOn(files: map<File, string>, a: seq<Leaf>, b: seq<Leaf>)
    ensures Files(Heard(a + b)) == Files(Heard(a)) + Files(Heard(b))
    ensures Written(files, a + b) == Written(Written(files, a), b)
  {
    HeardSum(a, b);
    FilesOfSum(Heard(a), Heard(b));
    WrittenSum(files, a, b);
  }

  lemma FilesOfSum(a: seq<Leaf>, b: seq<Leaf>)
    ensures Files(a + b) == Files(a) + Files(b)
  {
  }

  /** What a walk leaves on the disk before its parts are joined. */
  lemma WalkOnDisk(engine: Engine, text: string, out: File, max: int, files: map<File, string>, file: File)
    ensures var leaves := Leaves(engine, text, out, 0, max); var heard := Heard(leaves);
            && Distinct(heard)
            && (forall k :: 0 <= k < |heard| ==>
                  heard[k].file in Written(files, leaves) && Written(files, leaves)[heard[k].file] == heard[k].text)
            && (file !in Files(heard) ==>
                  && (file in Written(files, leaves) <==> file in files)
                  && (file in files ==> Written(files, leaves)[file] == files[file]))
  {
    var leaves := Leaves(engine, text, out, 0, max);
    var heard := Heard(leaves);
    LeavesHaveTheirOwnFiles(engine, text, out, 0, max);
    HeardIsDistinct(leaves);
    WrittenIsKept(files, leaves, file);
    forall leaf | leaf in heard ensures leaf.file in Files(heard) {
      var k :| 0 <= k < |heard| && heard[k] == leaf;
      assert Files(heard)[k] == leaf.file;
    }
  }

  /** Two parts or more are all in files of their own, none of them `out`. */
  lemma PartsAreNotTheOutput(engine: Engine, text: string, out: File, max: int)
    ensures var heard := Heard(Leaves(engine, text, out, 0, max));
            |heard| > 1 ==> out !in Files(heard)
  {
    var leaves := Leaves(engine, text, out, 0, max);
    var heard := Heard(leaves);
    LeavesHaveTheirOwnFiles(engine, text, out, 0, max);
    HeardIsNoLonger(leaves);
    if NumberedBelow(leaves, Head(out, 0), |Split(text)|) {
      forall k | 0 <= k < |heard| ensures heard[k].file != out {
        assert heard[k] in leaves;
        assert HasNumberBelow(heard[k].file, Head(out, 0), |Split(text)|);
        var n: nat :| n < |Split(text)| && IsChild(heard[k].file.stem, Head(out, 0), n);
        assert |heard[k].file.stem| > |out.stem|;
      }
    }
  }

  lemma {:induction false} HeardIsNoLonger(leaves: seq<Leaf>)
    ensures |Heard(leaves)| <= |leaves|
  {
    if leaves != [] { HeardIsNoLonger(leaves[1..]); }
  }

  /** The audio of the files, one after the other. */
  function Sound(files: map<File, string>, parts: seq<File>): string
    requires forall p :: p in parts ==> p in files
  {
    if parts == [] then "" else files[parts[0]] + Sound(files, parts[1..])
  }

  lemma {:induction false} SoundOfHeard(files: map<File, string>, heard: seq<Leaf>)
    requires forall k :: 0 <= k < |heard| ==> heard[k].file in files && files[heard[k].file] == heard[k].text
    ensures Sound(files, Files(heard)) == TextOf(heard)
  {
    if heard != [] {
      assert Files(heard)[1..] == Files(heard[1..]);
      assert Texts(heard)[1..] == Texts(heard[1..]);
      SoundOfHeard(files, heard[1..]);
    }
  }

  datatype Result = Audio | Nothing | Failed

  class Synthesizer {
    const engine: Engine
    const maxDepth: int
    var files: map<File, string>

    constructor (engine: Engine, maxDepth: int, files: map<File, string>)
      ensures this.engine == engine && this.maxDepth == maxDepth && this.files == files
    {
      this.engine, this.maxDepth, this.files := engine, maxDepth, files;
    }

    method SynthesizeParts(text: string, file: File, depth: nat) returns (parts: seq<File>)
      modifies this`files
      ensures parts == Files(Heard(Leaves(engine, text, file, depth, maxDepth)))
      ensures files == Written(old(files), Leaves(engine, text, file, depth, maxDepth))
      decreases maxDepth - depth, 1
    {
      match engine(text, file)
      case Spoken =>
        files := files[file := text];
        return [file];
      case Unspeakable => return [];
      case Fault =>
        var spans := Split(text);
        if depth >= maxDepth || |spans| <= 1 { return []; }
        parts := SynthesizeSpans(spans, file, depth);
    }

    method SynthesizeSpans(spans: seq<string>, file: File, depth: nat) returns (parts: seq<File>)
      requires depth < maxDepth
      modifies this`files
      ensures parts == Files(Heard(LeavesOf(engine, spans, |spans|, file, depth, maxDepth)))
      ensures files == Written(old(files), LeavesOf(engine, spans, |spans|, file, depth, maxDepth))
      decreases maxDepth - depth, 0
    {
      parts := [];
      var i := 0;
      while i < |spans|
        invariant i <= |spans|
        invariant parts == Files(Heard(LeavesOf(engine, spans, i, file, depth, maxDepth)))
        invariant files == Written(old(files), LeavesOf(engine, spans, i, file, depth, maxDepth))
      {
        ghost var done := LeavesOf(engine, spans, i, file, depth, maxDepth);
        var results := SynthesizeParts(spans[i], Sub(file, depth, i), depth + 1);
        DiskOn(old(files), done, Leaves(engine, spans[i], Sub(file, depth, i), depth + 1, maxDepth));
        parts := parts + results;
        i := i + 1;
      }
    }

    /** One file for the whole text: everything that could be spoken, in order.
        `joins` is whether joining the parts works. */
    method SynthesizeOne(text: string, out: File, joins: bool) returns (r: Result)
      modifies this`files
      ensures var heard := Heard(Leaves(engine, text, out, 0, maxDepth));
              && (r == Nothing <==> heard == []) && (r == Failed <==> |heard| > 1 && !joins)
              && (r == Audio ==> out in files && files[out] == TextOf(heard))
              && (forall f :: f in Files(heard) && f != out ==> f !in files)
              && forall f :: f !in Files(heard) && (f == out ==> r != Audio) ==>
                   (f in files <==> f in old(files)) && (f in files ==> files[f] == old(files)[f])
    {
      ghost var was := files;
      var parts := SynthesizeParts(text, out, 0);
      ghost var heard := Heard(Leaves(engine, text, out, 0, maxDepth));
      forall f ensures f !in Files(heard) ==> (f in files <==> f in was) && (f in files ==> files[f] == was[f]) {
        WalkOnDisk(engine, text, out, maxDepth, was, f);
      }
      WalkOnDisk(engine, text, out, maxDepth, was, out);
      SoundOfHeard(files, heard);
      PartsAreNotTheOutput(engine, text, out, maxDepth);
      if |parts| == 0 { return Nothing; }
      if |parts| == 1 {
        if parts[0] != out {
          var sound := files[parts[0]];
          files := (files - {parts[0]})[out := sound];
        }
        return Audio;
      }
      if joins {
        files := files[out := Sound(files, parts)];
      }
      files := Unlinked(files, parts, out);
      return if joins then Audio else Failed;
    }
  }

  function Unlinked(files: map<File, string>, parts: seq<File>, out: File): map<File, string> {
    map f | f in files && (f !in parts || f == out) :: files[f]
  }
}
