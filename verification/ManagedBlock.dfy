/**
 The block of AGENTS.md that the installer owns: rendering it, and merging it into a
 file that may or may not hold one already. Characters are code points, as in Python.
 The proofs are about any proper pair of markers; the installer's own pair is one.
 */
module ManagedBlock {
  import opened Common
  import Text

  datatype Marks = Marks(begin: string, end: string)

  const OPENING := "<!-- cogentnexus-openclaw:"
  const MARKS := Marks(OPENING + "begin -->", OPENING + "end -->")

  /** What str.strip removes. */
  predicate IsSpace(c: char) {
    '\t' <= c <= '\r' || '\U{001C}' <= c <= ' ' || c == '\U{0085}' || c == '\U{00A0}' || c == '\U{1680}' ||
    '\U{2000}' <= c <= '\U{200A}' || c == '\U{2028}' || c == '\U{2029}' || c == '\U{202F}' || c == '\U{205F}' || c == '\U{3000}'
  }

  function Strip(s: string): string {
    Text.Trim(s, IsSpace)
  }

  predicate At(s: string, part: string, i: int) {
    0 <= i && i + |part| <= |s| && s[i..i + |part|] == part
  }

  predicate Within(part: string, s: string) {
    exists i :: 0 <= i <= |s| && At(s, part, i)
  }

  /** str.find: the leftmost occurrence from `from` on, or -1. */
  function FindFrom(s: string, part: string, from: nat): (i: int)
    requires from <= |s|
    ensures i == -1 || (from <= i && At(s, part, i))
    ensures forall k :: from <= k && (i == -1 || k < i) ==> !At(s, part, k)
    decreases |s| - from
  {
    if At(s, part, from) then from
    else if from == |s| then -1
    else FindFrom(s, part, from + 1)
  }

  function Find(s: string, part: string): int {
    FindFrom(s, part, 0)
  }

  function Render(m: Marks, policy: string): string {
    Block(m, Strip(policy))
  }

  function Block(m: Marks, body: string): string {
    m.begin + "\n" + body + "\n" + m.end
  }

  predicate EndsWithNewline(s: string) {
    s != [] && s[|s| - 1] == '\n'
  }

  datatype Merged = Merged(updated: string, changed: bool)

  function MergeWith(m: Marks, existing: string, policy: string): Result<Merged, string> {
    var start, finish := Find(existing, m.begin), Find(existing, m.end);
    if ((start < 0) != (finish < 0)) || (start >= 0 && finish < start) then Err("incomplete managed block")
    else
      var updated := Placed(m, existing, Render(m, policy));
      Ok(Merged(updated, updated != existing))
  }

  /** The block put in the place of the one there is, or behind the text. */
  function Placed(m: Marks, existing: string, block: string): string
    requires Find(existing, m.begin) >= 0 ==> Find(existing, m.end) >= 0
  {
    if Find(existing, m.begin) >= 0
    then Finished(existing[..Find(existing, m.begin)] + block + existing[Find(existing, m.end) + |m.end|..])
    else Finished(Appended(existing) + block + "\n")
  }

  function Merge(existing: string, policy: string): Result<Merged, string> {
    MergeWith(MARKS, existing, policy)
  }

  /** The text without a block, ready to have one put behind it. */
  function Appended(existing: string): string {
    Text.TrimRight(existing, IsSpace) + if Strip(existing) != "" then "\n\n" else ""
  }

  function Finished(s: string): string {
    if EndsWithNewline(s) then s else s + "\n"
  }

  // ---------------------------------------------------------------- occurrences

  /** What the proofs need of the markers. */
  predicate Proper(m: Marks) {
    && '\n' !in m.begin && '\n' !in m.end
    && 0 < |m.end| < |m.begin|
    && !Within(m.end, m.begin)
    && !IsSpace(m.end[0]) && !IsSpace(m.end[|m.end| - 1])
  }

  lemma NoBreakInMarks()
    ensures '\n' !in MARKS.begin && '\n' !in MARKS.end
  {
    assert '\n' !in OPENING && '\n' !in "begin -->" && '\n' !in "end -->";
  }

  lemma EndNotInBegin()
    ensures !Within(MARKS.end, MARKS.begin)
  {
    var begin, end := MARKS.begin, MARKS.end;
    assert |OPENING| == 26 && OPENING[0] == '<' && OPENING[1] == '!' && OPENING[2] == '-';
    assert begin[1] == '!' && begin[2] == '-' && begin[26] == 'b';
    assert end[0] == '<' && end[26] == 'e';
    forall i | 0 <= i <= |begin| ensures !At(begin, end, i) {
      if At(begin, end, i) {
        CharAt(begin, end, i, i);
        if i == 0 {
          CharAt(begin, end, 0, 26);
        }
      }
    }
  }

  lemma MarksAreProper()
    ensures Proper(MARKS)
  {
    NoBreakInMarks();
    EndNotInBegin();
    assert OPENING[0] == '<' && |OPENING| == 26;
    assert MARKS.end[0] == '<' && MARKS.end[|MARKS.end| - 1] == '>';
  }

  lemma CharAt(s: string, part: string, i: int, k: int)
    requires At(s, part, i) && i <= k < i + |part|
    ensures s[k] == part[k - i]
  {
    assert s[i..i + |part|][k - i] == part[k - i];
  }

  lemma AtSuffix(a: string, b: string, part: string, i: int)
    requires 0 <= i
    ensures At(a + b, part, |a| + i) <==> At(b, part, i)
  {
    if i + |part| <= |b| {
      assert (a + b)[|a| + i..|a| + i + |part|] == b[i..i + |part|];
    }
  }

  lemma AtPrefix(a: string, b: string, part: string, i: int)
    requires i + |part| <= |a|
    ensures At(a + b, part, i) <==> At(a, part, i)
  {
    if 0 <= i {
      assert (a + b)[i..i + |part|] == a[i..i + |part|];
    }
  }

  /** A marker has no line break, so it lies on one side of each line break. */
  lemma NotAcross(a: string, b: string, part: string, i: int)
    requires '\n' !in part && part != "" && At(a + "\n" + b, part, i)
    ensures i + |part| <= |a| || |a| < i
  {
    if i <= |a| < i + |part| {
      CharAt(a + "\n" + b, part, i, |a|);
    }
  }

  /** No marker starts before `pre` ends, even when the opening marker follows. */
  predicate Clean(m: Marks, pre: string) {
    forall i :: 0 <= i < |pre| ==> !At(pre + m.begin, m.begin, i) && !At(pre + m.begin, m.end, i)
  }

  // ---------------------------------------------------------------- around the block

  predicate Mergeable(m: Marks, x: string) {
    var start, finish := Find(x, m.begin), Find(x, m.end);
    (start < 0 && finish < 0) || 0 <= start <= finish
  }

  /** The text in front of the block that a merge leaves, whatever the policy. */
  function Before(m: Marks, x: string): string
    requires Mergeable(m, x)
  {
    if Find(x, m.begin) >= 0 then x[..Find(x, m.begin)] else Appended(x)
  }

  /** The text behind it. */
  function After(m: Marks, x: string): string
    requires Mergeable(m, x)
  {
    if Find(x, m.begin) >= 0 then Finished(x[Find(x, m.end) + |m.end|..]) else "\n"
  }

  lemma BeforeIsClean(m: Marks, x: string)
    requires Proper(m) && Mergeable(m, x)
    ensures Clean(m, Before(m, x))
  {
    var pre := Before(m, x);
    var start := Find(x, m.begin);
    if start >= 0 {
      var rest := x[start + |m.begin|..];
      assert x == (pre + m.begin) + rest;
      forall i | 0 <= i < |pre| ensures !At(pre + m.begin, m.begin, i) && !At(pre + m.begin, m.end, i) {
        AtPrefix(pre + m.begin, rest, m.begin, i);
        AtPrefix(pre + m.begin, rest, m.end, i);
      }
    } else {
      AppendedIsClean(m, x);
    }
  }

  lemma AppendedIsClean(m: Marks, x: string)
    requires Proper(m) && Find(x, m.begin) < 0 && Find(x, m.end) < 0
    ensures Clean(m, Appended(x))
  {
    if Strip(x) == "" {
      BlankTrims(x);
    } else {
      var pre := Appended(x);
      forall i | 0 <= i < |pre| ensures !At(pre + m.begin, m.begin, i) && !At(pre + m.begin, m.end, i) {
        NothingAppended(x, m.begin, m.begin, i);
        NothingAppended(x, m.begin, m.end, i);
      }
    }
  }

  lemma NothingAppended(x: string, begin: string, part: string, i: int)
    requires '\n' !in part && part != "" && Find(x, part) < 0
    requires 0 <= i < |Text.TrimRight(x, IsSpace)| + 2
    ensures !At(Text.TrimRight(x, IsSpace) + "\n\n" + begin, part, i)
  {
    var body := Text.TrimRight(x, IsSpace);
    var s := body + "\n\n" + begin;
    assert s == body + "\n" + ("\n" + begin) == (body + "\n") + "\n" + begin == body + ("\n\n" + begin);
    if At(s, part, i) {
      NotAcross(body, "\n" + begin, part, i);
      NotAcross(body + "\n", begin, part, i);
      AtPrefix(body, "\n\n" + begin, part, i);
      Text.TrimRightShape(x, IsSpace);
      assert x == body + x[|body|..];
      AtPrefix(body, x[|body|..], part, i);
    }
  }

  lemma {:induction false} BlankTrims(x: string)
    requires Strip(x) == ""
    ensures Text.TrimRight(x, IsSpace) == ""
  {
    var left := Text.TrimLeft(x, IsSpace);
    Text.TrimLeftShape(x, IsSpace);
    if left != "" {
      TrimRightKeepsFirst(left);
    }
    AllSpace(x);
    Text.TrimRightShape(x, IsSpace);
  }

  lemma {:induction false} AllSpace(x: string)
    requires Text.TrimLeft(x, IsSpace) == ""
    ensures forall i :: 0 <= i < |x| ==> IsSpace(x[i])
  {
    if x != [] {
      AllSpace(x[1..]);
      assert forall i :: 0 < i < |x| ==> x[i] == x[1..][i - 1];
    }
  }

  lemma {:induction false} TrimRightKeepsFirst(s: string)
    requires s != "" && !IsSpace(s[0])
    ensures Text.TrimRight(s, IsSpace) != ""
  {
    if |s| > 1 && IsSpace(s[|s| - 1]) {
      TrimRightKeepsFirst(s[..|s| - 1]);
    }
  }

  lemma FinishedShape(pre: string, block: string, post: string)
    requires block != "" && block[|block| - 1] != '\n'
    ensures Finished(pre + block + post) == pre + block + Finished(post)
    ensures EndsWithNewline(Finished(post))
  {
    var s := pre + block + post;
    if post == "" {
      assert s == pre + block && s[|s| - 1] == block[|block| - 1];
    } else {
      assert s[|s| - 1] == post[|post| - 1];
      assert pre + block + (post + "\n") == s + "\n";
    }
  }

  /** What a merge leaves of the text around the block does not depend on the policy. */
  lemma MergeShape(m: Marks, x: string, policy: string)
    requires Proper(m)
    ensures MergeWith(m, x, policy).Ok? <==> Mergeable(m, x)
    ensures Mergeable(m, x) ==>
              MergeWith(m, x, policy).value.updated == Before(m, x) + Render(m, policy) + After(m, x) && EndsWithNewline(After(m, x))
  {
    if Mergeable(m, x) {
      var block := Render(m, policy);
      assert block[|block| - 1] == m.end[|m.end| - 1];
      PlacedShape(m, x, block);
    }
  }

  lemma PlacedShape(m: Marks, x: string, block: string)
    requires Mergeable(m, x) && block != "" && block[|block| - 1] != '\n'
    ensures Placed(m, x, block) == Before(m, x) + block + After(m, x) && EndsWithNewline(After(m, x))
  {
    if Find(x, m.begin) >= 0 {
      FinishedShape(Before(m, x), block, x[Find(x, m.end) + |m.end|..]);
    } else {
      FinishedShape(Before(m, x), block, "\n");
    }
  }

  // ---------------------------------------------------------------- merging again

  lemma NoEndInHead(m: Marks, pre: string, tail: string, i: int)
    requires Proper(m) && |pre| <= i <= |pre| + |m.begin|
    ensures !At(pre + m.begin + "\n" + tail, m.end, i)
  {
    var s := pre + m.begin + "\n" + tail;
    if At(s, m.end, i) {
      NotAcross(pre + m.begin, tail, m.end, i);
      assert s == (pre + m.begin) + ("\n" + tail);
      AtPrefix(pre + m.begin, "\n" + tail, m.end, i);
      AtSuffix(pre, m.begin, m.end, i - |pre|);
    }
  }

  lemma EndInTail(m: Marks, head: string, q: string, post: string, i: int)
    requires Proper(m) && 0 <= i <= |q|
    ensures At(head + (q + "\n" + (m.end + post)), m.end, |head| + i) <==> At(q, m.end, i)
  {
    var tail := q + "\n" + (m.end + post);
    AtSuffix(head, tail, m.end, i);
    assert tail == q + ("\n" + (m.end + post));
    if At(tail, m.end, i) {
      NotAcross(q, m.end + post, m.end, i);
    }
    if i + |m.end| <= |q| {
      AtPrefix(q, "\n" + (m.end + post), m.end, i);
    }
  }

  function EndAt(m: Marks, pre: string, q: string): nat {
    |pre| + |m.begin| + 1 + |q| + 1
  }

  /** The leftmost occurrence is where no earlier one is. */
  lemma FindIs(s: string, part: string, i: int)
    requires At(s, part, i) && forall k :: 0 <= k < i ==> !At(s, part, k)
    ensures Find(s, part) == i
  {
  }

  /** A merged text holds the opening marker where the text in front ends. */
  lemma BeginInMerged(m: Marks, pre: string, q: string, post: string)
    requires Proper(m) && Clean(m, pre)
    ensures Find(pre + Block(m, q) + post, m.begin) == |pre|
    ensures forall i :: 0 <= i < |pre| ==> !At(pre + Block(m, q) + post, m.end, i)
  {
    var rest := "\n" + q + "\n" + m.end + post;
    var y := (pre + m.begin) + rest;
    assert pre + Block(m, q) + post == y;
    forall i | 0 <= i < |pre| ensures !At(y, m.begin, i) && !At(y, m.end, i) {
      AtPrefix(pre + m.begin, rest, m.begin, i);
      AtPrefix(pre + m.begin, rest, m.end, i);
    }
    assert y[|pre|..|pre| + |m.begin|] == m.begin;
    FindIs(y, m.begin, |pre|);
  }

  /** Its first closing marker ends the block, unless the policy holds one. */
  lemma EndInMerged(m: Marks, pre: string, q: string, post: string)
    requires Proper(m) && Clean(m, pre)
    ensures var finish := Find(pre + Block(m, q) + post, m.end);
            && |pre| < finish <= EndAt(m, pre, q)
            && (finish == EndAt(m, pre, q) <==> !Within(m.end, q))
  {
    var y := pre + Block(m, q) + post;
    var head, tail := pre + m.begin + "\n", q + "\n" + (m.end + post);
    assert y == head + tail && y == pre + m.begin + "\n" + tail;
    BeginInMerged(m, pre, q, post);
    forall i | |pre| <= i < EndAt(m, pre, q) ensures At(y, m.end, i) <==> At(q, m.end, i - |head|) {
      if i < |head| {
        NoEndInHead(m, pre, tail, i);
      } else {
        EndInTail(m, head, q, post, i - |head|);
      }
    }
    assert y[EndAt(m, pre, q)..EndAt(m, pre, q) + |m.end|] == m.end;
    assert At(y, m.end, EndAt(m, pre, q));
    if Within(m.end, q) {
      var k :| 0 <= k <= |q| && At(q, m.end, k);
      assert At(y, m.end, |head| + k);
    } else {
      FindIs(y, m.end, EndAt(m, pre, q));
    }
  }

  lemma {:induction false} WithinTrimLeft(part: string, s: string)
    requires part != "" && !IsSpace(part[0])
    ensures Within(part, Text.TrimLeft(s, IsSpace)) <==> Within(part, s)
  {
    if s != [] && IsSpace(s[0]) {
      WithinTrimLeft(part, s[1..]);
      assert s == [s[0]] + s[1..];
      if Within(part, s) {
        var i :| 0 <= i <= |s| && At(s, part, i);
        CharAt(s, part, i, i);
        AtSuffix([s[0]], s[1..], part, i - 1);
      }
      if Within(part, s[1..]) {
        var i :| 0 <= i <= |s[1..]| && At(s[1..], part, i);
        AtSuffix([s[0]], s[1..], part, i);
      }
    }
  }

  lemma {:induction false} WithinTrimRight(part: string, s: string)
    requires part != "" && !IsSpace(part[|part| - 1])
    ensures Within(part, Text.TrimRight(s, IsSpace)) <==> Within(part, s)
  {
    if s != [] && IsSpace(s[|s| - 1]) {
      var t := s[..|s| - 1];
      WithinTrimRight(part, t);
      assert s == t + [s[|s| - 1]];
      if Within(part, s) {
        var i :| 0 <= i <= |s| && At(s, part, i);
        CharAt(s, part, i, i + |part| - 1);
        AtPrefix(t, [s[|s| - 1]], part, i);
      }
      if Within(part, t) {
        var i :| 0 <= i <= |t| && At(t, part, i);
        AtPrefix(t, [s[|s| - 1]], part, i);
      }
    }
  }

  /** The text around the block after a merge: the same in front, and behind exactly when the policy holds no closing marker. */
  lemma AroundMerged(m: Marks, x: string, policy: string)
    requires Proper(m) && Mergeable(m, x)
    ensures var y := Before(m, x) + Render(m, policy) + After(m, x);
            && Mergeable(m, y) && Before(m, y) == Before(m, x)
            && (!Within(m.end, policy) ==> After(m, y) == After(m, x))
            && (Within(m.end, policy) ==> |After(m, y)| > |After(m, x)|)
  {
    MergeShape(m, x, policy);
    BeforeIsClean(m, x);
    AroundBlock(m, Before(m, x), Strip(policy), After(m, x));
    WithinStripped(m.end, policy);
  }

  lemma AroundBlock(m: Marks, pre: string, q: string, post: string)
    requires Proper(m) && Clean(m, pre) && EndsWithNewline(post)
    ensures var y := pre + Block(m, q) + post;
            && Mergeable(m, y) && Before(m, y) == pre
            && (!Within(m.end, q) ==> After(m, y) == post)
            && (Within(m.end, q) ==> |After(m, y)| > |post|)
  {
    var y := pre + Block(m, q) + post;
    BeginInMerged(m, pre, q, post);
    EndInMerged(m, pre, q, post);
    var finish := Find(y, m.end);
    assert pre <= y;
    AroundIs(m, y, pre, finish);
    TailOfMerged(m, pre, q, post, finish);
  }

  lemma AroundIs(m: Marks, y: string, pre: string, finish: int)
    requires pre <= y && Find(y, m.begin) == |pre| < finish == Find(y, m.end)
    ensures Mergeable(m, y) && Before(m, y) == pre && After(m, y) == Finished(y[finish + |m.end|..])
  {
  }

  lemma TailOfMerged(m: Marks, pre: string, q: string, post: string, finish: nat)
    requires EndsWithNewline(post) && finish <= EndAt(m, pre, q)
    ensures finish + |m.end| <= |pre + Block(m, q) + post|
    ensures var tail := (pre + Block(m, q) + post)[finish + |m.end|..];
            && EndsWithNewline(tail)
            && (finish == EndAt(m, pre, q) ==> tail == post)
            && (finish < EndAt(m, pre, q) ==> |tail| > |post|)
  {
    var y := pre + Block(m, q) + post;
    var tail := y[finish + |m.end|..];
    assert tail[|tail| - 1] == y[|y| - 1] == post[|post| - 1];
  }

  /** Stripping neither removes nor adds a marker. */
  lemma WithinStripped(part: string, s: string)
    requires part != "" && !IsSpace(part[0]) && !IsSpace(part[|part| - 1])
    ensures Within(part, Strip(s)) <==> Within(part, s)
  {
    WithinTrimLeft(part, s);
    WithinTrimRight(part, Text.TrimLeft(s, IsSpace));
  }

  lemma LastWriterWinsWith(m: Marks, x: string, p1: string, p2: string)
    requires Proper(m) && Mergeable(m, x)
    ensures MergeWith(m, x, p1).Ok? && MergeWith(m, x, p2).Ok? && MergeWith(m, MergeWith(m, x, p1).value.updated, p2).Ok?
    ensures MergeWith(m, MergeWith(m, x, p1).value.updated, p2).value.updated == MergeWith(m, x, p2).value.updated <==>
              !Within(m.end, p1)
  {
    MergeShape(m, x, p1);
    MergeShape(m, x, p2);
    AroundMerged(m, x, p1);
    var y := MergeWith(m, x, p1).value.updated;
    MergeShape(m, y, p2);
    if Within(m.end, p1) {
      assert |Before(m, y) + Render(m, p2) + After(m, y)| > |Before(m, x) + Render(m, p2) + After(m, x)|;
    }
  }

  // ---------------------------------------------------------------- the installer's markers

  /**
   The last writer wins: merging p1 and then p2 is merging p2, for every text a merge
   accepts, exactly when p1 does not itself hold the closing marker.
   */
  lemma LastWriterWins(x: string, p1: string, p2: string)
    requires Merge(x, p1).Ok?
    ensures Merge(x, p2).Ok? && Merge(Merge(x, p1).value.updated, p2).Ok?
    ensures Merge(Merge(x, p1).value.updated, p2).value.updated == Merge(x, p2).value.updated <==> !Within(MARKS.end, p1)
  {
    MarksAreProper();
    MergeShape(MARKS, x, p1);
    LastWriterWinsWith(MARKS, x, p1, p2);
  }

  /** Merging the same policy again changes nothing, exactly when it does not hold the closing marker. */
  lemma MergeTwice(x: string, policy: string)
    requires Merge(x, policy).Ok?
    ensures Merge(Merge(x, policy).value.updated, policy).Ok?
    ensures !Merge(Merge(x, policy).value.updated, policy).value.changed <==> !Within(MARKS.end, policy)
  {
    LastWriterWins(x, policy, policy);
  }

  /** The text around an existing block is kept, up to a line break added at the very end. */
  lemma SurroundingsKept(x: string, policy: string)
    ensures Merge(x, policy).Ok? && Find(x, MARKS.begin) >= 0 ==>
              0 <= Find(x, MARKS.end) && Find(x, MARKS.end) + |MARKS.end| <= |x| &&
              var tail := x[Find(x, MARKS.end) + |MARKS.end|..];
              Merge(x, policy).value.updated ==
                x[..Find(x, MARKS.begin)] + Render(MARKS, policy) + tail + if tail != "" && tail[|tail| - 1] == '\n' then "" else "\n"
  {
    MarksAreProper();
    MergeShape(MARKS, x, policy);
    if Merge(x, policy).Ok? && Find(x, MARKS.begin) >= 0 {
      var tail := x[Find(x, MARKS.end) + |MARKS.end|..];
      assert Finished(tail) == tail + if tail != "" && tail[|tail| - 1] == '\n' then "" else "\n";
    }
  }

  /**
   The first install: the whole text is kept in front of the block, up to white space at its
   end. An empty line separates the two when the text holds anything but white space.
   */
  lemma FirstInstall(x: string, policy: string) returns (kept: string, sep: string)
    requires Merge(x, policy).Ok? && !Within(MARKS.begin, x)
    ensures Merge(x, policy).value.updated == kept + sep + Render(MARKS, policy) + "\n"
    ensures kept <= x && Text.Blank(x[|kept|..], IsSpace)
    ensures kept == "" || !IsSpace(kept[|kept| - 1])
    ensures sep == if Text.Blank(x, IsSpace) then "" else "\n\n"
    ensures Merge(x, policy).value.changed
  {
    MarksAreProper();
    kept, sep := FirstInstallWith(MARKS, x, policy);
    assert Find(x, MARKS.begin) < 0;
  }

  lemma FirstInstallWith(m: Marks, x: string, policy: string) returns (kept: string, sep: string)
    requires MergeWith(m, x, policy).Ok? && !Within(m.begin, x)
    ensures MergeWith(m, x, policy).value.updated == kept + sep + Render(m, policy) + "\n"
    ensures kept <= x && Text.Blank(x[|kept|..], IsSpace)
    ensures kept == "" || !IsSpace(kept[|kept| - 1])
    ensures sep == if Text.Blank(x, IsSpace) then "" else "\n\n"
    ensures MergeWith(m, x, policy).value.changed
  {
    kept := Text.TrimRight(x, IsSpace);
    Text.TrimRightShape(x, IsSpace);
    BlankIff(x);
    sep := if Text.Blank(x, IsSpace) then "" else "\n\n";
    assert Placed(m, x, Render(m, policy)) == kept + sep + Render(m, policy) + "\n";
    HoldsMarker(m, kept + sep, policy);
  }

  lemma HoldsMarker(m: Marks, front: string, policy: string)
    ensures Within(m.begin, front + Render(m, policy) + "\n")
  {
    var y := front + Render(m, policy) + "\n";
    assert y[|front|..|front| + |m.begin|] == m.begin;
    assert At(y, m.begin, |front|);
  }

  lemma BlankIff(x: string)
    ensures Strip(x) == "" <==> Text.Blank(x, IsSpace)
  {
    Text.TrimShape(x, IsSpace);
    var front, back := Text.TrimKeeps(x, IsSpace);
    if Strip(x) != "" {
      assert x[|front|] == Strip(x)[0];
    }
  }

  /** The block is the policy, without white space around it, on lines of its own between the markers. */
  lemma RenderedBlock(policy: string) returns (body: string, front: string, back: string)
    ensures Render(MARKS, policy) == MARKS.begin + "\n" + body + "\n" + MARKS.end
    ensures policy == front + body + back && Text.Blank(front, IsSpace) && Text.Blank(back, IsSpace)
    ensures body == "" || (!IsSpace(body[0]) && !IsSpace(body[|body| - 1]))
  {
    body := Strip(policy);
    front, back := Text.TrimKeeps(policy, IsSpace);
    Text.TrimShape(policy, IsSpace);
  }

  /** A policy that is the closing marker itself: merging it again adds a second one. */
  lemma MarkerInPolicy()
    ensures Merge("", MARKS.end).Ok?
    ensures Merge(Merge("", MARKS.end).value.updated, MARKS.end).Ok?
    ensures Merge(Merge("", MARKS.end).value.updated, MARKS.end).value.changed
  {
    assert Find("", MARKS.begin) < 0 && Find("", MARKS.end) < 0;
    assert At(MARKS.end, MARKS.end, 0);
    MergeTwice("", MARKS.end);
  }
}
