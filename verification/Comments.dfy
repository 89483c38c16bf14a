/**
 * cpplint's removal of multi-line comments, in place on the array of lines.
 *
 * The specification goes line by line: `Within` says whether a comment is open before a line,
 * and a line is hidden when it is part of a comment that is closed somewhere.  The method
 * searches forward for whole ranges instead; it is proved to hide exactly these lines.
 */
module Comments {
  import opened Options
  import opened Text

  const PLACEHOLDER := "/**/"

  /** The line begins a comment that goes beyond it. */
  predicate Starts(line: string) {
    var t := Strip(line);
    StartsWith(t, "/*") && Find(t, "*/", 2) == None
  }

  predicate Ends(line: string) { EndsWith(Strip(line), "*/") }

  /** All that matters of a line. */
  datatype Mark = Mark(starts: bool, ends: bool)

  function MarkOf(line: string): Mark { Mark(Starts(line), Ends(line)) }

  function Marks(lines: seq<string>): seq<Mark> {
    seq(|lines|, i requires 0 <= i < |lines| => MarkOf(lines[i]))
  }

  predicate NoEnd(marks: seq<Mark>, from: nat, to: nat)
    requires to <= |marks|
  {
    forall k | from <= k < to :: !marks[k].ends
  }

  predicate Opens(marks: seq<Mark>, b: nat, i: nat)
    requires b < i <= |marks|
  {
    marks[b].starts && NoEnd(marks, b, i)
  }

  /** A comment is open just before line `i`: one has started, and no line since has an end. */
  predicate Within(marks: seq<Mark>, i: nat)
    requires i <= |marks|
  {
    exists b: nat | b < i :: Opens(marks, b, i)
  }

  predicate NoStart(marks: seq<Mark>, from: nat, to: nat)
    requires to <= |marks|
  {
    forall k | from <= k < to :: !marks[k].starts
  }

  /** Line `i` belongs to a comment, and the comment is closed. */
  predicate Hidden(marks: seq<Mark>, i: nat)
    requires i < |marks|
  {
    (Within(marks, i) || marks[i].starts) && !NoEnd(marks, i, |marks|)
  }

  function MaskedLine(lines: seq<string>, i: nat): string
    requires i < |lines|
  {
    if Hidden(Marks(lines), i) then PLACEHOLDER else lines[i]
  }

  function Masked(lines: seq<string>): seq<string> {
    seq(|lines|, i requires 0 <= i < |lines| => MaskedLine(lines, i))
  }

  /** The comment that begins at line `b` is never closed. */
  predicate Unclosed(marks: seq<Mark>, b: nat) {
    b < |marks| && !Within(marks, b) && marks[b].starts && NoEnd(marks, b, |marks|)
  }

  /** Exactly the hidden lines are replaced; an error is reported, with its line, exactly if a comment stays open. */
  ghost predicate Removed(was: seq<string>, now: seq<string>, error: Option<nat>) {
    && now == Masked(was)
    && (error.Some? <==> Within(Marks(was), |was|))
    && (error.Some? ==> error.value > 0 && Unclosed(Marks(was), error.value - 1))
  }

  // ----- The program

  function Filled(lines: seq<string>, begin: nat, end: nat): seq<string> {
    seq(|lines|, i requires 0 <= i < |lines| => if begin <= i < end then PLACEHOLDER else lines[i])
  }

  method FindNextMultiLineCommentStart(lines: array<string>, lineix: nat) returns (r: nat)
    requires lineix <= lines.Length
    ensures lineix <= r <= lines.Length
    ensures NoStart(Marks(lines[..]), lineix, r)
    ensures r < lines.Length ==> Marks(lines[..])[r].starts
  {
    ghost var marks := Marks(lines[..]);
    r := lineix;
    while r < lines.Length
      invariant lineix <= r <= lines.Length
      invariant NoStart(marks, lineix, r)
    {
      assert marks[r] == MarkOf(lines[r]);
      if StartsWith(Strip(lines[r]), "/*") {
        if Find(Strip(lines[r]), "*/", 2) == None {
          return;
        }
      }
      r := r + 1;
    }
  }

  method FindNextMultiLineCommentEnd(lines: array<string>, lineix: nat) returns (r: nat)
    requires lineix <= lines.Length
    ensures lineix <= r <= lines.Length
    ensures NoEnd(Marks(lines[..]), lineix, r)
    ensures r < lines.Length ==> Marks(lines[..])[r].ends
  {
    ghost var marks := Marks(lines[..]);
    r := lineix;
    while r < lines.Length
      invariant lineix <= r <= lines.Length
      invariant NoEnd(marks, lineix, r)
    {
      assert marks[r] == MarkOf(lines[r]);
      if EndsWith(Strip(lines[r]), "*/") {
        return;
      }
      r := r + 1;
    }
  }

  method RemoveMultiLineCommentsFromRange(lines: array<string>, begin: nat, end: nat)
    requires begin <= end <= lines.Length
    modifies lines
    ensures lines[..] == Filled(old(lines[..]), begin, end)
  {
    for i := begin to end
      invariant forall j | 0 <= j < lines.Length ::
                  lines[j] == if begin <= j < i then PLACEHOLDER else old(lines[j])
    {
      lines[i] := PLACEHOLDER;
    }
  }

  lemma StaysOutside(marks: seq<Mark>, i: nat, j: nat)
    requires i <= j <= |marks| && !Within(marks, i)
    requires NoStart(marks, i, j)
    ensures !Within(marks, j)
  {
    forall b: nat | b < j && Opens(marks, b, j)
      ensures Within(marks, i)
    {
      assert Opens(marks, b, i);
    }
  }

  lemma StaysInside(marks: seq<Mark>, b: nat, j: nat)
    requires b < j <= |marks| && marks[b].starts && NoEnd(marks, b, j)
    ensures Within(marks, j)
  {
    assert Opens(marks, b, j);
  }

  /** The lines before the next start are not hidden. */
  lemma OutsideIsVisible(marks: seq<Mark>, i: nat, b: nat)
    requires i <= b <= |marks| && !Within(marks, i)
    requires NoStart(marks, i, b)
    ensures !Within(marks, b) && forall k | i <= k < b :: !Hidden(marks, k)
  {
    forall k | i <= k <= b
      ensures !Within(marks, k)
    {
      StaysOutside(marks, i, k);
    }
  }

  /** The lines from a start to the first end are hidden, and then no comment is open. */
  lemma RangeIsHidden(marks: seq<Mark>, b: nat, e: nat)
    requires b <= e < |marks| && marks[b].starts && marks[e].ends && NoEnd(marks, b, e)
    ensures !Within(marks, e + 1) && forall k | b <= k <= e :: Hidden(marks, k)
  {
    forall k | b <= k <= e
      ensures Hidden(marks, k)
    {
      if b < k { StaysInside(marks, b, k); }
    }
  }

  lemma UnclosedIsVisible(marks: seq<Mark>, b: nat)
    requires Unclosed(marks, b)
    ensures Within(marks, |marks|) && forall k | b <= k < |marks| :: !Hidden(marks, k)
  {
    StaysInside(marks, b, |marks|);
  }

  /** The first `n` lines are done, no comment is open there, and the rest is as it was. */
  ghost predicate MaskedUpTo(was: seq<string>, now: seq<string>, n: nat) {
    && n <= |was| == |now| && !Within(Marks(was), n)
    && (forall i | 0 <= i < n :: now[i] == MaskedLine(was, i))
    && (forall i | n <= i < |was| :: now[i] == was[i])
  }

  lemma NothingYet(was: seq<string>)
    ensures MaskedUpTo(was, was, 0)
    ensures |was| == 0 ==> Removed(was, was, None)
  {
  }

  lemma SameMarks(was: seq<string>, now: seq<string>, n: nat)
    requires MaskedUpTo(was, now, n)
    ensures |Marks(was)| == |Marks(now)| && forall i | n <= i < |was| :: Marks(now)[i] == Marks(was)[i]
  {
  }

  lemma SkipsToStart(was: seq<string>, now: seq<string>, n: nat, b: nat)
    requires MaskedUpTo(was, now, n) && n <= b <= |now| && NoStart(Marks(now), n, b)
    ensures MaskedUpTo(was, now, b)
    ensures b == |now| ==> Removed(was, now, None)
  {
    SameMarks(was, now, n);
    OutsideIsVisible(Marks(was), n, b);
  }

  lemma StaysOpen(was: seq<string>, now: seq<string>, b: nat)
    requires MaskedUpTo(was, now, b) && b < |now| && Marks(now)[b].starts && NoEnd(Marks(now), b, |now|)
    ensures Removed(was, now, Some(b + 1))
  {
    SameMarks(was, now, b);
    UnclosedIsVisible(Marks(was), b);
  }

  lemma ClosesRange(was: seq<string>, now: seq<string>, b: nat, e: nat)
    requires MaskedUpTo(was, now, b) && b <= e < |now|
    requires Marks(now)[b].starts && NoEnd(Marks(now), b, e) && Marks(now)[e].ends
    ensures MaskedUpTo(was, Filled(now, b, e + 1), e + 1)
    ensures e + 1 == |now| ==> Removed(was, Filled(now, b, e + 1), None)
  {
    SameMarks(was, now, b);
    RangeIsHidden(Marks(was), b, e);
  }

  method RemoveMultiLineComments(lines: array<string>) returns (error: Option<nat>)
    modifies lines
    ensures Removed(old(lines[..]), lines[..], error)
  {
    ghost var was := lines[..];
    NothingYet(was);
    var lineix := 0;
    while lineix < lines.Length
      invariant MaskedUpTo(was, lines[..], lineix)
      invariant lineix == lines.Length ==> Removed(was, lines[..], None)
    {
      var begin := FindNextMultiLineCommentStart(lines, lineix);
      SkipsToStart(was, lines[..], lineix, begin);
      if begin >= lines.Length {
        return None;
      }
      var end := FindNextMultiLineCommentEnd(lines, begin);
      if end >= lines.Length {
        StaysOpen(was, lines[..], begin);
        return Some(begin + 1);
      }
      ghost var now := lines[..];
      RemoveMultiLineCommentsFromRange(lines, begin, end + 1);
      ClosesRange(was, now, begin, end);
      lineix := end + 1;
    }
    return None;
  }

  // ----- Which lines it replaces

  predicate IsRange(marks: seq<Mark>, b: nat, e: nat) {
    && b <= e < |marks|
    && !Within(marks, b) && marks[b].starts && marks[e].ends && NoEnd(marks, b, e)
  }

  lemma {:induction false} BeginOf(marks: seq<Mark>, i: nat) returns (b: nat)
    requires i < |marks| && (Within(marks, i) || marks[i].starts)
    ensures b <= i && !Within(marks, b) && marks[b].starts && NoEnd(marks, b, i)
  {
    if Within(marks, i) {
      var c: nat :| c < i && Opens(marks, c, i);
      b := BeginOf(marks, c);
    } else {
      b := i;
    }
  }

  lemma {:induction false} FirstEnd(marks: seq<Mark>, i: nat) returns (e: nat)
    requires !NoEnd(marks, i, |marks|)
    ensures i <= e < |marks| && marks[e].ends && NoEnd(marks, i, e)
    decreases |marks| - i
  {
    if marks[i].ends { e := i; } else { e := FirstEnd(marks, i + 1); }
  }

  /** A line is replaced if and only if it lies between the start of a comment and the first end from there on. */
  lemma HiddenIffInRange(marks: seq<Mark>, i: nat)
    requires i < |marks|
    ensures Hidden(marks, i) <==> exists b: nat, e: nat :: IsRange(marks, b, e) && b <= i <= e
  {
    if Hidden(marks, i) {
      var b := BeginOf(marks, i);
      var e := FirstEnd(marks, i);
      assert IsRange(marks, b, e);
    }
    forall b: nat, e: nat | IsRange(marks, b, e) && b <= i <= e
      ensures Hidden(marks, i)
    {
      RangeIsHidden(marks, b, e);
    }
  }

  /** At most one comment is unclosed, and then the lines end inside it. */
  lemma UnclosedIsLast(marks: seq<Mark>, b: nat, c: nat)
    requires Unclosed(marks, b)
    ensures Within(marks, |marks|)
    ensures Unclosed(marks, c) ==> c == b
  {
    StaysInside(marks, b, |marks|);
    if Unclosed(marks, c) {
      if b < c { StaysInside(marks, b, c); }
      if c < b { StaysInside(marks, c, b); }
    }
  }

  // ----- What it leaves

  /** The marks after the removal: a placeholder begins nothing, but would end a comment. */
  function MaskedMark(marks: seq<Mark>, i: nat): Mark
    requires i < |marks|
  {
    if Hidden(marks, i) then Mark(false, true) else marks[i]
  }

  function MaskedMarks(marks: seq<Mark>): seq<Mark> {
    seq(|marks|, i requires 0 <= i < |marks| => MaskedMark(marks, i))
  }

  lemma MarksOfMasked(lines: seq<string>)
    ensures Marks(Masked(lines)) == MaskedMarks(Marks(lines))
  {
  }

  /** A start that is left stands in an unclosed comment: without an error none is left. */
  lemma NoStartIsLeft(lines: seq<string>, i: nat)
    requires i < |lines| && Starts(Masked(lines)[i])
    ensures Within(Marks(lines), |lines|) && NoEnd(Marks(lines), i, |lines|)
  {
    MarksOfMasked(lines);
    var marks := Marks(lines);
    assert MaskedMarks(marks)[i] == MarkOf(Masked(lines)[i]);
    StaysInside(marks, i, |marks|);
  }

  lemma WithinMasked(marks: seq<Mark>, i: nat)
    requires i <= |marks|
    ensures Within(MaskedMarks(marks), i) <==> Within(marks, i) && NoEnd(marks, i, |marks|)
  {
    var masked := MaskedMarks(marks);
    if Within(masked, i) {
      var b: nat :| b < i && Opens(masked, b, i);
      assert !Hidden(marks, b);
      StaysInside(marks, b, i);
    }
    if Within(marks, i) && NoEnd(marks, i, |marks|) {
      var b: nat :| b < i && Opens(marks, b, i);
      NoEndStays(marks, b);
      StaysInside(masked, b, i);
    }
  }

  lemma NoEndStays(marks: seq<Mark>, i: nat)
    requires i <= |marks| && NoEnd(marks, i, |marks|)
    ensures NoEnd(MaskedMarks(marks), i, |marks|)
  {
  }

  /** What is left of comments has no end, so nothing is hidden in a second pass. */
  lemma NothingIsHiddenAgain(marks: seq<Mark>, i: nat)
    requires i < |marks|
    ensures !Hidden(MaskedMarks(marks), i)
  {
    WithinMasked(marks, i);
    if NoEnd(marks, i, |marks|) { NoEndStays(marks, i); }
  }

  lemma UnclosedAgain(marks: seq<Mark>, b: nat)
    ensures Unclosed(MaskedMarks(marks), b) <==> Unclosed(marks, b)
  {
    if b < |marks| {
      WithinMasked(marks, b);
      if NoEnd(marks, b, |marks|) { NoEndStays(marks, b); }
      if Unclosed(MaskedMarks(marks), b) {
        assert !Hidden(marks, b);
      }
    }
  }

  lemma MaskedAgain(lines: seq<string>)
    ensures Masked(Masked(lines)) == Masked(lines)
  {
    var masked := Masked(lines);
    forall i | 0 <= i < |lines|
      ensures MaskedLine(masked, i) == masked[i]
    {
      MarksOfMasked(lines);
      NothingIsHiddenAgain(Marks(lines), i);
    }
  }

  /** A second pass changes nothing and reports the same, whether or not there was an error. */
  lemma Idempotent(lines: seq<string>, b: nat)
    ensures Masked(Masked(lines)) == Masked(lines)
    ensures Unclosed(Marks(Masked(lines)), b) <==> Unclosed(Marks(lines), b)
    ensures Within(Marks(Masked(lines)), |lines|) <==> Within(Marks(lines), |lines|)
  {
    MarksOfMasked(lines);
    UnclosedAgain(Marks(lines), b);
    WithinMasked(Marks(lines), |lines|);
    MaskedAgain(lines);
  }
}
