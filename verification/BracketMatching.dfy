/**
 * The bracket matchers of cpplint: `CloseExpression` scans forward over lines,
 * `ReverseCloseExpression` scans backward, and `GetTextInside` is a second forward
 * matcher over one text.  All three treat `<` and `>` heuristically or not at all;
 * what they find from a round, square or curly bracket is shown to be exactly the
 * partner bracket of the grammar in `Dyck`, so that they agree with each other.
 */
module BracketMatching {
  import opened Dyck
  import opened Options
  import opened Text

  // ----- The regular expressions of the heuristics

  /** `\boperator\s*$` is found in `s`. */
  predicate EndsWithOperator(s: string) {
    var t := StripRight(s);
    |t| >= 8 && t[|t| - 8..] == "operator" && (|t| == 8 || !IsWordChar(t[|t| - 9]))
  }

  /** `\s>=\s` matches the line from the character before position `i`. */
  predicate IsSpacedGreaterEqual(line: string, i: nat)
    requires 0 < i < |line|
  {
    i + 2 < |line| && IsSpace(line[i - 1]) && line[i] == '>' && line[i + 1] == '=' && IsSpace(line[i + 2])
  }

  function Top(st: string): char
    requires st != ""
  {
    st[|st| - 1]
  }

  function Pop(st: string): string
    requires st != ""
  {
    st[..|st| - 1]
  }

  /** The stack without its topmost run of `c`. */
  function PopAll(st: string, c: char): string {
    if st != "" && Top(st) == c then PopAll(Pop(st), c) else st
  }

  // ----- Scanning forward

  datatype Scan = Found(pos: nat) | Unclosed | More(stack: string)

  /** One character, given whether the text before it makes it part of `<<`, `->` or an operator name. */
  function ForwardChar(line: string, i: nat, st: string): Scan
    requires i < |line|
  {
    ForwardToken(line[i], i,
                 i > 0 && line[i - 1] == '<',
                 i > 0 && EndsWithOperator(line[..i]),
                 i > 0 && (line[i - 1] == '-' || EndsWithOperator(line[..i - 1])),
                 st)
  }

  function ForwardToken(c: char, i: nat, shift: bool, operatorLess: bool, notGreater: bool, st: string): Scan {
    if IsOpen(c) then More(st + [c])
    else if c == '<' then
      if shift then
        if st != "" && Top(st) == '<' then
          if |st| == 1 then Unclosed else More(Pop(st))
        else More(st)
      else if operatorLess then More(st)
      else More(st + ['<'])
    else if IsClose(c) then
      var rest := PopAll(st, '<');
      if rest == "" || !IsOpen(Top(rest)) || Closer(Top(rest)) != c then Unclosed
      else if |rest| == 1 then Found(i + 1)
      else More(Pop(rest))
    else if c == '>' then
      if notGreater then More(st)
      else if st != "" && Top(st) == '<' then
        if |st| == 1 then Found(i + 1) else More(Pop(st))
      else More(st)
    else if c == ';' then
      if PopAll(st, '<') == "" then Unclosed else More(PopAll(st, '<'))
    else More(st)
  }

  function ForwardScan(line: string, i: nat, st: string): Scan
    decreases |line| - i
  {
    if i >= |line| then More(st)
    else
      match ForwardChar(line, i, st)
      case More(st') => ForwardScan(line, i + 1, st')
      case other => other
  }

  /** Where the scan from (l, i) ends: the line and the position just past the closer. */
  function ForwardLines(lines: seq<string>, l: nat, i: nat, st: string): (r: Option<(nat, nat)>)
    requires l < |lines|
    decreases |lines| - l
  {
    match ForwardScan(lines[l], i, st)
    case Found(p) => Some((l, p))
    case Unclosed => None
    case More(st') => if st' == "" || l + 1 == |lines| then None else ForwardLines(lines, l + 1, 0, st')
  }

  method FindEndOfExpressionInLine(line: string, startpos: nat, stack: string)
    returns (pos: int, rest: Option<string>)
    ensures match ForwardScan(line, startpos, stack)
            case Found(p) => pos == p && rest == None
            case Unclosed => pos == -1 && rest == None
            case More(st) => pos == -1 && rest == Some(st)
  {
    var st := stack;
    var i := startpos;
    while i < |line|
      invariant startpos <= i
      invariant ForwardScan(line, startpos, stack) == ForwardScan(line, i, st)
      decreases |line| - i
    {
      var c := line[i];
      if IsOpen(c) {
        st := st + [c];
      } else if c == '<' {
        if i > 0 && line[i - 1] == '<' {
          if st != "" && Top(st) == '<' {
            st := Pop(st);
            if st == "" { return -1, None; }
          }
        } else if i > 0 && EndsWithOperator(line[..i]) {
        } else {
          st := st + ['<'];
        }
      } else if IsClose(c) {
        st := DropPending(st, '<');
        if st == "" { return -1, None; }
        if IsOpen(Top(st)) && Closer(Top(st)) == c {
          st := Pop(st);
          if st == "" { return i + 1, None; }
        } else {
          return -1, None;
        }
      } else if c == '>' {
        if i > 0 && (line[i - 1] == '-' || EndsWithOperator(line[..i - 1])) {
        } else if st != "" && Top(st) == '<' {
          st := Pop(st);
          if st == "" { return i + 1, None; }
        }
      } else if c == ';' {
        st := DropPending(st, '<');
        if st == "" { return -1, None; }
      }
      i := i + 1;
    }
    return -1, Some(st);
  }

  /** Pops pending `c`s, which turned out to be operators. */
  method DropPending(stack: string, c: char) returns (st: string)
    ensures st == PopAll(stack, c)
  {
    st := stack;
    while st != "" && Top(st) == c
      invariant PopAll(stack, c) == PopAll(st, c)
      decreases |st|
    {
      st := Pop(st);
    }
  }

  method CloseExpression(lines: seq<string>, linenum: nat, pos: nat)
    returns (line: string, endLine: int, endPos: int)
    requires linenum < |lines| && pos < |lines[linenum]|
    ensures IsOpen(lines[linenum][pos]) && endPos >= 0 ==>
              endPos >= 1 && endLine >= 0 && Matched(lines, linenum, pos, endLine, endPos - 1)
    ensures IsOpen(lines[linenum][pos]) && endPos < 0 ==>
              forall l: nat, q: nat :: !Matched(lines, linenum, pos, l, q)
    ensures lines[linenum][pos] == '<' && !IsShiftOrLessEqual(lines[linenum], pos) ==>
              match ForwardLines(lines, linenum, pos, "")
              case Some(end) => end == (endLine, endPos)
              case None => endPos < 0
    ensures !IsOpen(lines[linenum][pos]) && (lines[linenum][pos] != '<' || IsShiftOrLessEqual(lines[linenum], pos)) ==>
              endPos < 0
    ensures endPos >= 0 ==> 0 <= endLine < |lines| && line == lines[endLine]
    ensures endPos < 0 ==> endPos == -1 && endLine == |lines| && line in lines
  {
    line := lines[linenum];
    if (!IsOpen(line[pos]) && line[pos] != '<') || IsShiftOrLessEqual(line, pos) {
      return line, |lines|, -1;
    }
    PartnersAsScanned(lines, linenum, pos);
    var num := linenum;
    var stack: Option<string>;
    endPos, stack := FindEndOfExpressionInLine(line, pos, "");
    if endPos > -1 {
      assert ScanFinds(lines, linenum, pos, num, endPos);
      return line, num, endPos;
    }
    while stack.Some? && stack.value != "" && num < |lines| - 1
      invariant linenum <= num < |lines| && line == lines[num]
      invariant ForwardLines(lines, linenum, pos, "") ==
                if stack.None? || stack.value == "" || num + 1 == |lines| then None
                else ForwardLines(lines, num + 1, 0, stack.value)
      decreases |lines| - num
    {
      num := num + 1;
      line := lines[num];
      endPos, stack := FindEndOfExpressionInLine(line, 0, stack.value);
      if endPos > -1 {
        assert ScanFinds(lines, linenum, pos, num, endPos);
        return line, num, endPos;
      }
    }
    return line, |lines|, -1;
  }

  ghost predicate ScanFinds(lines: seq<string>, l: nat, p: nat, l2: nat, e: nat)
    requires l < |lines|
  {
    ForwardLines(lines, l, p, "") == Some((l2, e))
  }

  lemma PartnersAsScanned(lines: seq<string>, l: nat, p: nat)
    requires l < |lines| && p < |lines[l]|
    ensures IsOpen(lines[l][p]) ==>
              && (forall l2: nat, e: nat :: ScanFinds(lines, l, p, l2, e) ==> e >= 1 && Matched(lines, l, p, l2, e - 1))
              && (forall l2: nat, q: nat :: Matched(lines, l, p, l2, q) ==> ScanFinds(lines, l, p, l2, q + 1))
  {
    if IsOpen(lines[l][p]) {
      forall l2: nat, e: nat
        ensures ScanFinds(lines, l, p, l2, e) ==> e >= 1 && Matched(lines, l, p, l2, e - 1)
      {
        ForwardFindsPartner(lines, l, p, l2, e);
      }
      forall l2: nat, q: nat
        ensures Matched(lines, l, p, l2, q) ==> ScanFinds(lines, l, p, l2, q + 1)
      {
        ForwardFindsPartner(lines, l, p, l2, q + 1);
      }
    }
  }

  /** `<[<=]` matches at `pos`. */
  predicate IsShiftOrLessEqual(line: string, pos: nat) {
    pos + 1 < |line| && line[pos] == '<' && (line[pos + 1] == '<' || line[pos + 1] == '=')
  }

  // ----- Scanning backward

  datatype BackScan = BackFound(pos: nat) | BackUnclosed | BackMore(stack: string, next: int)

  predicate SkipsBefore(line: string, i: nat)
    requires i < |line|
  {
    i > 0 && (line[i - 1] == '-' || IsSpacedGreaterEqual(line, i) || EndsWithOperator(line[..i]))
  }

  function BackwardChar(line: string, i: nat, st: string): BackScan
    requires i < |line|
  {
    BackwardToken(line[i], i, i > 0 && line[i - 1] == '<', SkipsBefore(line, i), st)
  }

  function BackwardToken(c: char, i: nat, shift: bool, notGreater: bool, st: string): BackScan {
    if IsClose(c) then BackMore(st + [c], i - 1)
    else if c == '>' then
      if notGreater then BackMore(st, i - 2) else BackMore(st + ['>'], i - 1)
    else if c == '<' then
      if shift then BackMore(st, i - 2)
      else if st != "" && Top(st) == '>' then
        if |st| == 1 then BackFound(i) else BackMore(Pop(st), i - 1)
      else BackMore(st, i - 1)
    else if IsOpen(c) then
      var rest := PopAll(st, '>');
      if rest == "" || Closer(c) != Top(rest) then BackUnclosed
      else if |rest| == 1 then BackFound(i)
      else BackMore(Pop(rest), i - 1)
    else if c == ';' then
      if PopAll(st, '>') == "" then BackUnclosed else BackMore(PopAll(st, '>'), i - 1)
    else BackMore(st, i - 1)
  }

  function BackwardScan(line: string, i: int, st: string): BackScan
    requires -2 <= i < |line|
    decreases i + 2
  {
    if i < 0 then BackMore(st, -1)
    else
      match BackwardChar(line, i, st)
      case BackMore(st', next) => BackwardScan(line, next, st')
      case other => other
  }

  /** Where the backward scan from (l, i) ends: the line and the position of the opener. */
  function BackwardLines(lines: seq<string>, l: nat, i: int, st: string): Option<(nat, nat)>
    requires l < |lines| && -2 <= i < |lines[l]|
    decreases l
  {
    match BackwardScan(lines[l], i, st)
    case BackFound(p) => Some((l, p))
    case BackUnclosed => None
    case BackMore(st', _) => if st' == "" || l == 0 then None else BackwardLines(lines, l - 1, |lines[l - 1]| - 1, st')
  }

  method FindStartOfExpressionInLine(line: string, endpos: int, stack: string)
    returns (pos: int, rest: Option<string>)
    requires -1 <= endpos < |line|
    ensures match BackwardScan(line, endpos, stack)
            case BackFound(p) => pos == p && rest == None
            case BackUnclosed => pos == -1 && rest == None
            case BackMore(st, _) => pos == -1 && rest == Some(st)
  {
    var st := stack;
    var i := endpos;
    while i >= 0
      invariant -2 <= i < |line|
      invariant BackwardScan(line, endpos, stack) == BackwardScan(line, i, st)
      decreases i + 2
    {
      var c := line[i];
      if IsClose(c) {
        st := st + [c];
      } else if c == '>' {
        if SkipsBefore(line, i) {
          i := i - 1;
        } else {
          st := st + ['>'];
        }
      } else if c == '<' {
        if i > 0 && line[i - 1] == '<' {
          i := i - 1;
        } else if st != "" && Top(st) == '>' {
          st := Pop(st);
          if st == "" { return i, None; }
        }
      } else if IsOpen(c) {
        st := DropPending(st, '>');
        if st == "" { return -1, None; }
        if Closer(c) == Top(st) {
          st := Pop(st);
          if st == "" { return i, None; }
        } else {
          return -1, None;
        }
      } else if c == ';' {
        st := DropPending(st, '>');
        if st == "" { return -1, None; }
      }
      i := i - 1;
    }
    return -1, Some(st);
  }

  method ReverseCloseExpression(lines: seq<string>, linenum: nat, pos: nat)
    returns (line: string, startLine: int, startPos: int)
    requires linenum < |lines| && pos < |lines[linenum]|
    ensures IsClose(lines[linenum][pos]) && startPos >= 0 ==>
              startLine >= 0 && Matched(lines, startLine, startPos, linenum, pos)
    ensures IsClose(lines[linenum][pos]) && startPos < 0 ==>
              forall l: nat, p: nat :: !Matched(lines, l, p, linenum, pos)
    ensures lines[linenum][pos] == '>' ==>
              match BackwardLines(lines, linenum, pos, "")
              case Some(start) => start == (startLine, startPos)
              case None => startPos < 0
    ensures !IsClose(lines[linenum][pos]) && lines[linenum][pos] != '>' ==> startPos < 0
    ensures startPos >= 0 ==> 0 <= startLine < |lines| && line == lines[startLine]
    ensures startPos < 0 ==> startPos == -1 && startLine == 0 && line in lines
  {
    line := lines[linenum];
    if !IsClose(line[pos]) && line[pos] != '>' {
      return line, 0, -1;
    }
    BackPartnersAsScanned(lines, linenum, pos);
    var num := linenum;
    var stack: Option<string>;
    startPos, stack := FindStartOfExpressionInLine(line, pos, "");
    if startPos > -1 {
      assert BackScanFinds(lines, linenum, pos, num, startPos);
      return line, num, startPos;
    }
    while stack.Some? && stack.value != "" && num > 0
      invariant num <= linenum && line == lines[num]
      invariant BackwardLines(lines, linenum, pos, "") ==
                if stack.None? || stack.value == "" || num == 0 then None
                else BackwardLines(lines, num - 1, |lines[num - 1]| - 1, stack.value)
      decreases num
    {
      num := num - 1;
      line := lines[num];
      startPos, stack := FindStartOfExpressionInLine(line, |line| - 1, stack.value);
      if startPos > -1 {
        assert BackScanFinds(lines, linenum, pos, num, startPos);
        return line, num, startPos;
      }
    }
    return line, 0, -1;
  }

  ghost predicate BackScanFinds(lines: seq<string>, l2: nat, q: nat, l: nat, p: nat)
    requires l2 < |lines| && q < |lines[l2]|
  {
    BackwardLines(lines, l2, q, "") == Some((l, p))
  }

  lemma BackPartnersAsScanned(lines: seq<string>, l2: nat, q: nat)
    requires l2 < |lines| && q < |lines[l2]|
    ensures IsClose(lines[l2][q]) ==>
              forall l: nat, p: nat :: Matched(lines, l, p, l2, q) <==> BackScanFinds(lines, l2, q, l, p)
  {
    if IsClose(lines[l2][q]) {
      forall l: nat, p: nat
        ensures Matched(lines, l, p, l2, q) <==> BackScanFinds(lines, l2, q, l, p)
      {
        BackwardFindsPartner(lines, l2, q, l, p);
      }
    }
  }

  // ----- What a partner is

  /** The text from (l, i) up to, and without, (l2, q). */
  ghost function Segment(lines: seq<string>, l: nat, i: nat, l2: nat, q: nat): string
    requires l <= l2 < |lines| && q <= |lines[l2]| && i <= |lines[l]|
    requires l == l2 ==> i <= q
    decreases l2 - l
  {
    if l == l2 then lines[l][i..q] else lines[l][i..] + Segment(lines, l + 1, 0, l2, q)
  }

  ghost predicate Before(l: nat, i: nat, l2: nat, q: nat) { l < l2 || (l == l2 && i < q) }

  /** The opener at (l, p) and the closer at (l2, q) are of one kind and enclose a balanced text. */
  ghost predicate Matched(lines: seq<string>, l: nat, p: nat, l2: nat, q: nat) {
    && l < |lines| && p < |lines[l]| && l2 < |lines| && q < |lines[l2]|
    && Before(l, p, l2, q)
    && IsOpen(lines[l][p])
    && lines[l2][q] == Closer(lines[l][p])
    && Balanced(Segment(lines, l, p + 1, l2, q))
  }

  // ----- Erasing the angle brackets simulates the machine of Dyck

  function Erase(st: string, c: char): string {
    if st == "" then "" else if Top(st) == c then Erase(Pop(st), c) else Erase(Pop(st), c) + [Top(st)]
  }

  /** The stack of a scan that began at a bracket: no pending `c` lies below the first bracket. */
  predicate Grounded(st: string, c: char) { st != "" && st[0] != c }

  lemma {:induction false} ErasePopAll(st: string, c: char)
    requires Grounded(st, c)
    ensures Grounded(PopAll(st, c), c) && Top(PopAll(st, c)) != c
    ensures Erase(PopAll(st, c), c) == Erase(st, c)
    decreases |st|
  {
    if Top(st) == c { ErasePopAll(Pop(st), c); }
  }

  lemma {:induction false} EraseGrounded(st: string, c: char)
    requires Grounded(st, c)
    ensures Erase(st, c) != ""
    ensures Top(st) != c ==> (|st| == 1 <==> |Erase(st, c)| == 1) && Top(Erase(st, c)) == Top(st)
    decreases |st|
  {
    if |st| > 1 { EraseGrounded(Pop(st), c); }
  }

  lemma ErasePush(st: string, x: char, c: char)
    ensures Erase(st + [x], c) == if x == c then Erase(st, c) else Erase(st, c) + [x]
  {
  }

  lemma ErasePop(st: string, c: char)
    requires Grounded(st, c) && |st| > 1
    ensures Grounded(Pop(st), c)
    ensures Top(st) == c ==> Erase(Pop(st), c) == Erase(st, c)
    ensures Top(st) != c ==> Erase(st, c) != "" && Erase(Pop(st), c) == Pop(Erase(st, c))
  {
  }

  ghost predicate SameStack(r: Scan, o: Outcome, i: nat) {
    match o
    case Pending(e) => r.More? && Grounded(r.stack, '<') && Erase(r.stack, '<') == e
    case Closed => r == Found(i + 1)
    case Stuck => r == Unclosed
  }

  lemma ForwardTokenSimulates(c: char, i: nat, shift: bool, operatorLess: bool, notGreater: bool, st: string)
    requires Grounded(st, '<') && Erase(st, '<') != ""
    ensures SameStack(ForwardToken(c, i, shift, operatorLess, notGreater, st), Step(c, Erase(st, '<')), i)
  {
    var rest := PopAll(st, '<');
    if IsOpen(c) || c == '<' {
      ErasePush(st, c, '<');
      if |st| > 1 { ErasePop(st, '<'); }
    } else if IsClose(c) {
      ErasePopAll(st, '<');
      EraseGrounded(rest, '<');
      if |rest| > 1 { ErasePop(rest, '<'); }
    } else if c == '>' {
      if |st| > 1 { ErasePop(st, '<'); }
    } else if c == ';' {
      ErasePopAll(st, '<');
    }
  }

  lemma ForwardCharSimulates(line: string, i: nat, st: string)
    requires i < |line| && Grounded(st, '<')
    ensures Erase(st, '<') != ""
    ensures SameStack(ForwardChar(line, i, st), Step(line[i], Erase(st, '<')), i)
  {
    EraseGrounded(st, '<');
    ForwardTokenSimulates(line[i], i,
                          i > 0 && line[i - 1] == '<',
                          i > 0 && EndsWithOperator(line[..i]),
                          i > 0 && (line[i - 1] == '-' || EndsWithOperator(line[..i - 1])),
                          st);
  }

  lemma SkippedCharIsPlain(line: string, i: nat)
    requires 0 < i < |line|
    requires line[i - 1] == '<' || SkipsBefore(line, i)
    ensures !IsOpen(line[i - 1]) && !IsClose(line[i - 1])
  {
  }

  ghost predicate SameBackStack(r: BackScan, o: Outcome, i: nat, skips: bool) {
    match o
    case Pending(e) =>
      && r.BackMore? && Grounded(r.stack, '>') && Erase(r.stack, '>') == e
      && (r.next == i - 1 || (skips && r.next == i - 2))
    case Closed => r == BackFound(i)
    case Stuck => r == BackUnclosed
  }

  lemma BackwardTokenSimulates(c: char, i: nat, shift: bool, notGreater: bool, st: string)
    requires Grounded(st, '>') && Erase(st, '>') != ""
    ensures SameBackStack(BackwardToken(c, i, shift, notGreater, st), BackStep(c, Erase(st, '>')), i,
                          shift || notGreater)
  {
    var rest := PopAll(st, '>');
    if IsClose(c) || c == '>' {
      ErasePush(st, c, '>');
    } else if c == '<' {
      if |st| > 1 { ErasePop(st, '>'); }
    } else if IsOpen(c) {
      ErasePopAll(st, '>');
      EraseGrounded(rest, '>');
      if |rest| > 1 { ErasePop(rest, '>'); }
    } else if c == ';' {
      ErasePopAll(st, '>');
    }
  }

  /** Position i - 1 holds no bracket, so a scan may pass over it. */
  ghost predicate PlainBefore(line: string, i: nat)
    requires i < |line|
  {
    i > 0 && !IsOpen(line[i - 1]) && !IsClose(line[i - 1])
  }

  lemma BackwardCharSimulates(line: string, i: nat, st: string)
    requires i < |line| && Grounded(st, '>')
    ensures Erase(st, '>') != ""
    ensures SameBackStack(BackwardChar(line, i, st), BackStep(line[i], Erase(st, '>')), i, PlainBefore(line, i))
  {
    EraseGrounded(st, '>');
    var shift := i > 0 && line[i - 1] == '<';
    BackwardTokenSimulates(line[i], i, shift, SkipsBefore(line, i), st);
    if shift || SkipsBefore(line, i) { SkippedCharIsPlain(line, i); }
  }

  // ----- The scans end exactly where the machine closes

  /** The text from (l, i) to just before (l2, q) closes the stack. */
  ghost predicate Closes(lines: seq<string>, l: nat, i: nat, l2: nat, q: nat, e: string)
    requires l < |lines| && i <= |lines[l]| && e != ""
  {
    Before(l, i, l2, q) && l2 < |lines| && 0 < q <= |lines[l2]| && Fold(Segment(lines, l, i, l2, q), e).Closed?
  }

  lemma ClosesUnfold(lines: seq<string>, l: nat, i: nat, l2: nat, q: nat, e: string)
    requires l < |lines| && i < |lines[l]| && e != ""
    ensures Closes(lines, l, i, l2, q, e) <==>
            match Step(lines[l][i], e)
            case Pending(e') => Closes(lines, l, i + 1, l2, q, e')
            case Closed => l2 == l && q == i + 1
            case Stuck => false
  {
    if Before(l, i, l2, q) && l2 < |lines| && 0 < q <= |lines[l2]| {
      ClosesUnfoldInRange(lines, l, i, l2, q, e);
    }
  }

  lemma ClosesUnfoldInRange(lines: seq<string>, l: nat, i: nat, l2: nat, q: nat, e: string)
    requires l < |lines| && i < |lines[l]| && e != ""
    requires Before(l, i, l2, q) && l2 < |lines| && 0 < q <= |lines[l2]|
    ensures Fold(Segment(lines, l, i, l2, q), e).Closed? <==>
            match Step(lines[l][i], e)
            case Pending(e') => Closes(lines, l, i + 1, l2, q, e')
            case Closed => l2 == l && q == i + 1
            case Stuck => false
  {
    SegmentHead(lines, l, i, l2, q);
    var tail := Segment(lines, l, i + 1, l2, q);
    SegmentEmpty(lines, l, i + 1, l2, q);
    FoldHead(lines[l][i], tail, e);
  }

  lemma SegmentEmpty(lines: seq<string>, l: nat, i: nat, l2: nat, q: nat)
    requires l <= l2 < |lines| && 0 < q <= |lines[l2]| && i <= |lines[l]| && (l == l2 ==> i <= q)
    ensures Segment(lines, l, i, l2, q) == "" <==> l == l2 && i == q
  {
    if l < l2 || i < q {
      SegmentLast(lines, l, i, l2, q - 1);
    }
  }

  lemma FoldHead(c: char, w: string, e: string)
    requires e != ""
    ensures Fold([c] + w, e).Closed? <==>
            match Step(c, e)
            case Pending(e') => Fold(w, e').Closed?
            case Closed => w == ""
            case Stuck => false
  {
  }

  lemma ForwardUnfold(lines: seq<string>, l: nat, i: nat, st: string)
    requires l < |lines| && i < |lines[l]|
    ensures ForwardLines(lines, l, i, st) ==
            match ForwardChar(lines[l], i, st)
            case More(st') => ForwardLines(lines, l, i + 1, st')
            case Found(p) => Some((l, p))
            case Unclosed => None
  {
  }

  lemma {:induction false} ForwardExact(lines: seq<string>, l: nat, i: nat, st: string, l2: nat, q: nat)
    requires l < |lines| && i <= |lines[l]| && Grounded(st, '<') && Erase(st, '<') != ""
    ensures ForwardLines(lines, l, i, st) == Some((l2, q)) <==> Closes(lines, l, i, l2, q, Erase(st, '<'))
    decreases |lines| - l, |lines[l]| - i
  {
    var e := Erase(st, '<');
    if i < |lines[l]| {
      ForwardCharSimulates(lines[l], i, st);
      ForwardUnfold(lines, l, i, st);
      ClosesUnfold(lines, l, i, l2, q, e);
      if ForwardChar(lines[l], i, st).More? {
        ForwardExact(lines, l, i + 1, ForwardChar(lines[l], i, st).stack, l2, q);
      }
    } else if l + 1 < |lines| {
      ForwardExact(lines, l + 1, 0, st, l2, q);
      assert ForwardLines(lines, l, i, st) == ForwardLines(lines, l + 1, 0, st);
      if l < l2 < |lines| && q <= |lines[l2]| {
        assert Segment(lines, l, i, l2, q) == Segment(lines, l + 1, 0, l2, q);
      }
    }
  }

  lemma SegmentHead(lines: seq<string>, l: nat, i: nat, l2: nat, q: nat)
    requires l <= l2 < |lines| && q <= |lines[l2]| && i < |lines[l]| && Before(l, i, l2, q)
    ensures Segment(lines, l, i, l2, q) == [lines[l][i]] + Segment(lines, l, i + 1, l2, q)
  {
  }

  lemma {:induction false} SegmentLast(lines: seq<string>, l: nat, i: nat, l2: nat, q: nat)
    requires l <= l2 < |lines| && q < |lines[l2]| && i <= |lines[l]| && (l == l2 ==> i <= q)
    ensures Segment(lines, l, i, l2, q + 1) == Segment(lines, l, i, l2, q) + [lines[l2][q]]
    decreases l2 - l
  {
    if l < l2 { SegmentLast(lines, l + 1, 0, l2, q); }
  }

  lemma {:induction false} SegmentLineEnd(lines: seq<string>, l: nat, i: nat, l2: nat)
    requires l < l2 < |lines| && i <= |lines[l]|
    ensures Segment(lines, l, i, l2, 0) == Segment(lines, l, i, l2 - 1, |lines[l2 - 1]|)
    decreases l2 - l
  {
    if l + 1 < l2 { SegmentLineEnd(lines, l + 1, 0, l2); }
  }

  /** The text from (l0, p) to just before (l, j) closes the stack, read backwards. */
  ghost predicate BackCloses(lines: seq<string>, l0: nat, p: nat, l: nat, j: nat, e: string)
    requires l < |lines| && j <= |lines[l]| && e != ""
  {
    l0 <= l && p < |lines[l0]| && Before(l0, p, l, j) && BackFold(Segment(lines, l0, p, l, j), e).Closed?
  }

  lemma BackClosesUnfold(lines: seq<string>, l0: nat, p: nat, l: nat, i: nat, e: string)
    requires l < |lines| && i < |lines[l]| && e != ""
    ensures BackCloses(lines, l0, p, l, i + 1, e) <==>
            match BackStep(lines[l][i], e)
            case Pending(e') => BackCloses(lines, l0, p, l, i, e')
            case Closed => l0 == l && p == i
            case Stuck => false
  {
    if l0 <= l && p < |lines[l0]| && Before(l0, p, l, i + 1) {
      BackFoldSegment(lines, l0, p, l, i, e);
    }
  }

  lemma BackClosesLineEnd(lines: seq<string>, l0: nat, p: nat, l: nat, e: string)
    requires 0 < l < |lines| && e != ""
    ensures BackCloses(lines, l0, p, l, 0, e) <==> BackCloses(lines, l0, p, l - 1, |lines[l - 1]|, e)
  {
    if l0 < l && p < |lines[l0]| { SegmentLineEnd(lines, l0, p, l); }
  }

  lemma BackwardUnfold(lines: seq<string>, l: nat, i: nat, st: string)
    requires l < |lines| && i < |lines[l]|
    ensures BackwardLines(lines, l, i, st) ==
            match BackwardChar(lines[l], i, st)
            case BackMore(st', next) => BackwardLines(lines, l, next, st')
            case BackFound(p) => Some((l, p))
            case BackUnclosed => None
  {
  }

  /** A scan that steps over position i, and perhaps over a plain character before it. */
  lemma BackClosesNext(lines: seq<string>, l0: nat, p: nat, l: nat, i: nat, e: string, next: int)
    requires l < |lines| && i < |lines[l]| && e != "" && BackStep(lines[l][i], e).Pending?
    requires next == i - 1 || (next == i - 2 && PlainBefore(lines[l], i))
    ensures BackCloses(lines, l0, p, l, i + 1, e) <==>
            BackCloses(lines, l0, p, l, next + 1, BackStep(lines[l][i], e).stack)
  {
    BackClosesUnfold(lines, l0, p, l, i, e);
    if next == i - 2 {
      BackClosesUnfold(lines, l0, p, l, i - 1, BackStep(lines[l][i], e).stack);
    }
  }

  lemma {:induction false} BackwardExact(lines: seq<string>, l: nat, i: int, st: string, l0: nat, p: nat)
    requires l < |lines| && -1 <= i < |lines[l]| && Grounded(st, '>') && Erase(st, '>') != ""
    ensures BackwardLines(lines, l, i, st) == Some((l0, p)) <==> BackCloses(lines, l0, p, l, i + 1, Erase(st, '>'))
    decreases l, i
  {
    var e := Erase(st, '>');
    if i >= 0 {
      BackwardCharSimulates(lines[l], i, st);
      BackwardUnfold(lines, l, i, st);
      match BackwardChar(lines[l], i, st)
      case BackMore(st', next) =>
        EraseGrounded(st', '>');
        BackClosesNext(lines, l0, p, l, i, e, next);
        BackwardExact(lines, l, next, st', l0, p);
      case BackFound(_) =>
        BackClosesUnfold(lines, l0, p, l, i, e);
      case BackUnclosed =>
        BackClosesUnfold(lines, l0, p, l, i, e);
    } else if l > 0 {
      assert BackwardLines(lines, l, i, st) == BackwardLines(lines, l - 1, |lines[l - 1]| - 1, st);
      BackwardExact(lines, l - 1, |lines[l - 1]| - 1, st, l0, p);
      BackClosesLineEnd(lines, l0, p, l, e);
    }
  }

  lemma BackFoldSegment(lines: seq<string>, l0: nat, p: nat, l: nat, i: nat, e: string)
    requires l0 <= l < |lines| && p < |lines[l0]| && i < |lines[l]| && Before(l0, p, l, i + 1) && e != ""
    ensures (l0 == l && p == i) || Before(l0, p, l, i)
    ensures l0 == l && p == i ==>
              (BackFold(Segment(lines, l0, p, l, i + 1), e).Closed? <==> BackStep(lines[l][i], e).Closed?)
    ensures Before(l0, p, l, i) ==>
              (BackFold(Segment(lines, l0, p, l, i + 1), e).Closed? <==>
               BackStep(lines[l][i], e).Pending? &&
               BackFold(Segment(lines, l0, p, l, i), BackStep(lines[l][i], e).stack).Closed?)
  {
    SegmentLast(lines, l0, p, l, i);
    var a := Segment(lines, l0, p, l, i);
    var w := a + [lines[l][i]];
    assert w[..|w| - 1] == a;
    if Before(l0, p, l, i) {
      SegmentNonempty(lines, l0, p, l, i);
    } else {
      assert a == "";
    }
  }

  lemma SegmentNonempty(lines: seq<string>, l: nat, i: nat, l2: nat, q: nat)
    requires l <= l2 < |lines| && q <= |lines[l2]| && i < |lines[l]| && Before(l, i, l2, q)
    ensures Segment(lines, l, i, l2, q) != ""
  {
  }

  // ----- Main results

  lemma ClosesIffMatched(lines: seq<string>, l: nat, p: nat, l2: nat, e: nat)
    requires l < |lines| && p < |lines[l]| && IsOpen(lines[l][p])
    ensures Closes(lines, l, p + 1, l2, e, [lines[l][p]]) <==> e >= 1 && Matched(lines, l, p, l2, e - 1)
  {
    if Before(l, p + 1, l2, e) && l2 < |lines| && 0 < e <= |lines[l2]| {
      SegmentLast(lines, l, p + 1, l2, e - 1);
      var w := Segment(lines, l, p + 1, l2, e);
      assert w[..|w| - 1] == Segment(lines, l, p + 1, l2, e - 1);
      ClosesIffBalanced(w, lines[l][p]);
    }
  }

  /** Forward: from an opener, the scan finds its partner and nothing else. */
  lemma ForwardFindsPartner(lines: seq<string>, l: nat, p: nat, l2: nat, e: nat)
    requires l < |lines| && p < |lines[l]| && IsOpen(lines[l][p])
    ensures ForwardLines(lines, l, p, "") == Some((l2, e)) <==> e >= 1 && Matched(lines, l, p, l2, e - 1)
  {
    var open := lines[l][p];
    assert "" + [open] == [open];
    ForwardUnfold(lines, l, p, "");
    assert ForwardChar(lines[l], p, "") == More([open]);
    ErasePush("", open, '<');
    ForwardExact(lines, l, p + 1, [open], l2, e);
    ClosesIffMatched(lines, l, p, l2, e);
  }

  lemma BackClosesIffMatched(lines: seq<string>, l2: nat, q: nat, l: nat, p: nat)
    requires l2 < |lines| && q < |lines[l2]| && IsClose(lines[l2][q])
    ensures BackCloses(lines, l, p, l2, q, [lines[l2][q]]) <==> Matched(lines, l, p, l2, q)
  {
    if l <= l2 && p < |lines[l]| && Before(l, p, l2, q) {
      SegmentHead(lines, l, p, l2, q);
      var w := Segment(lines, l, p, l2, q);
      assert w[1..] == Segment(lines, l, p + 1, l2, q);
      BackClosesIffBalanced(w, lines[l2][q]);
    }
  }

  /** Backward: from a closer, the scan finds its partner and nothing else. */
  lemma BackwardFindsPartner(lines: seq<string>, l2: nat, q: nat, l: nat, p: nat)
    requires l2 < |lines| && q < |lines[l2]| && IsClose(lines[l2][q])
    ensures BackwardLines(lines, l2, q, "") == Some((l, p)) <==> Matched(lines, l, p, l2, q)
  {
    var close := lines[l2][q];
    assert "" + [close] == [close];
    BackwardUnfold(lines, l2, q, "");
    assert BackwardChar(lines[l2], q, "") == BackMore([close], q - 1);
    ErasePush("", close, '>');
    BackwardExact(lines, l2, q - 1, [close], l, p);
    BackClosesIffMatched(lines, l2, q, l, p);
  }

  /** Closing and then reversing comes back to the opener; reversing and then closing, to the closer. */
  lemma RoundTrip(lines: seq<string>, l: nat, p: nat, l2: nat, q: nat)
    requires l < |lines| && p < |lines[l]| && IsOpen(lines[l][p])
    requires l2 < |lines| && q < |lines[l2]| && IsClose(lines[l2][q])
    ensures ForwardLines(lines, l, p, "") == Some((l2, q + 1)) <==> BackwardLines(lines, l2, q, "") == Some((l, p))
  {
    ForwardFindsPartner(lines, l, p, l2, q + 1);
    BackwardFindsPartner(lines, l2, q, l, p);
  }

  /** What a forward scan finds is a closer, so the round trip always applies to it. */
  lemma RoundTripFromOpener(lines: seq<string>, l: nat, p: nat, l2: nat, e: nat)
    requires l < |lines| && p < |lines[l]| && IsOpen(lines[l][p])
    requires ForwardLines(lines, l, p, "") == Some((l2, e))
    ensures l2 < |lines| && 0 < e <= |lines[l2]| && IsClose(lines[l2][e - 1])
    ensures BackwardLines(lines, l2, e - 1, "") == Some((l, p))
  {
    ForwardFindsPartner(lines, l, p, l2, e);
    RoundTrip(lines, l, p, l2, e - 1);
  }

  lemma RoundTripFromCloser(lines: seq<string>, l2: nat, q: nat, l: nat, p: nat)
    requires l2 < |lines| && q < |lines[l2]| && IsClose(lines[l2][q])
    requires BackwardLines(lines, l2, q, "") == Some((l, p))
    ensures l < |lines| && p < |lines[l]| && IsOpen(lines[l][p])
    ensures ForwardLines(lines, l, p, "") == Some((l2, q + 1))
  {
    BackwardFindsPartner(lines, l2, q, l, p);
    RoundTrip(lines, l, p, l2, q);
  }

  /** A bracket has at most one partner, on either side. */
  lemma PartnerIsUnique(lines: seq<string>, l: nat, p: nat, l': nat, p': nat, l2: nat, q: nat, l2': nat, q': nat)
    requires Matched(lines, l, p, l2, q) && Matched(lines, l', p', l2', q')
    ensures (l, p) == (l', p') <==> (l2, q) == (l2', q')
  {
    ForwardFindsPartner(lines, l, p, l2, q + 1);
    ForwardFindsPartner(lines, l', p', l2', q' + 1);
    BackwardFindsPartner(lines, l2, q, l, p);
    BackwardFindsPartner(lines, l2', q', l', p');
  }

  // ----- The second matcher

  /** The loop of the second matcher: a stack of the closers it expects. */
  function InsideScan(text: string, position: nat, expected: string): Option<nat>
    requires position <= |text|
    decreases |text| - position
  {
    if expected == "" then Some(position)
    else if position == |text| then None
    else
      var c := text[position];
      if c == Top(expected) then InsideScan(text, position + 1, Pop(expected))
      else if IsClose(c) then None
      else if IsOpen(c) then InsideScan(text, position + 1, expected + [Closer(c)])
      else InsideScan(text, position + 1, expected)
  }

  /** The closer at `q` is the partner of the opener just before `start`, in one text. */
  ghost predicate Encloses(text: string, start: nat, q: nat)
    requires 0 < start
  {
    Matched([text], 0, start - 1, 0, q)
  }

  /**
   * The text between an opener and its partner.  `found` is where the search for the pattern has ended, just behind the
   * opener, if it was found.
   */
  method GetTextInside(text: string, found: Option<nat>) returns (inside: Option<string>)
    requires found.Some? ==> 0 < found.value <= |text| && IsOpen(text[found.value - 1])
    ensures inside.Some? <==> found.Some? && exists q: nat :: Encloses(text, found.value, q)
    ensures found.Some? ==> forall q: nat :: Encloses(text, found.value, q) ==> inside == Some(text[found.value..q])
  {
    if found == None {
      return None;
    }
    var start := found.value;
    var expected := [Closer(text[start - 1])];
    var position := start;
    while expected != "" && position < |text|
      invariant start <= position <= |text|
      invariant expected == "" ==> start < position
      invariant InsideScan(text, start, [Closer(text[start - 1])]) == InsideScan(text, position, expected)
      decreases |text| - position
    {
      if text[position] == Top(expected) {
        expected := Pop(expected);
      } else if IsClose(text[position]) {
        NoPartnerInside(text, start);
        return None;
      } else if IsOpen(text[position]) {
        expected := expected + [Closer(text[position])];
      }
      position := position + 1;
    }
    if expected != "" {
      NoPartnerInside(text, start);
      return None;
    }
    InsideFindsPartner(text, start, position);
    assert Encloses(text, start, position - 1);
    forall q: nat | Encloses(text, start, q)
      ensures q == position - 1
    {
      InsideFindsPartner(text, start, q + 1);
    }
    return Some(text[start..position - 1]);
  }

  lemma NoPartnerInside(text: string, start: nat)
    requires 0 < start <= |text| && IsOpen(text[start - 1])
    requires InsideScan(text, start, [Closer(text[start - 1])]) == None
    ensures forall q: nat :: !Encloses(text, start, q)
  {
    forall q: nat
      ensures !Encloses(text, start, q)
    {
      InsideFindsPartner(text, start, q + 1);
    }
  }

  predicate AllClosers(st: string) { forall i | 0 <= i < |st| :: IsClose(st[i]) }

  lemma {:induction false} InsideExact(text: string, position: nat, expected: string, e: nat)
    requires position <= |text| && expected != "" && AllClosers(expected)
    ensures InsideScan(text, position, expected) == Some(e) <==>
            position < e <= |text| && Fold(text[position..e], FlipAll(expected)).Closed?
    decreases |text| - position
  {
    if position < |text| {
      var c := text[position];
      var st := FlipAll(expected);
      InsideStep(c, expected);
      if position < e <= |text| {
        assert text[position..e][1..] == text[position + 1..e] && text[position..e][0] == c;
      }
      if c == Top(expected) {
        if |expected| > 1 {
          InsideExact(text, position + 1, Pop(expected), e);
        }
      } else if IsOpen(c) {
        InsideExact(text, position + 1, expected + [Closer(c)], e);
      } else if !IsClose(c) {
        InsideExact(text, position + 1, expected, e);
      }
    }
  }

  lemma InsideStep(c: char, expected: string)
    requires expected != "" && AllClosers(expected)
    ensures Step(c, FlipAll(expected)) ==
            if c == Top(expected) then (if |expected| == 1 then Closed else Pending(FlipAll(Pop(expected))))
            else if IsClose(c) then Stuck
            else if IsOpen(c) then Pending(FlipAll(expected + [Closer(c)]))
            else Pending(FlipAll(expected))
  {
  }

  lemma InsideFindsPartner(text: string, start: nat, e: nat)
    requires 0 < start <= |text| && IsOpen(text[start - 1])
    ensures InsideScan(text, start, [Closer(text[start - 1])]) == Some(e) <==>
            e >= 1 && Matched([text], 0, start - 1, 0, e - 1)
  {
    var open := text[start - 1];
    FlipFacts(open);
    InsideExact(text, start, [Closer(open)], e);
    assert FlipAll([Closer(open)]) == [open];
    if start < e <= |text| {
      var w := text[start..e];
      ClosesIffBalanced(w, open);
      assert w[..|w| - 1] == text[start..e - 1] == Segment([text], 0, start, 0, e - 1);
    }
  }

  /** The two matchers, written independently, find the same partner on every text. */
  lemma MatchersAgree(text: string, start: nat, e: nat)
    requires 0 < start <= |text| && IsOpen(text[start - 1])
    ensures InsideScan(text, start, [Closer(text[start - 1])]) == Some(e) <==>
            ForwardScan(text, start - 1, "") == Found(e)
  {
    InsideFindsPartner(text, start, e);
    ForwardFindsPartner([text], 0, start - 1, 0, e);
    assert ForwardScan(text, start - 1, "") == Found(e) <==> ForwardLines([text], 0, start - 1, "") == Some((0, e));
  }
}
