/**
 * Balanced words over round, square and curly brackets.
 *
 * A word is described twice and independently: by a grammar (the tree type `Tree`)
 * and by a stack machine (`Fold`).  `ClosesIffBalanced` connects the two, and
 * `BackClosesIffBalanced` does the same for a machine that reads from right to left.
 */
module Dyck {

  predicate IsOpen(c: char) { c == '(' || c == '[' || c == '{' }

  predicate IsClose(c: char) { c == ')' || c == ']' || c == '}' }

  function Closer(c: char): char
    requires IsOpen(c)
  {
    if c == '(' then ')' else if c == '[' then ']' else '}'
  }

  // ----- The grammar

  datatype Tree =
    | Empty
    | Other(prev: Tree, c: char)
    | Nest(prev: Tree, open: char, inner: Tree)

  predicate WellFormed(d: Tree) {
    match d
    case Empty => true
    case Other(prev, c) => WellFormed(prev) && !IsOpen(c) && !IsClose(c)
    case Nest(prev, open, inner) => WellFormed(prev) && IsOpen(open) && WellFormed(inner)
  }

  function Word(d: Tree): string
    requires WellFormed(d)
  {
    match d
    case Empty => ""
    case Other(prev, c) => Word(prev) + [c]
    case Nest(prev, open, inner) => Word(prev) + [open] + Word(inner) + [Closer(open)]
  }

  /** `w` is a balanced word: every bracket in it is closed by its own kind, inside it. */
  ghost predicate Balanced(w: string) {
    exists d :: WellFormed(d) && Word(d) == w
  }

  // ----- The stack machine

  datatype Outcome = Pending(stack: string) | Closed | Stuck

  /** One character, with a nonempty stack of openers that still wait for their closers. */
  function Step(c: char, st: string): Outcome
    requires st != ""
  {
    if IsOpen(c) then Pending(st + [c])
    else if IsClose(c) then
      if !IsOpen(st[|st| - 1]) || Closer(st[|st| - 1]) != c then Stuck
      else if |st| == 1 then Closed
      else Pending(st[..|st| - 1])
    else Pending(st)
  }

  /** A whole word.  `Closed` means that the last character, and no earlier one, emptied the stack. */
  function Fold(w: string, st: string): (r: Outcome)
    requires st != ""
    ensures r.Pending? ==> r.stack != ""
  {
    if w == "" then Pending(st)
    else
      match Step(w[0], st)
      case Pending(st') => Fold(w[1..], st')
      case Closed => if |w| == 1 then Closed else Stuck
      case Stuck => Stuck
  }

  lemma {:induction false} FoldConcat(a: string, b: string, st: string)
    requires st != ""
    requires Fold(a, st).Pending?
    ensures Fold(a + b, st) == Fold(b, Fold(a, st).stack)
  {
    if a == "" {
      assert a + b == b;
    } else {
      assert (a + b)[1..] == a[1..] + b;
      FoldConcat(a[1..], b, Step(a[0], st).stack);
    }
  }

  lemma FoldSnoc(a: string, c: char, st: string)
    requires st != ""
    requires Fold(a, st).Pending?
    ensures Fold(a + [c], st) == Step(c, Fold(a, st).stack)
  {
    FoldConcat(a, [c], st);
  }

  /** A balanced word leaves the machine where it was. */
  lemma {:induction false} WordKeepsStack(d: Tree, st: string)
    requires WellFormed(d) && st != ""
    ensures Fold(Word(d), st) == Pending(st)
  {
    match d
    case Empty =>
    case Other(prev, c) =>
      WordKeepsStack(prev, st);
      FoldSnoc(Word(prev), c, st);
    case Nest(prev, open, inner) =>
      WordKeepsStack(prev, st);
      FoldSnoc(Word(prev), open, st);
      var head := Word(prev) + [open];
      WordKeepsStack(inner, st + [open]);
      FoldConcat(head, Word(inner), st);
      FoldSnoc(head + Word(inner), Closer(open), st);
  }

  lemma BalancedEmpty()
    ensures Balanced("")
  {
    assert Word(Empty) == "";
  }

  lemma BalancedOther(a: string, c: char)
    requires Balanced(a) && !IsOpen(c) && !IsClose(c)
    ensures Balanced(a + [c])
  {
    var d :| WellFormed(d) && Word(d) == a;
    assert WellFormed(Other(d, c)) && Word(Other(d, c)) == a + [c];
  }

  lemma BalancedNest(a: string, open: char, b: string)
    requires Balanced(a) && IsOpen(open) && Balanced(b)
    ensures Balanced(a + [open] + b + [Closer(open)])
  {
    var d :| WellFormed(d) && Word(d) == a;
    var e :| WellFormed(e) && Word(e) == b;
    assert WellFormed(Nest(d, open, e)) && Word(Nest(d, open, e)) == a + [open] + b + [Closer(open)];
  }

  /** What the machine has read, cut at the openers that are still pending, is balanced between them. */
  ghost predicate Layered(w: string, st: string, ws: seq<string>)
    requires st != ""
  {
    && |ws| == |st|
    && (forall i | 0 <= i < |ws| :: Balanced(ws[i]))
    && w == Layers(st, ws, |st| - 1)
  }

  /** ws[0] st[1] ws[1] ... st[n] ws[n] */
  ghost function Layers(st: string, ws: seq<string>, n: nat): string
    requires n < |st| == |ws|
  {
    if n == 0 then ws[0] else Layers(st, ws, n - 1) + [st[n]] + ws[n]
  }

  lemma {:induction false} LayersAgree(st: string, ws: seq<string>, st': string, ws': seq<string>, n: nat)
    requires n < |st| == |ws| && n < |st'| == |ws'|
    requires forall i | 0 <= i <= n :: st[i] == st'[i] && ws[i] == ws'[i]
    ensures Layers(st, ws, n) == Layers(st', ws', n)
  {
    if n > 0 { LayersAgree(st, ws, st', ws', n - 1); }
  }

  lemma LayersExtend(w: string, st: string, ws: seq<string>, x: string)
    requires st != "" && Layered(w, st, ws)
    requires Balanced(ws[|st| - 1] + x)
    ensures Layered(w + x, st, ws[|st| - 1 := ws[|st| - 1] + x])
  {
    var n := |st| - 1;
    if n > 0 {
      LayersAgree(st, ws, st, ws[n := ws[n] + x], n - 1);
      var low := Layers(st, ws, n - 1) + [st[n]];
      assert low + (ws[n] + x) == low + ws[n] + x;
    }
  }

  lemma LayersPush(w: string, c: char, st: string, ws: seq<string>)
    requires st != "" && Layered(w, st, ws)
    ensures Layered(w + [c], st + [c], ws + [""])
  {
    BalancedEmpty();
    LayersAgree(st, ws, st + [c], ws + [""], |st| - 1);
  }

  lemma LayersPop(w: string, st: string, ws: seq<string>) returns (ws': seq<string>)
    requires |st| > 1 && Layered(w, st, ws) && IsOpen(st[|st| - 1])
    ensures Layered(w + [Closer(st[|st| - 1])], st[..|st| - 1], ws')
  {
    var n := |st| - 1;
    var close := Closer(st[n]);
    var a := Layers(st, ws, n - 1);
    LayersAgree(st, ws, st[..n], ws[..n], n - 1);
    var x := [st[n]] + ws[n] + [close];
    BalancedNest(ws[n - 1], st[n], ws[n]);
    assert ws[n - 1] + x == ws[n - 1] + [st[n]] + ws[n] + [close];
    LayersExtend(a, st[..n], ws[..n], x);
    ws' := ws[..n][n - 1 := ws[n - 1] + x];
    assert w + [close] == a + x;
  }

  lemma LayersStep(w: string, c: char, st: string, ws: seq<string>) returns (ws': seq<string>)
    requires st != "" && Layered(w, st, ws)
    requires Step(c, st).Pending?
    ensures Layered(w + [c], Step(c, st).stack, ws')
  {
    var n := |st| - 1;
    if IsOpen(c) {
      ws' := ws + [""];
      LayersPush(w, c, st, ws);
    } else if IsClose(c) {
      ws' := LayersPop(w, st, ws);
    } else {
      BalancedOther(ws[n], c);
      ws' := ws[n := ws[n] + [c]];
      LayersExtend(w, st, ws, [c]);
    }
  }

  lemma {:induction false} PendingIsLayered(w: string, open: char) returns (ws: seq<string>)
    requires IsOpen(open) && Fold(w, [open]).Pending?
    ensures Layered(w, Fold(w, [open]).stack, ws)
    decreases |w|
  {
    if w == "" {
      ws := [""];
      BalancedEmpty();
    } else {
      var a, c := w[..|w| - 1], w[|w| - 1];
      assert w == a + [c];
      SnocPrefixPending(a, c, [open]);
      var ws0 := PendingIsLayered(a, open);
      FoldSnoc(a, c, [open]);
      ws := LayersStep(a, c, Fold(a, [open]).stack, ws0);
    }
  }

  lemma {:induction false} SnocPrefixPending(a: string, c: char, st: string)
    requires st != "" && (Fold(a + [c], st).Pending? || Fold(a + [c], st).Closed?)
    ensures Fold(a, st).Pending?
  {
    if a != "" {
      assert (a + [c])[1..] == a[1..] + [c];
      SnocPrefixPending(a[1..], c, Step(a[0], st).stack);
    }
  }

  lemma ClosedIsBalanced(a: string, c: char, open: char)
    requires IsOpen(open) && Fold(a + [c], [open]).Closed?
    ensures c == Closer(open) && Balanced(a)
  {
    SnocPrefixPending(a, c, [open]);
    FoldSnoc(a, c, [open]);
    var ws := PendingIsLayered(a, open);
    StackBottom(a, [open]);
    assert ws[0] == a;
  }

  lemma BalancedIsClosed(a: string, open: char)
    requires IsOpen(open) && Balanced(a)
    ensures Fold(a + [Closer(open)], [open]).Closed?
  {
    var d :| WellFormed(d) && Word(d) == a;
    WordKeepsStack(d, [open]);
    FoldSnoc(a, Closer(open), [open]);
  }

  /** The machine started below `open` closes exactly at the end of a balanced word and its closer. */
  lemma ClosesIffBalanced(w: string, open: char)
    requires IsOpen(open)
    ensures Fold(w, [open]).Closed? <==>
            w != "" && w[|w| - 1] == Closer(open) && Balanced(w[..|w| - 1])
  {
    if w != "" {
      var a, c := w[..|w| - 1], w[|w| - 1];
      assert w == a + [c];
      if Fold(w, [open]).Closed? {
        ClosedIsBalanced(a, c, open);
      } else if c == Closer(open) && Balanced(a) {
        BalancedIsClosed(a, open);
      }
    }
  }

  lemma {:induction false} StackBottom(w: string, st: string)
    requires st != "" && Fold(w, st).Pending?
    ensures Fold(w, st).stack[0] == st[0]
  {
    if w != "" {
      StackBottom(w[1..], Step(w[0], st).stack);
    }
  }

  // ----- Reading from right to left

  function Flip(c: char): char {
    if c == '(' then ')' else if c == ')' then '('
    else if c == '[' then ']' else if c == ']' then '['
    else if c == '{' then '}' else if c == '}' then '{'
    else c
  }

  /** The word read backwards, with every bracket turned round. */
  function Mirror(w: string): string {
    if w == "" then "" else Mirror(w[1..]) + [Flip(w[0])]
  }

  lemma {:induction false} MirrorConcat(a: string, b: string)
    ensures Mirror(a + b) == Mirror(b) + Mirror(a)
  {
    if a == "" {
      assert a + b == b;
    } else {
      assert (a + b)[1..] == a[1..] + b;
      MirrorConcat(a[1..], b);
    }
  }

  lemma {:induction false} MirrorTwice(w: string)
    ensures Mirror(Mirror(w)) == w
  {
    if w != "" {
      MirrorTwice(w[1..]);
      MirrorConcat(Mirror(w[1..]), [Flip(w[0])]);
      assert Mirror([Flip(w[0])]) == [w[0]];
    }
  }

  lemma {:induction false} BalancedConcat(a: string, e: Tree)
    requires Balanced(a) && WellFormed(e)
    ensures Balanced(a + Word(e))
  {
    match e
    case Empty =>
      assert a + "" == a;
    case Other(prev, c) =>
      BalancedConcat(a, prev);
      BalancedOther(a + Word(prev), c);
      assert a + Word(e) == a + Word(prev) + [c];
    case Nest(prev, open, inner) =>
      BalancedConcat(a, prev);
      BalancedNest(a + Word(prev), open, Word(inner));
      assert a + Word(e) == a + Word(prev) + [open] + Word(inner) + [Closer(open)];
  }

  lemma BalancedBoth(a: string, b: string)
    requires Balanced(a) && Balanced(b)
    ensures Balanced(a + b)
  {
    var e :| WellFormed(e) && Word(e) == b;
    BalancedConcat(a, e);
  }

  lemma MirrorNest(a: string, open: char, b: string, close: char)
    ensures Mirror(a + [open] + b + [close]) == ("" + [Flip(close)] + Mirror(b) + [Flip(open)]) + Mirror(a)
  {
    MirrorSnoc(a + [open] + b, close);
    MirrorConcat(a + [open], b);
    MirrorSnoc(a, open);
  }

  lemma {:induction false} MirrorWord(d: Tree)
    requires WellFormed(d)
    ensures Balanced(Mirror(Word(d)))
  {
    match d
    case Empty =>
      BalancedEmpty();
    case Other(prev, c) =>
      MirrorWord(prev);
      MirrorSnoc(Word(prev), c);
      BalancedEmpty();
      BalancedOther("", c);
      BalancedBoth("" + [c], Mirror(Word(prev)));
    case Nest(prev, open, inner) =>
      MirrorWord(prev);
      MirrorWord(inner);
      MirrorNest(Word(prev), open, Word(inner), Closer(open));
      BalancedEmpty();
      FlipFacts(open);
      BalancedNest("", open, Mirror(Word(inner)));
      BalancedBoth("" + [open] + Mirror(Word(inner)) + [Closer(open)], Mirror(Word(prev)));
  }

  lemma BalancedMirror(w: string)
    ensures Balanced(w) <==> Balanced(Mirror(w))
  {
    if Balanced(w) {
      var d :| WellFormed(d) && Word(d) == w;
      MirrorWord(d);
    }
    if Balanced(Mirror(w)) {
      var d :| WellFormed(d) && Word(d) == Mirror(w);
      MirrorWord(d);
      MirrorTwice(w);
    }
  }

  /** One character of a right-to-left scan, with a nonempty stack of closers. */
  function BackStep(c: char, st: string): Outcome
    requires st != ""
  {
    if IsClose(c) then Pending(st + [c])
    else if IsOpen(c) then
      if Closer(c) != st[|st| - 1] then Stuck
      else if |st| == 1 then Closed
      else Pending(st[..|st| - 1])
    else Pending(st)
  }

  /** Reads `w` from its last character to its first. */
  function BackFold(w: string, st: string): (r: Outcome)
    requires st != ""
    ensures r.Pending? ==> r.stack != ""
  {
    if w == "" then Pending(st)
    else
      match BackStep(w[|w| - 1], st)
      case Pending(st') => BackFold(w[..|w| - 1], st')
      case Closed => if |w| == 1 then Closed else Stuck
      case Stuck => Stuck
  }

  function FlipAll(st: string): string {
    seq(|st|, i requires 0 <= i < |st| => Flip(st[i]))
  }

  lemma FlipFacts(c: char)
    ensures Flip(Flip(c)) == c
    ensures IsOpen(c) <==> IsClose(Flip(c))
    ensures IsClose(c) <==> IsOpen(Flip(c))
    ensures IsOpen(c) ==> Closer(c) == Flip(c)
  {}

  lemma MirrorSnoc(a: string, c: char)
    ensures Mirror(a + [c]) == [Flip(c)] + Mirror(a)
  {
    MirrorConcat(a, [c]);
    assert Mirror([c]) == [Flip(c)];
  }

  lemma BackStepIsMirrored(c: char, st: string)
    requires st != "" && forall i | 0 <= i < |st| :: IsClose(st[i])
    ensures BackStep(c, st).Pending? ==> Step(Flip(c), FlipAll(st)) == Pending(FlipAll(BackStep(c, st).stack))
    ensures !BackStep(c, st).Pending? ==> Step(Flip(c), FlipAll(st)) == BackStep(c, st)
  {
    var n := |st| - 1;
    FlipFacts(c);
    FlipFacts(st[n]);
    FlipFacts(Flip(st[n]));
    if IsClose(c) {
      assert FlipAll(st + [c]) == FlipAll(st) + [Flip(c)];
    } else if IsOpen(c) {
      assert FlipAll(st[..n]) == FlipAll(st)[..n];
      assert FlipAll(st)[n] == Flip(st[n]);
      assert IsOpen(Flip(st[n])) && Closer(Flip(st[n])) == st[n];
    }
  }

  lemma {:induction false} BackIsMirrored(w: string, st: string)
    requires st != "" && forall i | 0 <= i < |st| :: IsClose(st[i])
    ensures BackFold(w, st).Closed? <==> Fold(Mirror(w), FlipAll(st)).Closed?
    decreases |w|
  {
    if w != "" {
      var a, c := w[..|w| - 1], w[|w| - 1];
      assert w == a + [c];
      MirrorSnoc(a, c);
      var m := Mirror(w);
      assert m[0] == Flip(c) && m[1..] == Mirror(a);
      MirrorLength(a);
      BackStepIsMirrored(c, st);
      if BackStep(c, st).Pending? {
        BackIsMirrored(a, BackStep(c, st).stack);
      }
    }
  }

  lemma {:induction false} MirrorLength(w: string)
    ensures |Mirror(w)| == |w|
  {
    if w != "" { MirrorLength(w[1..]); }
  }

  /** The backward machine closes exactly at the start of an opener and a balanced word. */
  lemma BackClosesIffBalanced(w: string, close: char)
    requires IsClose(close)
    ensures BackFold(w, [close]).Closed? <==>
            w != "" && IsOpen(w[0]) && Closer(w[0]) == close && Balanced(w[1..])
  {
    BackIsMirrored(w, [close]);
    var open := Flip(close);
    assert FlipAll([close]) == [open];
    ClosesIffBalanced(Mirror(w), open);
    MirrorLength(w);
    if w != "" {
      var m := Mirror(w);
      assert m == Mirror(w[1..]) + [Flip(w[0])];
      assert m[..|m| - 1] == Mirror(w[1..]);
      BalancedMirror(w[1..]);
    }
  }
}
