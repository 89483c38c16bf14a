/**
 * The nesting tracker as cpplint runs it: blocks are objects that lines change in place, and the
 * stacks saved at `#if` and `#else` are deep copies, so that no branch can reach into another.
 * Every update is proved to do to these objects what `Nesting` says on values.
 */
module NestingTracker {
  import opened Options
  import opened Nesting

  class Block {
    const kind: Kind
    const start: nat
    var seenOpenBrace: bool
    var openParentheses: int
    var inlineAsm: Asm
    var access: string
    var isDerived: bool
    ghost const at: nat                // its place in every stack it will ever be in
    ghost const branch: Option<nat>    // the branch in which it may be changed, if in any

    constructor (v: Info, ghost at: nat, ghost branch: Option<nat>)
      ensures Value() == v && this.at == at && this.branch == branch
    {
      this.at, this.branch := at, branch;
      kind, start, seenOpenBrace := v.kind, v.start, v.seenOpenBrace;
      openParentheses, inlineAsm := v.openParentheses, v.inlineAsm;
      access, isDerived := v.access, v.isDerived;
    }

    function Value(): Info
      reads this
    {
      Info(kind, start, seenOpenBrace, openParentheses, inlineAsm, access, isDerived)
    }
  }

  function Values(blocks: seq<Block>): (r: Stack)
    reads blocks
    ensures |r| == |blocks| && forall i | 0 <= i < |r| :: r[i] == blocks[i].Value()
  {
    seq(|blocks|, i requires 0 <= i < |blocks| reads blocks => blocks[i].Value())
  }

  /** Every block is in its place, so none is there twice; and stacks of different branches share none. */
  ghost predicate InPlace(blocks: seq<Block>, branch: Option<nat>) {
    forall i | 0 <= i < |blocks| :: blocks[i].at == i && blocks[i].branch == branch
  }

  /** Every block is one of `was`, or was made since. */
  twostate predicate Grown(new now: seq<Block>, was: seq<Block>) {
    forall i | 0 <= i < |now| :: now[i] in was || fresh(now[i])
  }

  predicate Apart(blocks: seq<Block>, others: seq<Block>) { forall i | 0 <= i < |blocks| :: blocks[i] !in others }

  /** `copy.deepcopy` of a stack. */
  method DeepCopy(blocks: seq<Block>, ghost branch: Option<nat>) returns (copy: seq<Block>)
    ensures Values(copy) == Values(blocks)
    ensures InPlace(copy, branch) && forall i | 0 <= i < |copy| :: fresh(copy[i])
  {
    copy := [];
    for i := 0 to |blocks|
      invariant |copy| == i && Values(copy) == Values(blocks)[..i]
      invariant InPlace(copy, branch) && forall i | 0 <= i < |copy| :: fresh(copy[i])
    {
      var b := new Block(blocks[i].Value(), i, branch);
      copy := copy + [b];
    }
  }

  /** The stacks saved for an open #if.  Only the tracker's list holds it, so it is a record in that list. */
  datatype PreprocessorInfo = PreprocessorInfo(
    stackBeforeIf: seq<Block>,
    stackBeforeElse: seq<Block>,
    seenElse: bool,
    ghost branch: nat)    // the branch that was current until the #else

  /** What is saved belongs to no branch that may be changed now. */
  ghost predicate Isolated(info: PreprocessorInfo, current: nat) {
    && InPlace(info.stackBeforeIf, None)
    && InPlace(info.stackBeforeElse, Some(info.branch))
    && (if info.seenElse then info.branch < current else info.stackBeforeElse == [])
  }

  ghost predicate AllIsolated(ppStack: seq<PreprocessorInfo>, current: nat) {
    && (forall i | 0 <= i < |ppStack| :: Isolated(ppStack[i], current))
    && (forall i, j | 0 <= i < j < |ppStack| ::
          ppStack[i].seenElse && ppStack[j].seenElse ==> ppStack[i].branch < ppStack[j].branch)
  }

  ghost function BlocksOf(info: PreprocessorInfo): set<Block> {
    (set b | b in info.stackBeforeIf) + (set b | b in info.stackBeforeElse)
  }

  function Saved(info: PreprocessorInfo): Checkpoint
    reads BlocksOf(info)
  {
    Checkpoint(Values(info.stackBeforeIf), Values(info.stackBeforeElse), info.seenElse)
  }

  ghost function Blocks(ppStack: seq<PreprocessorInfo>): set<Block> {
    set i, b | 0 <= i < |ppStack| && b in BlocksOf(ppStack[i]) :: b
  }

  lemma BlocksOfTop(ppStack: seq<PreprocessorInfo>, info: PreprocessorInfo)
    requires ppStack != []
    ensures Blocks(ButLast(ppStack)) <= Blocks(ppStack) && BlocksOf(Last(ppStack)) <= Blocks(ppStack)
    ensures Blocks(WithTop(ppStack, info)) <= Blocks(ppStack) + BlocksOf(info)
  {
  }

  /** The list represents the checkpoints `c`. */
  ghost predicate SavedAre(ppStack: seq<PreprocessorInfo>, c: seq<Checkpoint>)
    reads Blocks(ppStack)
  {
    |c| == |ppStack| && forall i | 0 <= i < |ppStack| :: Saved(ppStack[i]) == c[i]
  }

  /** The first #else of the innermost #if: the current branch is saved, and the next number is free. */
  lemma FirstElseIsolated(ppStack: seq<PreprocessorInfo>, current: nat, copy: seq<Block>)
    requires AllIsolated(ppStack, current) && ppStack != [] && InPlace(copy, Some(current))
    ensures AllIsolated(WithTop(ppStack, Last(ppStack).(stackBeforeElse := copy, seenElse := true, branch := current)),
                        current + 1)
  {
  }

  lemma TopSaved(ppStack: seq<PreprocessorInfo>, c: seq<Checkpoint>, info: PreprocessorInfo)
    requires SavedAre(ppStack, c) && ppStack != []
    ensures SavedAre(WithTop(ppStack, info), WithTop(c, Saved(info)))
  {
  }

  /** No saved block is in the current stack. */
  lemma SavedIsApart(stack: seq<Block>, ppStack: seq<PreprocessorInfo>, branch: nat)
    requires InPlace(stack, Some(branch)) && AllIsolated(ppStack, branch)
    ensures (set b | b in stack) !! Blocks(ppStack)
  {
  }

  /** At the first #else a copy of the stack is saved for the #endif, and another branch begins. */
  method LeaveBranch(stack: seq<Block>, ppStack: seq<PreprocessorInfo>, ghost branch: nat, ghost model: State)
    returns (saved: seq<PreprocessorInfo>, ghost next: nat)
    requires Values(stack) == model.stack && ppStack != []
    requires AllIsolated(ppStack, branch) && SavedAre(ppStack, model.checkpoints)
    ensures |saved| == |ppStack| && AllIsolated(saved, next)
    ensures SavedAre(saved, Preprocessed(Else, model).checkpoints)
  {
    saved, next := ppStack, branch;
    assert Saved(Last(ppStack)) == Last(model.checkpoints);
    if !Last(ppStack).seenElse {
      var copy := DeepCopy(stack, Some(branch));
      var info := Last(ppStack).(stackBeforeElse := copy, seenElse := true, branch := branch);
      FirstElseIsolated(ppStack, branch, copy);
      TopSaved(ppStack, model.checkpoints, info);
      saved, next := WithTop(ppStack, info), branch + 1;
    }
  }

  class NestingState {
    var stack: seq<Block>
    var previousStackTop: Block?
    var ppStack: seq<PreprocessorInfo>
    ghost var model: State
    ghost var branch: nat    // of the current stack

    ghost predicate StackIs(v: Stack)
      reads this, stack
    {
      InPlace(stack, Some(branch)) && Values(stack) == v
    }

    ghost predicate Valid()
      reads this, stack, Blocks(ppStack)
    {
      StackIs(model.stack) && AllIsolated(ppStack, branch) && SavedAre(ppStack, model.checkpoints)
    }

    constructor ()
      ensures Valid() && model == INITIAL
      ensures stack == [] && ppStack == []
    {
      stack, previousStackTop, ppStack, model, branch := [], null, [], INITIAL, 0;
    }

    ghost function Footprint(): set<Block>
      reads this`stack, this`ppStack
    {
      (set b | b in stack) + Blocks(ppStack)
    }

    // ----- Update, part by part

    method CountParentheses(file: File, line: string)
      requires InPlace(stack, Some(branch))
      modifies stack`openParentheses, stack`inlineAsm
      ensures StackIs(Counted(file, line, old(Values(stack))))
    {
      if stack != [] {
        var innerBlock := Last(stack);
        var depthChange := Change(line);
        innerBlock.openParentheses := innerBlock.openParentheses + depthChange;
        if innerBlock.inlineAsm == NoAsm || innerBlock.inlineAsm == EndAsm {
          if depthChange != 0 && innerBlock.openParentheses == 1 && file.asm(line) {
            innerBlock.inlineAsm := InsideAsm;
          } else {
            innerBlock.inlineAsm := NoAsm;
          }
        } else if innerBlock.inlineAsm == InsideAsm && innerBlock.openParentheses == 0 {
          innerBlock.inlineAsm := EndAsm;
        }
      }
    }

    method Push(v: Info)
      requires InPlace(stack, Some(branch))
      modifies this`stack
      ensures |stack| == |old(stack)| + 1 && ButLast(stack) == old(stack) && fresh(Last(stack))
      ensures StackIs(old(Values(stack)) + [v])
    {
      var block := new Block(v, |stack|, Some(branch));
      stack := stack + [block];
    }

    method ConsumeNamespaces(file: File, n: nat, whole: string) returns (line: string)
      requires Lawful(file) && InPlace(stack, Some(branch))
      modifies this`stack
      ensures InPlace(stack, Some(branch)) && Grown(stack, old(stack)) && old(stack) <= stack
      ensures (Values(stack), line) == Namespaces(file, n, whole, old(Values(stack)))
    {
      line := whole;
      while file.namespaceDecl(line).Some?
        invariant InPlace(stack, Some(branch)) && Grown(stack, old(stack)) && old(stack) <= stack
        invariant Namespaces(file, n, line, Values(stack)) == Namespaces(file, n, whole, old(Values(stack)))
        decreases |line|
      {
        var m := file.namespaceDecl(line).value;
        var i := NextBrace(m.rest, 0);
        Push(NewNamespace(m.name, n, i < |m.rest|));
        line := if i < |m.rest| then m.rest[i + 1..] else m.rest;
      }
    }

    method ConsumeClass(file: File, n: nat, whole: string) returns (line: string)
      requires InPlace(stack, Some(branch))
      modifies this`stack
      ensures InPlace(stack, Some(branch)) && Grown(stack, old(stack)) && old(stack) <= stack
      ensures (Values(stack), line) == Classes(file, n, whole, old(Values(stack)))
    {
      line := whole;
      var classDecl := file.classDecl(line);
      if classDecl.Some? && (stack == [] || Last(stack).openParentheses == 0) {
        var endDeclaration := classDecl.value.headLength;
        if !file.inTemplate(n, endDeclaration) {
          Push(NewClass(file, classDecl.value, n));
          line := classDecl.value.rest;
        }
      }
    }

    predicate HasSeenOpenBrace()
      reads this, stack
      ensures HasSeenOpenBrace() <==> SeenOpenBrace(Values(stack))
    {
      stack == [] || Last(stack).seenOpenBrace
    }

    method CheckBegin(file: File, whole: string)
      requires InPlace(stack, Some(branch))
      modifies stack`isDerived
      ensures StackIs(Begun(file, whole, old(Values(stack))))
    {
      if !HasSeenOpenBrace() {
        if Last(stack).kind.Class? && file.bareColon(whole) {
          Last(stack).isDerived := true;
        }
      }
    }

    method UpdateAccess(file: File, line: string)
      requires InPlace(stack, Some(branch))
      modifies stack`access
      ensures StackIs(Labelled(file, line, old(Values(stack))))
    {
      if stack != [] && Last(stack).kind.Class? {
        var accessMatch := file.accessLabel(line);
        if accessMatch.Some? {
          Last(stack).access := accessMatch.value;
        }
      }
    }

    method OpenBlock(file: File, n: nat, line: string)
      requires InPlace(stack, Some(branch))
      modifies this`stack, stack`seenOpenBrace
      ensures InPlace(stack, Some(branch)) && Grown(stack, old(stack)) && old(stack) <= stack
      ensures Values(stack) == Token(file, n, '{', line, old(Values(stack)))
    {
      if !HasSeenOpenBrace() {
        Last(stack).seenOpenBrace := true;
      } else if file.externC(line) {
        Push(NewExternC(n));
      } else {
        Push(NewBraces(n, if file.asm(line) then BlockAsm else NoAsm));
      }
    }

    method ConsumeToken(file: File, n: nat, token: char, line: string)
      requires InPlace(stack, Some(branch))
      modifies this`stack, stack`seenOpenBrace
      ensures InPlace(stack, Some(branch)) && Grown(stack, old(stack))
      ensures Values(stack) == Token(file, n, token, line, old(Values(stack)))
      ensures if |stack| < |old(stack)| then stack == ButLast(old(stack)) else old(stack) <= stack
      ensures |stack| < |old(stack)| ==> Last(old(stack)).seenOpenBrace == old(Last(stack).seenOpenBrace)
    {
      if token == '{' {
        OpenBlock(file, n, line);
      } else if token == ';' || token == ')' {
        if !HasSeenOpenBrace() {
          stack := ButLast(stack);
        }
      } else {
        if stack != [] {
          stack := ButLast(stack);
        }
      }
    }

    /** `b`, which is at place `p` if it is in the stack at all, is opened by what is left of the line. */
    ghost predicate WillOpen(b: Block, p: nat, line: string)
      reads this, stack
    {
      b in stack && Awaits(line, Values(stack), p)
    }

    /** One token, seen from a block that may be in the stack, at place `p`. */
    method ConsumeNext(file: File, n: nat, line: string, ghost b: Block?, ghost p: nat) returns (rest: string)
      requires InPlace(stack, Some(branch)) && NextToken(line, 0) < |line|
      requires b != null && b in stack ==> p < |stack| && stack[p] == b
      modifies this`stack, stack`seenOpenBrace
      ensures InPlace(stack, Some(branch)) && Grown(stack, old(stack)) && rest == line[NextToken(line, 0) + 1..]
      ensures Values(stack) == Token(file, n, line[NextToken(line, 0)], line, old(Values(stack)))
      ensures b != null && b in stack ==> p < |stack| && stack[p] == b
      ensures b != null ==> (b.seenOpenBrace || WillOpen(b, p, rest) <==> old(b.seenOpenBrace || WillOpen(b, p, line)))
    {
      ghost var was := Values(stack);
      var i := NextToken(line, 0);
      ConsumeToken(file, n, line[i], line);
      rest := line[i + 1..];
      if p + 1 < |was| {
        AwaitsOn(file, n, line, was, p);
      } else if p + 1 == |was| && !was[p].seenOpenBrace {
        AwaitsHere(file, n, line, was);
      }
    }

    /** All tokens of the line; `b` is a block of the stack, at place `p`, or none. */
    method ConsumeBraces(file: File, n: nat, whole: string, ghost b: Block?, ghost p: nat)
      requires InPlace(stack, Some(branch))
      requires b != null ==> p < |stack| && stack[p] == b
      modifies this`stack, stack`seenOpenBrace
      ensures InPlace(stack, Some(branch)) && Grown(stack, old(stack))
      ensures Values(stack) == Tokens(file, n, whole, old(Values(stack)))
      ensures b != null ==> b.seenOpenBrace == old(b.seenOpenBrace || WillOpen(b, p, whole))
    {
      var line := whole;
      while NextToken(line, 0) < |line|
        invariant InPlace(stack, Some(branch)) && Grown(stack, old(stack))
        invariant Tokens(file, n, line, Values(stack)) == Tokens(file, n, whole, old(Values(stack)))
        invariant b != null && b in stack ==> p < |stack| && stack[p] == b
        invariant b != null ==>
                    (b.seenOpenBrace || WillOpen(b, p, line) <==> old(b.seenOpenBrace || WillOpen(b, p, whole)))
        decreases |line|
      {
        TokensOn(file, n, line, Values(stack));
        line := ConsumeNext(file, n, line, b, p);
      }
    }

    method ConsumeDeclarations(file: File, n: nat) returns (line: string)
      requires Lawful(file) && n < |file.elided| && InPlace(stack, Some(branch))
      modifies this`stack, stack
      ensures InPlace(stack, Some(branch)) && Grown(stack, old(stack)) && old(stack) <= stack
      ensures (Values(stack), line) == Declared(file, n, old(Values(stack)))
    {
      CountParentheses(file, file.elided[n]);
      line := ConsumeNamespaces(file, n, file.elided[n]);
      line := ConsumeClass(file, n, line);
    }

    method CheckInnermost(file: File, whole: string, line: string)
      requires InPlace(stack, Some(branch))
      modifies stack`isDerived, stack`access
      ensures StackIs(Labelled(file, line, Begun(file, whole, old(Values(stack)))))
    {
      CheckBegin(file, whole);
      UpdateAccess(file, line);
    }

    /** All but the tokens. */
    method ConsumeHead(file: File, n: nat) returns (line: string)
      requires Lawful(file) && n < |file.elided| && InPlace(stack, Some(branch))
      modifies this`stack, stack
      ensures InPlace(stack, Some(branch)) && Grown(stack, old(stack)) && old(stack) <= stack
      ensures (Values(stack), line) == Head(file, n, old(Values(stack)))
    {
      line := ConsumeDeclarations(file, n);
      CheckInnermost(file, file.elided[n], line);
    }

    /** Update, after the preprocessor part. */
    method ApplyLine(file: File, n: nat)
      requires Lawful(file) && n < |file.elided| && InPlace(stack, Some(branch))
      modifies this`stack, stack
      ensures old(stack) != [] ==> old(Last(stack)).Value() == AfterLine(file, n, old(Values(stack)))
      ensures InPlace(stack, Some(branch)) && Grown(stack, old(stack))
      ensures Values(stack) == Effect(file, n, old(Values(stack)))
    {
      ghost var was := stack;
      if was != [] { HeadAbove(file, n, Values(stack)); }
      var line := ConsumeHead(file, n);
      ConsumeBraces(file, n, line, if was == [] then null else Last(was), if was == [] then 0 else |was| - 1);
    }

    /** The fields are assigned; what the saved blocks hold is not affected. */
    method Become(stack: seq<Block>, ppStack: seq<PreprocessorInfo>, ghost branch: nat, ghost model: State)
      requires InPlace(stack, Some(branch)) && Values(stack) == model.stack
      requires AllIsolated(ppStack, branch) && SavedAre(ppStack, model.checkpoints)
      modifies this`stack, this`ppStack, this`branch, this`model
      ensures Valid()
      ensures this.stack == stack && this.ppStack == ppStack && this.branch == branch && this.model == model
    {
      this.stack, this.ppStack, this.branch, this.model := stack, ppStack, branch, model;
    }

    /** At #if a copy of the stack is saved. */
    method SaveStack()
      requires Valid()
      modifies this`stack, this`ppStack, this`branch, this`model
      ensures Valid() && model == Preprocessed(If, old(model))
      ensures stack == old(stack)
      ensures forall i | 0 <= i < |stack| :: stack[i] in old(Footprint()) || fresh(stack[i])
    {
      var copy := DeepCopy(stack, None);
      Become(stack, ppStack + [PreprocessorInfo(copy, [], false, 0)], branch, Preprocessed(If, model));
    }

    /** At #else the stack from before the #if comes back, as a copy. */
    method RestoreStack()
      requires Valid() && ppStack != []
      modifies this`stack, this`ppStack, this`branch, this`model
      ensures Valid() && model == Preprocessed(Else, old(model))
      ensures forall i | 0 <= i < |stack| :: fresh(stack[i])
    {
      var saved, next := LeaveBranch(stack, ppStack, branch, model);
      ghost var after := Preprocessed(Else, model);
      assert Saved(Last(saved)) == Last(after.checkpoints);
      var copy := DeepCopy(Last(saved).stackBeforeIf, Some(next));
      Become(copy, saved, next, after);
    }

    /** At #endif the stack of the first branch is what remains. */
    method DropCheckpoint()
      requires Valid() && ppStack != []
      modifies this`stack, this`ppStack, this`branch, this`model
      ensures Valid() && model == Preprocessed(Endif, old(model))
      ensures if Replaces(Endif, old(model)) then Apart(stack, old(stack)) else stack == old(stack)
      ensures forall i | 0 <= i < |stack| :: stack[i] in old(Footprint()) || fresh(stack[i])
    {
      var info := Last(ppStack);
      BlocksOfTop(ppStack, info);
      assert Saved(info) == Last(model.checkpoints);
      if info.seenElse {
        Become(info.stackBeforeElse, ButLast(ppStack), info.branch, Preprocessed(Endif, model));
      } else {
        Become(stack, ButLast(ppStack), branch, Preprocessed(Endif, model));
      }
    }

    method UpdatePreprocessor(d: Directive)
      requires Valid()
      modifies this`stack, this`ppStack, this`branch, this`model
      ensures if Replaces(d, old(model)) then Apart(stack, old(stack))
              else stack == old(stack) && model.stack == old(model.stack)
      ensures Valid() && model == Preprocessed(d, old(model))
      ensures forall i | 0 <= i < |stack| :: stack[i] in old(Footprint()) || fresh(stack[i])
    {
      match d
      case NoDirective =>
      case If => SaveStack();
      case Else => if ppStack != [] { RestoreStack(); }
      case Endif => if ppStack != [] { DropCheckpoint(); }
    }

    /** The line itself: blocks of the current branch are changed in place, and nothing that is saved with them. */
    method UpdateStack(file: File, n: nat)
      requires Valid() && Lawful(file) && n < |file.elided|
      modifies this`stack, this`ppStack, this`branch, this`model, stack
      ensures old(stack) != [] ==> old(Last(stack)).Value() == AfterLine(file, n, old(Values(stack)))
      ensures Valid() && model == old(model).(stack := Effect(file, n, old(model).stack))
    {
      SavedIsApart(stack, ppStack, branch);
      ApplyLine(file, n);
      assert SavedAre(ppStack, model.checkpoints);
      Become(stack, ppStack, branch, model.(stack := Values(stack)));
    }

    /**
     * One line.  The block that was on top is remembered, but it is not left alone: unless the directive brings another
     * stack, the line may write into it, and `Nesting.WrittenIff` says exactly when.
     */
    method Update(file: File, n: nat)
      requires Valid() && Lawful(file) && n < |file.elided|
      modifies this, Footprint()
      ensures Valid() && model == Step(file, n, old(model))
      ensures previousStackTop == if old(stack) == [] then null else Last(old(stack))
      ensures previousStackTop != null && Replaces(file.directive(file.elided[n]), old(model)) ==>
                previousStackTop.Value() == old(Last(stack).Value())
      ensures previousStackTop != null && !Replaces(file.directive(file.elided[n]), old(model)) ==>
                previousStackTop.Value() == AfterLine(file, n, old(Values(stack)))
    {
      previousStackTop := if stack == [] then null else Last(stack);
      UpdatePreprocessor(file.directive(file.elided[n]));
      UpdateStack(file, n);
    }
  }
}
