/**
 * The nesting tracker of cpplint, on values: what each line does to the stack of blocks and to
 * the checkpoints that `#if` and `#else` leave, and what the preprocessor conditionals amount to.
 *
 * What is matched by regular expressions is left open: a `File` holds arbitrary recognisers.
 */
module Nesting {
  import opened Options

  // ----- Lines and what is recognised in them

  datatype Directive = NoDirective | If | Else | Endif

  /** A namespace at the beginning of a line: its name, or nothing, and the text after it. */
  datatype NamespaceMatch = NamespaceMatch(name: string, rest: string)

  datatype ClassMatch = ClassMatch(headLength: nat, isStruct: bool, name: string, rest: string)

  datatype File = File(
    elided: seq<string>,                               // the lines without comments and strings
    directive: string -> Directive,
    namespaceDecl: string -> Option<NamespaceMatch>,
    classDecl: string -> Option<ClassMatch>,
    bareColon: string -> bool,
    accessLabel: string -> Option<string>,
    externC: string -> bool,
    asm: string -> bool,
    inTemplate: (nat, nat) -> bool,                    // InTemplateArgumentList at a line and column
    classIndent: nat -> nat,                           // indentation of a line
    classEnd: nat -> nat)                              // where the class of a line seems to end

  /** A namespace takes up text. */
  ghost predicate Lawful(file: File) {
    forall line :: file.namespaceDecl(line).Some? ==> |file.namespaceDecl(line).value.rest| < |line|
  }

  // ----- Blocks

  datatype Asm = NoAsm | InsideAsm | EndAsm | BlockAsm

  datatype Kind =
    | Braces
    | ExternC
    | Namespace(name: string)
    | Class(className: string, isStruct: bool, indent: nat, lastLine: nat)

  datatype Info = Info(
    kind: Kind,
    start: nat,
    seenOpenBrace: bool,
    openParentheses: int,
    inlineAsm: Asm,
    access: string,
    isDerived: bool)

  type Stack = seq<Info>

  function Last<T>(s: seq<T>): T
    requires s != []
  {
    s[|s| - 1]
  }

  function ButLast<T>(s: seq<T>): seq<T>
    requires s != []
  {
    s[..|s| - 1]
  }

  function WithTop<T>(s: seq<T>, x: T): seq<T>
    requires s != []
  {
    s[|s| - 1 := x]
  }

  function NewBraces(n: nat, asm: Asm): Info { Info(Braces, n, true, 0, asm, "", false) }

  function NewExternC(n: nat): Info { Info(ExternC, n, true, 0, NoAsm, "", false) }

  function NewNamespace(name: string, n: nat, seenOpenBrace: bool): Info {
    Info(Namespace(name), n, seenOpenBrace, 0, NoAsm, "", false)
  }

  function NewClass(file: File, m: ClassMatch, n: nat): Info {
    Info(Class(m.name, m.isStruct, file.classIndent(n), file.classEnd(n)), n, false, 0, NoAsm,
         if m.isStruct then "public" else "private", false)
  }

  // ----- The effect of a line on the stack

  function Count(line: string, c: char): nat {
    if line == "" then 0 else Count(line[1..], c) + if line[0] == c then 1 else 0
  }

  /** By how much the line changes the depth of parentheses. */
  function Change(line: string): int { Count(line, '(') - Count(line, ')') }

  function CountedBlock(file: File, line: string, b: Info): Info {
    var change := Change(line);
    var open := b.openParentheses + change;
    var asm := if b.inlineAsm == NoAsm || b.inlineAsm == EndAsm then
                 (if change != 0 && open == 1 && file.asm(line) then InsideAsm else NoAsm)
               else if b.inlineAsm == InsideAsm && open == 0 then EndAsm
               else b.inlineAsm;
    b.(openParentheses := open, inlineAsm := asm)
  }

  function Counted(file: File, line: string, stack: Stack): Stack {
    if stack == [] then [] else WithTop(stack, CountedBlock(file, line, Last(stack)))
  }

  /** The first opening brace from `i` on. */
  function NextBrace(line: string, i: nat): (r: nat)
    requires i <= |line|
    ensures i <= r <= |line|
    decreases |line| - i
  {
    if i < |line| && line[i] != '{' then NextBrace(line, i + 1) else i
  }

  /** All namespaces at the beginning of the line are entered; what is left of the line comes with the stack. */
  function Namespaces(file: File, n: nat, line: string, stack: Stack): (Stack, string)
    requires Lawful(file)
    decreases |line|
  {
    match file.namespaceDecl(line)
    case None => (stack, line)
    case Some(m) =>
      var i := NextBrace(m.rest, 0);
      var opens := i < |m.rest|;
      Namespaces(file, n, if opens then m.rest[i + 1..] else m.rest, stack + [NewNamespace(m.name, n, opens)])
  }

  function Classes(file: File, n: nat, line: string, stack: Stack): (Stack, string) {
    match file.classDecl(line)
    case None => (stack, line)
    case Some(m) =>
      if (stack == [] || Last(stack).openParentheses == 0) && !file.inTemplate(n, m.headLength)
      then (stack + [NewClass(file, m, n)], m.rest)
      else (stack, line)
  }

  predicate SeenOpenBrace(stack: Stack) { stack == [] || Last(stack).seenOpenBrace }

  /** CheckBegin, which matters for classes only. */
  function Begun(file: File, whole: string, stack: Stack): Stack {
    if !SeenOpenBrace(stack) && Last(stack).kind.Class? && file.bareColon(whole)
    then WithTop(stack, Last(stack).(isDerived := true))
    else stack
  }

  function Labelled(file: File, line: string, stack: Stack): Stack {
    if stack != [] && Last(stack).kind.Class? && file.accessLabel(line).Some?
    then WithTop(stack, Last(stack).(access := file.accessLabel(line).value))
    else stack
  }

  /** The first brace, semicolon or closing parenthesis from `i` on. */
  function NextToken(line: string, i: nat): (r: nat)
    requires i <= |line|
    ensures i <= r <= |line|
    decreases |line| - i
  {
    if i < |line| && line[i] != '{' && line[i] != ';' && line[i] != ')' && line[i] != '}'
    then NextToken(line, i + 1) else i
  }

  function Token(file: File, n: nat, c: char, line: string, stack: Stack): Stack {
    if c == '{' then
      if !SeenOpenBrace(stack) then WithTop(stack, Last(stack).(seenOpenBrace := true))
      else if file.externC(line) then stack + [NewExternC(n)]
      else stack + [NewBraces(n, if file.asm(line) then BlockAsm else NoAsm)]
    else if c == ';' || c == ')' then
      if !SeenOpenBrace(stack) then ButLast(stack) else stack
    else
      if stack != [] then ButLast(stack) else stack
  }

  function Tokens(file: File, n: nat, line: string, stack: Stack): Stack
    decreases |line|
  {
    var i := NextToken(line, 0);
    if i == |line| then stack else Tokens(file, n, line[i + 1..], Token(file, n, line[i], line, stack))
  }

  /** The blocks that line `n` declares, and what is left of it behind the declarations. */
  function Declared(file: File, n: nat, stack: Stack): (Stack, string)
    requires Lawful(file) && n < |file.elided|
  {
    var line := file.elided[n];
    var (stack1, line1) := Namespaces(file, n, line, Counted(file, line, stack));
    Classes(file, n, line1, stack1)
  }

  /** And what the checks of the innermost block do after that. */
  function Head(file: File, n: nat, stack: Stack): (Stack, string)
    requires Lawful(file) && n < |file.elided|
  {
    var (stack1, line) := Declared(file, n, stack);
    (Labelled(file, line, Begun(file, file.elided[n], stack1)), line)
  }

  lemma {:induction false} TokensOn(file: File, n: nat, line: string, stack: Stack)
    requires NextToken(line, 0) < |line|
    ensures var i := NextToken(line, 0);
            Tokens(file, n, line, stack) == Tokens(file, n, line[i + 1..], Token(file, n, line[i], line, stack))
  {
  }

  /** What line `n` does to the stack, apart from being a directive. */
  function Effect(file: File, n: nat, stack: Stack): Stack
    requires Lawful(file) && n < |file.elided|
  {
    var (stack1, line) := Head(file, n, stack);
    Tokens(file, n, line, stack1)
  }

  // ----- Conditionals

  datatype Checkpoint = Checkpoint(beforeIf: Stack, beforeElse: Stack, seenElse: bool)

  datatype State = State(stack: Stack, checkpoints: seq<Checkpoint>)

  function Preprocessed(d: Directive, s: State): State {
    match d
    case NoDirective => s
    case If => s.(checkpoints := s.checkpoints + [Checkpoint(s.stack, [], false)])
    case Else =>
      if s.checkpoints == [] then s
      else
        var c := Last(s.checkpoints);
        State(c.beforeIf,
              if c.seenElse then s.checkpoints else WithTop(s.checkpoints, Checkpoint(c.beforeIf, s.stack, true)))
    case Endif =>
      if s.checkpoints == [] then s
      else
        var c := Last(s.checkpoints);
        State(if c.seenElse then c.beforeElse else s.stack, ButLast(s.checkpoints))
  }

  /** The directive exchanges the current stack for another. */
  predicate Replaces(d: Directive, s: State) {
    s.checkpoints != [] && (d == Else || (d == Endif && Last(s.checkpoints).seenElse))
  }

  function Step(file: File, n: nat, s: State): State
    requires Lawful(file) && n < |file.elided|
  {
    var s1 := Preprocessed(file.directive(file.elided[n]), s);
    s1.(stack := Effect(file, n, s1.stack))
  }

  predicate InFile(file: File, lines: seq<nat>) { forall i | 0 <= i < |lines| :: lines[i] < |file.elided| }

  function Run(file: File, lines: seq<nat>, s: State): State
    requires Lawful(file) && InFile(file, lines)
  {
    if lines == [] then s else Run(file, lines[1..], Step(file, lines[0], s))
  }

  const INITIAL := State([], [])

  // ----- Erasing all branches but the first

  /** For every open #if, whether its first branch is over. */
  function FlagsAfter(d: Directive, flags: seq<bool>): seq<bool> {
    match d
    case NoDirective => flags
    case If => flags + [false]
    case Else => if flags == [] then [] else WithTop(flags, true)
    case Endif => if flags == [] then [] else ButLast(flags)
  }

  /** Only first branches are open. */
  predicate Counts(flags: seq<bool>) { forall i | 0 <= i < |flags| :: !flags[i] }

  /** The lines that are in first branches only, with the #if and #endif around such branches. */
  function Erase(file: File, lines: seq<nat>, flags: seq<bool>): seq<nat>
    requires InFile(file, lines)
  {
    if lines == [] then []
    else
      var flags1 := FlagsAfter(file.directive(file.elided[lines[0]]), flags);
      (if Counts(flags1) then [lines[0]] else []) + Erase(file, lines[1..], flags1)
  }

  function Flags(s: State): seq<bool> {
    seq(|s.checkpoints|, i requires 0 <= i < |s.checkpoints| => s.checkpoints[i].seenElse)
  }

  /** The outermost #if whose first branch is over. */
  function FirstSeen(checkpoints: seq<Checkpoint>, i: nat): (j: nat)
    requires i <= |checkpoints|
    ensures i <= j <= |checkpoints|
    ensures forall k | i <= k < j :: !checkpoints[k].seenElse
    ensures j < |checkpoints| ==> checkpoints[j].seenElse
    decreases |checkpoints| - i
  {
    if i < |checkpoints| && !checkpoints[i].seenElse then FirstSeen(checkpoints, i + 1) else i
  }

  /** The state in which the outermost first branch that is over has just come to its end. */
  function Rewound(s: State): State {
    var j := FirstSeen(s.checkpoints, 0);
    if j == |s.checkpoints| then s
    else
      var c := s.checkpoints[j];
      State(c.beforeElse, s.checkpoints[..j] + [Checkpoint(c.beforeIf, [], false)])
  }

  /** Nothing is saved for an #else that has not come yet. */
  predicate Tidy(s: State) {
    forall i | 0 <= i < |s.checkpoints| && !s.checkpoints[i].seenElse :: s.checkpoints[i].beforeElse == []
  }

  lemma PreprocessedKeeps(d: Directive, s: State)
    requires Tidy(s)
    ensures Tidy(Preprocessed(d, s)) && Flags(Preprocessed(d, s)) == FlagsAfter(d, Flags(s))
  {
  }

  lemma FirstSeenIs(checkpoints: seq<Checkpoint>, j: nat)
    requires j <= |checkpoints| && (forall k | 0 <= k < j :: !checkpoints[k].seenElse)
    requires j < |checkpoints| ==> checkpoints[j].seenElse
    ensures FirstSeen(checkpoints, 0) == j
  {
  }

  lemma RewoundIsSame(s: State)
    requires Counts(Flags(s))
    ensures Rewound(s) == s
  {
    forall k | 0 <= k < |s.checkpoints|
      ensures !s.checkpoints[k].seenElse
    {
      assert !Flags(s)[k];
    }
    FirstSeenIs(s.checkpoints, |s.checkpoints|);
  }

  lemma CountsPushed(flags: seq<bool>, top: bool)
    ensures Counts(flags + [top]) <==> Counts(flags) && !top
    ensures ButLast(flags + [top]) == flags
    ensures WithTop(flags + [top], true) == flags + [true]
  {
    if Counts(flags + [top]) {
      assert !(flags + [top])[|flags|];
      assert forall i | 0 <= i < |flags| :: flags[i] == (flags + [top])[i];
    }
  }

  /** At an #endif that counts, the branch that ends may be any of its #if. */
  lemma CountedEndif(s: State)
    requires s.checkpoints != [] && Counts(FlagsAfter(Endif, Flags(s)))
    ensures Preprocessed(Endif, Rewound(s)) == Preprocessed(Endif, s)
  {
    var n := |s.checkpoints| - 1;
    forall k | 0 <= k < n
      ensures !s.checkpoints[k].seenElse
    {
      assert !ButLast(Flags(s))[k];
    }
    if Last(s.checkpoints).seenElse {
      FirstSeenIs(s.checkpoints, n);
      assert ButLast(Rewound(s).checkpoints) == ButLast(s.checkpoints);
    } else {
      FirstSeenIs(s.checkpoints, n + 1);
    }
  }

  /** A line that counts does to the rewound state what it does to the state itself. */
  lemma CountedStep(d: Directive, s: State)
    requires Counts(FlagsAfter(d, Flags(s)))
    ensures Preprocessed(d, Rewound(s)) == Preprocessed(d, s)
  {
    if d == Endif && s.checkpoints != [] {
      CountedEndif(s);
    } else {
      if Flags(s) != [] { CountsPushed(ButLast(Flags(s)), true); }
      forall k | 0 <= k < |Flags(s)|
        ensures !Flags(s)[k]
      {
        assert !FlagsAfter(d, Flags(s))[k];
      }
      RewoundIsSame(s);
    }
  }

  /** The rewound state depends on nothing above the outermost #if whose first branch is over. */
  lemma RewoundPrefix(s: State, s': State, j: nat)
    requires j < |s.checkpoints| && j < |s'.checkpoints|
    requires s.checkpoints[..j + 1] == s'.checkpoints[..j + 1]
    requires s.checkpoints[j].seenElse && forall k | 0 <= k < j :: !s.checkpoints[k].seenElse
    ensures Rewound(s) == Rewound(s')
  {
  }

  /** The first #else of the innermost #if, when only first branches are open: the stack is what is saved. */
  lemma FirstElse(s: State, stack: Stack)
    requires Tidy(s) && Counts(Flags(s)) && s.checkpoints != []
    ensures Rewound(Preprocessed(Else, s).(stack := stack)) == s
  {
    var n := |s.checkpoints| - 1;
    var s1 := Preprocessed(Else, s).(stack := stack);
    forall k | 0 <= k <= n
      ensures !s.checkpoints[k].seenElse
    {
      assert !Flags(s)[k];
    }
    FirstSeenIs(s1.checkpoints, n);
    assert s.checkpoints == s.checkpoints[..n] + [s.checkpoints[n]];
  }

  /** A line that does not count leaves the rewound state alone, whatever it does to the stack. */
  lemma ErasedStep(d: Directive, s: State, stack: Stack)
    requires Tidy(s) && !Counts(FlagsAfter(d, Flags(s)))
    ensures Rewound(Preprocessed(d, s).(stack := stack)) == Rewound(s)
  {
    if Counts(Flags(s)) {
      RewoundIsSame(s);
      CountsPushed(Flags(s), false);
      FirstElse(s, stack);
    } else {
      PreprocessedKeeps(d, s);
      ErasedAgain(d, s, stack);
    }
  }

  lemma ErasedAgain(d: Directive, s: State, stack: Stack)
    requires !Counts(Flags(s)) && !Counts(Flags(Preprocessed(d, s)))
    ensures Rewound(Preprocessed(d, s).(stack := stack)) == Rewound(s)
  {
    var s1 := Preprocessed(d, s);
    var j := FirstSeen(s.checkpoints, 0);
    var i :| 0 <= i < |Flags(s)| && Flags(s)[i];
    assert s.checkpoints[i].seenElse;
    var i1 :| 0 <= i1 < |Flags(s1)| && Flags(s1)[i1];
    assert s1.checkpoints[i1].seenElse;
    RewoundPrefix(s, s1.(stack := stack), j);
  }

  /**
   * Branch erasure, for all lines whatsoever, well nested or not: what the tracker will return to after all the
   * branches it is in is what it computes from the lines of first branches alone.
   */
  lemma {:induction false} ErasureSimulates(file: File, lines: seq<nat>, s: State)
    requires Lawful(file) && InFile(file, lines) && Tidy(s)
    ensures InFile(file, Erase(file, lines, Flags(s)))
    ensures Rewound(Run(file, lines, s)) == Run(file, Erase(file, lines, Flags(s)), Rewound(s))
    ensures Tidy(Run(file, lines, s))
  {
    if lines != [] {
      var d := file.directive(file.elided[lines[0]]);
      var s1 := Preprocessed(d, s);
      var s2 := Step(file, lines[0], s);
      PreprocessedKeeps(d, s);
      assert Flags(s2) == Flags(s1);
      ErasureSimulates(file, lines[1..], s2);
      if Counts(Flags(s1)) {
        CountedStep(d, s);
        RewoundIsSame(s1);
        RewoundIsSame(s2);
        var kept := Erase(file, lines, Flags(s));
        assert kept[0] == lines[0] && kept[1..] == Erase(file, lines[1..], Flags(s1));
      } else {
        ErasedStep(d, s, s2.stack);
        assert Erase(file, lines, Flags(s)) == Erase(file, lines[1..], Flags(s1));
      }
    }
  }

  // ----- Well-nested conditionals

  datatype Items =
    | Nothing
    | Line(n: nat, rest: Items)
    | Conditional(ifLine: nat, first: Items, others: Branches, endLine: nat, rest: Items)

  /** The branches that an #else or #elif begins. */
  datatype Branches = NoMore | Branch(elseLine: nat, body: Items, more: Branches)

  function Flatten(items: Items): seq<nat> {
    match items
    case Nothing => []
    case Line(n, rest) => [n] + Flatten(rest)
    case Conditional(ifLine, first, others, endLine, rest) =>
      [ifLine] + (Flatten(first) + (FlattenBranches(others) + ([endLine] + Flatten(rest))))
  }

  function FlattenBranches(branches: Branches): seq<nat> {
    match branches
    case NoMore => []
    case Branch(elseLine, body, more) => [elseLine] + (Flatten(body) + FlattenBranches(more))
  }

  function FirstBranches(items: Items): seq<nat> {
    match items
    case Nothing => []
    case Line(n, rest) => [n] + FirstBranches(rest)
    case Conditional(ifLine, first, others, endLine, rest) =>
      [ifLine] + (FirstBranches(first) + ([endLine] + FirstBranches(rest)))
  }

  predicate Is(file: File, n: nat, d: Directive) { n < |file.elided| && file.directive(file.elided[n]) == d }

  /** The lines are what the structure takes them for. */
  predicate Marked(file: File, items: Items) {
    match items
    case Nothing => true
    case Line(n, rest) => Is(file, n, NoDirective) && Marked(file, rest)
    case Conditional(ifLine, first, others, endLine, rest) =>
      && Is(file, ifLine, If) && Marked(file, first) && MarkedBranches(file, others)
      && Is(file, endLine, Endif) && Marked(file, rest)
  }

  predicate MarkedBranches(file: File, branches: Branches) {
    match branches
    case NoMore => true
    case Branch(elseLine, body, more) => Is(file, elseLine, Else) && Marked(file, body) && MarkedBranches(file, more)
  }

  lemma {:induction false} BothInFile(file: File, a: seq<nat>, b: seq<nat>)
    requires InFile(file, a) && InFile(file, b)
    ensures InFile(file, a + b)
  {
  }

  lemma {:induction false} FlattenInFile(file: File, items: Items)
    requires Marked(file, items)
    ensures InFile(file, Flatten(items)) && InFile(file, FirstBranches(items))
  {
    match items
    case Nothing =>
    case Line(n, rest) =>
      FlattenInFile(file, rest);
      BothInFile(file, [n], Flatten(rest));
      BothInFile(file, [n], FirstBranches(rest));
    case Conditional(ifLine, first, others, endLine, rest) =>
      FlattenInFile(file, first);
      BranchesInFile(file, others);
      FlattenInFile(file, rest);
      EndInFile(file, ifLine, Flatten(first), FlattenBranches(others), endLine, Flatten(rest));
      EndInFile(file, ifLine, FirstBranches(first), [], endLine, FirstBranches(rest));
      assert [] + ([endLine] + FirstBranches(rest)) == [endLine] + FirstBranches(rest);
  }

  lemma {:induction false} EndInFile(file: File, ifLine: nat, first: seq<nat>, others: seq<nat>, endLine: nat,
                                     rest: seq<nat>)
    requires InFile(file, [ifLine]) && InFile(file, first) && InFile(file, others) && InFile(file, [endLine])
    requires InFile(file, rest)
    ensures InFile(file, [ifLine] + (first + (others + ([endLine] + rest))))
  {
    BothInFile(file, [endLine], rest);
    BothInFile(file, others, [endLine] + rest);
    BothInFile(file, first, others + ([endLine] + rest));
    BothInFile(file, [ifLine], first + (others + ([endLine] + rest)));
  }

  lemma {:induction false} BranchesInFile(file: File, branches: Branches)
    requires MarkedBranches(file, branches)
    ensures InFile(file, FlattenBranches(branches))
  {
    match branches
    case NoMore =>
    case Branch(elseLine, body, more) =>
      FlattenInFile(file, body);
      BranchesInFile(file, more);
  }

  /** The flags after all lines. */
  function FlagsAtEnd(file: File, lines: seq<nat>, flags: seq<bool>): seq<bool>
    requires InFile(file, lines)
  {
    if lines == [] then flags
    else FlagsAtEnd(file, lines[1..], FlagsAfter(file.directive(file.elided[lines[0]]), flags))
  }

  lemma {:induction false} RunFlags(file: File, lines: seq<nat>, s: State)
    requires Lawful(file) && InFile(file, lines) && Tidy(s)
    ensures Flags(Run(file, lines, s)) == FlagsAtEnd(file, lines, Flags(s))
  {
    if lines != [] {
      PreprocessedKeeps(file.directive(file.elided[lines[0]]), s);
      var s2 := Step(file, lines[0], s);
      assert Flags(s2) == Flags(Preprocessed(file.directive(file.elided[lines[0]]), s));
      RunFlags(file, lines[1..], s2);
    }
  }

  /** One line first, then the others. */
  lemma FirstLine(file: File, n: nat, rest: seq<nat>, flags: seq<bool>)
    requires n < |file.elided| && InFile(file, rest)
    ensures InFile(file, [n] + rest)
    ensures var flags1 := FlagsAfter(file.directive(file.elided[n]), flags);
            && FlagsAtEnd(file, [n] + rest, flags) == FlagsAtEnd(file, rest, flags1)
            && Erase(file, [n] + rest, flags) == (if Counts(flags1) then [n] else []) + Erase(file, rest, flags1)
  {
  }

  lemma {:induction false} Join(file: File, a: seq<nat>, b: seq<nat>, flags: seq<bool>)
    requires InFile(file, a) && InFile(file, b)
    ensures InFile(file, a + b)
    ensures FlagsAtEnd(file, a + b, flags) == FlagsAtEnd(file, b, FlagsAtEnd(file, a, flags))
    ensures Erase(file, a + b, flags) == Erase(file, a, flags) + Erase(file, b, FlagsAtEnd(file, a, flags))
  {
    if a == [] {
      assert a + b == b;
    } else {
      var rest := a[1..];
      assert a + b == [a[0]] + (rest + b);
      Join(file, rest, b, FlagsAfter(file.directive(file.elided[a[0]]), flags));
      FirstLine(file, a[0], rest + b, flags);
    }
  }

  lemma OneLine(file: File, n: nat, d: Directive, flags: seq<bool>)
    requires Is(file, n, d)
    ensures FlagsAtEnd(file, [n], flags) == FlagsAfter(d, flags)
    ensures Erase(file, [n], flags) == if Counts(FlagsAfter(d, flags)) then [n] else []
  {
  }

  /** What `Erase` keeps of a structure, wherever it stands. */
  function Kept(items: Items, flags: seq<bool>): seq<nat> {
    if Counts(flags) then FirstBranches(items) else []
  }

  lemma {:induction false} EraseItems(file: File, items: Items, flags: seq<bool>)
    requires Marked(file, items)
    ensures InFile(file, Flatten(items))
    ensures FlagsAtEnd(file, Flatten(items), flags) == flags
    ensures Erase(file, Flatten(items), flags) == Kept(items, flags)
  {
    FlattenInFile(file, items);
    match items
    case Nothing =>
    case Line(n, rest) =>
      EraseItems(file, rest, flags);
      OneLine(file, n, NoDirective, flags);
      Join(file, [n], Flatten(rest), flags);
    case Conditional(ifLine, first, others, endLine, rest) =>
      EraseItems(file, rest, flags);
      EraseItems(file, first, flags + [false]);
      EraseBranches(file, others, flags, false);
      CountsPushed(flags, false);
      var tail := FlattenBranches(others) + ([endLine] + Flatten(rest));
      JoinEnd(file, FlattenBranches(others), endLine, Flatten(rest), flags, others.Branch?);
      JoinStart(file, ifLine, Flatten(first), tail, flags);
  }

  /** The other branches, the #endif and what follows. */
  lemma {:induction false} JoinEnd(file: File, others: seq<nat>, endLine: nat, rest: seq<nat>, flags: seq<bool>,
                                   top: bool)
    requires InFile(file, others) && Is(file, endLine, Endif) && InFile(file, rest)
    requires FlagsAtEnd(file, others, flags + [false]) == flags + [top]
    requires Erase(file, others, flags + [false]) == []
    ensures InFile(file, others + ([endLine] + rest))
    ensures FlagsAtEnd(file, others + ([endLine] + rest), flags + [false]) == FlagsAtEnd(file, rest, flags)
    ensures Erase(file, others + ([endLine] + rest), flags + [false]) ==
            (if Counts(flags) then [endLine] else []) + Erase(file, rest, flags)
  {
    CountsPushed(flags, top);
    OneLine(file, endLine, Endif, flags + [top]);
    Join(file, [endLine], rest, flags + [top]);
    Join(file, others, [endLine] + rest, flags + [false]);
  }

  /** The #if, its first branch and the others. */
  lemma {:induction false} JoinStart(file: File, ifLine: nat, first: seq<nat>, tail: seq<nat>, flags: seq<bool>)
    requires Is(file, ifLine, If) && InFile(file, first) && InFile(file, tail)
    requires FlagsAtEnd(file, first, flags + [false]) == flags + [false]
    ensures InFile(file, [ifLine] + (first + tail))
    ensures FlagsAtEnd(file, [ifLine] + (first + tail), flags) == FlagsAtEnd(file, tail, flags + [false])
    ensures Erase(file, [ifLine] + (first + tail), flags) ==
            (if Counts(flags) then [ifLine] else []) +
            (Erase(file, first, flags + [false]) + Erase(file, tail, flags + [false]))
  {
    CountsPushed(flags, false);
    OneLine(file, ifLine, If, flags);
    Join(file, first, tail, flags + [false]);
    Join(file, [ifLine], first + tail, flags);
  }

  /** An #else, its branch and those after it. */
  lemma {:induction false} JoinBranch(file: File, elseLine: nat, body: seq<nat>, more: seq<nat>, flags: seq<bool>,
                                      top: bool)
    requires Is(file, elseLine, Else) && InFile(file, body) && InFile(file, more)
    requires FlagsAtEnd(file, body, flags + [true]) == flags + [true]
    requires Erase(file, body, flags + [true]) == []
    ensures InFile(file, [elseLine] + (body + more))
    ensures FlagsAtEnd(file, [elseLine] + (body + more), flags + [top]) == FlagsAtEnd(file, more, flags + [true])
    ensures Erase(file, [elseLine] + (body + more), flags + [top]) == Erase(file, more, flags + [true])
  {
    CountsPushed(flags, top);
    CountsPushed(flags, true);
    OneLine(file, elseLine, Else, flags + [top]);
    Join(file, body, more, flags + [true]);
    Join(file, [elseLine], body + more, flags + [top]);
  }

  /** Nothing is kept of the other branches. */
  lemma {:induction false} EraseBranches(file: File, branches: Branches, flags: seq<bool>, top: bool)
    requires MarkedBranches(file, branches)
    ensures InFile(file, FlattenBranches(branches))
    ensures FlagsAtEnd(file, FlattenBranches(branches), flags + [top]) == flags + [top || branches.Branch?]
    ensures Erase(file, FlattenBranches(branches), flags + [top]) == []
  {
    BranchesInFile(file, branches);
    match branches
    case NoMore =>
    case Branch(elseLine, body, more) =>
      CountsPushed(flags, true);
      EraseItems(file, body, flags + [true]);
      EraseBranches(file, more, flags, true);
      JoinBranch(file, elseLine, Flatten(body), FlattenBranches(more), flags, top);
  }

  /**
   * For any structure of conditionals, with any number of branches, nested anywhere: all the lines lead to the
   * same stack and the same checkpoints as the first branches alone.
   */
  lemma BranchErasure(file: File, items: Items, s: State)
    requires Lawful(file) && Marked(file, items) && Tidy(s) && Counts(Flags(s))
    ensures InFile(file, Flatten(items)) && InFile(file, FirstBranches(items))
    ensures Run(file, Flatten(items), s) == Run(file, FirstBranches(items), s)
  {
    FlattenInFile(file, items);
    EraseItems(file, items, Flags(s));
    ErasureSimulates(file, Flatten(items), s);
    RunFlags(file, Flatten(items), s);
    RewoundIsSame(s);
    RewoundIsSame(Run(file, Flatten(items), s));
  }

  lemma RewoundDiffers(s: State)
    requires !Counts(Flags(s))
    ensures Rewound(s) != s
  {
  }

  /**
   * For a file of any lines: the tracker ends as after first branches alone if and only if it ends in no other
   * branch.
   */
  lemma ErasureExact(file: File, lines: seq<nat>)
    requires Lawful(file) && InFile(file, lines)
    ensures InFile(file, Erase(file, lines, []))
    ensures Run(file, lines, INITIAL) == Run(file, Erase(file, lines, []), INITIAL) <==>
            Counts(FlagsAtEnd(file, lines, []))
  {
    assert Flags(INITIAL) == [];
    ErasureSimulates(file, lines, INITIAL);
    RunFlags(file, lines, INITIAL);
    RewoundIsSame(INITIAL);
    var s := Run(file, lines, INITIAL);
    if Counts(Flags(s)) { RewoundIsSame(s); } else { RewoundDiffers(s); }
  }

  /** An #else, #elif or #endif outside of any #if is a line like any other. */
  lemma StrayDirective(file: File, n: nat, s: State)
    requires Lawful(file) && n < |file.elided| && s.checkpoints == []
    requires file.directive(file.elided[n]) != If
    ensures Step(file, n, s) == State(Effect(file, n, s.stack), [])
  {
  }

  // ----- Changes in place

  function SeenFlags(stack: Stack): seq<bool> {
    seq(|stack|, i requires 0 <= i < |stack| => stack[i].seenOpenBrace)
  }

  /** The flags of the blocks from place `p` on. */
  function FlagsAbove(stack: Stack, p: nat): seq<bool> { if p <= |stack| then SeenFlags(stack[p..]) else [] }

  /** What a token does to the blocks above some block, of which only their flags matter. */
  function Flagged(c: char, above: seq<bool>): seq<bool>
    requires above != []
  {
    if c == '{' then (if Last(above) then above + [true] else WithTop(above, true))
    else if (c == ';' || c == ')') && Last(above) then above
    else ButLast(above)
  }

  /** The token that comes when the blocks above have all been left is an opening brace. */
  predicate Opens(line: string, above: seq<bool>)
    decreases |line|
  {
    var i := NextToken(line, 0);
    i < |line| && if above == [] then line[i] == '{' else Opens(line[i + 1..], Flagged(line[i], above))
  }

  /** A token above place `p` does nothing else. */
  lemma {:induction false} TokenFlags(file: File, n: nat, c: char, line: string, stack: Stack, p: nat)
    requires p + 1 < |stack|
    ensures var stack1 := Token(file, n, c, line, stack);
            && |stack1| > p && stack1[p] == stack[p]
            && FlagsAbove(stack1, p + 1) == Flagged(c, FlagsAbove(stack, p + 1))
  {
    var above := FlagsAbove(stack, p + 1);
    assert Last(above) == Last(stack).seenOpenBrace;
  }

  /** The block at place `p`, if it has not been opened, is opened by what is left of the line. */
  predicate Awaits(line: string, stack: Stack, p: nat) { p < |stack| && Opens(line, FlagsAbove(stack, p + 1)) }

  /** The token comes to the block itself. */
  lemma {:induction false} AwaitsHere(file: File, n: nat, line: string, stack: Stack)
    requires NextToken(line, 0) < |line| && stack != [] && !Last(stack).seenOpenBrace
    ensures var i := NextToken(line, 0);
            && (Awaits(line, stack, |stack| - 1) <==> line[i] == '{')
            && Token(file, n, line[i], line, stack) ==
               if line[i] == '{' then WithTop(stack, Last(stack).(seenOpenBrace := true)) else ButLast(stack)
  {
  }

  lemma {:induction false} OpensOn(line: string, above: seq<bool>)
    requires NextToken(line, 0) < |line| && above != []
    ensures var i := NextToken(line, 0); Opens(line, above) <==> Opens(line[i + 1..], Flagged(line[i], above))
  {
  }

  /** The token comes to a block above. */
  lemma {:induction false} AwaitsOn(file: File, n: nat, line: string, stack: Stack, p: nat)
    requires NextToken(line, 0) < |line| && p + 1 < |stack|
    ensures var i := NextToken(line, 0);
            var stack1 := Token(file, n, line[i], line, stack);
            p < |stack1| && stack1[p] == stack[p] && (Awaits(line, stack, p) <==> Awaits(line[i + 1..], stack1, p))
  {
    TokenFlags(file, n, line[NextToken(line, 0)], line, stack, p);
    OpensOn(line, FlagsAbove(stack, p + 1));
  }

  /** The value that the innermost block has after line `n`, whether or not it is still on the stack then. */
  function AfterLine(file: File, n: nat, stack: Stack): Info
    requires Lawful(file) && n < |file.elided| && stack != []
  {
    var b := CountedBlock(file, file.elided[n], Last(stack));
    var (stack1, line) := Declared(file, n, stack);
    var above := FlagsAbove(stack1, |stack|);
    b.(isDerived := b.isDerived || (above == [] && !b.seenOpenBrace && b.kind.Class? && file.bareColon(file.elided[n])),
       access := if above == [] && b.kind.Class? && file.accessLabel(line).Some? then file.accessLabel(line).value
                 else b.access,
       seenOpenBrace := b.seenOpenBrace || Opens(line, above))
  }

  lemma {:induction false} NamespacesAbove(file: File, n: nat, line: string, stack: Stack)
    requires Lawful(file)
    ensures stack <= Namespaces(file, n, line, stack).0
    decreases |line|
  {
    match file.namespaceDecl(line)
    case None =>
    case Some(m) =>
      var i := NextBrace(m.rest, 0);
      var opens := i < |m.rest|;
      NamespacesAbove(file, n, if opens then m.rest[i + 1..] else m.rest, stack + [NewNamespace(m.name, n, opens)]);
  }

  lemma DeclaredAbove(file: File, n: nat, stack: Stack)
    requires Lawful(file) && n < |file.elided|
    ensures Counted(file, file.elided[n], stack) <= Declared(file, n, stack).0
    ensures |stack| <= |Declared(file, n, stack).0|
  {
    NamespacesAbove(file, n, file.elided[n], Counted(file, file.elided[n], stack));
  }

  lemma {:induction false} HeadAbove(file: File, n: nat, stack: Stack)
    requires Lawful(file) && n < |file.elided| && stack != []
    ensures var (stack1, line) := Head(file, n, stack);
            var p := |stack| - 1;
            p < |stack1| && AfterLine(file, n, stack) ==
                            stack1[p].(seenOpenBrace := stack1[p].seenOpenBrace || Awaits(line, stack1, p))
  {
    DeclaredAbove(file, n, stack);
    assert FlagsAbove(Head(file, n, stack).0, |stack|) == FlagsAbove(Declared(file, n, stack).0, |stack|);
  }

  /** The line leaves another value in the innermost block. */
  predicate WritesInPlace(file: File, n: nat, stack: Stack)
    requires Lawful(file) && n < |file.elided| && stack != []
  {
    var b, line := Last(stack), file.elided[n];
    var (stack1, rest) := Declared(file, n, stack);
    var above := FlagsAbove(stack1, |stack|);
    var access := file.accessLabel(rest);
    || Change(line) != 0
    || b.inlineAsm == EndAsm
    || (b.inlineAsm == InsideAsm && b.openParentheses == 0)
    || (!b.seenOpenBrace && Opens(rest, above))
    || (above == [] && b.kind.Class? && !b.seenOpenBrace && !b.isDerived && file.bareColon(line))
    || (above == [] && b.kind.Class? && access.Some? && access.value != b.access)
  }

  /**
   * A line changes the innermost block in place if and only if its parentheses are unequal, inline assembly has ended
   * or ends here, the brace that opens the block comes, or the block is a class that the line has not covered by
   * others, and there is a colon in its head or another access label.
   */
  lemma {:induction false} WrittenIff(file: File, n: nat, stack: Stack)
    requires Lawful(file) && n < |file.elided| && stack != []
    ensures AfterLine(file, n, stack) != Last(stack) <==> WritesInPlace(file, n, stack)
  {
  }

  /** A file that recognises nothing. */
  function Plain(elided: seq<string>): File {
    File(elided, _ => NoDirective, _ => None, _ => None, _ => false, _ => None, _ => false, _ => false,
         (_, _) => false, _ => 0, _ => 0)
  }

  /** A line of one call that is not finished: the block it stands in has another value afterwards. */
  lemma InPlaceExample()
    ensures var file := Plain(["f("]);
            Lawful(file) && Effect(file, 0, [NewBraces(0, NoAsm)]) == [NewBraces(0, NoAsm).(openParentheses := 1)]
  {
    var file := Plain(["f("]);
    assert Count("f(", '(') == Count("(", '(') == 1 && Count("f(", ')') == Count("(", ')') == 0;
    assert Counted(file, "f(", [NewBraces(0, NoAsm)]) == [NewBraces(0, NoAsm).(openParentheses := 1)];
    assert NextToken("f(", 0) == NextToken("f(", 1) == 2;
  }

  lemma {:induction false} BraceOpens(file: File, b: Info)
    requires !b.seenOpenBrace
    ensures Tokens(file, 0, "{", [b]) == [b.(seenOpenBrace := true)]
  {
    assert NextToken("{", 0) == 0 && "{"[1..] == "";
    assert WithTop([b], b.(seenOpenBrace := true)) == [b.(seenOpenBrace := true)];
    assert Tokens(file, 0, "", [b.(seenOpenBrace := true)]) == [b.(seenOpenBrace := true)];
  }

  /** A line of one brace, which the namespace has been waiting for: no parenthesis is written. */
  lemma BraceExample()
    ensures var file := Plain(["{"]);
            var b := NewNamespace("a", 0, false);
            Lawful(file) && Change("{") == 0 && Effect(file, 0, [b]) == [b.(seenOpenBrace := true)]
  {
    var file := Plain(["{"]);
    var b := NewNamespace("a", 0, false);
    assert Count("{", '(') == Count("", '(') == 0 && Count("{", ')') == Count("", ')') == 0;
    assert Counted(file, "{", [b]) == [b];
    assert Head(file, 0, [b]) == ([b], "{");
    BraceOpens(file, b);
  }

  /** Count is the number of places that hold the character. */
  lemma {:induction false} CountIsExact(line: string, c: char)
    ensures Count(line, c) == multiset(line)[c]
  {
    if line != "" {
      CountIsExact(line[1..], c);
      assert line == [line[0]] + line[1..];
    }
  }

  // ----- One block over several lines

  /** The block while nothing else happens in these lines but parentheses and assembly. */
  function CountedAll(file: File, lines: seq<string>, b: Info): Info
    decreases |lines|
  {
    if lines == [] then b else CountedAll(file, lines[1..], CountedBlock(file, lines[0], b))
  }

  function Depth(lines: seq<string>, open: int): int
    decreases |lines|
  {
    if lines == [] then open else Depth(lines[1..], open + Change(lines[0]))
  }

  /** The parentheses of the lines are added up, and nothing but the two fields is written. */
  lemma {:induction false} DepthIsCounted(file: File, lines: seq<string>, b: Info)
    ensures var r := CountedAll(file, lines, b);
            r.openParentheses == Depth(lines, b.openParentheses) &&
            r == b.(openParentheses := r.openParentheses, inlineAsm := r.inlineAsm)
    decreases |lines|
  {
    if lines != [] { DepthIsCounted(file, lines[1..], CountedBlock(file, lines[0], b)); }
  }

  /** No line leaves the parentheses closed. */
  predicate StaysOpen(lines: seq<string>, open: int)
    decreases |lines|
  {
    lines == [] || (open + Change(lines[0]) != 0 && StaysOpen(lines[1..], open + Change(lines[0])))
  }

  lemma {:induction false} AsmGoesOn(file: File, lines: seq<string>, b: Info)
    requires b.inlineAsm == InsideAsm && StaysOpen(lines, b.openParentheses)
    ensures CountedAll(file, lines, b).inlineAsm == InsideAsm
    decreases |lines|
  {
    if lines != [] { AsmGoesOn(file, lines[1..], CountedBlock(file, lines[0], b)); }
  }

  /**
   * An assembly statement of several lines: its first line opens the one parenthesis, the block is inside assembly
   * through all lines that leave it open, the line that closes it ends the assembly, and the next line leaves it.
   */
  lemma {:induction false} AsmStatement(file: File, head: string, lines: seq<string>, close: string, next: string,
                                        b: Info)
    requires b.inlineAsm == NoAsm || b.inlineAsm == EndAsm
    requires file.asm(head) && Change(head) != 0 && b.openParentheses + Change(head) == 1
    requires StaysOpen(lines, 1) && Depth(lines, 1) + Change(close) == 0 && !file.asm(next)
    ensures var b1 := CountedBlock(file, head, b);
            var b2 := CountedAll(file, lines, b1);
            var b3 := CountedBlock(file, close, b2);
            && b1.inlineAsm == b2.inlineAsm == InsideAsm && b3.inlineAsm == EndAsm
            && CountedBlock(file, next, b3).inlineAsm == NoAsm
  {
    var b1 := CountedBlock(file, head, b);
    AsmGoesOn(file, lines, b1);
    DepthIsCounted(file, lines, b1);
  }
}