/**
 * What the nesting tracker computes, said by the text of the lines: which blocks a line declares, which opening braces
 * are still open and what each of them opened, what comes back when a block is closed, and where a branch starts.
 */
module NestingMeaning {
  import opened Options
  import opened Nesting
  import opened Text

  // ----- Namespaces at the beginning of a line

  datatype Decl = Decl(name: string, opens: bool)

  /** The namespaces that the line begins with, each with its name and whether a brace follows. */
  function Decls(file: File, line: string): seq<Decl>
    requires Lawful(file)
    decreases |line|
  {
    match file.namespaceDecl(line)
    case None => []
    case Some(m) => [Decl(m.name, '{' in m.rest)] + Decls(file, Behind(m.rest))
  }

  /** The text behind the first opening brace, or all of it. */
  function Behind(text: string): (r: string)
    ensures |r| <= |text|
  {
    var i := NextBrace(text, 0);
    if i < |text| then text[i + 1..] else text
  }

  function Rest(file: File, line: string): string
    requires Lawful(file)
    decreases |line|
  {
    match file.namespaceDecl(line)
    case None => line
    case Some(m) => Rest(file, Behind(m.rest))
  }

  function Blocks(ds: seq<Decl>, n: nat): Stack {
    seq(|ds|, i requires 0 <= i < |ds| => NewNamespace(ds[i].name, n, ds[i].opens))
  }

  lemma {:induction false} NextBraceFinds(text: string, i: nat)
    requires i <= |text|
    ensures NextBrace(text, i) < |text| <==> '{' in text[i..]
    ensures NextBrace(text, i) < |text| ==> text[NextBrace(text, i)] == '{' && '{' !in text[i..NextBrace(text, i)]
    decreases |text| - i
  {
    if i < |text| {
      assert text[i..] == [text[i]] + text[i + 1..];
      if text[i] != '{' {
        NextBraceFinds(text, i + 1);
        var r := NextBrace(text, i);
        assert text[i..r] == [text[i]] + text[i + 1..r];
      }
    }
  }

  lemma {:induction false} BlocksOn(d: Decl, ds: seq<Decl>, n: nat, stack: Stack)
    ensures stack + Blocks([d] + ds, n) == stack + [NewNamespace(d.name, n, d.opens)] + Blocks(ds, n)
  {
  }

  /** The line enters exactly its namespaces, in order, each open if its brace is there; the rest is what follows. */
  lemma {:induction false} NamespacesEnter(file: File, n: nat, line: string, stack: Stack)
    requires Lawful(file)
    ensures Namespaces(file, n, line, stack) == (stack + Blocks(Decls(file, line), n), Rest(file, line))
    decreases |line|
  {
    match file.namespaceDecl(line)
    case None => assert stack + Blocks([], n) == stack;
    case Some(m) =>
      NextBraceFinds(m.rest, 0);
      assert m.rest[0..] == m.rest;
      var d := Decl(m.name, '{' in m.rest);
      var block := NewNamespace(d.name, n, d.opens);
      var ds := Decls(file, Behind(m.rest));
      NamespacesEnter(file, n, Behind(m.rest), stack + [block]);
      BlocksOn(d, ds, n, stack);
  }

  // ----- The text as marks

  /** What opens a block: the declaration or the brace alone, its line, and whether it is an assembly block. */
  datatype Opening = Opening(kind: Kind, start: nat, asm: bool)

  datatype Mark =
    | Waiting(o: Opening)     // a declaration without its brace
    | Opened(o: Opening)      // a declaration with its brace
    | Brace(plain: Opening)   // a brace, and what it opens if no declaration waits for it
    | Drop                    // a semicolon or a closing parenthesis
    | Close

  predicate IsToken(c: char) { c == '{' || c == '}' || c == ';' || c == ')' }

  /** A token, and the text that begins behind the one before it. */
  function TokenMark(file: File, n: nat, c: char, text: string): Mark
    requires IsToken(c)
  {
    if c == '{' then
      Brace(if file.externC(text) then Opening(ExternC, n, false) else Opening(Braces, n, file.asm(text)))
    else if c == '}' then Close
    else Drop
  }

  function TokenMarks(file: File, n: nat, text: string, i: nat): seq<Mark>
    requires i <= |text|
    decreases |text|, |text| - i
  {
    if i == |text| then []
    else if IsToken(text[i]) then [TokenMark(file, n, text[i], text)] + TokenMarks(file, n, text[i + 1..], 0)
    else TokenMarks(file, n, text, i + 1)
  }

  function DeclMark(d: Decl, n: nat): Mark {
    var o := Opening(Namespace(d.name), n, false);
    if d.opens then Opened(o) else Waiting(o)
  }

  function DeclMarks(ds: seq<Decl>, n: nat): seq<Mark> {
    seq(|ds|, i requires 0 <= i < |ds| => DeclMark(ds[i], n))
  }

  /**
   * A class declaration follows the namespaces of the line, and it is neither inside parentheses of the innermost block
   * nor in a list of template arguments.
   */
  predicate EntersClass(file: File, n: nat, stack: Stack)
    requires Lawful(file) && n < |file.elided|
  {
    var line := file.elided[n];
    var m := file.classDecl(Rest(file, line));
    && m.Some? && !file.inTemplate(n, m.value.headLength)
    && (stack == [] || Decls(file, line) != [] || Last(stack).openParentheses + Change(line) == 0)
  }

  /** The text behind the declarations of the line. */
  function Tail(file: File, n: nat, stack: Stack): string
    requires Lawful(file) && n < |file.elided|
  {
    var rest := Rest(file, file.elided[n]);
    if EntersClass(file, n, stack) then file.classDecl(rest).value.rest else rest
  }

  function ClassOpening(file: File, n: nat, m: ClassMatch): Opening {
    Opening(Class(m.name, m.isStruct, file.classIndent(n), file.classEnd(n)), n, false)
  }

  function Marks(file: File, n: nat, stack: Stack): seq<Mark>
    requires Lawful(file) && n < |file.elided|
  {
    DeclMarks(Decls(file, file.elided[n]), n)
    + ClassMarks(file, n, stack)
    + TokenMarks(file, n, Tail(file, n, stack), 0)
  }

  function ClassMarks(file: File, n: nat, stack: Stack): seq<Mark>
    requires Lawful(file) && n < |file.elided|
  {
    if EntersClass(file, n, stack) then [Waiting(ClassOpening(file, n, file.classDecl(Rest(file,
      file.elided[n])).value))]
    else []
  }

  // ----- Brackets

  datatype Bracket = Up(o: Opening) | Down

  /** What a mark says: brackets, and the declaration that waits for its brace from here on. */
  datatype Reading = Reading(word: seq<Bracket>, waits: Option<Opening>)

  function ReadMark(m: Mark, waits: Option<Opening>): Reading {
    match m
    case Waiting(o) => Reading([], Some(o))
    case Opened(o) => Reading([Up(o)], waits)
    case Brace(plain) => Reading([Up(if waits.Some? then waits.value else plain)], None)
    case Drop => Reading([], None)
    case Close => Reading([Down], waits)
  }

  function Read(marks: seq<Mark>, waits: Option<Opening>): Reading {
    if marks == [] then Reading([], waits)
    else
      var first := ReadMark(marks[0], waits);
      var rest := Read(marks[1..], first.waits);
      Reading(first.word + rest.word, rest.waits)
  }

  /** While a declaration waits for its brace, nothing else is declared, and nothing is closed. */
  predicate Regular(marks: seq<Mark>, waits: Option<Opening>) {
    marks == [] || (RegularMark(marks[0], waits) && Regular(marks[1..], ReadMark(marks[0], waits).waits))
  }

  predicate RegularMark(m: Mark, waits: Option<Opening>) { m.Waiting? || m.Opened? || m.Close? ==> waits == None }

  function AfterBracket(open: seq<Opening>, b: Bracket): seq<Opening> {
    match b
    case Up(o) => open + [o]
    case Down => if open == [] then [] else ButLast(open)
  }

  /** The openings that are still open, once those before are `open` and `word` follows. */
  function AfterWord(open: seq<Opening>, word: seq<Bracket>): seq<Opening>
    decreases |word|
  {
    if word == [] then open else AfterWord(AfterBracket(open, word[0]), word[1..])
  }

  lemma {:induction false} AfterBoth(open: seq<Opening>, a: seq<Bracket>, b: seq<Bracket>)
    ensures AfterWord(open, a + b) == AfterWord(AfterWord(open, a), b)
    decreases |a|
  {
    if a == [] {
      assert a + b == b;
    } else {
      assert (a + b)[1..] == a[1..] + b;
      AfterBoth(AfterBracket(open, a[0]), a[1..], b);
    }
  }

  lemma {:induction false} ReadFirst(m: Mark, rest: seq<Mark>, waits: Option<Opening>)
    ensures var first := ReadMark(m, waits);
            && Read([m] + rest, waits).word == first.word + Read(rest, first.waits).word
            && Read([m] + rest, waits).waits == Read(rest, first.waits).waits
            && (Regular([m] + rest, waits) <==> RegularMark(m, waits) && Regular(rest, first.waits))
  {
    assert ([m] + rest)[1..] == rest;
  }

  lemma {:induction false} RegroupMarks(m: Mark, a: seq<Mark>, b: seq<Mark>)
    ensures ([m] + a) + b == [m] + (a + b)
  {
  }

  lemma {:induction false} ReadBoth(a: seq<Mark>, b: seq<Mark>, waits: Option<Opening>)
    ensures Read(a + b, waits).word == Read(a, waits).word + Read(b, Read(a, waits).waits).word
    ensures Read(a + b, waits).waits == Read(b, Read(a, waits).waits).waits
    ensures Regular(a + b, waits) <==> Regular(a, waits) && Regular(b, Read(a, waits).waits)
    decreases |a|
  {
    if a == [] {
      assert a + b == b;
    } else {
      var m, rest := a[0], a[1..];
      assert a == [m] + rest;
      ReadBoth(rest, b, ReadMark(m, waits).waits);
      ReadFirst(m, rest, waits);
      ReadFirst(m, rest + b, waits);
      RegroupMarks(m, rest, b);
    }
  }

  // ----- What the stack shows

  predicate Matches(b: Info, o: Opening) {
    b.kind == o.kind && b.start == o.start && (b.inlineAsm == BlockAsm <==> o.asm)
  }

  /** The stack holds the open openings, from the outside in, and on top of them the declaration that waits. */
  predicate Shows(stack: Stack, open: seq<Opening>, waits: Option<Opening>) {
    && |stack| == |open| + (if waits.Some? then 1 else 0)
    && (forall i | 0 <= i < |open| :: Matches(stack[i], open[i]) && stack[i].seenOpenBrace)
    && (waits.Some? ==> Matches(Last(stack), waits.value) && !Last(stack).seenOpenBrace)
  }

  lemma {:induction false} TokenShows(file: File, n: nat, c: char, text: string, stack: Stack, open: seq<Opening>,
                                      waits: Option<Opening>)
    requires IsToken(c) && Shows(stack, open, waits) && RegularMark(TokenMark(file, n, c, text), waits)
    ensures var r := ReadMark(TokenMark(file, n, c, text), waits);
            Shows(Token(file, n, c, text, stack), AfterWord(open, r.word), r.waits)
  {
    var r := ReadMark(TokenMark(file, n, c, text), waits);
    if r.word != [] { assert r.word[1..] == []; }
  }

  lemma {:induction false} MarksFromNext(file: File, n: nat, text: string, i: nat)
    requires i <= |text|
    ensures NextToken(text, i) < |text| ==> IsToken(text[NextToken(text, i)])
    ensures var j := NextToken(text, i);
            TokenMarks(file, n, text, i) ==
            if j == |text| then []
            else [TokenMark(file, n, text[j], text)] + TokenMarks(file, n, text[j + 1..], 0)
    decreases |text| - i
  {
    if i < |text| && !IsToken(text[i]) { MarksFromNext(file, n, text, i + 1); }
  }

  lemma {:induction false} TokensShow(file: File, n: nat, text: string, stack: Stack, open: seq<Opening>,
                                      waits: Option<Opening>)
    requires Shows(stack, open, waits) && Regular(TokenMarks(file, n, text, 0), waits)
    ensures var r := Read(TokenMarks(file, n, text, 0), waits);
            Shows(Tokens(file, n, text, stack), AfterWord(open, r.word), r.waits)
    decreases |text|
  {
    var i := NextToken(text, 0);
    MarksFromNext(file, n, text, 0);
    if i < |text| {
      var marks := TokenMarks(file, n, text, 0);
      var m := TokenMark(file, n, text[i], text);
      var more := TokenMarks(file, n, text[i + 1..], 0);
      assert marks[0] == m && marks[1..] == more;
      var first := ReadMark(m, waits);
      TokenShows(file, n, text[i], text, stack, open, waits);
      var stack1 := Token(file, n, text[i], text, stack);
      TokensShow(file, n, text[i + 1..], stack1, AfterWord(open, first.word), first.waits);
      AfterBoth(open, first.word, Read(more, first.waits).word);
    }
  }

  lemma {:induction false} DeclsShow(ds: seq<Decl>, n: nat, stack: Stack, open: seq<Opening>, waits: Option<Opening>)
    requires Shows(stack, open, waits) && Regular(DeclMarks(ds, n), waits)
    ensures var r := Read(DeclMarks(ds, n), waits);
            Shows(stack + Blocks(ds, n), AfterWord(open, r.word), r.waits)
    decreases |ds|
  {
    if ds == [] {
      assert stack + Blocks(ds, n) == stack;
    } else {
      var d, more := ds[0], ds[1..];
      assert ds == [d] + more;
      assert DeclMarks(ds, n)[0] == DeclMark(d, n) && DeclMarks(ds, n)[1..] == DeclMarks(more, n);
      var first := ReadMark(DeclMark(d, n), waits);
      var stack1 := stack + [NewNamespace(d.name, n, d.opens)];
      OneDeclShows(d, n, stack, open, waits);
      DeclsShow(more, n, stack1, AfterWord(open, first.word), first.waits);
      BlocksOn(d, more, n, stack);
      AfterBoth(open, first.word, Read(DeclMarks(more, n), first.waits).word);
    }
  }

  lemma {:induction false} OneDeclShows(d: Decl, n: nat, stack: Stack, open: seq<Opening>, waits: Option<Opening>)
    requires Shows(stack, open, waits) && RegularMark(DeclMark(d, n), waits)
    ensures var r := ReadMark(DeclMark(d, n), waits);
            Shows(stack + [NewNamespace(d.name, n, d.opens)], AfterWord(open, r.word), r.waits)
  {
    var r := ReadMark(DeclMark(d, n), waits);
    if r.word != [] { assert r.word[1..] == []; }
  }

  /** Counting parentheses, CheckBegin and access labels write nothing that is shown. */
  lemma {:induction false} WritesShowNothing(file: File, line: string, rest: string, stack: Stack, open: seq<Opening>,
                          waits: Option<Opening>)
    requires Shows(stack, open, waits)
    ensures Shows(Counted(file, line, stack), open, waits)
    ensures Shows(Labelled(file, rest, Begun(file, line, stack)), open, waits)
  {
  }

  /** The declarations of a line, as the tracker enters them. */
  lemma {:induction false} DeclaredIs(file: File, n: nat, stack: Stack)
    requires Lawful(file) && n < |file.elided|
    ensures var line := file.elided[n];
            var stack1 := Counted(file, line, stack) + Blocks(Decls(file, line), n);
            Declared(file, n, stack) ==
            (if EntersClass(file, n, stack) then stack1 + [NewClass(file, file.classDecl(Rest(file, line)).value, n)]
             else stack1,
             Tail(file, n, stack))
  {
    var line := file.elided[n];
    NamespacesEnter(file, n, line, Counted(file, line, stack));
    var ds := Decls(file, line);
    var stack1 := Counted(file, line, stack) + Blocks(ds, n);
    if ds != [] {
      assert Last(stack1) == Last(Blocks(ds, n));
    } else {
      assert stack1 == Counted(file, line, stack);
    }
  }

  lemma {:induction false} ClassShows(file: File, n: nat, stack0: Stack, stack: Stack, open: seq<Opening>,
                                      waits: Option<Opening>)
    requires Lawful(file) && n < |file.elided|
    requires Shows(stack, open, waits) && Regular(ClassMarks(file, n, stack0), waits)
    ensures var r := Read(ClassMarks(file, n, stack0), waits);
            Shows(if EntersClass(file, n, stack0)
                  then stack + [NewClass(file, file.classDecl(Rest(file, file.elided[n])).value, n)] else stack,
                  AfterWord(open, r.word), r.waits)
  {
    if EntersClass(file, n, stack0) {
      assert ClassMarks(file, n, stack0)[1..] == [];
    }
  }

  function HeadMarks(file: File, n: nat, stack: Stack): seq<Mark>
    requires Lawful(file) && n < |file.elided|
  {
    DeclMarks(Decls(file, file.elided[n]), n) + ClassMarks(file, n, stack)
  }

  lemma {:induction false} HeadShows(file: File, n: nat, stack: Stack, open: seq<Opening>, waits: Option<Opening>)
    requires Lawful(file) && n < |file.elided|
    requires Shows(stack, open, waits) && Regular(HeadMarks(file, n, stack), waits)
    ensures var r := Read(HeadMarks(file, n, stack), waits);
            Shows(Head(file, n, stack).0, AfterWord(open, r.word), r.waits)
    ensures Head(file, n, stack).1 == Tail(file, n, stack)
  {
    var line, tail := file.elided[n], Tail(file, n, stack);
    var decls := DeclMarks(Decls(file, line), n);
    ReadBoth(decls, ClassMarks(file, n, stack), waits);
    var r1 := Read(decls, waits);
    var r2 := Read(ClassMarks(file, n, stack), r1.waits);
    WritesShowNothing(file, line, tail, stack, open, waits);
    DeclsShow(Decls(file, line), n, Counted(file, line, stack), open, waits);
    ClassShows(file, n, stack, Counted(file, line, stack) + Blocks(Decls(file, line), n), AfterWord(open, r1.word),
               r1.waits);
    DeclaredIs(file, n, stack);
    AfterBoth(open, r1.word, r2.word);
    WritesShowNothing(file, line, tail, Declared(file, n, stack).0, AfterWord(open, r1.word + r2.word), r2.waits);
  }

  /** One line: the stack goes on showing what its marks say. */
  lemma {:induction false} LineShows(file: File, n: nat, stack: Stack, open: seq<Opening>, waits: Option<Opening>)
    requires Lawful(file) && n < |file.elided|
    requires Shows(stack, open, waits) && Regular(Marks(file, n, stack), waits)
    ensures var r := Read(Marks(file, n, stack), waits);
            Shows(Effect(file, n, stack), AfterWord(open, r.word), r.waits)
  {
    var tail := Tail(file, n, stack);
    var tokens := TokenMarks(file, n, tail, 0);
    ReadBoth(HeadMarks(file, n, stack), tokens, waits);
    var r1 := Read(HeadMarks(file, n, stack), waits);
    HeadShows(file, n, stack, open, waits);
    TokensShow(file, n, tail, Head(file, n, stack).0, AfterWord(open, r1.word), r1.waits);
    AfterBoth(open, r1.word, Read(tokens, r1.waits).word);
  }

  // ----- Files

  predicate NoElse(file: File, lines: seq<nat>)
    requires InFile(file, lines)
  {
    forall i | 0 <= i < |lines| :: file.directive(file.elided[lines[i]]) != Else
  }

  /** Every open #if is in its first branch. */
  predicate Unsplit(s: State) { forall i | 0 <= i < |s.checkpoints| :: !s.checkpoints[i].seenElse }

  lemma {:induction false} UnsplitStep(file: File, n: nat, s: State)
    requires Lawful(file) && n < |file.elided| && Unsplit(s) && file.directive(file.elided[n]) != Else
    ensures Unsplit(Step(file, n, s)) && Step(file, n, s).stack == Effect(file, n, s.stack)
  {
  }

  /** The marks of the lines, one after the other; the stack decides only whether a class is inside parentheses. */
  function AllMarks(file: File, lines: seq<nat>, stack: Stack): seq<Mark>
    requires Lawful(file) && InFile(file, lines)
  {
    if lines == [] then []
    else Marks(file, lines[0], stack) + AllMarks(file, lines[1..], Effect(file, lines[0], stack))
  }

  /** What of the openings of a word is not closed in it, looking back from its end, where `d` closers are in wait. */
  function Unclosed(word: seq<Bracket>, d: nat): seq<Opening>
    decreases |word|
  {
    if word == [] then []
    else
      var before, b := word[..|word| - 1], word[|word| - 1];
      if b.Down? then Unclosed(before, d + 1)
      else if d > 0 then Unclosed(before, d - 1)
      else Unclosed(before, 0) + [b.o]
  }

  function Fewer(open: seq<Opening>, d: nat): seq<Opening> { if d <= |open| then open[..|open| - d] else [] }

  lemma {:induction false} UnclosedIsAfter(word: seq<Bracket>, d: nat)
    ensures Unclosed(word, d) == Fewer(AfterWord([], word), d)
    decreases |word|
  {
    if word != [] {
      var before, b := word[..|word| - 1], word[|word| - 1];
      assert word == before + [b] && [b][1..] == [];
      AfterBoth([], before, [b]);
      UnclosedIsAfter(before, if b.Down? then d + 1 else if d > 0 then d - 1 else 0);
    }
  }

  lemma {:induction false} LinesShow(file: File, lines: seq<nat>, s: State, open: seq<Opening>, waits: Option<Opening>)
    requires Lawful(file) && InFile(file, lines) && NoElse(file, lines) && Unsplit(s)
    requires Shows(s.stack, open, waits) && Regular(AllMarks(file, lines, s.stack), waits)
    ensures var r := Read(AllMarks(file, lines, s.stack), waits);
            Shows(Run(file, lines, s).stack, AfterWord(open, r.word), r.waits)
    decreases |lines|
  {
    if lines != [] {
      var first, rest := Marks(file, lines[0], s.stack), AllMarks(file, lines[1..], Effect(file, lines[0], s.stack));
      ReadBoth(first, rest, waits);
      LineShows(file, lines[0], s.stack, open, waits);
      UnsplitStep(file, lines[0], s);
      var r := Read(first, waits);
      LinesShow(file, lines[1..], Step(file, lines[0], s), AfterWord(open, r.word), r.waits);
      AfterBoth(open, r.word, Read(rest, r.waits).word);
    }
  }

  /**
   * In a file of any lines without #else the stack holds exactly the opening braces of the text that are not closed
   * yet, from the outside in, each as a namespace, a class, an extern "C" or a plain block, by what stands before it,
   * and on top of them the declaration that waits for its brace.
   */
  lemma {:induction false} StackIsUnclosed(file: File, lines: seq<nat>)
    requires Lawful(file) && InFile(file, lines) && NoElse(file, lines)
    requires Regular(AllMarks(file, lines, []), None)
    ensures var r := Read(AllMarks(file, lines, []), None);
            Shows(Run(file, lines, INITIAL).stack, Unclosed(r.word, 0), r.waits)
  {
    LinesShow(file, lines, INITIAL, [], None);
    NoneInWait(Read(AllMarks(file, lines, []), None).word);
  }

  lemma {:induction false} NoneInWait(word: seq<Bracket>)
    ensures Unclosed(word, 0) == AfterWord([], word)
  {
    UnclosedIsAfter(word, 0);
  }

  lemma {:induction false} BothNoElse(file: File, a: seq<nat>, b: seq<nat>)
    requires InFile(file, a) && InFile(file, b) && NoElse(file, a) && NoElse(file, b)
    ensures InFile(file, a + b) && NoElse(file, a + b)
  {
  }

  lemma {:induction false} FirstsNoElse(file: File, items: Items)
    requires Marked(file, items)
    ensures InFile(file, FirstBranches(items)) && NoElse(file, FirstBranches(items))
  {
    FlattenInFile(file, items);
    match items
    case Nothing =>
    case Line(n, rest) =>
      FirstsNoElse(file, rest);
      BothNoElse(file, [n], FirstBranches(rest));
    case Conditional(ifLine, first, others, endLine, rest) =>
      FirstsNoElse(file, first);
      FirstsNoElse(file, rest);
      BothNoElse(file, [endLine], FirstBranches(rest));
      BothNoElse(file, FirstBranches(first), [endLine] + FirstBranches(rest));
      BothNoElse(file, [ifLine], FirstBranches(first) + ([endLine] + FirstBranches(rest)));
  }

  /** In a file with conditionals, nested anywhere and with any branches, it holds those of the first branches. */
  lemma {:induction false} FirstBranchesCount(file: File, items: Items)
    requires Lawful(file) && Marked(file, items) && InFile(file, FirstBranches(items))
    requires Regular(AllMarks(file, FirstBranches(items), []), None)
    ensures InFile(file, Flatten(items))
    ensures var r := Read(AllMarks(file, FirstBranches(items), []), None);
            Shows(Run(file, Flatten(items), INITIAL).stack, Unclosed(r.word, 0), r.waits)
  {
    FirstsNoElse(file, items);
    StackIsUnclosed(file, FirstBranches(items));
    BranchErasure(file, items, INITIAL);
  }

  /** Blocks that are opened and closed, one after the other and inside one another. */
  datatype Nest = Empty | Pair(o: Opening, inside: Nest, rest: Nest)

  function WordOf(t: Nest): seq<Bracket> {
    match t
    case Empty => []
    case Pair(o, inside, rest) => [Up(o)] + WordOf(inside) + [Down] + WordOf(rest)
  }

  /** Whatever is opened and closed again leaves what was open before. */
  lemma {:induction false} NestIsClosed(open: seq<Opening>, t: Nest)
    ensures AfterWord(open, WordOf(t)) == open
    decreases t
  {
    match t
    case Empty =>
    case Pair(o, inside, rest) =>
      var up, down: seq<Bracket> := [Up(o)], [Down];
      AfterBoth(open, up + WordOf(inside) + down, WordOf(rest));
      AfterBoth(open, up + WordOf(inside), down);
      AfterBoth(open, up, WordOf(inside));
      assert up[1..] == [] && down[1..] == [];
      NestIsClosed(open + [o], inside);
      NestIsClosed(open, rest);
  }

  lemma {:induction false} AfterOne(open: seq<Opening>, word: seq<Bracket>, b: Bracket)
    ensures AfterWord(open, word + [b]) == AfterBracket(AfterWord(open, word), b)
  {
    AfterBoth(open, word, [b]);
    assert [b][1..] == [];
  }

  /** An opening stays unclosed as long as what follows it is closed in itself. */
  lemma {:induction false} UnclosedOpening(before: seq<Bracket>, o: Opening, t: Nest)
    ensures Unclosed(before + [Up(o)] + WordOf(t), 0) == Unclosed(before, 0) + [o]
  {
    var up := before + [Up(o)];
    AfterOne([], before, Up(o));
    AfterBoth([], up, WordOf(t));
    NestIsClosed(AfterWord([], up), t);
    NoneInWait(before);
    NoneInWait(up + WordOf(t));
  }

  /** Its closer gives back what was open before it. */
  lemma {:induction false} ClosedOpening(before: seq<Bracket>, o: Opening, t: Nest)
    ensures Unclosed(before + [Up(o)] + WordOf(t) + [Down], 0) == Unclosed(before, 0)
  {
    var word := before + [Up(o)] + WordOf(t);
    UnclosedOpening(before, o, t);
    NoneInWait(word);
    AfterOne([], word, Down);
    NoneInWait(word + [Down]);
    assert ButLast(Unclosed(before, 0) + [o]) == Unclosed(before, 0);
  }

  // ----- What a block leaves behind

  /** The tokens of the text leave blocks of `stack`, or end with the last of them. */
  predicate StaysInside(file: File, n: nat, text: string, stack: Stack)
    decreases |text|
  {
    var i := NextToken(text, 0);
    i == |text| ||
    (stack != [] && StaysInside(file, n, text[i + 1..], Token(file, n, text[i], text, stack)))
  }

  lemma {:induction false} TokenAbove(file: File, n: nat, c: char, text: string, below: Stack, stack: Stack)
    requires stack != []
    ensures Token(file, n, c, text, below + stack) == below + Token(file, n, c, text, stack)
  {
    assert Last(below + stack) == Last(stack);
    assert ButLast(below + stack) == below + ButLast(stack);
    forall b: Info
      ensures WithTop(below + stack, b) == below + WithTop(stack, b) && below + stack + [b] == below + (stack + [b])
    {
    }
  }

  lemma {:induction false} TokensAbove(file: File, n: nat, text: string, below: Stack, stack: Stack)
    requires StaysInside(file, n, text, stack)
    ensures Tokens(file, n, text, below + stack) == below + Tokens(file, n, text, stack)
    decreases |text|
  {
    var i := NextToken(text, 0);
    if i < |text| {
      TokenAbove(file, n, text[i], text, below, stack);
      TokensAbove(file, n, text[i + 1..], below, Token(file, n, text[i], text, stack));
    }
  }

  lemma {:induction false} OnTop(below: Stack, stack: Stack, b: Info)
    requires stack != []
    ensures Last(below + stack) == Last(stack) && WithTop(below + stack, b) == below + WithTop(stack, b)
  {
  }

  lemma {:induction false} DeclaredAboveBelow(file: File, n: nat, below: Stack, stack: Stack)
    requires Lawful(file) && n < |file.elided| && stack != []
    ensures Declared(file, n, below + stack).0 == below + Declared(file, n, stack).0
    ensures Declared(file, n, below + stack).1 == Declared(file, n, stack).1 && Declared(file, n, stack).0 != []
  {
    var line := file.elided[n];
    OnTop(below, stack, CountedBlock(file, line, Last(stack)));
    var counted, blocks := Counted(file, line, stack), Blocks(Decls(file, line), n);
    assert Counted(file, line, below + stack) == below + counted;
    assert EntersClass(file, n, below + stack) == EntersClass(file, n, stack);
    DeclaredIs(file, n, stack);
    DeclaredIs(file, n, below + stack);
    Regroup(below, counted, blocks);
    if EntersClass(file, n, stack) {
      Regroup(below, counted + blocks, [NewClass(file, file.classDecl(Rest(file, line)).value, n)]);
    }
  }

  lemma {:induction false} Regroup(below: Stack, a: Stack, b: Stack)
    ensures below + a + b == below + (a + b)
  {
  }

  lemma {:induction false} CheckedAboveBelow(file: File, line: string, rest: string, below: Stack, stack: Stack)
    requires stack != []
    ensures Begun(file, line, below + stack) == below + Begun(file, line, stack)
    ensures Labelled(file, rest, below + stack) == below + Labelled(file, rest, stack)
    ensures Begun(file, line, stack) != [] && Labelled(file, rest, stack) != []
  {
    OnTop(below, stack, Last(stack).(isDerived := true));
    if file.accessLabel(rest).Some? { OnTop(below, stack, Last(stack).(access := file.accessLabel(rest).value)); }
  }

  lemma {:induction false} HeadAboveBelow(file: File, n: nat, below: Stack, stack: Stack)
    requires Lawful(file) && n < |file.elided| && stack != []
    ensures Head(file, n, below + stack).0 == below + Head(file, n, stack).0
    ensures Head(file, n, below + stack).1 == Head(file, n, stack).1 && Head(file, n, stack).0 != []
  {
    DeclaredAboveBelow(file, n, below, stack);
    var (d, rest) := Declared(file, n, stack);
    CheckedAboveBelow(file, file.elided[n], rest, below, d);
    CheckedAboveBelow(file, file.elided[n], rest, below, Begun(file, file.elided[n], d));
  }

  /** The lines stay inside the blocks of `stack`, until the last of them leaves them all. */
  predicate Encloses(file: File, lines: seq<nat>, stack: Stack)
    requires Lawful(file) && InFile(file, lines)
  {
    if lines == [] then stack == []
    else
      && stack != []
      && StaysInside(file, lines[0], Head(file, lines[0], stack).1, Head(file, lines[0], stack).0)
      && Encloses(file, lines[1..], Effect(file, lines[0], stack))
  }

  predicate NoDirectives(file: File, lines: seq<nat>)
    requires InFile(file, lines)
  {
    forall i | 0 <= i < |lines| :: file.directive(file.elided[lines[i]]) == NoDirective
  }

  /** A block that is left gives back the stack it was entered on, untouched, whatever was in it. */
  lemma {:induction false} BlockGivesBack(file: File, lines: seq<nat>, s: State, below: Stack, stack: Stack)
    requires Lawful(file) && InFile(file, lines) && NoDirectives(file, lines)
    requires s.stack == below + stack && Encloses(file, lines, stack)
    ensures Run(file, lines, s).stack == below
    decreases |lines|
  {
    if lines == [] {
      assert below + stack == below;
    } else {
      HeadAboveBelow(file, lines[0], below, stack);
      var (head, tail) := Head(file, lines[0], stack);
      TokensAbove(file, lines[0], tail, below, head);
      BlockGivesBack(file, lines[1..], Step(file, lines[0], s), below, Effect(file, lines[0], stack));
    }
  }

  /** A line that holds namespaces only enters just these, and a line that closes one gives back the stack before it. */
  lemma {:induction false} NamespaceLine(file: File, n: nat, stack: Stack)
    requires Lawful(file) && n < |file.elided| && Decls(file, file.elided[n]) != []
    requires !EntersClass(file, n, stack) && TokenMarks(file, n, Rest(file, file.elided[n]), 0) == []
    ensures Effect(file, n, stack) == Counted(file, file.elided[n], stack) + Blocks(Decls(file, file.elided[n]), n)
  {
    var line := file.elided[n];
    DeclaredIs(file, n, stack);
    OnTopOfNamespace(file, line, Rest(file, line), Counted(file, line, stack), Blocks(Decls(file, line), n));
    MarksFromNext(file, n, Rest(file, line), 0);
  }

  lemma {:induction false} OnTopOfNamespace(file: File, line: string, rest: string, stack: Stack, blocks: Stack)
    requires blocks != [] && Last(blocks).kind.Namespace?
    ensures Labelled(file, rest, Begun(file, line, stack + blocks)) == stack + blocks
  {
    assert Last(stack + blocks) == Last(blocks);
  }

  /** The head of a namespace, any lines, and the line with its closing brace: the stack is what it was before. */
  lemma {:induction false} NamespaceAndBrace(file: File, n: nat, lines: seq<nat>, s: State, name: string)
    requires Lawful(file) && n < |file.elided| && InFile(file, lines)
    requires NoDirectives(file, lines) && file.directive(file.elided[n]) == NoDirective
    requires Decls(file, file.elided[n]) == [Decl(name, true)]
    requires !EntersClass(file, n, s.stack) && TokenMarks(file, n, Rest(file, file.elided[n]), 0) == []
    requires Encloses(file, lines, [NewNamespace(name, n, true)])
    ensures Step(file, n, s).stack == Counted(file, file.elided[n], s.stack) + [NewNamespace(name, n, true)]
    ensures Run(file, lines, Step(file, n, s)).stack == Counted(file, file.elided[n], s.stack)
  {
    NamespaceLine(file, n, s.stack);
    assert Blocks([Decl(name, true)], n) == [NewNamespace(name, n, true)];
    BlockGivesBack(file, lines, Step(file, n, s), Counted(file, file.elided[n], s.stack),
                   [NewNamespace(name, n, true)]);
  }

  // ----- Access

  /** What a class or struct begins with, before any label. */
  predicate DefaultAccess(b: Info) {
    b.kind.Class? ==> b.access == if b.kind.isStruct then "public" else "private"
  }

  predicate AllDefault(stack: Stack) { forall i | 0 <= i < |stack| :: DefaultAccess(stack[i]) }

  lemma {:induction false} TokensKeepAccess(file: File, n: nat, text: string, stack: Stack)
    requires AllDefault(stack)
    ensures AllDefault(Tokens(file, n, text, stack))
    decreases |text|
  {
    var i := NextToken(text, 0);
    if i < |text| { TokensKeepAccess(file, n, text[i + 1..], Token(file, n, text[i], text, stack)); }
  }

  lemma {:induction false} LineKeepsAccess(file: File, n: nat, stack: Stack)
    requires Lawful(file) && n < |file.elided| && AllDefault(stack)
    requires forall text :: file.accessLabel(text) == None
    ensures AllDefault(Effect(file, n, stack))
  {
    var line := file.elided[n];
    var counted, blocks := Counted(file, line, stack), Blocks(Decls(file, line), n);
    DeclaredIs(file, n, stack);
    BothDefault(counted, blocks);
    if EntersClass(file, n, stack) {
      BothDefault(counted + blocks, [NewClass(file, file.classDecl(Rest(file, line)).value, n)]);
    }
    var (d, rest) := Declared(file, n, stack);
    BegunKeepsAccess(file, line, rest, d);
    TokensKeepAccess(file, n, rest, Head(file, n, stack).0);
  }

  lemma {:induction false} BothDefault(a: Stack, b: Stack)
    requires AllDefault(a) && AllDefault(b)
    ensures AllDefault(a + b)
  {
  }

  lemma {:induction false} BegunKeepsAccess(file: File, line: string, rest: string, stack: Stack)
    requires AllDefault(stack) && file.accessLabel(rest) == None
    ensures AllDefault(Labelled(file, rest, Begun(file, line, stack)))
  {
  }

  /** Without access labels, members of classes stay private, and those of structs public. */
  lemma {:induction false} AccessIsDefault(file: File, lines: seq<nat>, s: State)
    requires Lawful(file) && InFile(file, lines) && NoDirectives(file, lines) && AllDefault(s.stack)
    requires forall text :: file.accessLabel(text) == None
    ensures AllDefault(Run(file, lines, s).stack)
    decreases |lines|
  {
    if lines != [] {
      LineKeepsAccess(file, lines[0], s.stack);
      AccessIsDefault(file, lines[1..], Step(file, lines[0], s));
    }
  }

  // ----- Branches

  lemma {:induction false} RunFirst(file: File, n: nat, rest: seq<nat>, s: State)
    requires Lawful(file) && n < |file.elided| && InFile(file, rest)
    ensures InFile(file, [n] + rest) && Run(file, [n] + rest, s) == Run(file, rest, Step(file, n, s))
  {
    BothInFile(file, [n], rest);
    assert ([n] + rest)[1..] == rest;
  }

  lemma {:induction false} TailInFile(file: File, a: seq<nat>)
    requires InFile(file, a) && a != []
    ensures a[0] < |file.elided| && InFile(file, a[1..]) && a == [a[0]] + a[1..]
  {
  }

  lemma {:induction false} RunBoth(file: File, a: seq<nat>, b: seq<nat>, s: State)
    requires Lawful(file) && InFile(file, a) && InFile(file, b)
    ensures InFile(file, a + b) && Run(file, a + b, s) == Run(file, b, Run(file, a, s))
    decreases |a|
  {
    if a == [] {
      assert a + b == b;
    } else {
      var n, rest := a[0], a[1..];
      TailInFile(file, a);
      BothInFile(file, rest, b);
      RunBoth(file, rest, b, Step(file, n, s));
      RunFirst(file, n, rest, s);
      RunFirst(file, n, rest + b, s);
      Regrouped(n, rest, b);
    }
  }

  lemma {:induction false} Regrouped(n: nat, a: seq<nat>, b: seq<nat>)
    ensures ([n] + a) + b == [n] + (a + b)
  {
  }

  /** A conditional, part by part. */
  lemma {:induction false} RunConditional(file: File, ifLine: nat, first: seq<nat>, others: seq<nat>, endLine: nat,
                                          rest: seq<nat>, s: State)
    requires Lawful(file) && ifLine < |file.elided| && InFile(file, first) && InFile(file, others)
    requires endLine < |file.elided| && InFile(file, rest)
    ensures var lines := [ifLine] + (first + (others + ([endLine] + rest)));
            && InFile(file, lines)
            && Run(file, lines, s) ==
               Run(file, rest, Step(file, endLine, Run(file, others, Run(file, first, Step(file, ifLine, s)))))
  {
    var s0 := Step(file, ifLine, s);
    var s1 := Run(file, first, s0);
    var s2 := Run(file, others, s1);
    RunFirst(file, endLine, rest, s2);
    RunBoth(file, others, [endLine] + rest, s1);
    RunBoth(file, first, others + ([endLine] + rest), s0);
    RunFirst(file, ifLine, first + (others + ([endLine] + rest)), s);
  }

  /** Well-nested conditionals leave the checkpoints of the others alone. */
  lemma {:induction false} ItemsKeepCheckpoints(file: File, items: Items, s: State)
    requires Lawful(file) && Marked(file, items)
    ensures InFile(file, Flatten(items)) && Run(file, Flatten(items), s).checkpoints == s.checkpoints
    decreases items
  {
    FlattenInFile(file, items);
    match items
    case Nothing =>
    case Line(n, rest) =>
      FlattenInFile(file, rest);
      RunFirst(file, n, Flatten(rest), s);
      ItemsKeepCheckpoints(file, rest, Step(file, n, s));
    case Conditional(ifLine, first, others, endLine, rest) =>
      FlattenInFile(file, first);
      BranchesInFile(file, others);
      FlattenInFile(file, rest);
      RunConditional(file, ifLine, Flatten(first), FlattenBranches(others), endLine, Flatten(rest), s);
      var s0 := Step(file, ifLine, s);
      ItemsKeepCheckpoints(file, first, s0);
      var s1 := Run(file, Flatten(first), s0);
      BranchesKeepCheckpoints(file, others, s1);
      ItemsKeepCheckpoints(file, rest, Step(file, endLine, Run(file, FlattenBranches(others), s1)));
  }

  /** The innermost #if is as before, with the stack that was saved there. */
  predicate SameIf(s: State, s1: State) {
    && s.checkpoints != [] && s1.checkpoints != [] && ButLast(s1.checkpoints) == ButLast(s.checkpoints)
    && Last(s1.checkpoints).beforeIf == Last(s.checkpoints).beforeIf
  }

  lemma {:induction false} BranchesKeepCheckpoints(file: File, branches: Branches, s: State)
    requires Lawful(file) && MarkedBranches(file, branches) && s.checkpoints != []
    ensures InFile(file, FlattenBranches(branches)) && SameIf(s, Run(file, FlattenBranches(branches), s))
    decreases branches
  {
    BranchesInFile(file, branches);
    match branches
    case NoMore =>
    case Branch(elseLine, body, more) =>
      FlattenInFile(file, body);
      BranchesInFile(file, more);
      var s0 := Step(file, elseLine, s);
      ElseKeepsIf(file, elseLine, s);
      ItemsKeepCheckpoints(file, body, s0);
      BranchesKeepCheckpoints(file, more, Run(file, Flatten(body), s0));
      RunBranch(file, elseLine, Flatten(body), FlattenBranches(more), s);
  }

  lemma {:induction false} ElseKeepsIf(file: File, elseLine: nat, s: State)
    requires Lawful(file) && Is(file, elseLine, Else) && s.checkpoints != []
    ensures SameIf(s, Step(file, elseLine, s))
    ensures Step(file, elseLine, s).stack == Effect(file, elseLine, Last(s.checkpoints).beforeIf)
  {
  }

  lemma {:induction false} RunBranch(file: File, n: nat, body: seq<nat>, more: seq<nat>, s: State)
    requires Lawful(file) && n < |file.elided| && InFile(file, body) && InFile(file, more)
    ensures InFile(file, [n] + (body + more))
    ensures Run(file, [n] + (body + more), s) == Run(file, more, Run(file, body, Step(file, n, s)))
  {
    RunBoth(file, body, more, Step(file, n, s));
    RunFirst(file, n, body + more, s);
  }

  /** Every other branch of a conditional starts from the stack that was there before the #if. */
  lemma {:induction false} BranchStartsOver(file: File, ifLine: nat, first: Items, others: Branches, elseLine: nat,
                                            s: State)
    requires Lawful(file) && Is(file, ifLine, If) && Marked(file, first) && MarkedBranches(file, others)
    requires Is(file, elseLine, Else)
    ensures InFile(file, [ifLine] + (Flatten(first) + FlattenBranches(others)))
    ensures var s1 := Run(file, [ifLine] + (Flatten(first) + FlattenBranches(others)), s);
            Step(file, elseLine, s1).stack == Effect(file, elseLine, s.stack)
  {
    FlattenInFile(file, first);
    BranchesInFile(file, others);
    var s0 := Step(file, ifLine, s);
    RunBranch(file, ifLine, Flatten(first), FlattenBranches(others), s);
    ItemsKeepCheckpoints(file, first, s0);
    var s1 := Run(file, Flatten(first), s0);
    BranchesKeepCheckpoints(file, others, s1);
    ElseKeepsIf(file, elseLine, Run(file, FlattenBranches(others), s1));
  }

  // ----- The recogniser of namespaces

  /** The first character from `i` on that is none of `[:\w]`. */
  function NameEnd(text: string, i: nat): (r: nat)
    requires i <= |text|
    ensures i <= r <= |text|
    decreases |text| - i
  {
    if i < |text| && (IsWordChar(text[i]) || text[i] == ':') then NameEnd(text, i + 1) else i
  }

  /** The match of `^\s*namespace\b\s*([:\w]+)?(.*)$`. */
  function MatchNamespace(text: string): Option<NamespaceMatch> {
    var i := SkipSpaces(text, 0);
    var j := i + 9;
    if !OccursAt(text, "namespace", i) || (j < |text| && IsWordChar(text[j])) then None
    else
      var k := SkipSpaces(text, j);
      var e := NameEnd(text, k);
      Some(NamespaceMatch(text[k..e], text[e..]))
  }

  lemma {:induction false} MatchIsLawful(file: File)
    requires file.namespaceDecl == MatchNamespace
    ensures Lawful(file)
  {
  }

  /** A file in which nothing but namespaces is recognised. */
  function NamespacesOnly(elided: seq<string>): (file: File)
    ensures Lawful(file)
  {
    var file := Plain(elided).(namespaceDecl := MatchNamespace);
    MatchIsLawful(file);
    file
  }

  lemma {:induction false} HeadLine()
    ensures MatchNamespace("namespace a {") == Some(NamespaceMatch("a", " {"))
  {
    var text := "namespace a {";
    assert OccursAt(text, "namespace", 0) && SkipSpaces(text, 0) == 0;
    assert SkipSpaces(text, 10) == 10 && SkipSpaces(text, 9) == 10;
    assert NameEnd(text, 11) == 11 && NameEnd(text, 10) == 11;
    assert !IsWordChar(text[9]) && text[10..11] == "a" && text[11..] == " {";
  }

  /** The head of a namespace with its brace, and what the tracker makes of it. */
  lemma {:induction false} NamespaceExample()
    ensures var file := NamespacesOnly(["namespace a {"]);
            Run(file, [0], INITIAL).stack == [NewNamespace("a", 0, true)]
  {
    var file := NamespacesOnly(["namespace a {"]);
    HeadLine();
    assert " {"[1] == '{' && '{' in " {";
    assert NextBrace(" {", 1) == 1 && NextBrace(" {", 0) == 1 && " {"[2..] == "";
    assert Decls(file, "") == [] && Rest(file, "") == "";
    assert Decls(file, "namespace a {") == [Decl("a", true)];
    assert TokenMarks(file, 0, "", 0) == [];
    NamespaceLine(file, 0, []);
    assert Blocks([Decl("a", true)], 0) == [NewNamespace("a", 0, true)];
    RunFirst(file, 0, [], INITIAL);
  }

  lemma {:induction false} BareHead()
    ensures MatchNamespace("namespace a") == Some(NamespaceMatch("a", ""))
  {
    var text := "namespace a";
    assert OccursAt(text, "namespace", 0) && SkipSpaces(text, 0) == 0;
    assert SkipSpaces(text, 10) == 10 && SkipSpaces(text, 9) == 10;
    assert NameEnd(text, 11) == 11 && NameEnd(text, 10) == 11;
    assert !IsWordChar(text[9]) && text[10..11] == "a" && text[11..] == "";
  }

  function Irregular(): (file: File)
    ensures Lawful(file)
  {
    NamespacesOnly(["namespace a", "}"])
  }

  const WAITING := NewNamespace("a", 0, false)

  lemma {:induction false} DeclaringLine()
    ensures Effect(Irregular(), 0, []) == [WAITING]
    ensures Marks(Irregular(), 0, []) == [Waiting(Opening(Namespace("a"), 0, false))]
  {
    var file := Irregular();
    BareHead();
    assert Decls(file, "") == [] && Rest(file, "") == "";
    assert Decls(file, "namespace a") == [Decl("a", false)];
    assert TokenMarks(file, 0, "", 0) == [];
    NamespaceLine(file, 0, []);
    assert Blocks([Decl("a", false)], 0) == [WAITING];
  }

  lemma {:induction false} ClosingLine(b: Info)
    ensures Effect(Irregular(), 1, [b]) == [] && Marks(Irregular(), 1, [b]) == [Close]
  {
    var file := Irregular();
    assert !OccursAt("}", "namespace", SkipSpaces("}", 0));
    assert Decls(file, "}") == [] && Rest(file, "}") == "}";
    DeclaredIs(file, 1, [b]);
    var stack := Head(file, 1, [b]).0;
    assert NextToken("}", 0) == 0 && "}"[1..] == "" && NextToken("", 0) == 0;
    assert Tokens(file, 1, "}", stack) == Tokens(file, 1, "", Token(file, 1, '}', "}", stack));
    assert TokenMarks(file, 1, "", 0) == [] && TokenMarks(file, 1, "}", 0) == [Close];
  }

  lemma {:induction false} IrregularRun()
    ensures Run(Irregular(), [0, 1], INITIAL).stack == []
  {
    var file := Irregular();
    DeclaringLine();
    ClosingLine(WAITING);
    RunFirst(file, 0, [1], INITIAL);
    RunFirst(file, 1, [], State([WAITING], []));
    assert [0] + [1] == [0, 1] && [1] + [] == [1];
  }

  lemma {:induction false} MarksOfFirst(file: File, n: nat, rest: seq<nat>, stack: Stack)
    requires Lawful(file) && n < |file.elided| && InFile(file, rest)
    ensures InFile(file, [n] + rest)
    ensures AllMarks(file, [n] + rest, stack) == Marks(file, n, stack) + AllMarks(file, rest, Effect(file, n, stack))
  {
    BothInFile(file, [n], rest);
    assert ([n] + rest)[1..] == rest;
  }

  lemma {:induction false} ClosedTooEarly(o: Opening)
    ensures !Regular([Waiting(o)] + ([Close] + []), None)
  {
    var marks := [Waiting(o)] + ([Close] + []);
    assert marks[1..] == [Close];
  }

  lemma {:induction false} IrregularMarks()
    ensures !Regular(AllMarks(Irregular(), [0, 1], []), None)
  {
    DeclaringLine();
    ClosingLine(WAITING);
    MarksOfFirst(Irregular(), 1, [], [WAITING]);
    MarksOfFirst(Irregular(), 0, [1] + [], []);
    assert [0] + ([1] + []) == [0, 1];
    ClosedTooEarly(Opening(Namespace("a"), 0, false));
  }

  /** A closing brace while a declaration waits for its own: the declaration goes, and no block of the text with it. */
  lemma {:induction false} IrregularExample()
    ensures Run(Irregular(), [0, 1], INITIAL).stack == []
    ensures !Regular(AllMarks(Irregular(), [0, 1], []), None)
  {
    IrregularRun();
    IrregularMarks();
  }
}
