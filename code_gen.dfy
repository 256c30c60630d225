/** The code generation pass: the annotated tree becomes stack-machine code.

    Instructions are a datatype rendered to text by `Render`; a block of
    code is a sequence of instructions, one per line, so joining blocks with
    line breaks (and skipping absent ones) is sequence concatenation. The
    two label counters, the buffer the function and method bodies are put
    into and the list of dispatch tables are the state of `CodeGenerator`;
    the functions below say what each visit emits and how it changes that
    state, and each method of the class is proved to do exactly that. */
module CodeGen {
  import opened Wrappers
  import opened Ast
  import opened Strings

  // ---------------------------------------------------------------------------
  // Instructions

  /** `Plain(n)` is the n-th label of the shared label counter, used for
      jumps and method bodies; `FunLabel(n)` the n-th function label. */
  datatype Label = Plain(n: nat) | FunLabel(n: nat)

  /** The stack-machine instructions the pass emits. `Def(l)` is the line
      `l:` that defines a label; `PrintTop` is `print`. */
  datatype Instr =
    | Push(v: int)
    | PushLabel(l: Label)
    | Def(l: Label)
    | Beq(l: Label)
    | Bleq(l: Label)
    | Branch(l: Label)
    | Add | Sub | Mult | Div
    | Lw | Sw | Lfp | Cfp | Lra | Sra | Stm | Ltm | Lhp | Shp | Sfp
    | Js | Pop | Halt | PrintTop

  function LabelText(l: Label): string {
    match l
    case Plain(n) => "label" + NatToString(n)
    case FunLabel(n) => "function" + NatToString(n)
  }

  /** The text of one instruction. */
  function Render(i: Instr): string {
    match i
    case Push(v) => "push " + IntToString(v)
    case PushLabel(l) => "push " + LabelText(l)
    case Def(l) => LabelText(l) + ":"
    case Beq(l) => "beq " + LabelText(l)
    case Bleq(l) => "bleq " + LabelText(l)
    case Branch(l) => "b " + LabelText(l)
    case Add => "add"
    case Sub => "sub"
    case Mult => "mult"
    case Div => "div"
    case Lw => "lw"
    case Sw => "sw"
    case Lfp => "lfp"
    case Cfp => "cfp"
    case Lra => "lra"
    case Sra => "sra"
    case Stm => "stm"
    case Ltm => "ltm"
    case Lhp => "lhp"
    case Shp => "shp"
    case Sfp => "sfp"
    case Js => "js"
    case Pop => "pop"
    case Halt => "halt"
    case PrintTop => "print"
  }

  /** Different labels have different names, so a label defined once as an
      instruction is defined once in the text too. */
  lemma LabelTextInjective(a: Label, b: Label)
    requires LabelText(a) == LabelText(b)
    ensures a == b
  {
    assert LabelText(a)[0] == (if a.Plain? then 'l' else 'f');
    assert LabelText(b)[0] == (if b.Plain? then 'l' else 'f');
    var s := LabelText(a);
    if a.Plain? && b.Plain? {
      assert NatToString(a.n) == s[5..] == NatToString(b.n);
      NatToStringInjective(a.n, b.n);
    } else if a.FunLabel? && b.FunLabel? {
      assert NatToString(a.n) == s[8..] == NatToString(b.n);
      NatToStringInjective(a.n, b.n);
    }
  }

  lemma DefTextInjective(a: Label, b: Label)
    requires Render(Def(a)) == Render(Def(b))
    ensures a == b
  {
    assert LabelText(a) == Render(Def(a))[..|Render(Def(a))| - 1];
    assert LabelText(b) == Render(Def(b))[..|Render(Def(b))| - 1];
    LabelTextInjective(a, b);
  }

  /** The text of a push determines the value pushed, negative values
      included. */
  lemma PushTextInjective(a: int, b: int)
    requires Render(Push(a)) == Render(Push(b))
    ensures a == b
  {
    assert IntToString(a) == Render(Push(a))[5..];
    assert IntToString(b) == Render(Push(b))[5..];
    IntToStringInjective(a, b);
  }

  // ---------------------------------------------------------------------------
  // Blocks of code

  /** Code as the pass assembles it: nothing (an absent or empty part), one
      line, or two blocks joined with a line break. */
  datatype Block = Nil | Line(i: Instr) | Cat(a: Block, b: Block)

  /** The lines of a block, in order. */
  function Flat(b: Block): seq<Instr> {
    match b
    case Nil => []
    case Line(i) => [i]
    case Cat(x, y) => Flat(x) + Flat(y)
  }

  /** How many lines of b are x. */
  function Count(b: Block, x: Instr): nat {
    match b
    case Nil => 0
    case Line(i) => if i == x then 1 else 0
    case Cat(p, q) => Count(p, x) + Count(q, x)
  }

  /** How many times the sequence holds x. */
  function Occurrences(s: seq<Instr>, x: Instr): nat {
    if s == [] then 0 else Occurrences(s[..|s| - 1], x) + if s[|s| - 1] == x then 1 else 0
  }

  lemma {:induction false} OccurrencesConcat(s: seq<Instr>, t: seq<Instr>, x: Instr)
    ensures Occurrences(s + t, x) == Occurrences(s, x) + Occurrences(t, x)
  {
    if t == [] {
      assert s + t == s;
    } else {
      assert (s + t)[..|s + t| - 1] == s + t[..|t| - 1];
      OccurrencesConcat(s, t[..|t| - 1], x);
    }
  }

  /** Counting the lines of a block counts the lines of its text. */
  lemma {:induction false} CountFlat(b: Block, x: Instr)
    ensures Count(b, x) == Occurrences(Flat(b), x)
  {
    match b
    case Nil =>
    case Line(i) =>
      assert [i][..0] == [];
    case Cat(p, q) =>
      CountFlat(p, x);
      CountFlat(q, x);
      OccurrencesConcat(Flat(p), Flat(q), x);
  }

  function Two(x: Instr, y: Instr): Block {
    Cat(Line(x), Line(y))
  }

  function Three(x: Instr, y: Instr, z: Instr): Block {
    Cat(Two(x, y), Line(z))
  }

  function Four(x: Instr, y: Instr, z: Instr, u: Instr): Block {
    Cat(Two(x, y), Two(z, u))
  }

  lemma CountTwo(x: Instr, y: Instr, w: Instr)
    ensures Count(Two(x, y), w) == Count(Line(x), w) + Count(Line(y), w)
  {
  }

  lemma CountThree(x: Instr, y: Instr, z: Instr, w: Instr)
    ensures Count(Three(x, y, z), w) == Count(Line(x), w) + Count(Line(y), w) + Count(Line(z), w)
  {
  }

  lemma CountFour(x: Instr, y: Instr, z: Instr, u: Instr, w: Instr)
    ensures Count(Four(x, y, z, u), w) == Count(Line(x), w) + Count(Line(y), w) + Count(Line(z), w) + Count(Line(u), w)
  {
  }

  lemma FlatThree(x: Instr, y: Instr, z: Instr)
    ensures Flat(Three(x, y, z)) == [x, y, z]
  {
    assert Flat(Two(x, y)) == [x, y];
  }

  lemma FlatFour(x: Instr, y: Instr, z: Instr, u: Instr)
    ensures Flat(Four(x, y, z, u)) == [x, y, z, u]
  {
    assert Flat(Two(x, y)) == [x, y];
    assert Flat(Two(z, u)) == [z, u];
  }

  function Max0(n: int): nat {
    if n > 0 then n else 0
  }

  /** A counting loop that joins x to a block n times (none when n is not
      positive). */
  function Copies(x: Instr, n: int): Block {
    if n <= 0 then Nil else Cat(Copies(x, n - 1), Line(x))
  }

  lemma {:induction false} CopiesCount(x: Instr, n: int, y: Instr)
    ensures Count(Copies(x, n), y) == if y == x then Max0(n) else 0
  {
    if n > 0 {
      CopiesCount(x, n - 1, y);
    }
  }

  lemma {:induction false} CopiesFlat(x: Instr, n: int)
    ensures |Flat(Copies(x, n))| == Max0(n)
    ensures forall i :: 0 <= i < |Flat(Copies(x, n))| ==> Flat(Copies(x, n))[i] == x
  {
    if n > 0 {
      CopiesFlat(x, n - 1);
    }
  }

  // ---------------------------------------------------------------------------
  // Expressions

  /** The operators whose code branches and so mints two labels. */
  predicate Branching(op: BinOp) {
    op in {Equal, LessEqual, GreaterEqual, And, Or}
  }

  /** The number of label pairs the code of e mints. */
  function Branches(e: Exp): nat {
    match e
    case If(c, t, f) => 1 + Branches(c) + Branches(f) + Branches(t)
    case Bin(op, l, r) => (if Branching(op) then 1 else 0) + Branches(l) + Branches(r)
    case Not(x) => 1 + Branches(x)
    case Print(x) => Branches(x)
    case Call(_, args, _, _) => BranchesAll(args)
    case ClassCall(_, _, args, _, _, _) => BranchesAll(args)
    case New(_, args, _, _) => BranchesAll(args)
    case _ => 0
  }

  function BranchesAll(es: seq<Exp>): nat {
    if es == [] then 0 else BranchesAll(es[..|es| - 1]) + Branches(es[|es| - 1])
  }

  /** The two-way ending of a branching node: the fall-through path pushes
      `fall` and jumps to the second label, the jump target (the first
      label) pushes `jump`. */
  function Choice(fall: int, jump: int, lab: nat): Block {
    Cat(Three(Push(fall), Branch(Plain(lab + 1)), Def(Plain(lab))), Two(Push(jump), Def(Plain(lab + 1))))
  }

  /** The frame pointer followed by k hops along the access links: the
      frame of a declaration k nesting levels out. */
  function Hops(k: int): Block {
    Cat(Line(Lfp), Copies(Lw, k))
  }

  /** The word at `offset` from the address on top of the stack. */
  function Load(offset: int): Block {
    Three(Push(offset), Add, Lw)
  }

  /** An identifier: the slot at the entry's offset in the frame of its
      declaration. */
  function IdCode(en: Entry, nl: int): Block {
    Cat(Hops(nl - en.nl), Load(en.offset))
  }

  /** A method entry holds a dispatch table's slot, so its code address
      needs one more load. */
  function MethodLoad(en: Entry): Block {
    if en.ty.MethodType? then Line(Lw) else Nil
  }

  /** A call after its arguments: the access link (the frame of the
      declaration) is kept in the temporary register and pushed twice, once
      as the access link and once to find the code address. */
  function CallTail(en: Entry, nl: int): Block {
    Cat(Cat(Hops(nl - en.nl), Three(Stm, Ltm, Ltm)), Cat(MethodLoad(en), Cat(Load(en.offset), Line(Js))))
  }

  /** A call on an object after its arguments: the object's address is
      loaded from its slot and becomes the access link, then the method's
      address is read from the object's dispatch table. */
  function ClassCallTail(en: Entry, men: Entry, nl: int): Block {
    Cat(Cat(Hops(nl - en.nl), Load(en.offset)), Cat(Four(Stm, Ltm, Ltm, Lw), Cat(Load(men.offset), Line(Js))))
  }

  /** One field of a new object: the value on top of the stack is stored at
      the heap pointer, which then moves up by one. */
  function HeapStore(): Block {
    Cat(Two(Lhp, Sw), Four(Lhp, Push(1), Add, Shp))
  }

  /** One heap store per argument of `new`. */
  function HeapStores(n: nat): Block {
    if n == 0 then Nil else Cat(HeapStores(n - 1), HeapStore())
  }

  /** The end of `new`: the class's dispatch pointer, read at `mem` plus the
      class entry's offset, is stored after the fields, its address is the
      result and the heap pointer moves past it. */
  function NewTail(mem: int, en: Entry): Block {
    Cat(Four(Push(mem + en.offset), Lw, Lhp, Sw), Cat(Line(Lhp), Four(Lhp, Push(1), Add, Shp)))
  }

  function IfCode(lab: nat, c: Block, f: Block, t: Block): Block {
    Cat(Cat(Cat(c, Two(Push(1), Beq(Plain(lab)))), Cat(f, Two(Branch(Plain(lab + 1)), Def(Plain(lab))))),
        Cat(t, Line(Def(Plain(lab + 1)))))
  }

  function NotCode(lab: nat, x: Block): Block {
    Cat(Cat(x, Two(Push(0), Beq(Plain(lab)))), Choice(0, 1, lab))
  }

  /** What a binary operator puts between its operands: the logical
      operators test the left operand on its own. */
  function BinMid(op: BinOp, lab: nat): Block {
    match op
    case Or => Two(Push(1), Beq(Plain(lab)))
    case And => Two(Push(0), Beq(Plain(lab)))
    case _ => Nil
  }

  /** What a binary operator puts after its operands: one instruction for
      arithmetic, a test and a two-way ending for the others. */
  function BinTail(op: BinOp, lab: nat): Block {
    var l1 := Plain(lab);
    match op
    case Times => Line(Mult)
    case Plus => Line(Add)
    case Minus => Line(Sub)
    case Div => Line(Instr.Div)
    case Equal => Cat(Line(Beq(l1)), Choice(0, 1, lab))
    case LessEqual => Cat(Line(Bleq(l1)), Choice(0, 1, lab))
    case GreaterEqual => Cat(Three(Push(1), Sub, Bleq(l1)), Choice(1, 0, lab))
    case Or => Cat(Two(Push(1), Beq(l1)), Choice(0, 1, lab))
    case And => Cat(Two(Push(0), Beq(l1)), Choice(1, 0, lab))
  }

  function BinCode(op: BinOp, lab: nat, l: Block, r: Block): Block {
    Cat(Cat(Cat(l, BinMid(op, lab)), r), BinTail(op, lab))
  }

  /** The code of e when the label counter stands at `lab` and `mem` is
      the size of the machine's memory. A branching node takes its two labels
      before its operands are visited, so the counter then stands at
      lab + 2 for the first operand; after e it stands at
      lab + 2 * Branches(e). Each node with operands has a function of its
      own below. */
  function Code(mem: int, lab: nat, e: Exp): Block
    requires Resolved(e)
    decreases e, 1
  {
    match e
    case IntLit(v) => Line(Push(v))
    case BoolLit(b) => Line(Push(if b then 1 else 0))
    case Empty => Line(Push(-1))
    case Id(_, en, nl) => IdCode(en.value, nl)
    case Print(x) => PrintNode(mem, lab, x)
    case Not(x) => NotNode(mem, lab, x)
    case If(c, t, f) => IfNode(mem, lab, c, t, f)
    case Bin(op, l, r) => BinNode(mem, lab, op, l, r)
    case Call(_, args, en, nl) => CallNode(mem, lab, args, en.value, nl)
    case ClassCall(_, _, args, en, men, nl) => ClassCallNode(mem, lab, args, en.value, men.value, nl)
    case New(id, args, en, nl) => NewNode(mem, lab, args, en.value)
  }

  /** The code of an operand or argument, as its parent joins it. */
  function Operand(mem: int, lab: nat, e: Exp): Block
    requires Resolved(e)
    decreases e, 2
  {
    Code(mem, lab, e)
  }

  function PrintNode(mem: int, lab: nat, x: Exp): Block
    requires Resolved(x)
    decreases Print(x), 0
  {
    Cat(Operand(mem, lab, x), Line(PrintTop))
  }

  function NotNode(mem: int, lab: nat, x: Exp): Block
    requires Resolved(x)
    decreases Not(x), 0
  {
    NotCode(lab, Operand(mem, lab + 2, x))
  }

  /** The condition first, then the else branch, then the then branch. */
  function IfNode(mem: int, lab: nat, c: Exp, t: Exp, f: Exp): Block
    requires Resolved(c) && Resolved(t) && Resolved(f)
    decreases If(c, t, f), 0
  {
    var lf := lab + 2 + 2 * Branches(c);
    IfCode(lab, Operand(mem, lab + 2, c), Operand(mem, lf, f), Operand(mem, lf + 2 * Branches(f), t))
  }

  function BinNode(mem: int, lab: nat, op: BinOp, l: Exp, r: Exp): Block
    requires Resolved(l) && Resolved(r)
    decreases Bin(op, l, r), 0
  {
    var ll := if Branching(op) then lab + 2 else lab;
    BinCode(op, lab, Operand(mem, ll, l), Operand(mem, ll + 2 * Branches(l), r))
  }

  /** A call: the control link, the arguments from the last to the first,
      then the rest of the activation record and the jump. */
  function CallNode(mem: int, lab: nat, args: seq<Exp>, en: Entry, nl: int): Block
    requires AllResolved(args)
    decreases args, 1
  {
    Cat(Cat(Line(Lfp), CodeRev(mem, lab, args)), CallTail(en, nl))
  }

  function ClassCallNode(mem: int, lab: nat, args: seq<Exp>, en: Entry, men: Entry, nl: int): Block
    requires AllResolved(args)
    decreases args, 1
  {
    Cat(Cat(Line(Lfp), CodeRev(mem, lab, args)), ClassCallTail(en, men, nl))
  }

  /** `new`: the arguments in source order, each stored on the heap, then the
      dispatch pointer. */
  function NewNode(mem: int, lab: nat, args: seq<Exp>, en: Entry): Block
    requires AllResolved(args)
    decreases args, 1
  {
    Cat(Cat(CodeAll(mem, lab, args), HeapStores(|args|)), NewTail(mem, en))
  }

  /** The arguments from the last to the first, as a call's loop joins
      them: es[0] comes last, after the others have taken their labels. */
  function CodeRev(mem: int, lab: nat, es: seq<Exp>): Block
    requires AllResolved(es)
    decreases es, 0
  {
    if es == [] then Nil
    else Cat(CodeRev(mem, lab, es[1..]), Operand(mem, lab + 2 * BranchesAll(es[1..]), es[0]))
  }

  /** The arguments in source order, as `new` joins them. */
  function CodeAll(mem: int, lab: nat, es: seq<Exp>): Block
    requires AllResolved(es)
    decreases es, 0
  {
    if es == [] then Nil
    else
      var init := es[..|es| - 1];
      Cat(CodeAll(mem, lab, init), Operand(mem, lab + 2 * BranchesAll(init), es[|es| - 1]))
  }

  // ---------------------------------------------------------------------------
  // Labels

  /** 1 when l is one of the labels numbered lo to hi - 1, else 0. */
  function Minted(l: Label, lo: nat, hi: nat): nat {
    if l.Plain? && lo <= l.n < hi then 1 else 0
  }

  /** The fixed parts of the code of identifiers, calls and `new` define
      no label. */
  lemma IdCodeDefinesNothing(en: Entry, nl: int, l: Label)
    ensures Count(IdCode(en, nl), Def(l)) == 0
  {
    CopiesCount(Lw, nl - en.nl, Def(l));
    CountThree(Push(en.offset), Add, Lw, Def(l));
    NonDefLines(Push(en.offset), Add, Lw, l);
    NonDefLine(Lfp, l);
    assert Count(Hops(nl - en.nl), Def(l)) == 0;
  }

  lemma CallTailDefinesNothing(en: Entry, men: Entry, nl: int, l: Label)
    ensures Count(CallTail(en, nl), Def(l)) == 0
    ensures Count(ClassCallTail(en, men, nl), Def(l)) == 0
  {
    var d := Def(l);
    CopiesCount(Lw, nl - en.nl, d);
    CountThree(Stm, Ltm, Ltm, d);
    CountThree(Push(en.offset), Add, Lw, d);
    CountThree(Push(men.offset), Add, Lw, d);
    CountFour(Stm, Ltm, Ltm, Lw, d);
    NonDefLines(Stm, Ltm, Lw, l);
    NonDefLines(Push(en.offset), Push(men.offset), Add, l);
    NonDefLines(Lfp, Js, Lw, l);
    assert Count(Hops(nl - en.nl), d) == 0;
    assert Count(MethodLoad(en), d) == 0;
    assert Count(Cat(Load(en.offset), Line(Js)), d) == 0;
    assert Count(Cat(Load(men.offset), Line(Js)), d) == 0;
  }

  lemma {:induction false} HeapStoresDefineNothing(n: nat, l: Label)
    ensures Count(HeapStores(n), Def(l)) == 0
  {
    if n > 0 {
      HeapStoresDefineNothing(n - 1, l);
      CountTwo(Lhp, Sw, Def(l));
      CountFour(Lhp, Push(1), Add, Shp, Def(l));
      NonDefLines(Lhp, Sw, Push(1), l);
      NonDefLines(Add, Shp, Shp, l);
    }
  }

  lemma NewTailDefinesNothing(mem: int, en: Entry, l: Label)
    ensures Count(NewTail(mem, en), Def(l)) == 0
  {
    CountFour(Push(mem + en.offset), Lw, Lhp, Sw, Def(l));
    CountFour(Lhp, Push(1), Add, Shp, Def(l));
    NonDefLines(Push(mem + en.offset), Push(1), Lw, l);
    NonDefLines(Lhp, Sw, Add, l);
    NonDefLine(Shp, l);
  }

  /** Any other line defines nothing. */
  lemma NonDefLine(i: Instr, l: Label)
    requires !i.Def?
    ensures Count(Line(i), Def(l)) == 0
  {
  }

  lemma NonDefLines(i: Instr, j: Instr, k: Instr, l: Label)
    requires !i.Def? && !j.Def? && !k.Def?
    ensures Count(Line(i), Def(l)) == 0 && Count(Line(j), Def(l)) == 0 && Count(Line(k), Def(l)) == 0
  {
    NonDefLine(i, l);
    NonDefLine(j, l);
    NonDefLine(k, l);
  }

  /** The two-way ending defines the two labels of its node. */
  lemma ChoiceDefines(fall: int, jump: int, lab: nat, l: Label)
    ensures Count(Choice(fall, jump, lab), Def(l)) == Minted(l, lab, lab + 2)
  {
    CountThree(Push(fall), Branch(Plain(lab + 1)), Def(Plain(lab)), Def(l));
    CountTwo(Push(jump), Def(Plain(lab + 1)), Def(l));
    DefLine(lab, l);
    DefLine(lab + 1, l);
    NonDefLines(Push(fall), Branch(Plain(lab + 1)), Push(jump), l);
  }

  /** A definition line counts for its own label only. */
  lemma DefLine(n: nat, l: Label)
    ensures Count(Line(Def(Plain(n))), Def(l)) == Minted(l, n, n + 1)
  {
    assert Def(Plain(n)) == Def(l) <==> l == Plain(n);
  }

  lemma IfCodeDefines(lab: nat, c: Block, f: Block, t: Block, l: Label)
    ensures Count(IfCode(lab, c, f, t), Def(l))
      == Count(c, Def(l)) + Count(f, Def(l)) + Count(t, Def(l)) + Minted(l, lab, lab + 2)
  {
    var d := Def(l);
    CountTwo(Push(1), Beq(Plain(lab)), d);
    CountTwo(Branch(Plain(lab + 1)), Def(Plain(lab)), d);
    NonDefLines(Push(1), Beq(Plain(lab)), Branch(Plain(lab + 1)), l);
    DefLine(lab, l);
    DefLine(lab + 1, l);
    assert Count(Cat(c, Two(Push(1), Beq(Plain(lab)))), d) == Count(c, d);
    assert Count(Cat(f, Two(Branch(Plain(lab + 1)), Def(Plain(lab)))), d) == Count(f, d) + Count(Line(Def(Plain(lab))), d);
    assert Count(Cat(t, Line(Def(Plain(lab + 1)))), d) == Count(t, d) + Count(Line(Def(Plain(lab + 1))), d);
  }

  /** The code of an `if` node in terms of its operands' code. */
  lemma IfNodeUnfold(mem: int, lab: nat, c: Exp, t: Exp, f: Exp)
    requires Resolved(c) && Resolved(t) && Resolved(f)
    ensures var lf := lab + 2 + 2 * Branches(c);
      && IfNode(mem, lab, c, t, f) == IfCode(lab, Operand(mem, lab + 2, c), Operand(mem, lf, f), Operand(mem, lf + 2 * Branches(f), t))
      && Branches(If(c, t, f)) == 1 + Branches(c) + Branches(f) + Branches(t)
  {
  }

  lemma IfAssemble(lab: nat, c: Block, f: Block, t: Block, nc: nat, nf: nat, nt: nat, n: nat, l: Label)
    requires Count(c, Def(l)) == Minted(l, lab + 2, lab + 2 + 2 * nc)
    requires Count(f, Def(l)) == Minted(l, lab + 2 + 2 * nc, lab + 2 + 2 * nc + 2 * nf)
    requires Count(t, Def(l)) == Minted(l, lab + 2 + 2 * nc + 2 * nf, lab + 2 + 2 * nc + 2 * nf + 2 * nt)
    requires n == 1 + nc + nf + nt
    ensures Count(IfCode(lab, c, f, t), Def(l)) == Minted(l, lab, lab + 2 * n)
  {
    IfCodeDefines(lab, c, f, t, l);
  }

  lemma NotCodeDefines(lab: nat, x: Block, l: Label)
    ensures Count(NotCode(lab, x), Def(l)) == Count(x, Def(l)) + Minted(l, lab, lab + 2)
  {
    CountTwo(Push(0), Beq(Plain(lab)), Def(l));
    NonDefLines(Push(0), Beq(Plain(lab)), Push(0), l);
    ChoiceDefines(0, 1, lab, l);
  }

  lemma BinMidDefines(op: BinOp, lab: nat, l: Label)
    ensures Count(BinMid(op, lab), Def(l)) == 0
  {
    CountTwo(Push(1), Beq(Plain(lab)), Def(l));
    CountTwo(Push(0), Beq(Plain(lab)), Def(l));
    NonDefLines(Push(0), Push(1), Beq(Plain(lab)), l);
    assert Count(Two(Push(0), Beq(Plain(lab))), Def(l)) == 0;
  }

  lemma BinTailDefines(op: BinOp, lab: nat, l: Label)
    ensures Count(BinTail(op, lab), Def(l)) == if Branching(op) then Minted(l, lab, lab + 2) else 0
  {
    var l1 := Plain(lab);
    NonDefLines(Beq(l1), Bleq(l1), Push(1), l);
    NonDefLines(Push(0), Sub, Sub, l);
    match op
    case Equal => ChoiceDefines(0, 1, lab, l);
    case LessEqual => ChoiceDefines(0, 1, lab, l);
    case GreaterEqual =>
      ChoiceDefines(1, 0, lab, l);
      CountThree(Push(1), Sub, Bleq(l1), Def(l));
    case Or =>
      ChoiceDefines(0, 1, lab, l);
      CountTwo(Push(1), Beq(l1), Def(l));
    case And =>
      ChoiceDefines(1, 0, lab, l);
      CountTwo(Push(0), Beq(l1), Def(l));
    case _ =>
  }

  /** The code of e defines each label it minted exactly once, and no other
      label. */
  lemma {:induction false} CodeDefines(mem: int, lab: nat, e: Exp, l: Label)
    requires Resolved(e)
    ensures Count(Code(mem, lab, e), Def(l)) == Minted(l, lab, lab + 2 * Branches(e))
    decreases e, 1
  {
    match e
    case Id(_, en, nl) => IdCodeDefinesNothing(en.value, nl, l);
    case Print(x) => PrintDefines(mem, lab, x, l);
    case Not(x) => NotDefines(mem, lab, x, l);
    case If(c, t, f) => IfDefines(mem, lab, c, t, f, l);
    case Bin(op, x, y) => BinDefines(mem, lab, op, x, y, l);
    case Call(_, args, en, nl) => CallDefines(mem, lab, args, en.value, en.value, nl, l);
    case ClassCall(_, _, args, en, men, nl) => CallDefines(mem, lab, args, en.value, men.value, nl, l);
    case New(_, args, en, _) => NewDefines(mem, lab, args, en.value, l);
    case _ =>
  }

  lemma {:induction false} OperandDefines(mem: int, lab: nat, e: Exp, l: Label)
    requires Resolved(e)
    ensures Count(Operand(mem, lab, e), Def(l)) == Minted(l, lab, lab + 2 * Branches(e))
    decreases e, 2
  {
    CodeDefines(mem, lab, e, l);
  }

  lemma {:induction false} PrintDefines(mem: int, lab: nat, x: Exp, l: Label)
    requires Resolved(Print(x))
    ensures Count(PrintNode(mem, lab, x), Def(l)) == Minted(l, lab, lab + 2 * Branches(Print(x)))
    decreases Print(x), 0
  {
    OperandDefines(mem, lab, x, l);
  }

  lemma {:induction false} NotDefines(mem: int, lab: nat, x: Exp, l: Label)
    requires Resolved(Not(x))
    ensures Count(NotNode(mem, lab, x), Def(l)) == Minted(l, lab, lab + 2 * Branches(Not(x)))
    decreases Not(x), 0
  {
    OperandDefines(mem, lab + 2, x, l);
    NotCodeDefines(lab, Operand(mem, lab + 2, x), l);
  }

  lemma {:induction false} IfDefines(mem: int, lab: nat, c: Exp, t: Exp, f: Exp, l: Label)
    requires Resolved(If(c, t, f))
    ensures Count(IfNode(mem, lab, c, t, f), Def(l)) == Minted(l, lab, lab + 2 * Branches(If(c, t, f)))
    decreases If(c, t, f), 0
  {
    var lf := lab + 2 + 2 * Branches(c);
    var lt := lf + 2 * Branches(f);
    var oc, of, ot := Operand(mem, lab + 2, c), Operand(mem, lf, f), Operand(mem, lt, t);
    OperandDefines(mem, lab + 2, c, l);
    OperandDefines(mem, lf, f, l);
    OperandDefines(mem, lt, t, l);
    IfNodeUnfold(mem, lab, c, t, f);
    IfAssemble(lab, oc, of, ot, Branches(c), Branches(f), Branches(t), Branches(If(c, t, f)), l);
  }

  lemma {:induction false} BinDefines(mem: int, lab: nat, op: BinOp, x: Exp, y: Exp, l: Label)
    requires Resolved(Bin(op, x, y))
    ensures Count(BinNode(mem, lab, op, x, y), Def(l)) == Minted(l, lab, lab + 2 * Branches(Bin(op, x, y)))
    decreases Bin(op, x, y), 0
  {
    var ll := if Branching(op) then lab + 2 else lab;
    OperandDefines(mem, ll, x, l);
    OperandDefines(mem, ll + 2 * Branches(x), y, l);
    BinMidDefines(op, lab, l);
    BinTailDefines(op, lab, l);
    assert Count(Cat(Operand(mem, ll, x), BinMid(op, lab)), Def(l)) == Count(Operand(mem, ll, x), Def(l));
  }

  /** Both kinds of call: the arguments define their labels, the rest of
      the code none. */
  lemma {:induction false} CallDefines(mem: int, lab: nat, args: seq<Exp>, en: Entry, men: Entry, nl: int, l: Label)
    requires AllResolved(args)
    ensures Count(CallNode(mem, lab, args, en, nl), Def(l)) == Minted(l, lab, lab + 2 * BranchesAll(args))
    ensures Count(ClassCallNode(mem, lab, args, en, men, nl), Def(l)) == Minted(l, lab, lab + 2 * BranchesAll(args))
    decreases args, 1
  {
    CodeRevDefines(mem, lab, args, l);
    CallTailDefinesNothing(en, men, nl, l);
    assert Count(Cat(Line(Lfp), CodeRev(mem, lab, args)), Def(l)) == Count(CodeRev(mem, lab, args), Def(l));
  }

  lemma {:induction false} NewDefines(mem: int, lab: nat, args: seq<Exp>, en: Entry, l: Label)
    requires AllResolved(args)
    ensures Count(NewNode(mem, lab, args, en), Def(l)) == Minted(l, lab, lab + 2 * BranchesAll(args))
    decreases args, 1
  {
    CodeAllDefines(mem, lab, args, l);
    HeapStoresDefineNothing(|args|, l);
    NewTailDefinesNothing(mem, en, l);
  }

  lemma {:induction false} CodeRevDefines(mem: int, lab: nat, es: seq<Exp>, l: Label)
    requires AllResolved(es)
    ensures Count(CodeRev(mem, lab, es), Def(l)) == Minted(l, lab, lab + 2 * BranchesAll(es))
    decreases es, 0
  {
    if es != [] {
      BranchesAllCons(es);
      CodeRevDefines(mem, lab, es[1..], l);
      OperandDefines(mem, lab + 2 * BranchesAll(es[1..]), es[0], l);
    }
  }

  lemma {:induction false} CodeAllDefines(mem: int, lab: nat, es: seq<Exp>, l: Label)
    requires AllResolved(es)
    ensures Count(CodeAll(mem, lab, es), Def(l)) == Minted(l, lab, lab + 2 * BranchesAll(es))
    decreases es, 0
  {
    if es != [] {
      var init := es[..|es| - 1];
      CodeAllDefines(mem, lab, init, l);
      OperandDefines(mem, lab + 2 * BranchesAll(init), es[|es| - 1], l);
    }
  }

  /** Counting label pairs from the front gives the same total. */
  lemma {:induction false} BranchesAllCons(es: seq<Exp>)
    requires es != []
    ensures BranchesAll(es) == Branches(es[0]) + BranchesAll(es[1..])
  {
    if |es| > 1 {
      var init := es[..|es| - 1];
      BranchesAllCons(init);
      assert init[1..] == es[1..][..|es[1..]| - 1];
    } else {
      assert es[..0] == [] && es[1..] == [];
    }
  }

  // ---------------------------------------------------------------------------
  // Layout of identifiers, calls and `new`

  /** An identifier follows the access links exactly nl - entry.nl times
      (none when its declaration is in the current frame), then loads the
      slot at the entry's offset. */
  lemma IdCodeLayout(en: Entry, nl: int)
    ensures var s := Flat(IdCode(en, nl)); var k := Max0(nl - en.nl);
      |s| == k + 4 && s[0] == Lfp && (forall i :: 1 <= i <= k ==> s[i] == Lw)
      && s[k + 1..] == [Push(en.offset), Add, Lw]
  {
    var k := Max0(nl - en.nl);
    var hops := Flat(Copies(Lw, nl - en.nl));
    CopiesFlat(Lw, nl - en.nl);
    assert Flat(Hops(nl - en.nl)) == [Lfp] + hops;
    FlatThree(Push(en.offset), Add, Lw);
    var s := Flat(IdCode(en, nl));
    assert s == [Lfp] + hops + [Push(en.offset), Add, Lw];
    forall i | 1 <= i <= k
      ensures s[i] == Lw
    {
      assert s[i] == hops[i - 1];
    }
  }

  /** ... so it loads nl - entry.nl + 1 words in all. */
  lemma IdCodeLoads(en: Entry, nl: int)
    ensures Count(IdCode(en, nl), Lw) == Max0(nl - en.nl) + 1
  {
    HopsLoads(nl - en.nl);
    LoadLoads(en.offset);
  }

  /** A call follows nl - entry.nl access links to the frame of the
      declaration and loads the code address from the entry's slot; a method
      entry holds a dispatch-table slot, which costs exactly one more load. */
  lemma CallTailLoads(en: Entry, nl: int)
    ensures Count(CallTail(en, nl), Lw) == Max0(nl - en.nl) + (if en.ty.MethodType? then 2 else 1)
  {
    HopsLoads(nl - en.nl);
    LoadLoads(en.offset);
    CountThree(Stm, Ltm, Ltm, Lw);
    assert Count(MethodLoad(en), Lw) == if en.ty.MethodType? then 1 else 0;
    assert Count(Cat(Load(en.offset), Line(Js)), Lw) == 1;
  }

  /** A call on an object follows the access links, then loads the object,
      its dispatch table and the method's address. */
  lemma ClassCallTailLoads(en: Entry, men: Entry, nl: int)
    ensures Count(ClassCallTail(en, men, nl), Lw) == Max0(nl - en.nl) + 3
  {
    HopsLoads(nl - en.nl);
    LoadLoads(en.offset);
    LoadLoads(men.offset);
    CountFour(Stm, Ltm, Ltm, Lw, Lw);
    var tail := Cat(Load(men.offset), Line(Js));
    assert Count(tail, Lw) == 1;
    assert Count(Cat(Four(Stm, Ltm, Ltm, Lw), tail), Lw) == 2;
    assert Count(Cat(Hops(nl - en.nl), Load(en.offset)), Lw) == Max0(nl - en.nl) + 1;
  }

  lemma HopsLoads(k: int)
    ensures Count(Hops(k), Lw) == Max0(k)
  {
    CopiesCount(Lw, k, Lw);
    assert Count(Line(Lfp), Lw) == 0;
  }

  lemma LoadLoads(offset: int)
    ensures Count(Load(offset), Lw) == 1
  {
    CountThree(Push(offset), Add, Lw, Lw);
  }

  /** `new` stores each of its n arguments on the heap with six lines. */
  lemma {:induction false} HeapStoresLength(n: nat)
    ensures |Flat(HeapStores(n))| == 6 * n
  {
    if n > 0 {
      HeapStoresLength(n - 1);
      assert |Flat(HeapStore())| == 6;
    }
  }

  /** ... and one store per argument. */
  lemma {:induction false} HeapStoresStore(n: nat)
    ensures Count(HeapStores(n), Sw) == n
  {
    if n > 0 {
      HeapStoresStore(n - 1);
      CountTwo(Lhp, Sw, Sw);
      CountFour(Lhp, Push(1), Add, Shp, Sw);
    }
  }

  /** The list in the opposite order. */
  function Reversed(s: seq<Exp>): (r: seq<Exp>)
    ensures |r| == |s|
  {
    if s == [] then [] else Reversed(s[1..]) + [s[0]]
  }

  lemma {:induction false} ReversedAt(s: seq<Exp>, i: int)
    requires 0 <= i < |s|
    ensures Reversed(s)[i] == s[|s| - 1 - i]
  {
    if i < |s| - 1 {
      ReversedAt(s[1..], i);
    }
  }

  lemma {:induction false} BranchesAllReversed(s: seq<Exp>)
    ensures BranchesAll(Reversed(s)) == BranchesAll(s)
  {
    if s != [] {
      var r := Reversed(s);
      assert r[..|r| - 1] == Reversed(s[1..]);
      BranchesAllReversed(s[1..]);
      BranchesAllCons(s);
    }
  }

  lemma AllResolvedReversed(s: seq<Exp>)
    requires AllResolved(s)
    ensures AllResolved(Reversed(s))
  {
    forall i | 0 <= i < |s|
      ensures Resolved(Reversed(s)[i])
    {
      ReversedAt(s, i);
    }
  }

  /** A call joins the code of its arguments from the last to the first:
      exactly the code of the reversed argument list in source order, with
      the same labels. */
  lemma {:induction false} CodeRevIsReversed(mem: int, lab: nat, es: seq<Exp>)
    requires AllResolved(es)
    ensures AllResolved(Reversed(es))
    ensures CodeRev(mem, lab, es) == CodeAll(mem, lab, Reversed(es))
  {
    AllResolvedReversed(es);
    if es != [] {
      var r := Reversed(es);
      assert r[..|r| - 1] == Reversed(es[1..]);
      CodeRevIsReversed(mem, lab, es[1..]);
      BranchesAllReversed(es[1..]);
    }
  }

  // ---------------------------------------------------------------------------
  // Shape of operator code

  /** Arithmetic: the left operand's code, the right operand's code, then
      exactly one instruction, the one of the operator. */
  lemma ArithmeticLayout(mem: int, lab: nat, op: BinOp, l: Exp, r: Exp)
    requires Resolved(l) && Resolved(r) && !Branching(op)
    ensures var s := Flat(BinNode(mem, lab, op, l, r));
      var pre := Flat(Code(mem, lab, l)) + Flat(Code(mem, lab + 2 * Branches(l), r));
      && (op == Plus ==> s == pre + [Add])
      && (op == Minus ==> s == pre + [Sub])
      && (op == Times ==> s == pre + [Mult])
      && (op == BinOp.Div ==> s == pre + [Instr.Div])
  {
    var left := Operand(mem, lab, l);
    var right := Operand(mem, lab + 2 * Branches(l), r);
    assert BinNode(mem, lab, op, l, r) == BinCode(op, lab, left, right);
    assert Flat(BinMid(op, lab)) == [];
    assert Flat(Cat(left, BinMid(op, lab))) == Flat(left);
    assert Flat(BinNode(mem, lab, op, l, r)) == Flat(left) + Flat(right) + Flat(BinTail(op, lab));
  }

  /** The last five lines of a block that ends in a two-way ending. */
  lemma ChoiceEnding(pre: Block, fall: int, jump: int, lab: nat)
    ensures var s := Flat(Cat(pre, Choice(fall, jump, lab))); var n := |s|;
      n >= 5 && s[n - 5..] == [Push(fall), Branch(Plain(lab + 1)), Def(Plain(lab)), Push(jump), Def(Plain(lab + 1))]
  {
    FlatThree(Push(fall), Branch(Plain(lab + 1)), Def(Plain(lab)));
    var c := [Push(fall), Branch(Plain(lab + 1)), Def(Plain(lab)), Push(jump), Def(Plain(lab + 1))];
    assert Flat(Two(Push(jump), Def(Plain(lab + 1)))) == [Push(jump), Def(Plain(lab + 1))];
    assert Flat(Choice(fall, jump, lab)) == c;
    var s := Flat(Cat(pre, Choice(fall, jump, lab)));
    assert s == Flat(pre) + c;
    assert s[|s| - 5..] == c;
  }

  /** The value a branching operator leaves when its test does not jump:
      false for `==`, `<=` and `||`, true for `>=` and `&&`. */
  function Fallthrough(op: BinOp): int {
    match op
    case GreaterEqual => 1
    case And => 1
    case _ => 0
  }

  /** A comparison, a logical operator or a negation leaves its result as a
      canonical boolean: one path ends in `push 0`, the other in `push 1`,
      and the two paths meet at the second label. */
  lemma BooleanResult(lab: nat, op: BinOp)
    requires Branching(op)
    ensures var s := Flat(BinTail(op, lab)); var f := Fallthrough(op);
      |s| >= 5 && s[|s| - 5..] == [Push(f), Branch(Plain(lab + 1)), Def(Plain(lab)), Push(1 - f), Def(Plain(lab + 1))]
  {
    var l1 := Plain(lab);
    match op
    case Equal => ChoiceEnding(Line(Beq(l1)), 0, 1, lab);
    case LessEqual => ChoiceEnding(Line(Bleq(l1)), 0, 1, lab);
    case GreaterEqual => ChoiceEnding(Three(Push(1), Sub, Bleq(l1)), 1, 0, lab);
    case Or => ChoiceEnding(Two(Push(1), Beq(l1)), 0, 1, lab);
    case And => ChoiceEnding(Two(Push(0), Beq(l1)), 1, 0, lab);
  }

  lemma NotResult(lab: nat, x: Block)
    ensures var s := Flat(NotCode(lab, x));
      |s| >= 5 && s[|s| - 5..] == [Push(0), Branch(Plain(lab + 1)), Def(Plain(lab)), Push(1), Def(Plain(lab + 1))]
  {
    ChoiceEnding(Cat(x, Two(Push(0), Beq(Plain(lab)))), 0, 1, lab);
  }
}
