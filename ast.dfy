/** The tree the three passes walk: type expressions, symbol-table entries,
    expressions, declarations and programs. Every list the source wraps as
    unmodifiable is a `seq`, and every `final` field a datatype field, so a
    node's name, children and their order cannot change once it is built.
    The slots `entry` and `nl` of identifiers and calls are filled in by the
    symbol-table pass, which returns the node rebuilt with the slot filled.
    The other annotation slots (the entries of dot-calls and `new`, the
    offsets of fields and methods, a class's `superEntry` and `classType`)
    are inputs: no pass modelled here writes them. */
module Ast {
  import opened Wrappers

  /** Type expressions. MethodType wraps the arrow type of a class method;
      ClassType lists the field types and method types of a class; EmptyType is
      the type of `null`. */
  datatype Type =
    | IntType
    | BoolType
    | ArrowType(params: seq<Type>, ret: Type)
    | RefType(id: string)
    | EmptyType
    | MethodType(fun: Type)
    | ClassType(allFields: seq<Type>, allMethods: seq<Type>)

  /** A symbol-table entry: nesting level, type and offset, stored as given.
      The offset carries no sign constraint. */
  datatype Entry = Entry(nl: int, ty: Type, offset: int)

  datatype BinOp = Equal | Times | Plus | Minus | Div | LessEqual | GreaterEqual | And | Or

  /** Expressions. `entry` and `nl` are the slots resolution writes; `None`
      is a slot left unset. */
  datatype Exp =
    | IntLit(value: int)
    | BoolLit(b: bool)
    | Id(id: string, entry: Option<Entry>, nl: int)
    | Call(id: string, args: seq<Exp>, entry: Option<Entry>, nl: int)
    | If(cond: Exp, th: Exp, el: Exp)
    | Bin(op: BinOp, left: Exp, right: Exp)
    | Not(exp: Exp)
    | Print(exp: Exp)
    | ClassCall(id: string, methodId: string, args: seq<Exp>, entry: Option<Entry>, methodEntry: Option<Entry>, nl: int)
    | New(id: string, args: seq<Exp>, entry: Option<Entry>, nl: int)
    | Empty

  datatype Par = Par(id: string, ty: Type)

  datatype Field = Field(id: string, ty: Type, offset: int)

  datatype Method = Method(id: string, pars: seq<Par>, decs: seq<Dec>, retType: Type, body: Exp, offset: int)

  /** Declarations. `Missing` is a declaration the parser could not build
      (a null entry in a declaration list). */
  datatype Dec =
    | Var(id: string, ty: Type, exp: Exp)
    | Fun(id: string, retType: Type, pars: seq<Par>, decs: seq<Dec>, body: Exp)
    | Class(id: string, superId: Option<string>, fields: seq<Field>, methods: seq<Method>,
            superEntry: Option<Entry>, classType: Option<Type>)
    | Missing

  datatype Prog = LetIn(decs: seq<Dec>, exp: Exp) | Bare(exp: Exp)

  function ParTypes(pars: seq<Par>): (ts: seq<Type>)
    ensures |ts| == |pars|
    ensures forall i :: 0 <= i < |pars| ==> ts[i] == pars[i].ty
  {
    if pars == [] then [] else [pars[0].ty] + ParTypes(pars[1..])
  }

  /** The expression with every annotation slot cleared: what the parser built. */
  function Erase(e: Exp): Exp {
    match e
    case Id(id, _, _) => Id(id, None, 0)
    case Call(id, args, _, _) => Call(id, EraseAll(args), None, 0)
    case If(c, t, f) => If(Erase(c), Erase(t), Erase(f))
    case Bin(op, l, r) => Bin(op, Erase(l), Erase(r))
    case Not(x) => Not(Erase(x))
    case Print(x) => Print(Erase(x))
    case ClassCall(id, m, args, _, _, _) => ClassCall(id, m, EraseAll(args), None, None, 0)
    case New(id, args, _, _) => New(id, EraseAll(args), None, 0)
    case _ => e
  }

  function EraseAll(es: seq<Exp>): (r: seq<Exp>)
    ensures |r| == |es|
  {
    if es == [] then [] else EraseAll(es[..|es| - 1]) + [Erase(es[|es| - 1])]
  }

  /** Every use site in the expression carries its entry (the method entry too,
      for a call on an object). */
  predicate Resolved(e: Exp) {
    match e
    case Id(_, en, _) => en.Some?
    case Call(_, args, en, _) => en.Some? && AllResolved(args)
    case If(c, t, f) => Resolved(c) && Resolved(t) && Resolved(f)
    case Bin(_, l, r) => Resolved(l) && Resolved(r)
    case Not(x) => Resolved(x)
    case Print(x) => Resolved(x)
    case ClassCall(_, _, args, en, men, _) => en.Some? && men.Some? && AllResolved(args)
    case New(_, args, en, _) => en.Some? && AllResolved(args)
    case _ => true
  }

  predicate AllResolved(es: seq<Exp>) {
    forall i :: 0 <= i < |es| ==> Resolved(es[i])
  }

  /** The expression contains an object construction or a call on an object. */
  predicate HasObjects(e: Exp) {
    match e
    case Call(_, args, _, _) => AnyHasObjects(args)
    case If(c, t, f) => HasObjects(c) || HasObjects(t) || HasObjects(f)
    case Bin(_, l, r) => HasObjects(l) || HasObjects(r)
    case Not(x) => HasObjects(x)
    case Print(x) => HasObjects(x)
    case ClassCall(_, _, _, _, _, _) => true
    case New(_, _, _, _) => true
    case _ => false
  }

  predicate AnyHasObjects(es: seq<Exp>) {
    exists i :: 0 <= i < |es| && HasObjects(es[i])
  }

  /** The expression refers to a name through an identifier or a call. */
  predicate UsesNames(e: Exp) {
    match e
    case Id(_, _, _) => true
    case Call(_, _, _, _) => true
    case If(c, t, f) => UsesNames(c) || UsesNames(t) || UsesNames(f)
    case Bin(_, l, r) => UsesNames(l) || UsesNames(r)
    case Not(x) => UsesNames(x)
    case Print(x) => UsesNames(x)
    case _ => false
  }
}
