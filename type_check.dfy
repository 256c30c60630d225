/** The type checker. Expressions are typed bottom-up by a recursive function
    that either yields a type or fails the way the checker throws: a type
    error with its message, an incomplete tree (an unset entry slot or a
    missing declaration), or a Java runtime exception. Declarations are
    checked by a visitor that owns the superclass map, records each class's
    superclass in it, and catches errors per declaration so that the
    remaining declarations are still checked. */
module TypeCheck {
  import opened Wrappers
  import opened Strings
  import opened Ast
  import opened TypeRels

  /** Why a check stopped. TypeError is the checked exception with its
      message (the line number is not modelled); Incomplete is the exception
      raised on an unset slot; Crash is a Java runtime exception, which no
      visit catches. */
  datatype Fault = TypeError(msg: Message) | Incomplete | Crash(reason: Exception)

  /** The runtime exceptions the checker can raise. */
  datatype Exception = NullPointer | IndexOutOfBounds | ClassCast

  /** The type errors, one per message the checker builds; `Text` gives the
      wording. Argument positions are counted from 1. */
  datatype Message =
    | FunctionIdUse(id: string)
    | MethodIdUse(id: string)
    | ClassIdUse(id: string)
    | NonFunctionCall(id: string)
    | CallArity(id: string)
    | CallArgType(pos: nat, id: string)
    | NonClassNew(id: string)
    | NewArity(id: string)
    | NewArgType(pos: nat, id: string)
    | NonBoolCondition
    | BranchTypes
    | EqualTypes
    | Operands(op: BinOp)
    | NotOperand
    | VarValue(id: string)
    | WrongReturnType(id: string)
    | WrongFieldType(id: string)
    | WrongMethodType(id: string)

  function Text(m: Message): string {
    match m
    case FunctionIdUse(id) => "Wrong usage of function identifier " + id
    case MethodIdUse(id) => "Wrong usage of method identifier " + id
    case ClassIdUse(id) => "Wrong usage of class identifier " + id
    case NonFunctionCall(id) => "Invocation of a non-function " + id
    case CallArity(id) => "Wrong number of parameters in the invocation of " + id
    case CallArgType(pos, id) => "Wrong type for " + NatToString(pos) + "-th parameter in the invocation of " + id
    case NonClassNew(id) => "Invocation of a non-class constructor " + id
    case NewArity(id) => "Wrong number of parameters in the invocation of class constructor " + id
    case NewArgType(pos, id) =>
      "Wrong type for " + NatToString(pos) + "-th parameter in the invocation of class constructor " + id
    case NonBoolCondition => "Non boolean condition in if"
    case BranchTypes => "Incompatible types in then-else branches"
    case EqualTypes => "Incompatible types in equal"
    case Operands(op) => OperatorMessage(op)
    case NotOperand => "Not boolean beside ! symbol"
    case VarValue(id) => "Incompatible value for variable " + id
    case WrongReturnType(id) => "Wrong return type for function " + id
    case WrongFieldType(id) => "Wrong type for field " + id
    case WrongMethodType(id) => "Wrong type for method " + id
  }

  // ---------------------------------------------------------------------------
  // Expressions

  /** The operand type an operator other than `==` demands of both sides. */
  function OperandType(op: BinOp): Type {
    if op == And || op == Or then BoolType else IntType
  }

  /** The type an operator other than `==` yields. */
  function ResultType(op: BinOp): Type {
    if op == Times || op == Plus || op == Minus || op == Div then IntType else BoolType
  }

  /** The message an operator other than `==` raises on a wrong operand. */
  function OperatorMessage(op: BinOp): string {
    match op
    case Times => "Non integers in multiplication"
    case Plus => "Non integers in sum"
    case Minus => "Not integers beside - operation"
    case Div => "Not integers beside / operation"
    case LessEqual => "Not integer parameter beside <= operand"
    case GreaterEqual => "Not integer parameter beside >= operand"
    case And => "Not booleans beside && symbol"
    case Or => "Not booleans beside || symbol"
    case Equal => "Incompatible types in equal"
  }

  /** A method type stands for the arrow type it wraps. */
  function Unwrap(t: Type): Type {
    if t.MethodType? then t.fun else t
  }

  /** The type of e under the superclass map h. Each rule is a combiner of
      the outcomes of the subexpressions; a combiner looks at a later
      outcome only when the earlier checks passed, which is the order in
      which the checker visits them. */
  function TypeOf(h: Hierarchy, e: Exp): Result<Type, Fault>
    decreases e, 2
  {
    match e
    case IntLit(_) => Success(IntType)
    case BoolLit(_) => Success(BoolType)
    case Empty => Success(EmptyType)
    case Print(x) => TypeOf(h, x)
    case Id(id, en, _) => IdType(id, en)
    case Call(id, args, en, _) =>
      if en.None? then Failure(Incomplete) else Invocation(h, id, args, en.value.ty)
    case ClassCall(id, _, args, _, men, _) =>
      if men.None? then Failure(Incomplete) else Invocation(h, id, args, men.value.ty)
    case New(id, args, en, _) => NewType(h, id, args, en)
    case If(c, th, el) => IfType(h, TypeOf(h, c), TypeOf(h, th), TypeOf(h, el))
    case Bin(op, l, r) => BinType(h, op, TypeOf(h, l), TypeOf(h, r))
    case Not(x) => NotType(h, TypeOf(h, x))
  }

  /** An identifier: the type of its entry, unless that is a function,
      method or class type. */
  function IdType(id: string, en: Option<Entry>): Result<Type, Fault> {
    if en.None? then Failure(Incomplete)
    else if en.value.ty.ArrowType? then Failure(TypeError(FunctionIdUse(id)))
    else if en.value.ty.MethodType? then Failure(TypeError(MethodIdUse(id)))
    else if en.value.ty.ClassType? then Failure(TypeError(ClassIdUse(id)))
    else Success(en.value.ty)
  }

  function IfType(h: Hierarchy, rc: Result<Type, Fault>, rt: Result<Type, Fault>, re: Result<Type, Fault>): Result<Type, Fault> {
    if rc.Failure? then rc
    else if !IsSubtype(h, rc.value, BoolType) then Failure(TypeError(NonBoolCondition))
    else if rt.Failure? then rt
    else if re.Failure? then re
    else
      match LowestCommonAncestor(h, rt.value, re.value)
      case None => Failure(TypeError(BranchTypes))
      case Some(t) => Success(t)
  }

  /** A binary operator: `==` visits both sides before comparing them; the
      others check the left operand before the right one is visited. */
  function BinType(h: Hierarchy, op: BinOp, rl: Result<Type, Fault>, rr: Result<Type, Fault>): Result<Type, Fault> {
    if rl.Failure? then rl
    else if op == Equal then
      if rr.Failure? then rr
      else if IsSubtype(h, rl.value, rr.value) || IsSubtype(h, rr.value, rl.value) then Success(BoolType)
      else Failure(TypeError(EqualTypes))
    else if !IsSubtype(h, rl.value, OperandType(op)) then Failure(TypeError(Operands(op)))
    else if rr.Failure? then rr
    else if !IsSubtype(h, rr.value, OperandType(op)) then Failure(TypeError(Operands(op)))
    else Success(ResultType(op))
  }

  function NotType(h: Hierarchy, r: Result<Type, Fault>): Result<Type, Fault> {
    if r.Failure? then r
    else if IsSubtype(h, r.value, BoolType) then Success(BoolType)
    else Failure(TypeError(NotOperand))
  }

  /** `new C(args)`: C's entry must hold a class type whose field list
      matches the arguments. */
  function NewType(h: Hierarchy, id: string, args: seq<Exp>, en: Option<Entry>): Result<Type, Fault>
    decreases args, 1
  {
    if en.None? then Failure(Incomplete)
    else if !en.value.ty.ClassType? then Failure(TypeError(NonClassNew(id)))
    else if |en.value.ty.allFields| != |args| then Failure(TypeError(NewArity(id)))
    else
      match CheckArgs(h, args, en.value.ty.allFields, id, true)
      case Some(f) => Failure(f)
      case None => Success(RefType(id))
  }

  /** A call (on a function or on an object's method) whose entry has type t. */
  function Invocation(h: Hierarchy, id: string, args: seq<Exp>, t: Type): Result<Type, Fault>
    decreases args, 1
  {
    var f := Unwrap(t);
    if !f.ArrowType? then Failure(TypeError(NonFunctionCall(id)))
    else if |f.params| != |args| then Failure(TypeError(CallArity(id)))
    else
      match CheckArgs(h, args, f.params, id, false)
      case Some(fault) => Failure(fault)
      case None => Success(f.ret)
  }

  /** The argument loop: arguments are typed and compared with the expected
      types left to right, and the first failure is the outcome. */
  function CheckArgs(h: Hierarchy, args: seq<Exp>, pts: seq<Type>, id: string, isNew: bool): Option<Fault>
    requires |args| == |pts|
    decreases args, 0
  {
    if args == [] then None
    else
      var k := |args| - 1;
      match CheckArgs(h, args[..k], pts[..k], id, isNew)
      case Some(f) => Some(f)
      case None =>
        match TypeOf(h, args[k])
        case Failure(f) => Some(f)
        case Success(t) =>
          if IsSubtype(h, t, pts[k]) then None
          else Some(TypeError(if isNew then NewArgType(k + 1, id) else CallArgType(k + 1, id)))
  }

  /** Every argument types, and its type is a subtype of the expected one. */
  predicate ArgsTyped(h: Hierarchy, args: seq<Exp>, pts: seq<Type>)
    requires |args| == |pts|
  {
    forall i :: 0 <= i < |args| ==> TypeOf(h, args[i]).Success? && IsSubtype(h, TypeOf(h, args[i]).value, pts[i])
  }

  lemma {:induction false} CheckArgsSpec(h: Hierarchy, args: seq<Exp>, pts: seq<Type>, id: string, isNew: bool)
    requires |args| == |pts|
    ensures CheckArgs(h, args, pts, id, isNew).None? <==> ArgsTyped(h, args, pts)
    decreases |args|
  {
    if args != [] {
      var k := |args| - 1;
      CheckArgsSpec(h, args[..k], pts[..k], id, isNew);
      assert forall i :: 0 <= i < k ==> args[..k][i] == args[i] && pts[..k][i] == pts[i];
    }
  }

  /** The first argument that fails decides the outcome: arguments after it
      are never typed. */
  lemma {:induction false} CheckArgsFirstFailure(h: Hierarchy, args: seq<Exp>, pts: seq<Type>, id: string, isNew: bool, k: nat)
    requires |args| == |pts| && k <= |args|
    requires CheckArgs(h, args[..k], pts[..k], id, isNew).Some?
    ensures CheckArgs(h, args, pts, id, isNew) == CheckArgs(h, args[..k], pts[..k], id, isNew)
    decreases |args|
  {
    if k < |args| {
      var n := |args| - 1;
      assert args[..n][..k] == args[..k] && pts[..n][..k] == pts[..k];
      CheckArgsFirstFailure(h, args[..n], pts[..n], id, isNew, k);
    } else {
      assert args[..k] == args && pts[..k] == pts;
    }
  }

  /** An identifier has its entry's type unless that is a function, method
      or class type. */
  lemma IdRule(h: Hierarchy, id: string, en: Option<Entry>, nl: int)
    ensures TypeOf(h, Id(id, en, nl)).Success? <==>
      en.Some? && !en.value.ty.ArrowType? && !en.value.ty.MethodType? && !en.value.ty.ClassType?
    ensures TypeOf(h, Id(id, en, nl)).Success? ==> TypeOf(h, Id(id, en, nl)).value == en.value.ty
    ensures TypeOf(h, Id(id, en, nl)) == Failure(Incomplete) <==> en.None?
  {
  }

  /** `+ - * /` type as int exactly when both operands are subtypes of int
      (tl and tr are the outcomes of typing the operands). */
  lemma ArithmeticRule(h: Hierarchy, op: BinOp, l: Exp, r: Exp, tl: Result<Type, Fault>, tr: Result<Type, Fault>)
    requires op == Times || op == Plus || op == Minus || op == Div
    requires tl == TypeOf(h, l) && tr == TypeOf(h, r)
    ensures TypeOf(h, Bin(op, l, r)).Success? <==>
      tl.Success? && IsSubtype(h, tl.value, IntType) && tr.Success? && IsSubtype(h, tr.value, IntType)
    ensures TypeOf(h, Bin(op, l, r)).Success? ==> TypeOf(h, Bin(op, l, r)).value == IntType
  {
  }

  /** `<=` and `>=` demand int operands and yield bool. */
  lemma ComparisonRule(h: Hierarchy, op: BinOp, l: Exp, r: Exp, tl: Result<Type, Fault>, tr: Result<Type, Fault>)
    requires op == LessEqual || op == GreaterEqual
    requires tl == TypeOf(h, l) && tr == TypeOf(h, r)
    ensures TypeOf(h, Bin(op, l, r)).Success? <==>
      tl.Success? && IsSubtype(h, tl.value, IntType) && tr.Success? && IsSubtype(h, tr.value, IntType)
    ensures TypeOf(h, Bin(op, l, r)).Success? ==> TypeOf(h, Bin(op, l, r)).value == BoolType
  {
  }

  /** `&&`, `||` and `!` demand bool operands and yield bool. */
  lemma LogicRule(h: Hierarchy, op: BinOp, l: Exp, r: Exp, tl: Result<Type, Fault>, tr: Result<Type, Fault>)
    requires op == And || op == Or
    requires tl == TypeOf(h, l) && tr == TypeOf(h, r)
    ensures TypeOf(h, Bin(op, l, r)).Success? <==>
      tl.Success? && IsSubtype(h, tl.value, BoolType) && tr.Success? && IsSubtype(h, tr.value, BoolType)
    ensures TypeOf(h, Bin(op, l, r)).Success? ==> TypeOf(h, Bin(op, l, r)).value == BoolType
    ensures TypeOf(h, Not(l)).Success? <==> tl.Success? && IsSubtype(h, tl.value, BoolType)
    ensures TypeOf(h, Not(l)).Success? ==> TypeOf(h, Not(l)).value == BoolType
  {
  }

  /** `==` types as bool exactly when one side is a subtype of the other. */
  lemma EqualRule(h: Hierarchy, l: Exp, r: Exp, tl: Result<Type, Fault>, tr: Result<Type, Fault>)
    requires tl == TypeOf(h, l) && tr == TypeOf(h, r)
    ensures TypeOf(h, Bin(Equal, l, r)).Success? <==>
      tl.Success? && tr.Success? && (IsSubtype(h, tl.value, tr.value) || IsSubtype(h, tr.value, tl.value))
    ensures TypeOf(h, Bin(Equal, l, r)).Success? ==> TypeOf(h, Bin(Equal, l, r)).value == BoolType
  {
  }

  /** The operators other than `==` evaluate their checks left to right: once
      the left operand fails, the right one plays no part. */
  lemma OperatorShortCircuit(h: Hierarchy, op: BinOp, l: Exp, r1: Exp, r2: Exp, tl: Result<Type, Fault>)
    requires op != Equal
    requires tl == TypeOf(h, l)
    requires tl.Failure? || !IsSubtype(h, tl.value, OperandType(op))
    ensures TypeOf(h, Bin(op, l, r1)) == TypeOf(h, Bin(op, l, r2))
    ensures TypeOf(h, Bin(op, l, r1)).Failure?
  {
  }

  /** `if` demands a boolean condition and yields the lowest common ancestor
      of its branches. */
  lemma IfRule(h: Hierarchy, c: Exp, th: Exp, el: Exp, t: Type, tc: Result<Type, Fault>, tt: Result<Type, Fault>, te: Result<Type, Fault>)
    requires tc == TypeOf(h, c) && tt == TypeOf(h, th) && te == TypeOf(h, el)
    ensures TypeOf(h, If(c, th, el)) == Success(t) <==>
      tc.Success? && IsSubtype(h, tc.value, BoolType) && tt.Success? && te.Success?
      && LowestCommonAncestor(h, tt.value, te.value) == Some(t)
  {
  }

  /** A call types as the return type of its (unwrapped) arrow type exactly
      when the arity matches and every argument fits its parameter. */
  lemma CallRule(h: Hierarchy, id: string, args: seq<Exp>, en: Option<Entry>, nl: int)
    ensures TypeOf(h, Call(id, args, en, nl)).Success? <==>
      en.Some? && Unwrap(en.value.ty).ArrowType? && |Unwrap(en.value.ty).params| == |args|
      && ArgsTyped(h, args, Unwrap(en.value.ty).params)
    ensures TypeOf(h, Call(id, args, en, nl)).Success? ==>
      TypeOf(h, Call(id, args, en, nl)).value == Unwrap(en.value.ty).ret
  {
    if en.Some? && Unwrap(en.value.ty).ArrowType? && |Unwrap(en.value.ty).params| == |args| {
      CheckArgsSpec(h, args, Unwrap(en.value.ty).params, id, false);
    }
  }

  /** A call on an object is typed by its method entry alone. */
  lemma ClassCallRule(h: Hierarchy, id: string, mid: string, args: seq<Exp>, en: Option<Entry>, men: Option<Entry>, nl: int)
    ensures TypeOf(h, ClassCall(id, mid, args, en, men, nl)).Success? <==>
      men.Some? && Unwrap(men.value.ty).ArrowType? && |Unwrap(men.value.ty).params| == |args|
      && ArgsTyped(h, args, Unwrap(men.value.ty).params)
    ensures TypeOf(h, ClassCall(id, mid, args, en, men, nl)).Success? ==>
      TypeOf(h, ClassCall(id, mid, args, en, men, nl)).value == Unwrap(men.value.ty).ret
  {
    if men.Some? && Unwrap(men.value.ty).ArrowType? && |Unwrap(men.value.ty).params| == |args| {
      CheckArgsSpec(h, args, Unwrap(men.value.ty).params, id, false);
    }
  }

  /** `new C(args)` types as a reference to C exactly when C's entry is a
      class type and the arguments match its fields one by one. */
  lemma NewRule(h: Hierarchy, id: string, args: seq<Exp>, en: Option<Entry>, nl: int)
    ensures TypeOf(h, New(id, args, en, nl)).Success? <==>
      en.Some? && en.value.ty.ClassType? && |en.value.ty.allFields| == |args|
      && ArgsTyped(h, args, en.value.ty.allFields)
    ensures TypeOf(h, New(id, args, en, nl)).Success? ==> TypeOf(h, New(id, args, en, nl)).value == RefType(id)
  {
    if en.Some? && en.value.ty.ClassType? && |en.value.ty.allFields| == |args| {
      CheckArgsSpec(h, args, en.value.ty.allFields, id, true);
    }
  }

  /** Typing an expression never raises a runtime exception (with the
      corrected subtype relation), and a fully resolved tree never raises
      the incomplete-tree exception. */
  lemma {:induction false} TypeOfFailsCleanly(h: Hierarchy, e: Exp)
    ensures TypeOf(h, e).Failure? ==> !TypeOf(h, e).error.Crash?
    ensures Resolved(e) ==> TypeOf(h, e) != Failure(Incomplete)
    decreases e, 1
  {
    match e
    case Call(id, args, en, _) =>
      if en.Some? && Unwrap(en.value.ty).ArrowType? && |Unwrap(en.value.ty).params| == |args| {
        ArgsFailCleanly(h, args, Unwrap(en.value.ty).params, id, false);
      }
    case ClassCall(id, _, args, _, men, _) =>
      if men.Some? && Unwrap(men.value.ty).ArrowType? && |Unwrap(men.value.ty).params| == |args| {
        ArgsFailCleanly(h, args, Unwrap(men.value.ty).params, id, false);
      }
    case New(id, args, en, _) =>
      if en.Some? && en.value.ty.ClassType? && |en.value.ty.allFields| == |args| {
        ArgsFailCleanly(h, args, en.value.ty.allFields, id, true);
      }
    case If(c, th, el) =>
      TypeOfFailsCleanly(h, c);
      TypeOfFailsCleanly(h, th);
      TypeOfFailsCleanly(h, el);
    case Bin(_, l, r) =>
      TypeOfFailsCleanly(h, l);
      TypeOfFailsCleanly(h, r);
    case Not(x) =>
      TypeOfFailsCleanly(h, x);
    case Print(x) =>
      TypeOfFailsCleanly(h, x);
    case _ =>
  }

  lemma {:induction false} ArgsFailCleanly(h: Hierarchy, args: seq<Exp>, pts: seq<Type>, id: string, isNew: bool)
    requires |args| == |pts|
    ensures CheckArgs(h, args, pts, id, isNew).Some? ==> !CheckArgs(h, args, pts, id, isNew).value.Crash?
    ensures AllResolved(args) ==> CheckArgs(h, args, pts, id, isNew) != Some(Incomplete)
    decreases args, 0
  {
    if args != [] {
      var k := |args| - 1;
      ArgsFailCleanly(h, args[..k], pts[..k], id, isNew);
      TypeOfFailsCleanly(h, args[k]);
      assert AllResolved(args) ==> AllResolved(args[..k]) && Resolved(args[k]);
    }
  }

  // ---------------------------------------------------------------------------
  // Declarations

  /** Where a caught type error is reported: in the declaration loop of a
      program or function, in a class's method loop, or in a method's
      declaration loop (the last one as a warning). */
  datatype Site = InDeclaration | InClass | InMethod

  /** A reported type error. */
  datatype Report = Report(site: Site, msg: Message)

  function ReportText(r: Report): string {
    match r.site
    case InDeclaration => "Type checking error in a declaration: " + Text(r.msg)
    case InClass => "Type checking error in a class declaration: " + Text(r.msg)
    case InMethod => "Type checking error in a method declaration: " + Text(r.msg)
  }

  /** The visitor's state: the superclass map and the errors reported so
      far. */
  datatype TcState = TcState(h: Hierarchy, log: seq<Report>)

  /** The state after a check, and the exception that escaped, if any. */
  datatype Checked = Checked(st: TcState, fault: Option<Fault>)

  /** e must type, as a subtype of t; msg is the error otherwise. */
  function Conforms(h: Hierarchy, e: Exp, t: Type, msg: Message): Option<Fault> {
    match TypeOf(h, e)
    case Failure(f) => Some(f)
    case Success(u) => if IsSubtype(h, u, t) then None else Some(TypeError(msg))
  }

  function DecCheck(s: TcState, d: Dec): Checked
    decreases d, 1
  {
    match d
    case Missing => Checked(s, Some(Incomplete))
    case Var(id, ty, exp) => Checked(s, Conforms(s.h, exp, ty, VarValue(id)))
    case Fun(_, _, _, _, _) => FunCheck(s, d)
    case Class(_, _, _, _, _, _) => ClassCheck(s, d)
  }

  /** A function: its declaration loop, then its body against its return
      type. */
  function FunCheck(s: TcState, d: Dec): Checked
    requires d.Fun?
    decreases d, 0
  {
    var c := DecsCheck(s, d.decs, InDeclaration);
    if c.fault.Some? then c
    else Checked(c.st, Conforms(c.st.h, d.body, d.retType, WrongReturnType(d.id)))
  }

  /** A declaration loop, turn by turn; a runtime exception ends it. */
  function DecsCheck(s: TcState, ds: seq<Dec>, site: Site): Checked
    decreases ds, 0
  {
    if ds == [] then Checked(s, None)
    else
      var c := DecsCheck(s, ds[..|ds| - 1], site);
      if c.fault.Some? then c else Caught(DecCheck(c.st, ds[|ds| - 1]), site)
  }

  /** One turn of a declaration loop: a type error is reported at `site`,
      an incomplete tree dropped, and a runtime exception kept. */
  function Caught(d: Checked, site: Site): (r: Checked)
    ensures r.st.h == d.st.h
    ensures r.fault.Some? <==> d.fault.Some? && d.fault.value.Crash?
    ensures r.fault.Some? ==> r == d
    ensures d.fault.Some? && d.fault.value.TypeError? ==> r.st.log == d.st.log + [Report(site, d.fault.value.msg)]
    ensures d.fault.None? || d.fault.value.Incomplete? ==> r.st == d.st
  {
    match d.fault
    case Some(TypeError(msg)) => Checked(d.st.(log := d.st.log + [Report(site, msg)]), None)
    case Some(Crash(_)) => d
    case _ => Checked(d.st, None)
  }

  /** A method: its declaration loop, then its body against its return type. */
  function MethodCheck(s: TcState, m: Method): Checked
    decreases m, 0
  {
    var c := DecsCheck(s, m.decs, InMethod);
    if c.fault.Some? then c
    else Checked(c.st, Conforms(c.st.h, m.body, m.retType, WrongReturnType(m.id)))
  }

  /** The method loop of a class: only type errors are caught there; an
      incomplete tree or a runtime exception leaves the class visit. */
  function MethodsCheck(s: TcState, ms: seq<Method>): Checked
    decreases ms, 0
  {
    if ms == [] then Checked(s, None)
    else
      var c := MethodsCheck(s, ms[..|ms| - 1]);
      if c.fault.Some? then c else CaughtInClass(MethodCheck(c.st, ms[|ms| - 1]))
  }

  /** One turn of the class method loop. */
  function CaughtInClass(d: Checked): (r: Checked)
    ensures r.st.h == d.st.h
    ensures r.fault.Some? <==> d.fault.Some? && !d.fault.value.TypeError?
    ensures r.fault.Some? ==> r == d
    ensures d.fault.Some? && d.fault.value.TypeError? ==> r.st.log == d.st.log + [Report(InClass, d.fault.value.msg)]
    ensures d.fault.None? ==> r == d
  {
    match d.fault
    case Some(TypeError(msg)) => Checked(d.st.(log := d.st.log + [Report(InClass, msg)]), None)
    case _ => d
  }

  /** A class: its superclass is recorded first, then its methods are
      checked, then (only when it has a superclass with an entry) its own
      fields and methods are compared with the superclass's. */
  function ClassCheck(s: TcState, d: Dec): Checked
    requires d.Class?
    decreases d, 0
  {
    var s1 := if d.superId.Some? then s.(h := s.h[d.id := d.superId.value]) else s;
    var c := MethodsCheck(s1, d.methods);
    if c.fault.Some? || d.superId.None? || d.superEntry.None? then c
    else Checked(c.st, OverrideCheck(c.st.h, d))
  }

  /** The casts of the class type and of the superclass entry's type, then
      the field comparisons, then the method comparisons. A class type slot
      left unset is a null reference, dereferenced only when a comparison
      needs it. */
  function OverrideCheck(h: Hierarchy, d: Dec): Option<Fault>
    requires d.Class? && d.superEntry.Some?
  {
    if d.classType.Some? && !d.classType.value.ClassType? then Some(Crash(ClassCast))
    else if !d.superEntry.value.ty.ClassType? then Some(Crash(ClassCast))
    else
      var sup := d.superEntry.value.ty;
      var cf := if d.classType.Some? then Some(d.classType.value.allFields) else None;
      var cm := if d.classType.Some? then Some(d.classType.value.allMethods) else None;
      match FieldOverrides(h, d.fields, cf, sup.allFields)
      case Some(f) => Some(f)
      case None => MethodOverrides(h, d.methods, cm, sup.allMethods, |sup.allMethods|)
  }

  /** One field: it sits at index -offset-1 of both field lists; only an
      index below the superclass's field count is compared. */
  function FieldOverride(h: Hierarchy, f: Field, cf: Option<seq<Type>>, sf: seq<Type>): Option<Fault> {
    var i := -f.offset - 1;
    if i >= |sf| then None
    else if cf.None? then Some(Crash(NullPointer))
    else if !(0 <= i < |cf.value|) then Some(Crash(IndexOutOfBounds))
    else if IsSubtype(h, cf.value[i], sf[i]) then None
    else Some(TypeError(WrongFieldType(f.id)))
  }

  function FieldOverrides(h: Hierarchy, fs: seq<Field>, cf: Option<seq<Type>>, sf: seq<Type>): Option<Fault> {
    if fs == [] then None
    else
      match FieldOverrides(h, fs[..|fs| - 1], cf, sf)
      case Some(f) => Some(f)
      case None => FieldOverride(h, fs[|fs| - 1], cf, sf)
  }

  /** One method: it sits at index `offset` of both method lists; only an
      offset below `bound` is compared. The class visit uses the superclass's
      method count as the bound. */
  function MethodOverride(h: Hierarchy, m: Method, cm: Option<seq<Type>>, sm: seq<Type>, bound: int): Option<Fault> {
    if m.offset >= bound then None
    else if cm.None? then Some(Crash(NullPointer))
    else if !(0 <= m.offset < |cm.value|) then Some(Crash(IndexOutOfBounds))
    else if m.offset >= |sm| then Some(Crash(IndexOutOfBounds))
    else if IsSubtype(h, cm.value[m.offset], sm[m.offset]) then None
    else Some(TypeError(WrongMethodType(m.id)))
  }

  function MethodOverrides(h: Hierarchy, ms: seq<Method>, cm: Option<seq<Type>>, sm: seq<Type>, bound: int): Option<Fault> {
    if ms == [] then None
    else
      match MethodOverrides(h, ms[..|ms| - 1], cm, sm, bound)
      case Some(f) => Some(f)
      case None => MethodOverride(h, ms[|ms| - 1], cm, sm, bound)
  }

  /** Field comparison passes exactly when every field that the superclass
      also has is at a valid index of the class's list with a subtype of the
      superclass's field type there. */
  lemma {:induction false} FieldOverridesSpec(h: Hierarchy, fs: seq<Field>, cf: seq<Type>, sf: seq<Type>)
    ensures FieldOverrides(h, fs, Some(cf), sf).None? <==>
      forall j :: 0 <= j < |fs| && -fs[j].offset - 1 < |sf| ==>
        0 <= -fs[j].offset - 1 < |cf| && IsSubtype(h, cf[-fs[j].offset - 1], sf[-fs[j].offset - 1])
  {
    if fs != [] {
      var k := |fs| - 1;
      FieldOverridesSpec(h, fs[..k], cf, sf);
      assert forall j :: 0 <= j < k ==> fs[..k][j] == fs[j];
    }
  }

  /** Method comparison with the superclass's method count as bound passes
      exactly when every method at an offset the superclass has is at a
      valid index of the class's list with a subtype of the superclass's
      method type there; it never indexes the superclass's list out of
      range. */
  lemma {:induction false} MethodOverridesSpec(h: Hierarchy, ms: seq<Method>, cm: seq<Type>, sm: seq<Type>)
    ensures MethodOverrides(h, ms, Some(cm), sm, |sm|).None? <==>
      forall j :: 0 <= j < |ms| && ms[j].offset < |sm| ==>
        0 <= ms[j].offset < |cm| && IsSubtype(h, cm[ms[j].offset], sm[ms[j].offset])
    ensures MethodOverrides(h, ms, Some(cm), sm, |sm|) == Some(Crash(IndexOutOfBounds)) ==>
      exists j :: 0 <= j < |ms| && ms[j].offset < |sm| && !(0 <= ms[j].offset < |cm|)
  {
    if ms != [] {
      var k := |ms| - 1;
      MethodOverridesSpec(h, ms[..k], cm, sm);
      assert forall j :: 0 <= j < k ==> ms[..k][j] == ms[j];
    }
  }

  /** As written, the method comparison is guarded by the superclass's FIELD
      count: a superclass with two fields and one method, and a subclass
      adding a second method at offset 1, make it read the superclass's
      method list at index 1. With the method count as the guard the new
      method is simply not compared. */
  lemma MethodGuardAsWritten()
    ensures var m := Method("g", [], [], IntType, IntLit(0), 1);
      var ft := ArrowType([], IntType);
      var cm := [MethodType(ft), MethodType(ft)];
      var sup := ClassType([IntType, IntType], [MethodType(ft)]);
      MethodOverrides(map[], [m], Some(cm), sup.allMethods, |sup.allFields|) == Some(Crash(IndexOutOfBounds))
      && MethodOverrides(map[], [m], Some(cm), sup.allMethods, |sup.allMethods|) == None
  {
  }

  // ---------------------------------------------------------------------------
  // Properties of the declaration checks

  /** A declaration loop never lets a type error or an incomplete tree
      escape: only a runtime exception ends it early. */
  lemma {:induction false} DecsCatch(s: TcState, ds: seq<Dec>, site: Site)
    ensures DecsCheck(s, ds, site).fault.None? || DecsCheck(s, ds, site).fault.value.Crash?
  {
    if ds != [] {
      DecsCatch(s, ds[..|ds| - 1], site);
    }
  }

  /** The class method loop catches type errors and nothing else. */
  lemma {:induction false} MethodsCatch(s: TcState, ms: seq<Method>)
    ensures MethodsCheck(s, ms).fault.None? || !MethodsCheck(s, ms).fault.value.TypeError?
  {
    if ms != [] {
      MethodsCatch(s, ms[..|ms| - 1]);
    }
  }

  /** One more turn of a declaration loop, for the loop of the visitor. */
  lemma DecsCheckStep(s: TcState, ds: seq<Dec>, site: Site, i: nat)
    requires i < |ds| && DecsCheck(s, ds[..i], site).fault.None?
    ensures DecsCheck(s, ds[..i + 1], site) == Caught(DecCheck(DecsCheck(s, ds[..i], site).st, ds[i]), site)
  {
    assert ds[..i + 1][..i] == ds[..i];
  }

  lemma MethodsCheckStep(s: TcState, ms: seq<Method>, i: nat)
    requires i < |ms| && MethodsCheck(s, ms[..i]).fault.None?
    ensures MethodsCheck(s, ms[..i + 1]) == CaughtInClass(MethodCheck(MethodsCheck(s, ms[..i]).st, ms[i]))
  {
    assert ms[..i + 1][..i] == ms[..i];
  }

  /** Once a runtime exception has escaped from the first k declarations,
      the later ones are not checked. */
  lemma {:induction false} DecsCheckPrefix(s: TcState, ds: seq<Dec>, site: Site, k: nat)
    requires k <= |ds| && DecsCheck(s, ds[..k], site).fault.Some?
    ensures DecsCheck(s, ds, site) == DecsCheck(s, ds[..k], site)
  {
    if k < |ds| {
      var n := |ds| - 1;
      assert ds[..n][..k] == ds[..k];
      DecsCheckPrefix(s, ds[..n], site, k);
    } else {
      assert ds[..k] == ds;
    }
  }

  lemma {:induction false} MethodsCheckPrefix(s: TcState, ms: seq<Method>, k: nat)
    requires k <= |ms| && MethodsCheck(s, ms[..k]).fault.Some?
    ensures MethodsCheck(s, ms) == MethodsCheck(s, ms[..k])
  {
    if k < |ms| {
      var n := |ms| - 1;
      assert ms[..n][..k] == ms[..k];
      MethodsCheckPrefix(s, ms[..n], k);
    } else {
      assert ms[..k] == ms;
    }
  }

  lemma {:induction false} FieldOverridesPrefix(h: Hierarchy, fs: seq<Field>, cf: Option<seq<Type>>, sf: seq<Type>, k: nat)
    requires k <= |fs| && FieldOverrides(h, fs[..k], cf, sf).Some?
    ensures FieldOverrides(h, fs, cf, sf) == FieldOverrides(h, fs[..k], cf, sf)
  {
    if k < |fs| {
      var n := |fs| - 1;
      assert fs[..n][..k] == fs[..k];
      FieldOverridesPrefix(h, fs[..n], cf, sf, k);
    } else {
      assert fs[..k] == fs;
    }
  }

  lemma {:induction false} MethodOverridesPrefix(h: Hierarchy, ms: seq<Method>, cm: Option<seq<Type>>, sm: seq<Type>, bound: int, k: nat)
    requires k <= |ms| && MethodOverrides(h, ms[..k], cm, sm, bound).Some?
    ensures MethodOverrides(h, ms, cm, sm, bound) == MethodOverrides(h, ms[..k], cm, sm, bound)
  {
    if k < |ms| {
      var n := |ms| - 1;
      assert ms[..n][..k] == ms[..k];
      MethodOverridesPrefix(h, ms[..n], cm, sm, bound, k);
    } else {
      assert ms[..k] == ms;
    }
  }

  /** The ids of the classes with a superclass declared in d, at any depth:
      the only keys the check of d can write into the superclass map. */
  function DecClassIds(d: Dec): set<string>
    decreases d, 1
  {
    match d
    case Fun(_, _, _, decs, _) => DecsClassIds(decs)
    case Class(id, sup, _, ms, _, _) => (if sup.Some? then {id} else {}) + MethodsClassIds(ms)
    case _ => {}
  }

  function DecsClassIds(ds: seq<Dec>): set<string>
    decreases ds, 0
  {
    if ds == [] then {} else DecsClassIds(ds[..|ds| - 1]) + DecClassIds(ds[|ds| - 1])
  }

  function MethodsClassIds(ms: seq<Method>): set<string>
    decreases ms, 0
  {
    if ms == [] then {} else MethodsClassIds(ms[..|ms| - 1]) + DecsClassIds(ms[|ms| - 1].decs)
  }

  /** s2 extends s: reports are only appended, the superclass map keeps
      every entry except possibly those of `ids`, and gains keys only from
      `ids`. */
  predicate Grows(s: TcState, s2: TcState, ids: set<string>) {
    s.log <= s2.log
    && s.h.Keys <= s2.h.Keys && s2.h.Keys <= s.h.Keys + ids
    && forall c :: c in s.h && c !in ids ==> s2.h[c] == s.h[c]
  }

  lemma GrowsTrans(s: TcState, s2: TcState, s3: TcState, a: set<string>, b: set<string>)
    requires Grows(s, s2, a) && Grows(s2, s3, b)
    ensures Grows(s, s3, a + b)
  {
  }

  /** Checking a declaration only appends reports and changes the
      superclass map only by recording the superclasses of the classes it
      declares. */
  lemma {:induction false} DecGrows(s: TcState, d: Dec)
    ensures Grows(s, DecCheck(s, d).st, DecClassIds(d))
    decreases d, 1
  {
    match d
    case Fun(_, _, _, decs, _) =>
      DecsGrows(s, decs, InDeclaration);
    case Class(id, sup, _, ms, _, _) =>
      var s1 := if sup.Some? then s.(h := s.h[id := sup.value]) else s;
      MethodsGrows(s1, ms);
      GrowsTrans(s, s1, MethodsCheck(s1, ms).st, if sup.Some? then {id} else {}, MethodsClassIds(ms));
    case _ =>
  }

  lemma {:induction false} DecsGrows(s: TcState, ds: seq<Dec>, site: Site)
    ensures Grows(s, DecsCheck(s, ds, site).st, DecsClassIds(ds))
    decreases ds, 0
  {
    if ds != [] {
      var k := |ds| - 1;
      DecsGrows(s, ds[..k], site);
      var c := DecsCheck(s, ds[..k], site);
      if c.fault.None? {
        DecGrows(c.st, ds[k]);
        var d := DecCheck(c.st, ds[k]);
        GrowsTrans(c.st, d.st, Caught(d, site).st, DecClassIds(ds[k]), {});
        GrowsTrans(s, c.st, Caught(d, site).st, DecsClassIds(ds[..k]), DecClassIds(ds[k]));
      }
    }
  }

  lemma {:induction false} MethodsGrows(s: TcState, ms: seq<Method>)
    ensures Grows(s, MethodsCheck(s, ms).st, MethodsClassIds(ms))
    decreases ms, 0
  {
    if ms != [] {
      var k := |ms| - 1;
      MethodsGrows(s, ms[..k]);
      var c := MethodsCheck(s, ms[..k]);
      if c.fault.None? {
        DecsGrows(c.st, ms[k].decs, InMethod);
        var d := MethodCheck(c.st, ms[k]);
        GrowsTrans(c.st, d.st, CaughtInClass(d).st, DecsClassIds(ms[k].decs), {});
        GrowsTrans(s, c.st, CaughtInClass(d).st, MethodsClassIds(ms[..k]), DecsClassIds(ms[k].decs));
      }
    }
  }

  /** A class with a superclass leaves that superclass recorded for its id,
      unless a class of the same name is declared inside its own methods. */
  lemma ClassRegistersSuper(s: TcState, d: Dec)
    requires d.Class? && d.superId.Some? && d.id !in MethodsClassIds(d.methods)
    ensures d.id in DecCheck(s, d).st.h && DecCheck(s, d).st.h[d.id] == d.superId.value
  {
    MethodsGrows(s.(h := s.h[d.id := d.superId.value]), d.methods);
  }

  /** Without a superclass (or without its entry) no field or method is
      compared, so a class never fails with a type error of its own. */
  lemma ClassWithoutSuperNeverTypeErrors(s: TcState, d: Dec)
    requires d.Class? && (d.superId.None? || d.superEntry.None?)
    ensures DecCheck(s, d).fault.None? || !DecCheck(s, d).fault.value.TypeError?
  {
    var s1 := if d.superId.Some? then s.(h := s.h[d.id := d.superId.value]) else s;
    MethodsCatch(s1, d.methods);
  }

  // ---------------------------------------------------------------------------
  // Programs

  datatype ProgChecked = ProgChecked(st: TcState, result: Result<Type, Fault>)

  /** A let-in program: its declaration loop, then the body under the map
      the declarations left. A program without declarations is its body. */
  function ProgCheck(s: TcState, p: Prog): (r: ProgChecked)
    ensures p.LetIn? && DecsCheck(s, p.decs, InDeclaration).fault.None? ==>
      r == ProgChecked(DecsCheck(s, p.decs, InDeclaration).st, TypeOf(DecsCheck(s, p.decs, InDeclaration).st.h, p.exp))
    ensures p.LetIn? && DecsCheck(s, p.decs, InDeclaration).fault.Some? ==>
      r.result.Failure? && r.result.error.Crash?
    ensures p.Bare? ==> r == ProgChecked(s, TypeOf(s.h, p.exp))
  {
    match p
    case LetIn(decs, exp) =>
      var c := DecsCheck(s, decs, InDeclaration);
      DecsCatch(s, decs, InDeclaration);
      if c.fault.Some? then ProgChecked(c.st, Failure(c.fault.value))
      else ProgChecked(c.st, TypeOf(c.st.h, exp))
    case Bare(exp) => ProgChecked(s, TypeOf(s.h, exp))
  }

  // ---------------------------------------------------------------------------
  // The visitor

  /** The comparison loop over a class's own fields. */
  method CheckFieldOverrides(h: Hierarchy, fs: seq<Field>, cf: Option<seq<Type>>, sf: seq<Type>) returns (r: Option<Fault>)
    ensures r == FieldOverrides(h, fs, cf, sf)
  {
    var i := 0;
    while i < |fs|
      invariant 0 <= i <= |fs|
      invariant FieldOverrides(h, fs[..i], cf, sf) == None
    {
      assert fs[..i + 1][..i] == fs[..i];
      r := FieldOverride(h, fs[i], cf, sf);
      if r.Some? {
        FieldOverridesPrefix(h, fs, cf, sf, i + 1);
        return;
      }
      i := i + 1;
    }
    assert fs[..i] == fs;
    r := None;
  }

  /** The comparison loop over a class's own methods. */
  method CheckMethodOverrides(h: Hierarchy, ms: seq<Method>, cm: Option<seq<Type>>, sm: seq<Type>, bound: int)
    returns (r: Option<Fault>)
    ensures r == MethodOverrides(h, ms, cm, sm, bound)
  {
    var i := 0;
    while i < |ms|
      invariant 0 <= i <= |ms|
      invariant MethodOverrides(h, ms[..i], cm, sm, bound) == None
    {
      assert ms[..i + 1][..i] == ms[..i];
      r := MethodOverride(h, ms[i], cm, sm, bound);
      if r.Some? {
        MethodOverridesPrefix(h, ms, cm, sm, bound, i + 1);
        return;
      }
      i := i + 1;
    }
    assert ms[..i] == ms;
    r := None;
  }

  /** The declaration visitor: the superclass map it writes and the type
      errors it reports. */
  class TypeChecker {
    var superType: Hierarchy
    var log: seq<Report>

    function State(): TcState
      reads this
    {
      TcState(superType, log)
    }

    constructor (h: Hierarchy)
      ensures State() == TcState(h, [])
    {
      superType := h;
      log := [];
    }

    method VisitDec(d: Dec) returns (fault: Option<Fault>)
      modifies this
      ensures DecCheck(old(State()), d) == Checked(State(), fault)
      decreases d, 2
    {
      match d
      case Missing =>
        fault := Some(Incomplete);
      case Var(id, ty, exp) =>
        fault := Conforms(superType, exp, ty, VarValue(id));
      case Fun(_, _, _, _, _) =>
        fault := VisitFun(d);
      case Class(_, _, _, _, _, _) =>
        fault := VisitClass(d);
    }

    method VisitFun(d: Dec) returns (fault: Option<Fault>)
      requires d.Fun?
      modifies this
      ensures FunCheck(old(State()), d) == Checked(State(), fault)
      decreases d, 1
    {
      fault := VisitDecs(d.decs, InDeclaration);
      if fault.None? {
        fault := Conforms(superType, d.body, d.retType, WrongReturnType(d.id));
      }
    }

    /** One turn of a declaration loop: the declaration's visit inside the
        try/catch. */
    method VisitCaught(d: Dec, site: Site) returns (fault: Option<Fault>)
      modifies this
      ensures Caught(DecCheck(old(State()), d), site) == Checked(State(), fault)
      decreases d, 3
    {
      fault := VisitDec(d);
      if fault.Some? && fault.value.TypeError? {
        log := log + [Report(site, fault.value.msg)];
        fault := None;
      } else if fault.Some? && fault.value.Incomplete? {
        fault := None;
      }
    }

    method VisitDecs(ds: seq<Dec>, site: Site) returns (fault: Option<Fault>)
      modifies this
      ensures DecsCheck(old(State()), ds, site) == Checked(State(), fault)
      decreases ds, 0
    {
      ghost var s0 := State();
      var i := 0;
      while i < |ds|
        invariant 0 <= i <= |ds|
        invariant DecsCheck(s0, ds[..i], site) == Checked(State(), None)
        decreases |ds| - i
      {
        DecsCheckStep(s0, ds, site, i);
        fault := VisitCaught(ds[i], site);
        if fault.Some? {
          DecsCheckPrefix(s0, ds, site, i + 1);
          return;
        }
        i := i + 1;
      }
      assert ds[..i] == ds;
      fault := None;
    }

    method VisitMethod(m: Method) returns (fault: Option<Fault>)
      modifies this
      ensures MethodCheck(old(State()), m) == Checked(State(), fault)
      decreases m, 0
    {
      fault := VisitDecs(m.decs, InMethod);
      if fault.None? {
        fault := Conforms(superType, m.body, m.retType, WrongReturnType(m.id));
      }
    }

    /** One turn of the class method loop. */
    method VisitCaughtInClass(m: Method) returns (fault: Option<Fault>)
      modifies this
      ensures CaughtInClass(MethodCheck(old(State()), m)) == Checked(State(), fault)
      decreases m, 1
    {
      fault := VisitMethod(m);
      if fault.Some? && fault.value.TypeError? {
        log := log + [Report(InClass, fault.value.msg)];
        fault := None;
      }
    }

    method VisitMethods(ms: seq<Method>) returns (fault: Option<Fault>)
      modifies this
      ensures MethodsCheck(old(State()), ms) == Checked(State(), fault)
      decreases ms, 0
    {
      ghost var s0 := State();
      var i := 0;
      while i < |ms|
        invariant 0 <= i <= |ms|
        invariant MethodsCheck(s0, ms[..i]) == Checked(State(), None)
        decreases |ms| - i
      {
        MethodsCheckStep(s0, ms, i);
        fault := VisitCaughtInClass(ms[i]);
        if fault.Some? {
          MethodsCheckPrefix(s0, ms, i + 1);
          return;
        }
        i := i + 1;
      }
      assert ms[..i] == ms;
      fault := None;
    }

    method VisitClass(d: Dec) returns (fault: Option<Fault>)
      requires d.Class?
      modifies this
      ensures ClassCheck(old(State()), d) == Checked(State(), fault)
      decreases d, 1
    {
      if d.superId.Some? {
        superType := superType[d.id := d.superId.value];
      }
      fault := VisitMethods(d.methods);
      if fault.Some? || d.superId.None? || d.superEntry.None? {
        return;
      }
      if d.classType.Some? && !d.classType.value.ClassType? {
        fault := Some(Crash(ClassCast));
        return;
      }
      var sup := d.superEntry.value.ty;
      if !sup.ClassType? {
        fault := Some(Crash(ClassCast));
        return;
      }
      var cf, cm := None, None;
      if d.classType.Some? {
        cf, cm := Some(d.classType.value.allFields), Some(d.classType.value.allMethods);
      }
      fault := CheckFieldOverrides(superType, d.fields, cf, sup.allFields);
      if fault.None? {
        fault := CheckMethodOverrides(superType, d.methods, cm, sup.allMethods, |sup.allMethods|);
      }
    }

    method VisitProg(p: Prog) returns (result: Result<Type, Fault>)
      modifies this
      ensures ProgCheck(old(State()), p) == ProgChecked(State(), result)
    {
      match p
      case LetIn(decs, exp) =>
        var fault := VisitDecs(decs, InDeclaration);
        if fault.Some? {
          result := Failure(fault.value);
        } else {
          result := TypeOf(superType, exp);
        }
      case Bare(exp) =>
        result := TypeOf(superType, exp);
    }
  }
}
