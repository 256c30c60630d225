/** The symbol-table pass: a stack of scopes, one per nesting level, with the
    global scope at index 0. Declarations enter the innermost scope; every
    identifier and call is looked up innermost-first and annotated with the
    entry found and the nesting level of the use.

    The pure functions below (`LookupFrom`, `Resolve`, `DecEffect`,
    `DecsEffect`, `ProgEffect`) say what the pass computes; the class
    `SymbolTableVisitor` is the pass itself, a visitor whose fields are updated
    step by step, and each of its methods is proved to compute exactly what the
    corresponding function says. */
module SymbolTable {
  import opened Wrappers
  import opened Ast

  /** One scope: name -> entry. */
  type Scope = map<string, Entry>

  /** Lookup from scope j down to scope 0: the innermost declaration of id, or
      None when no scope at or below j declares it. */
  function LookupFrom(scopes: seq<Scope>, j: int, id: string): (r: Option<Entry>)
    requires j < |scopes|
    ensures r.Some? <==> exists k :: 0 <= k <= j && id in scopes[k]
    ensures r.Some? ==>
      exists k :: 0 <= k <= j && id in scopes[k] && r.value == scopes[k][id]
        && forall k' :: k < k' <= j ==> id !in scopes[k']
    decreases j + 1
  {
    if j < 0 then None
    else if id in scopes[j] then Some(scopes[j][id])
    else LookupFrom(scopes, j - 1, id)
  }

  // ---------------------------------------------------------------------------
  // Expressions

  /** The expression after the pass, with `scopes` the stack at the time of the
      visit (the current nesting level is the top index). A use whose name is
      found gets that entry and the current level; one that is not found keeps
      its slots. Object constructions and calls on objects are not visited. */
  function Resolve(scopes: seq<Scope>, e: Exp): Exp
    requires scopes != []
  {
    var nl := |scopes| - 1;
    match e
    case Id(id, _, _) =>
      (match LookupFrom(scopes, nl, id)
       case Some(x) => Id(id, Some(x), nl)
       case None => e)
    case Call(id, args, en, n) =>
      var args' := ResolveAll(scopes, args);
      (match LookupFrom(scopes, nl, id)
       case Some(x) => Call(id, args', Some(x), nl)
       case None => Call(id, args', en, n))
    case If(c, t, f) => If(Resolve(scopes, c), Resolve(scopes, t), Resolve(scopes, f))
    case Bin(op, l, r) => Bin(op, Resolve(scopes, l), Resolve(scopes, r))
    case Not(x) => Not(Resolve(scopes, x))
    case Print(x) => Print(Resolve(scopes, x))
    case _ => e
  }

  function ResolveAll(scopes: seq<Scope>, es: seq<Exp>): (r: seq<Exp>)
    requires scopes != []
    ensures |r| == |es|
  {
    if es == [] then [] else ResolveAll(scopes, es[..|es| - 1]) + [Resolve(scopes, es[|es| - 1])]
  }

  /** The number of identifiers and calls in e whose name no scope declares:
      each is one "not declared" error. */
  function Unresolved(scopes: seq<Scope>, e: Exp): nat
    requires scopes != []
  {
    var nl := |scopes| - 1;
    match e
    case Id(id, _, _) => if LookupFrom(scopes, nl, id).None? then 1 else 0
    case Call(id, args, _, _) =>
      (if LookupFrom(scopes, nl, id).None? then 1 else 0) + UnresolvedAll(scopes, args)
    case If(c, t, f) => Unresolved(scopes, c) + Unresolved(scopes, t) + Unresolved(scopes, f)
    case Bin(_, l, r) => Unresolved(scopes, l) + Unresolved(scopes, r)
    case Not(x) => Unresolved(scopes, x)
    case Print(x) => Unresolved(scopes, x)
    case _ => 0
  }

  function UnresolvedAll(scopes: seq<Scope>, es: seq<Exp>): nat
    requires scopes != []
  {
    if es == [] then 0 else UnresolvedAll(scopes, es[..|es| - 1]) + Unresolved(scopes, es[|es| - 1])
  }

  /** Resolution only fills annotation slots: names, operators, children and
      their order are those of the input. */
  lemma {:induction false} ResolveKeepsShape(scopes: seq<Scope>, e: Exp)
    requires scopes != []
    ensures Erase(Resolve(scopes, e)) == Erase(e)
    decreases e, 1
  {
    match e
    case Call(id, args, en, n) =>
      ResolveAllKeepsShape(scopes, args);
    case If(c, t, f) =>
      ResolveKeepsShape(scopes, c);
      ResolveKeepsShape(scopes, t);
      ResolveKeepsShape(scopes, f);
    case Bin(op, l, r) =>
      ResolveKeepsShape(scopes, l);
      ResolveKeepsShape(scopes, r);
    case Not(x) =>
      ResolveKeepsShape(scopes, x);
    case Print(x) =>
      ResolveKeepsShape(scopes, x);
    case _ =>
  }

  lemma {:induction false} ResolveAllKeepsShape(scopes: seq<Scope>, es: seq<Exp>)
    requires scopes != []
    ensures EraseAll(ResolveAll(scopes, es)) == EraseAll(es)
    decreases es, 0
  {
    if es != [] {
      var init := es[..|es| - 1];
      ResolveAllKeepsShape(scopes, init);
      ResolveKeepsShape(scopes, es[|es| - 1]);
      var r := ResolveAll(scopes, es);
      assert r[..|r| - 1] == ResolveAll(scopes, init);
    }
  }

  /** On a tree fresh from the parser (no slot filled) without objects, the
      pass annotates every use exactly when it reports no "not declared"
      error. */
  lemma {:induction false} ResolvedIffNoErrors(scopes: seq<Scope>, e: Exp)
    requires scopes != [] && Erase(e) == e && !HasObjects(e)
    ensures Resolved(Resolve(scopes, e)) <==> Unresolved(scopes, e) == 0
    decreases e, 1
  {
    match e
    case Call(id, args, en, n) =>
      assert EraseAll(args) == args;
      ResolvedAllIffNoErrors(scopes, args);
    case If(c, t, f) =>
      ResolvedIffNoErrors(scopes, c);
      ResolvedIffNoErrors(scopes, t);
      ResolvedIffNoErrors(scopes, f);
    case Bin(op, l, r) =>
      ResolvedIffNoErrors(scopes, l);
      ResolvedIffNoErrors(scopes, r);
    case Not(x) =>
      ResolvedIffNoErrors(scopes, x);
    case Print(x) =>
      ResolvedIffNoErrors(scopes, x);
    case _ =>
  }

  lemma {:induction false} ResolvedAllIffNoErrors(scopes: seq<Scope>, es: seq<Exp>)
    requires scopes != [] && EraseAll(es) == es && !AnyHasObjects(es)
    ensures AllResolved(ResolveAll(scopes, es)) <==> UnresolvedAll(scopes, es) == 0
    decreases es, 0
  {
    if es != [] {
      var init := es[..|es| - 1];
      var last := es[|es| - 1];
      assert EraseAll(init) == init && Erase(last) == last by {
        assert EraseAll(es)[..|es| - 1] == EraseAll(init);
        assert EraseAll(es)[|es| - 1] == Erase(last);
      }
      assert !AnyHasObjects(init) by {
        forall i | 0 <= i < |init| ensures !HasObjects(init[i]) {
          assert init[i] == es[i];
        }
      }
      assert !HasObjects(last);
      ResolvedAllIffNoErrors(scopes, init);
      ResolvedIffNoErrors(scopes, last);
      var r := ResolveAll(scopes, es);
      assert r[..|r| - 1] == ResolveAll(scopes, init);
      assert AllResolved(r) <==> AllResolved(ResolveAll(scopes, init)) && Resolved(Resolve(scopes, last)) by {
        if AllResolved(ResolveAll(scopes, init)) && Resolved(Resolve(scopes, last)) {
          forall i | 0 <= i < |r| ensures Resolved(r[i]) {
            if i < |r| - 1 {
              assert r[i] == ResolveAll(scopes, init)[i];
            }
          }
        }
        if AllResolved(r) {
          forall i | 0 <= i < |init| ensures Resolved(ResolveAll(scopes, init)[i]) {
            assert ResolveAll(scopes, init)[i] == r[i];
          }
          assert Resolve(scopes, last) == r[|r| - 1];
        }
      }
    }
  }

  // ---------------------------------------------------------------------------
  // Declarations

  /** The pass's own state: the scope stack (its length is the nesting level
      plus one), the class table (class name -> its virtual table), the next
      local offset and the error count. */
  datatype StState = StState(symTable: seq<Scope>, classTable: map<string, Scope>, decOffset: int, stErrors: nat)

  /** Outcome of visiting one declaration: the state after it, the declaration
      with its expressions annotated, and false when the visit raised. */
  datatype DecVisited = DecVisited(st: StState, dec: Dec, ok: bool)

  /** Outcome of visiting a list of declarations. */
  datatype DecsVisited = DecsVisited(st: StState, decs: seq<Dec>, ok: bool)

  /** Enters id with type ty in the innermost scope at the current level and
      offset, then moves the offset down by one. A name already in that scope
      is overwritten and counted as one error. */
  function Declare(s: StState, id: string, ty: Type): StState
    requires s.symTable != []
  {
    var nl := |s.symTable| - 1;
    var top := s.symTable[nl];
    s.(symTable := s.symTable[nl := top[id := Entry(nl, ty, s.decOffset)]],
       decOffset := s.decOffset - 1,
       stErrors := s.stErrors + (if id in top then 1 else 0))
  }

  /** After a declaration the name resolves to the new entry at the current
      level, every other name resolves as before, and the error count grows by
      one exactly when the innermost scope already had the name. */
  lemma DeclareShadows(s: StState, id: string, ty: Type, x: string)
    requires s.symTable != []
    ensures var nl := |s.symTable| - 1; var s' := Declare(s, id, ty);
      && |s'.symTable| == |s.symTable|
      && LookupFrom(s'.symTable, nl, id) == Some(Entry(nl, ty, s.decOffset))
      && (x != id ==> LookupFrom(s'.symTable, nl, x) == LookupFrom(s.symTable, nl, x))
      && s'.decOffset == s.decOffset - 1
      && s'.stErrors == s.stErrors + (if id in s.symTable[nl] then 1 else 0)
  {
    var nl := |s.symTable| - 1;
    var s' := Declare(s, id, ty);
    if x != id {
      forall k | 0 <= k <= nl ensures (x in s'.symTable[k]) == (x in s.symTable[k]) && (x in s.symTable[k] ==> s'.symTable[k][x] == s.symTable[k][x]) {
      }
      LookupAgree(s'.symTable, s.symTable, nl, x);
    }
  }

  /** Two stacks that agree on name x at every level from j down resolve x alike. */
  lemma {:induction false} LookupAgree(a: seq<Scope>, b: seq<Scope>, j: int, x: string)
    requires j < |a| && j < |b|
    requires forall k :: 0 <= k <= j ==> (x in a[k]) == (x in b[k]) && (x in a[k] ==> a[k][x] == b[k][x])
    ensures LookupFrom(a, j, x) == LookupFrom(b, j, x)
    decreases j + 1
  {
    if j >= 0 && x !in a[j] {
      LookupAgree(a, b, j - 1, x);
    }
  }

  /** The scope of a function's parameters at level nl: the i-th parameter
      (from 0) gets offset i + 1; a repeated name keeps the later parameter and
      counts one error. */
  function ParsScope(nl: int, pars: seq<Par>): (Scope, nat)
  {
    if pars == [] then (map[], 0)
    else
      var prev := ParsScope(nl, pars[..|pars| - 1]);
      var p := pars[|pars| - 1];
      (prev.0[p.id := Entry(nl, p.ty, |pars|)], prev.1 + (if p.id in prev.0 then 1 else 0))
  }

  function ParIds(pars: seq<Par>): set<string> {
    set i | 0 <= i < |pars| :: pars[i].id
  }

  lemma ParIdsSnoc(pars: seq<Par>)
    requires pars != []
    ensures ParIds(pars) == ParIds(pars[..|pars| - 1]) + {pars[|pars| - 1].id}
  {
    var init := pars[..|pars| - 1];
    forall x | x in ParIds(pars) ensures x in ParIds(init) + {pars[|pars| - 1].id} {
      var i :| 0 <= i < |pars| && pars[i].id == x;
      if i < |pars| - 1 { assert init[i] == pars[i]; }
    }
    forall x | x in ParIds(init) ensures x in ParIds(pars) {
      var i :| 0 <= i < |init| && init[i].id == x;
      assert pars[i] == init[i];
    }
  }

  /** The parameter scope has one key per distinct parameter name, and the
      error count is the number of repeated names. */
  lemma {:induction false} ParsScopeKeys(nl: int, pars: seq<Par>)
    ensures ParsScope(nl, pars).0.Keys == ParIds(pars)
    ensures ParsScope(nl, pars).1 == |pars| - |ParIds(pars)|
  {
    if pars != [] {
      ParsScopeKeys(nl, pars[..|pars| - 1]);
      ParIdsSnoc(pars);
    }
  }

  /** Each parameter that is the last of its name maps to its own entry at
      level nl, with offset its position (from 0) plus one. */
  lemma {:induction false} ParsScopeOffsets(nl: int, pars: seq<Par>, i: int)
    requires 0 <= i < |pars|
    requires forall j :: i < j < |pars| ==> pars[j].id != pars[i].id
    ensures pars[i].id in ParsScope(nl, pars).0 && ParsScope(nl, pars).0[pars[i].id] == Entry(nl, pars[i].ty, i + 1)
  {
    if i < |pars| - 1 {
      var init := pars[..|pars| - 1];
      assert init[i] == pars[i];
      forall j | i < j < |init| ensures init[j].id != init[i].id {
        assert init[j] == pars[j];
      }
      ParsScopeOffsets(nl, init, i);
    }
  }

  /** A class's virtual table as its fields build it, at level nl, with the
      field types as the class type lists them and the number of repeated field
      names. Every field gets offset -1, and each field type is inserted at the
      front of the list. */
  datatype FieldsBuilt = FieldsBuilt(table: Scope, allFields: seq<Type>, errors: nat)

  function FieldsEffect(nl: int, fields: seq<Field>): FieldsBuilt {
    if fields == [] then FieldsBuilt(map[], [], 0)
    else
      var prev := FieldsEffect(nl, fields[..|fields| - 1]);
      var f := fields[|fields| - 1];
      FieldsBuilt(prev.table[f.id := Entry(nl, f.ty, -1)], [f.ty] + prev.allFields,
                  prev.errors + (if f.id in prev.table then 1 else 0))
  }

  function FieldIds(fields: seq<Field>): set<string> {
    set i | 0 <= i < |fields| :: fields[i].id
  }

  lemma FieldIdsSnoc(fields: seq<Field>)
    requires fields != []
    ensures FieldIds(fields) == FieldIds(fields[..|fields| - 1]) + {fields[|fields| - 1].id}
  {
    var init := fields[..|fields| - 1];
    forall x | x in FieldIds(fields) ensures x in FieldIds(init) + {fields[|fields| - 1].id} {
      var i :| 0 <= i < |fields| && fields[i].id == x;
      if i < |fields| - 1 { assert init[i] == fields[i]; }
    }
    forall x | x in FieldIds(init) ensures x in FieldIds(fields) {
      var i :| 0 <= i < |init| && init[i].id == x;
      assert fields[i] == init[i];
    }
  }

  /** The virtual table has one entry per distinct field name, and the error
      count is the number of repeated names. */
  lemma {:induction false} FieldsEffectKeys(nl: int, fields: seq<Field>)
    ensures FieldsEffect(nl, fields).table.Keys == FieldIds(fields)
    ensures FieldsEffect(nl, fields).errors == |fields| - |FieldIds(fields)|
  {
    if fields != [] {
      FieldsEffectKeys(nl, fields[..|fields| - 1]);
      FieldIdsSnoc(fields);
    }
  }

  /** Every field entry sits at level nl with offset -1: the offset counter of
      the class visit is never moved. */
  lemma {:induction false} FieldsEffectOffsets(nl: int, fields: seq<Field>)
    ensures forall x :: x in FieldsEffect(nl, fields).table ==>
      FieldsEffect(nl, fields).table[x].nl == nl && FieldsEffect(nl, fields).table[x].offset == -1
  {
    if fields != [] {
      FieldsEffectOffsets(nl, fields[..|fields| - 1]);
    }
  }

  /** The class type lists the field types in reverse declaration order. */
  lemma {:induction false} FieldsEffectReversed(nl: int, fields: seq<Field>)
    ensures |FieldsEffect(nl, fields).allFields| == |fields|
    ensures forall i :: 0 <= i < |fields| ==> FieldsEffect(nl, fields).allFields[i] == fields[|fields| - 1 - i].ty
  {
    if fields != [] {
      var init := fields[..|fields| - 1];
      FieldsEffectReversed(nl, init);
      var all := FieldsEffect(nl, fields).allFields;
      forall i | 0 <= i < |fields| ensures all[i] == fields[|fields| - 1 - i].ty {
        if i > 0 {
          assert all[i] == FieldsEffect(nl, init).allFields[i - 1];
          assert init[|init| - 1 - (i - 1)] == fields[|fields| - 1 - i];
        }
      }
    }
  }

  /** The method loop of a class visit: the method types as the class type
      lists them, the number of repeated method names, and false when the loop
      raises. For each method the source reads the method's own entry in the
      virtual table, which only fields have entered: a missing entry is a null
      dereference, an entry without a method type a failed cast, and an offset
      outside the list an out-of-range insertion. */
  datatype MethodsBuilt = MethodsBuilt(allMethods: seq<Type>, errors: nat, ok: bool)

  function MethodIds(ms: seq<Method>): seq<string> {
    if ms == [] then [] else MethodIds(ms[..|ms| - 1]) + [ms[|ms| - 1].id]
  }

  function MethodsEffect(table: Scope, ms: seq<Method>): MethodsBuilt {
    if ms == [] then MethodsBuilt([], 0, true)
    else
      var prev := MethodsEffect(table, ms[..|ms| - 1]);
      var m := ms[|ms| - 1];
      var errors := prev.errors + (if m.id in MethodIds(ms[..|ms| - 1]) then 1 else 0);
      if !prev.ok then prev
      else if m.id !in table || !table[m.id].ty.MethodType? then MethodsBuilt(prev.allMethods, errors, false)
      else if !(0 <= m.offset <= |prev.allMethods|) then MethodsBuilt(prev.allMethods, errors, false)
      else MethodsBuilt(prev.allMethods[..m.offset] + [table[m.id].ty.fun] + prev.allMethods[m.offset..], errors, true)
  }

  /** Once the method loop has raised, later methods change nothing. */
  lemma {:induction false} MethodsEffectPrefix(table: Scope, ms: seq<Method>, k: nat)
    requires k <= |ms|
    ensures MethodsEffect(table, ms).ok ==> MethodsEffect(table, ms[..k]).ok
    decreases |ms|
  {
    if k < |ms| {
      assert ms[..|ms| - 1][..k] == ms[..k];
      MethodsEffectPrefix(table, ms[..|ms| - 1], k);
    } else {
      assert ms[..k] == ms;
    }
  }

  function MethodIdSet(ms: seq<Method>): set<string> {
    set i | 0 <= i < |ms| :: ms[i].id
  }

  lemma MethodIdSetSnoc(ms: seq<Method>)
    requires ms != []
    ensures MethodIdSet(ms) == MethodIdSet(ms[..|ms| - 1]) + {ms[|ms| - 1].id}
  {
    var init := ms[..|ms| - 1];
    forall x | x in MethodIdSet(ms) ensures x in MethodIdSet(init) + {ms[|ms| - 1].id} {
      var i :| 0 <= i < |ms| && ms[i].id == x;
      if i < |ms| - 1 { assert init[i] == ms[i]; }
    }
    forall x | x in MethodIdSet(init) ensures x in MethodIdSet(ms) {
      var i :| 0 <= i < |init| && init[i].id == x;
      assert ms[i] == init[i];
    }
  }

  /** The list of method names the loop has seen holds exactly the names of
      the methods visited. */
  lemma {:induction false} MethodIdsMembers(ms: seq<Method>)
    ensures forall x :: x in MethodIds(ms) <==> x in MethodIdSet(ms)
  {
    if ms != [] {
      MethodIdsMembers(ms[..|ms| - 1]);
      MethodIdSetSnoc(ms);
    }
  }

  /** When the method loop does not raise, it counts one error per repeated
      method name. */
  lemma {:induction false} MethodsEffectErrors(table: Scope, ms: seq<Method>)
    requires MethodsEffect(table, ms).ok
    ensures MethodsEffect(table, ms).errors == |ms| - |MethodIdSet(ms)|
  {
    if ms != [] {
      var init := ms[..|ms| - 1];
      MethodsEffectPrefix(table, ms, |ms| - 1);
      assert ms[..|ms| - 1] == init;
      MethodsEffectErrors(table, init);
      MethodIdsMembers(init);
      MethodIdSetSnoc(ms);
    }
  }

  /** When no field has a method type, a class with at least one method makes
      the pass raise: the virtual table never holds an entry it can read. */
  lemma ClassWithMethodsRaises(table: Scope, ms: seq<Method>)
    requires forall x :: x in table ==> !table[x].ty.MethodType?
    requires ms != []
    ensures !MethodsEffect(table, ms).ok
  {
    MethodsEffectPrefix(table, ms, 1);
    assert ms[..1][..0] == [];
  }

  /** The effect of one declaration on the pass's state. */
  function DecEffect(s: StState, d: Dec): (r: DecVisited)
    requires s.symTable != []
    ensures r.ok ==>
      |r.st.symTable| == |s.symTable| && r.st.symTable[..|s.symTable| - 1] == s.symTable[..|s.symTable| - 1]
    ensures r.st.stErrors >= s.stErrors
    decreases d, 2
  {
    var nl := |s.symTable| - 1;
    match d
    case Missing => DecVisited(s, d, true)
    case Var(id, ty, exp) =>
      var s1 := s.(stErrors := s.stErrors + Unresolved(s.symTable, exp));
      DecVisited(Declare(s1, id, ty), Var(id, ty, Resolve(s.symTable, exp)), true)
    case Fun(_, _, _, _, _) => FunEffect(s, d)
    case Class(_, _, _, _, _, _) => ClassEffect(s, d)
  }

  /** A variable's initialiser is visited before the variable is entered: it
      is resolved against the stack as it was, its undeclared names are
      counted, and then the name is entered at the current level and offset,
      one more error when the innermost scope already had it. */
  lemma VarInitialiserFirst(s: StState, id: string, ty: Type, exp: Exp)
    requires s.symTable != []
    ensures var r := DecEffect(s, Var(id, ty, exp)); var nl := |s.symTable| - 1;
      && r.ok
      && r.dec == Var(id, ty, Resolve(s.symTable, exp))
      && r.st.stErrors == s.stErrors + Unresolved(s.symTable, exp) + (if id in s.symTable[nl] then 1 else 0)
      && LookupFrom(r.st.symTable, nl, id) == Some(Entry(nl, ty, s.decOffset))
  {
    var s1 := s.(stErrors := s.stErrors + Unresolved(s.symTable, exp));
    DeclareShadows(s1, id, ty, id);
  }

  /** `var x = x` where no scope declares x: the initialiser's x is not
      annotated and counts one error, and x is declared afterwards. */
  lemma VarSelfReference(s: StState, id: string, ty: Type)
    requires s.symTable != [] && LookupFrom(s.symTable, |s.symTable| - 1, id).None?
    ensures var r := DecEffect(s, Var(id, ty, Id(id, None, 0)));
      && r.dec.exp == Id(id, None, 0)
      && r.st.stErrors == s.stErrors + 1
      && LookupFrom(r.st.symTable, |s.symTable| - 1, id).Some?
  {
    VarInitialiserFirst(s, id, ty, Id(id, None, 0));
  }

  /** Entering a function declaration: its entry is declared in the current
      scope, and a new scope holding its parameters is pushed with the offset
      counter restarted at -2. */
  function FunEnter(s: StState, d: Dec): (r: StState)
    requires s.symTable != [] && d.Fun?
    ensures |r.symTable| == |s.symTable| + 1
    ensures r.decOffset == -2
  {
    var s1 := Declare(s, d.id, ArrowType(ParTypes(d.pars), d.retType));
    var ps := ParsScope(|s.symTable|, d.pars);
    s1.(symTable := s1.symTable + [ps.0], decOffset := -2, stErrors := s1.stErrors + ps.1)
  }

  /** Leaving a function declaration after its body: the function's scope is
      dropped and the outer offset counter, one below its value on entry, is
      restored. */
  function FunExit(s: StState, inner: StState, body: Exp): StState
    requires 1 <= |s.symTable| < |inner.symTable|
  {
    inner.(symTable := inner.symTable[..|s.symTable|], decOffset := s.decOffset - 1,
           stErrors := inner.stErrors + Unresolved(inner.symTable, body))
  }

  /** The effect of a function declaration: enter, visit the local
      declarations and the body in the new scope, leave. */
  function FunEffect(s: StState, d: Dec): (r: DecVisited)
    requires s.symTable != [] && d.Fun?
    ensures r.ok ==>
      |r.st.symTable| == |s.symTable| && r.st.symTable[..|s.symTable| - 1] == s.symTable[..|s.symTable| - 1]
    ensures r.st.stErrors >= s.stErrors
    decreases d, 1
  {
    var s2 := FunEnter(s, d);
    var inner := DecsEffect(s2, d.decs);
    if !inner.ok then DecVisited(inner.st, d, false)
    else
      var s3 := FunExit(s, inner.st, d.body);
      assert s3.symTable == Declare(s, d.id, ArrowType(ParTypes(d.pars), d.retType)).symTable by {
        assert s2.symTable[..|s.symTable|] == Declare(s, d.id, ArrowType(ParTypes(d.pars), d.retType)).symTable;
      }
      DecVisited(s3, Fun(d.id, d.retType, d.pars, inner.decs, Resolve(inner.st.symTable, d.body)), true)
  }

  /** The effect of a class declaration: the class's (never entered) entry
      takes one offset, its fields fill a fresh virtual table one level down,
      the table is recorded in the class table, and the method loop runs over
      that table. */
  function ClassEffect(s: StState, d: Dec): (r: DecVisited)
    requires s.symTable != [] && d.Class?
  {
    var fb := FieldsEffect(|s.symTable|, d.fields);
    var mb := MethodsEffect(fb.table, d.methods);
    DecVisited(s.(classTable := s.classTable[d.id := fb.table], decOffset := s.decOffset - 1,
                  stErrors := s.stErrors + fb.errors + mb.errors), d, mb.ok)
  }

  /** The effect of a list of declarations, visited in order; the visit stops
      at the first one that raises. */
  function DecsEffect(s: StState, ds: seq<Dec>): (r: DecsVisited)
    requires s.symTable != []
    ensures r.ok ==>
      |r.st.symTable| == |s.symTable| && r.st.symTable[..|s.symTable| - 1] == s.symTable[..|s.symTable| - 1]
    ensures r.ok ==> |r.decs| == |ds|
    ensures r.st.stErrors >= s.stErrors
    decreases ds, 0
  {
    if ds == [] then DecsVisited(s, [], true)
    else
      var prev := DecsEffect(s, ds[..|ds| - 1]);
      if !prev.ok then prev
      else
        var step := DecEffect(prev.st, ds[|ds| - 1]);
        assert step.ok ==> step.st.symTable[..|s.symTable| - 1] == s.symTable[..|s.symTable| - 1] by {
          if step.ok {
            assert step.st.symTable[..|s.symTable| - 1] == step.st.symTable[..|prev.st.symTable| - 1][..|s.symTable| - 1];
          }
        }
        DecsVisited(step.st, prev.decs + [step.dec], step.ok)
  }

  /** Once a declaration list has raised, later declarations change nothing. */
  lemma {:induction false} DecsEffectPrefix(s: StState, ds: seq<Dec>, k: nat)
    requires s.symTable != [] && k <= |ds|
    ensures DecsEffect(s, ds).ok ==> DecsEffect(s, ds[..k]).ok
    decreases |ds|
  {
    if k < |ds| {
      assert ds[..|ds| - 1][..k] == ds[..k];
      DecsEffectPrefix(s, ds[..|ds| - 1], k);
    } else {
      assert ds[..k] == ds;
    }
  }

  /** A function declaration leaves exactly its own entry behind: the stack
      afterwards is the stack before with the function's name entered in the
      innermost scope (its parameters and local declarations are gone), and the
      offset is one below its value before. */
  lemma FunLeavesOnlyItsEntry(s: StState, id: string, ret: Type, pars: seq<Par>, decs: seq<Dec>, body: Exp)
    requires s.symTable != []
    requires DecEffect(s, Fun(id, ret, pars, decs, body)).ok
    ensures var r := DecEffect(s, Fun(id, ret, pars, decs, body)).st; var nl := |s.symTable| - 1;
      && r.symTable == s.symTable[nl := s.symTable[nl][id := Entry(nl, ArrowType(ParTypes(pars), ret), s.decOffset)]]
      && r.decOffset == s.decOffset - 1
  {
  }

  /** A class declaration enters nothing in the scope stack, not even its own
      name: at every level, every name resolves afterwards exactly as it did
      before. A class name that is already declared is therefore not an error. */
  lemma ClassKeepsLookups(s: StState, c: Dec, j: int, x: string)
    requires s.symTable != [] && c.Class? && j < |s.symTable|
    ensures j < |ClassEffect(s, c).st.symTable|
    ensures LookupFrom(ClassEffect(s, c).st.symTable, j, x) == LookupFrom(s.symTable, j, x)
  {
  }

  /** A class declaration records under its name a virtual table with one entry
      per distinct field name, each one level deeper than the class with offset
      -1, and leaves the tables of the other classes as they were. */
  lemma ClassVirtualTable(s: StState, c: Dec)
    requires s.symTable != [] && c.Class?
    ensures var ct := ClassEffect(s, c).st.classTable;
      && ct.Keys == s.classTable.Keys + {c.id}
      && ct[c.id].Keys == FieldIds(c.fields)
      && (forall x :: x in ct[c.id] ==> ct[c.id][x].nl == |s.symTable| && ct[c.id][x].offset == -1)
      && (forall k :: k in s.classTable && k != c.id ==> ct[k] == s.classTable[k])
  {
    var fb := FieldsEffect(|s.symTable|, c.fields);
    assert ClassEffect(s, c).st.classTable[c.id] == fb.table;
    FieldsEffectKeys(|s.symTable|, c.fields);
    FieldsEffectOffsets(|s.symTable|, c.fields);
  }

  /** When its method loop does not raise, a class declaration adds one error
      per repeated field name and one per repeated method name. */
  lemma ClassErrors(s: StState, c: Dec)
    requires s.symTable != [] && c.Class? && ClassEffect(s, c).ok
    ensures ClassEffect(s, c).st.stErrors ==
      s.stErrors + (|c.fields| - |FieldIds(c.fields)|) + (|c.methods| - |MethodIdSet(c.methods)|)
  {
    var fb := FieldsEffect(|s.symTable|, c.fields);
    FieldsEffectKeys(|s.symTable|, c.fields);
    MethodsEffectErrors(fb.table, c.methods);
  }

  /** The number of declarations in the list that take an offset. */
  function Present(ds: seq<Dec>): nat {
    if ds == [] then 0 else Present(ds[..|ds| - 1]) + (if ds[|ds| - 1].Missing? then 0 else 1)
  }

  /** A declaration that is present takes one offset from the counter,
      whatever it declares inside itself; a missing one takes none. */
  lemma DecOffset(s: StState, d: Dec)
    requires s.symTable != []
    requires DecEffect(s, d).ok
    ensures DecEffect(s, d).st.decOffset == s.decOffset - (if d.Missing? then 0 else 1)
  {
    if d.Fun? {
      assert DecEffect(s, d) == FunEffect(s, d);
    }
  }

  /** Every declaration of the list that is present (variable, function or
      class) takes one offset from the counter. */
  lemma {:induction false} DecsOffsets(s: StState, ds: seq<Dec>)
    requires s.symTable != []
    requires DecsEffect(s, ds).ok
    ensures DecsEffect(s, ds).st.decOffset == s.decOffset - Present(ds)
  {
    if ds != [] {
      DecsEffectPrefix(s, ds, |ds| - 1);
      DecsOffsets(s, ds[..|ds| - 1]);
      DecOffset(DecsEffect(s, ds[..|ds| - 1]).st, ds[|ds| - 1]);
    }
  }

  /** The local declarations of a function are laid out from -2 down: the
      i-th local that enters a name (a variable or a function) is entered in
      the function's own scope, one level below the function, at offset -2
      minus the number of present locals before it; a variable keeps its
      declared type. */
  lemma FunLocalOffset(s: StState, d: Dec, i: nat)
    requires s.symTable != [] && d.Fun? && i < |d.decs|
    requires d.decs[i].Var? || d.decs[i].Fun?
    requires DecsEffect(FunEnter(s, d), d.decs[..i + 1]).ok
    ensures var nl := |s.symTable|;
      var e := LookupFrom(DecsEffect(FunEnter(s, d), d.decs[..i + 1]).st.symTable, nl, d.decs[i].id);
      && e.Some?
      && e.value.nl == nl
      && e.value.offset == -2 - Present(d.decs[..i])
      && (d.decs[i].Var? ==> e.value.ty == d.decs[i].ty)
  {
    var s2 := FunEnter(s, d);
    var ds := d.decs[..i + 1];
    assert ds[..|ds| - 1] == d.decs[..i];
    assert ds[|ds| - 1] == d.decs[i];
    DecsEffectPrefix(s2, ds, i);
    assert ds[..i] == d.decs[..i];
    DecsOffsets(s2, d.decs[..i]);
    var prev := DecsEffect(s2, d.decs[..i]).st;
    match d.decs[i]
    case Var(id, ty, exp) =>
      VarInitialiserFirst(prev, id, ty, exp);
    case Fun(id, ret, pars, decs, body) =>
      FunLeavesOnlyItsEntry(prev, id, ret, pars, decs, body);
      DeclareShadows(prev, id, ArrowType(ParTypes(pars), ret), id);
  }

  /** The first local of a function, when it is a variable, is entered at
      offset -2 in the function's scope. */
  lemma FirstLocalAtMinusTwo(s: StState, d: Dec, id: string, ty: Type, exp: Exp)
    requires s.symTable != [] && d.Fun?
    ensures LookupFrom(DecEffect(FunEnter(s, d), Var(id, ty, exp)).st.symTable, |s.symTable|, id)
      == Some(Entry(|s.symTable|, ty, -2))
  {
    VarInitialiserFirst(FunEnter(s, d), id, ty, exp);
  }

  // ---------------------------------------------------------------------------
  // Programs

  datatype ProgVisited = ProgVisited(st: StState, prog: Prog, ok: bool)

  /** The effect of the pass on a whole program, from a state with no scope.
      A let-in program opens the global scope, visits the declarations and the
      body, and removes the global scope. A program without declarations has no
      scope at all, so any identifier or call in it makes the lookup index an
      empty list and raise. */
  function ProgEffect(s: StState, p: Prog): ProgVisited
    requires s.symTable == []
  {
    match p
    case LetIn(decs, exp) =>
      var v := DecsEffect(s.(symTable := [map[]]), decs);
      if !v.ok then ProgVisited(v.st, p, false)
      else
        ProgVisited(v.st.(symTable := [], stErrors := v.st.stErrors + Unresolved(v.st.symTable, exp)),
                    LetIn(v.decs, Resolve(v.st.symTable, exp)), true)
    case Bare(exp) => ProgVisited(s, p, !UsesNames(exp))
  }

  /** A let-in program that does not raise leaves the stack empty and reports
      at least the errors of its body. */
  lemma LetInLeavesNoScope(s: StState, decs: seq<Dec>, exp: Exp)
    requires s.symTable == []
    requires ProgEffect(s, LetIn(decs, exp)).ok
    ensures var r := ProgEffect(s, LetIn(decs, exp));
      r.st.symTable == [] && r.st.stErrors >= s.stErrors
      && r.st.decOffset == s.decOffset - Present(decs)
  {
    DecsOffsets(s.(symTable := [map[]]), decs);
  }

  /** The body of a let-in program is resolved against the global scope alone,
      so a body naming only globals is fully annotated at level 0. */
  lemma LetInBodyAtLevelZero(s: StState, decs: seq<Dec>, exp: Exp)
    requires s.symTable == []
    requires ProgEffect(s, LetIn(decs, exp)).ok
    ensures var v := DecsEffect(s.(symTable := [map[]]), decs);
      |v.st.symTable| == 1
      && ProgEffect(s, LetIn(decs, exp)).prog.exp == Resolve(v.st.symTable, exp)
  {
  }

  // ---------------------------------------------------------------------------
  // The pass as a visitor

  class SymbolTableVisitor {
    var classTable: map<string, Scope>
    var symTable: seq<Scope>
    var nestingLevel: int
    var decOffset: int
    var stErrors: nat

    constructor()
      ensures State() == StState([], map[], -2, 0) && nestingLevel == 0
    {
      classTable := map[];
      symTable := [];
      nestingLevel := 0;
      decOffset := -2;
      stErrors := 0;
    }

    function State(): StState
      reads this
    {
      StState(symTable, classTable, decOffset, stErrors)
    }

    /** Inside a program: one scope per nesting level from 0 to the current one. */
    predicate Valid()
      reads this
    {
      nestingLevel >= 0 && |symTable| == nestingLevel + 1
    }

    method StLookup(id: string) returns (entry: Option<Entry>)
      requires Valid()
      ensures entry == LookupFrom(symTable, nestingLevel, id)
    {
      var j := nestingLevel;
      entry := None;
      while j >= 0 && entry.None?
        invariant -1 <= j <= nestingLevel
        invariant entry.None? ==> LookupFrom(symTable, j, id) == LookupFrom(symTable, nestingLevel, id)
        invariant entry.Some? ==> entry == LookupFrom(symTable, nestingLevel, id)
        decreases j + 1
      {
        entry := if id in symTable[j] then Some(symTable[j][id]) else None;
        j := j - 1;
      }
    }

    method VisitExp(e: Exp) returns (r: Exp)
      requires Valid()
      modifies this`stErrors
      ensures r == Resolve(symTable, e)
      ensures stErrors == old(stErrors) + Unresolved(symTable, e)
      decreases e, 1
    {
      match e {
        case Id(_, _, _) =>
          r := VisitId(e);
        case Call(_, _, _, _) =>
          r := VisitCall(e);
        case If(c, t, f) =>
          var c' := VisitExp(c);
          var t' := VisitExp(t);
          var f' := VisitExp(f);
          r := If(c', t', f');
        case Bin(op, lhs, rhs) =>
          var l' := VisitExp(lhs);
          var r' := VisitExp(rhs);
          r := Bin(op, l', r');
        case Not(x) =>
          var x' := VisitExp(x);
          r := Not(x');
        case Print(x) =>
          var x' := VisitExp(x);
          r := Print(x');
        case _ =>
          r := e;
      }
    }

    /** An identifier: annotated with the entry found and the current level,
        or counted as an error and left as it is. */
    method VisitId(e: Exp) returns (r: Exp)
      requires Valid() && e.Id?
      modifies this`stErrors
      ensures r == Resolve(symTable, e)
      ensures stErrors == old(stErrors) + Unresolved(symTable, e)
    {
      var entry := StLookup(e.id);
      if entry.None? {
        stErrors := stErrors + 1;
        r := e;
      } else {
        r := Id(e.id, entry, nestingLevel);
      }
    }

    /** A call: the name is looked up as for an identifier, then the
        arguments are visited in order. */
    method VisitCall(e: Exp) returns (r: Exp)
      requires Valid() && e.Call?
      modifies this`stErrors
      ensures r == Resolve(symTable, e)
      ensures stErrors == old(stErrors) + Unresolved(symTable, e)
      decreases e, 0
    {
      var Call(id, args, en, n) := e;
      var entry := StLookup(id);
      var en', n' := en, n;
      if entry.None? {
        stErrors := stErrors + 1;
      } else {
        en', n' := entry, nestingLevel;
      }
      var args' := VisitArgs(args);
      r := Call(id, args', en', n');
    }

    method VisitArgs(es: seq<Exp>) returns (rs: seq<Exp>)
      requires Valid()
      modifies this`stErrors
      ensures rs == ResolveAll(symTable, es)
      ensures stErrors == old(stErrors) + UnresolvedAll(symTable, es)
      decreases es, 0
    {
      rs := [];
      var i := 0;
      while i < |es|
        invariant 0 <= i <= |es|
        invariant rs == ResolveAll(symTable, es[..i])
        invariant stErrors == old(stErrors) + UnresolvedAll(symTable, es[..i])
      {
        var x := VisitExp(es[i]);
        assert es[..i + 1][..i] == es[..i];
        rs := rs + [x];
        i := i + 1;
      }
      assert es[..i] == es;
    }

    method VisitDec(d: Dec) returns (r: Dec, ok: bool)
      requires Valid()
      modifies this
      ensures var v := DecEffect(old(State()), d);
        ok == v.ok && (ok ==> Valid() && nestingLevel == old(nestingLevel) && State() == v.st && r == v.dec)
      decreases d, 2
    {
      match d {
        case Missing =>
          r, ok := d, true;
        case Var(id, ty, exp) =>
          var exp' := VisitExp(exp);
          var hm := symTable[nestingLevel];
          symTable := symTable[nestingLevel := hm[id := Entry(nestingLevel, ty, decOffset)]];
          decOffset := decOffset - 1;
          if id in hm {
            stErrors := stErrors + 1;
          }
          r, ok := Var(id, ty, exp'), true;
        case Fun(_, _, _, _, _) =>
          r, ok := VisitFun(d);
        case Class(_, _, _, _, _, _) =>
          r, ok := VisitClass(d);
      }
    }

    method VisitFun(d: Dec) returns (r: Dec, ok: bool)
      requires Valid() && d.Fun?
      modifies this
      ensures var v := DecEffect(old(State()), d);
        ok == v.ok && (ok ==> Valid() && nestingLevel == old(nestingLevel) && State() == v.st && r == v.dec)
      decreases d, 1
    {
      var Fun(id, ret, pars, decs, body) := d;
      ghost var s0 := State();
      var prevNLDecOffset := decOffset - 1;
      EnterFun(d);
      ghost var s2 := FunEnter(s0, d);
      ghost var inner := DecsEffect(s2, decs);
      var decs', okd := VisitDecs(decs);
      if !okd {
        assert DecEffect(s0, d) == FunEffect(s0, d) == DecVisited(inner.st, d, false);
        r, ok := d, false;
        return;
      }
      var body' := VisitExp(body);
      symTable := symTable[..nestingLevel];
      nestingLevel := nestingLevel - 1;
      decOffset := prevNLDecOffset;
      r, ok := Fun(id, ret, pars, decs', body'), true;
      assert State() == FunExit(s0, inner.st, body);
      assert DecEffect(s0, d) == FunEffect(s0, d);
    }

    /** Entering a function declaration: its entry goes into the current
        scope, then a scope for its parameters is pushed and the offset counter
        restarts at -2. */
    method EnterFun(d: Dec)
      requires Valid() && d.Fun?
      modifies this
      ensures Valid() && nestingLevel == old(nestingLevel) + 1
      ensures State() == FunEnter(old(State()), d)
    {
      var Fun(id, ret, pars, _, _) := d;
      ghost var s1 := Declare(State(), id, ArrowType(ParTypes(pars), ret));
      var hm := symTable[nestingLevel];
      var entry := Entry(nestingLevel, ArrowType(ParTypes(pars), ret), decOffset);
      decOffset := decOffset - 1;
      symTable := symTable[nestingLevel := hm[id := entry]];
      if id in hm {
        stErrors := stErrors + 1;
      }
      assert State() == s1;
      nestingLevel := nestingLevel + 1;
      symTable := symTable + [map[]];
      decOffset := -2;
      DeclarePars(pars);
    }

    /** The parameter loop of a function visit: the parameters enter the
        (empty) innermost scope with offsets 1, 2, 3, ... */
    method DeclarePars(pars: seq<Par>)
      requires Valid() && symTable[nestingLevel] == map[]
      modifies this`symTable, this`stErrors
      ensures symTable == old(symTable)[nestingLevel := ParsScope(nestingLevel, pars).0]
      ensures stErrors == old(stErrors) + ParsScope(nestingLevel, pars).1
    {
      var parOffset := 1;
      var i := 0;
      while i < |pars|
        invariant 0 <= i <= |pars| && parOffset == i + 1
        invariant symTable == old(symTable)[nestingLevel := ParsScope(nestingLevel, pars[..i]).0]
        invariant stErrors == old(stErrors) + ParsScope(nestingLevel, pars[..i]).1
      {
        var p := pars[i];
        var top := symTable[nestingLevel];
        symTable := symTable[nestingLevel := top[p.id := Entry(nestingLevel, p.ty, parOffset)]];
        parOffset := parOffset + 1;
        if p.id in top {
          stErrors := stErrors + 1;
        }
        assert pars[..i + 1][..i] == pars[..i];
        i := i + 1;
      }
      assert pars[..i] == pars;
    }

    method VisitClass(d: Dec) returns (r: Dec, ok: bool)
      requires Valid() && d.Class?
      modifies this
      ensures var v := DecEffect(old(State()), d);
        ok == v.ok && (ok ==> Valid() && nestingLevel == old(nestingLevel) && State() == v.st && r == v.dec)
    {
      var Class(id, _, fields, methods, _, _) := d;
      ghost var s0 := State();
      assert DecEffect(s0, d) == ClassEffect(s0, d);
      decOffset := decOffset - 1;
      var allFields: seq<Type>;
      var allMethods: seq<Type> := [];
      ghost var s1 := State();
      symTable := symTable + [map[]];
      nestingLevel := nestingLevel + 1;
      allFields := DeclareFields(fields);
      ghost var fb := FieldsEffect(|s0.symTable|, fields);
      var table := symTable[nestingLevel];
      assert table == fb.table;
      classTable := classTable[id := table];
      var oldStepDecOffset := decOffset;
      decOffset := 0;
      assert stErrors == s0.stErrors + fb.errors;
      var okm;
      allMethods, okm := VisitMethods(table, methods);
      if !okm {
        r, ok := d, false;
        return;
      }
      decOffset := oldStepDecOffset;
      symTable := symTable[..nestingLevel];
      nestingLevel := nestingLevel - 1;
      r, ok := d, true;
    }

    /** The field loop of a class visit: each field enters the (empty)
        virtual table with offset -1, and its type goes to the front of the
        class type's field list. */
    method DeclareFields(fields: seq<Field>) returns (allFields: seq<Type>)
      requires Valid() && symTable[nestingLevel] == map[]
      modifies this`symTable, this`stErrors
      ensures symTable == old(symTable)[nestingLevel := FieldsEffect(nestingLevel, fields).table]
      ensures stErrors == old(stErrors) + FieldsEffect(nestingLevel, fields).errors
      ensures allFields == FieldsEffect(nestingLevel, fields).allFields
    {
      var classFieldsOffset := -1;
      var fieldsContainer: set<string> := {};
      allFields := [];
      var i := 0;
      while i < |fields|
        invariant 0 <= i <= |fields|
        invariant symTable == old(symTable)[nestingLevel := FieldsEffect(nestingLevel, fields[..i]).table]
        invariant fieldsContainer == FieldsEffect(nestingLevel, fields[..i]).table.Keys
        invariant allFields == FieldsEffect(nestingLevel, fields[..i]).allFields
        invariant stErrors == old(stErrors) + FieldsEffect(nestingLevel, fields[..i]).errors
      {
        var f := fields[i];
        if f.id in fieldsContainer {
          stErrors := stErrors + 1;
        } else {
          fieldsContainer := fieldsContainer + {f.id};
        }
        var fieldEntry := Entry(nestingLevel, f.ty, classFieldsOffset);
        var at := -fieldEntry.offset - 1;
        allFields := allFields[..at] + [fieldEntry.ty] + allFields[at..];
        symTable := symTable[nestingLevel := symTable[nestingLevel][f.id := fieldEntry]];
        assert fields[..i + 1][..i] == fields[..i];
        i := i + 1;
      }
      assert fields[..i] == fields;
    }

    /** The method loop of a class visit, over the class's virtual table. */
    method VisitMethods(table: Scope, methods: seq<Method>) returns (allMethods: seq<Type>, ok: bool)
      modifies this`stErrors
      ensures var mb := MethodsEffect(table, methods);
        ok == mb.ok && (ok ==> allMethods == mb.allMethods && stErrors == old(stErrors) + mb.errors)
    {
      var methodContainer: seq<string> := [];
      allMethods := [];
      var i := 0;
      while i < |methods|
        invariant 0 <= i <= |methods|
        invariant MethodsEffect(table, methods[..i]).ok
        invariant allMethods == MethodsEffect(table, methods[..i]).allMethods
        invariant forall x :: x in methodContainer <==> x in MethodIds(methods[..i])
        invariant stErrors == old(stErrors) + MethodsEffect(table, methods[..i]).errors
      {
        var m := methods[i];
        assert methods[..i + 1][..i] == methods[..i];
        if m.id in methodContainer {
          stErrors := stErrors + 1;
        } else {
          methodContainer := methodContainer + [m.id];
        }
        if m.id !in table || !table[m.id].ty.MethodType? {
          MethodsEffectPrefix(table, methods, i + 1);
          return allMethods, false;
        }
        if !(0 <= m.offset <= |allMethods|) {
          MethodsEffectPrefix(table, methods, i + 1);
          return allMethods, false;
        }
        allMethods := allMethods[..m.offset] + [table[m.id].ty.fun] + allMethods[m.offset..];
        i := i + 1;
      }
      assert methods[..i] == methods;
      ok := true;
    }

    method VisitDecs(ds: seq<Dec>) returns (rs: seq<Dec>, ok: bool)
      requires Valid()
      modifies this
      ensures var v := DecsEffect(old(State()), ds);
        ok == v.ok && (ok ==> Valid() && nestingLevel == old(nestingLevel) && State() == v.st && rs == v.decs)
      decreases ds, 0
    {
      rs := [];
      var i := 0;
      while i < |ds|
        invariant 0 <= i <= |ds|
        invariant Valid() && nestingLevel == old(nestingLevel) && |old(State()).symTable| == |symTable|
        invariant DecsEffect(old(State()), ds[..i]) == DecsVisited(State(), rs, true)
      {
        var r, okd := VisitDec(ds[i]);
        assert ds[..i + 1][..i] == ds[..i];
        if !okd {
          DecsEffectPrefix(old(State()), ds, i + 1);
          ok := false;
          return;
        }
        rs := rs + [r];
        i := i + 1;
      }
      assert ds[..i] == ds;
      ok := true;
    }

    method VisitProg(p: Prog) returns (r: Prog, ok: bool)
      requires symTable == [] && nestingLevel == 0
      modifies this
      ensures var v := ProgEffect(old(State()), p);
        ok == v.ok && (ok ==> State() == v.st && r == v.prog && nestingLevel == 0)
    {
      match p {
        case LetIn(decs, exp) =>
          symTable := symTable + [map[]];
          assert State() == old(State()).(symTable := [map[]]);
          var decs', okd := VisitDecs(decs);
          if !okd {
            r, ok := p, false;
            return;
          }
          var exp' := VisitExp(exp);
          symTable := symTable[1..];
          r, ok := LetIn(decs', exp'), true;
        case Bare(exp) =>
          // The stack is empty: the first identifier or call looked up raises.
          r, ok := p, !UsesNames(exp);
      }
    }
  }
}
