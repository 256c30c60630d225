/** The subtype relation and the lowest common ancestor of two types.
    The class hierarchy (each class's direct superclass) is an explicit map
    argument; these functions read it and never change it. */
module TypeRels {
  import opened Wrappers
  import opened Ast

  /** Class name -> name of its direct superclass. */
  type Hierarchy = map<string, string>

  function TypeSize(t: Type): nat {
    match t
    case ArrowType(ps, r) => 1 + TypeSize(r) + TypesSize(ps)
    case MethodType(f) => 1 + TypeSize(f)
    case ClassType(fs, ms) => 1 + TypesSize(fs) + TypesSize(ms)
    case _ => 1
  }

  function TypesSize(ts: seq<Type>): nat {
    if ts == [] then 0 else TypeSize(ts[0]) + TypesSize(ts[1..])
  }

  /** Bool <: Int, Bool <: Bool, Int <: Int. */
  predicate IsIntAndBoolType(a: Type, b: Type) {
    (a.BoolType? && b.IntType?) || (a.BoolType? && b.BoolType?) || (a.IntType? && b.IntType?)
  }

  /** null <: any class reference. */
  predicate IsEmptyTypeAndRefType(a: Type, b: Type) {
    a.EmptyType? && b.RefType?
  }

  /** Two references to the same class, or a class and its direct superclass
      (one step of the hierarchy, not its transitive closure). A class with no
      recorded superclass is related only to itself. */
  predicate CheckSuperTypeHierarchy(h: Hierarchy, a: Type, b: Type) {
    a.RefType? && b.RefType? && (a.id == b.id || (a.id in h && h[a.id] == b.id))
  }

  /** The four cases of the subtype relation. */
  predicate IsSubtype(h: Hierarchy, a: Type, b: Type)
    decreases TypeSize(a) + TypeSize(b), 1
  {
    IsIntAndBoolType(a, b) || CheckSuperTypeHierarchy(h, a, b)
    || IsEmptyTypeAndRefType(a, b) || CheckMethodOverride(h, a, b)
  }

  /** Arrow subtyping: same arity, covariant return, contravariant parameters. */
  predicate CheckMethodOverride(h: Hierarchy, a: Type, b: Type)
    decreases TypeSize(a) + TypeSize(b), 0
  {
    a.ArrowType? && b.ArrowType? && |a.params| == |b.params|
    && IsSubtype(h, a.ret, b.ret) && ParamsContravariant(h, a.params, b.params)
  }

  /** Each parameter of `ys` is a subtype of the parameter of `xs` at the same
      position. */
  predicate ParamsContravariant(h: Hierarchy, xs: seq<Type>, ys: seq<Type>)
    requires |xs| == |ys|
    decreases TypesSize(xs) + TypesSize(ys), 2
  {
    xs == [] || (IsSubtype(h, ys[0], xs[0]) && ParamsContravariant(h, xs[1..], ys[1..]))
  }

  lemma {:induction false} ParamsContravariantAt(h: Hierarchy, xs: seq<Type>, ys: seq<Type>)
    requires |xs| == |ys|
    ensures ParamsContravariant(h, xs, ys) <==> forall i :: 0 <= i < |xs| ==> IsSubtype(h, ys[i], xs[i])
  {
    if xs != [] {
      ParamsContravariantAt(h, xs[1..], ys[1..]);
      assert forall i :: 1 <= i < |xs| ==> ys[i] == ys[1..][i - 1] && xs[i] == xs[1..][i - 1];
    }
  }

  // ---------------------------------------------------------------------------
  // Facts about the relation

  /** Bool <: Int and the reflexive primitive cases hold; Int <: Bool does not. */
  lemma PrimitiveSubtyping(h: Hierarchy)
    ensures IsSubtype(h, BoolType, IntType)
    ensures IsSubtype(h, IntType, IntType) && IsSubtype(h, BoolType, BoolType)
    ensures !IsSubtype(h, IntType, BoolType)
  {
  }

  /** The only subtypes of Int are Int and Bool; the only subtype of Bool is Bool. */
  lemma SubtypesOfPrimitives(h: Hierarchy, a: Type)
    ensures IsSubtype(h, a, IntType) <==> a.IntType? || a.BoolType?
    ensures IsSubtype(h, a, BoolType) <==> a.BoolType?
  {
  }

  /** Subtyping never crosses kinds, except that null is below every class
      reference: a primitive is related only to primitives, a reference only
      to references, an arrow only to arrows, and method and class types to
      nothing at all. */
  lemma SubtypeKinds(h: Hierarchy, a: Type, b: Type)
    requires IsSubtype(h, a, b)
    ensures (a.IntType? || a.BoolType?) <==> (b.IntType? || b.BoolType?)
    ensures a.RefType? ==> b.RefType?
    ensures a.EmptyType? ==> b.RefType?
    ensures a.ArrowType? <==> b.ArrowType?
    ensures !a.MethodType? && !b.MethodType? && !a.ClassType? && !b.ClassType?
    ensures !b.EmptyType?
  {
  }

  /** Nothing is a subtype of the null type, not even the null type. */
  lemma NothingBelowNull(h: Hierarchy, a: Type)
    ensures !IsSubtype(h, a, EmptyType)
    ensures IsSubtype(h, EmptyType, a) <==> a.RefType?
  {
  }

  /** Reflexive on Int, Bool and class references, whatever the hierarchy. */
  lemma SubtypeReflexive(h: Hierarchy, a: Type)
    requires a.IntType? || a.BoolType? || a.RefType?
    ensures IsSubtype(h, a, a)
  {
  }

  /** Between two classes, A <: B holds exactly when they are the same class
      or B is A's recorded direct superclass. */
  lemma RefSubtype(h: Hierarchy, a: string, b: string)
    ensures IsSubtype(h, RefType(a), RefType(b)) <==> a == b || (a in h && h[a] == b)
  {
  }

  /** The relation is not transitive: with C extends D extends E, C <: D and
      D <: E but not C <: E. */
  lemma SubtypeNotTransitive()
    ensures var h := map["C" := "D", "D" := "E"];
      IsSubtype(h, RefType("C"), RefType("D")) && IsSubtype(h, RefType("D"), RefType("E"))
      && !IsSubtype(h, RefType("C"), RefType("E"))
  {
  }

  /** Arrow subtyping, stated position by position. */
  lemma {:induction false} ArrowSubtype(h: Hierarchy, ps: seq<Type>, r: Type, qs: seq<Type>, s: Type)
    ensures IsSubtype(h, ArrowType(ps, r), ArrowType(qs, s)) <==>
      |ps| == |qs| && IsSubtype(h, r, s) && forall i :: 0 <= i < |ps| ==> IsSubtype(h, qs[i], ps[i])
  {
    if |ps| == |qs| {
      ParamsContravariantAt(h, ps, qs);
    }
  }

  /** An override that narrows a parameter type is rejected, one that widens
      it is accepted (with Bool <: Int). */
  lemma OverrideVariance(h: Hierarchy)
    ensures !IsSubtype(h, ArrowType([BoolType], IntType), ArrowType([IntType], IntType))
    ensures IsSubtype(h, ArrowType([IntType], BoolType), ArrowType([BoolType], IntType))
  {
    ArrowSubtype(h, [BoolType], IntType, [IntType], IntType);
    ArrowSubtype(h, [IntType], BoolType, [BoolType], IntType);
  }

  // ---------------------------------------------------------------------------
  // Lowest common ancestor

  /** The superclass chain of class c: its superclass, that class's superclass,
      and so on. Each step removes the visited class from the map, so on a
      cyclic map the chain stops once it would revisit a class. */
  function Ancestors(h: Hierarchy, c: string): (cs: seq<string>)
    decreases |h|
  {
    if c in h then [h[c]] + Ancestors(h - {c}, h[c]) else []
  }

  /** The chain is the one the source's loop walks: it starts at c's
      superclass, each next element is the superclass of the previous one, and
      it ends either at a class with no superclass or at a class whose
      superclass was already visited (a cycle). */
  lemma {:induction false} AncestorsFollowHierarchy(h: Hierarchy, c: string)
    ensures var cs := Ancestors(h, c);
      && (c in h <==> |cs| > 0)
      && (|cs| > 0 ==> cs[0] == h[c])
      && (forall i :: 0 <= i < |cs| - 1 ==> cs[i] in h && h[cs[i]] == cs[i + 1])
      && (|cs| > 0 ==> cs[|cs| - 1] !in h || h[cs[|cs| - 1]] in [c] + cs)
  {
    if c in h {
      var h' := h - {c};
      var rest := Ancestors(h', h[c]);
      AncestorsFollowHierarchy(h', h[c]);
      var cs := [h[c]] + rest;
      forall i | 0 <= i < |cs| - 1
        ensures cs[i] in h && h[cs[i]] == cs[i + 1]
      {
        if i > 0 {
          assert cs[i] == rest[i - 1] && cs[i + 1] == rest[i];
        }
      }
      if |rest| > 0 {
        var last := rest[|rest| - 1];
        assert cs[|cs| - 1] == last;
        if last in h && last !in h' {
          assert last == c;
        }
      }
    }
  }

  /** Every class on the chain except possibly the last is distinct from c and
      from every other one: the walk visits each class at most once and stops
      at the first repetition. */
  lemma {:induction false} AncestorsDistinct(h: Hierarchy, c: string)
    ensures var cs := Ancestors(h, c);
      && (forall i :: 0 <= i < |cs| - 1 ==> cs[i] in h && cs[i] != c)
      && (forall i, j :: 0 <= i < j < |cs| - 1 ==> cs[i] != cs[j])
  {
    if c in h {
      var h' := h - {c};
      var rest := Ancestors(h', h[c]);
      AncestorsDistinct(h', h[c]);
      AncestorsFollowHierarchy(h', h[c]);
      var cs := [h[c]] + rest;
      forall i | 0 <= i < |cs| - 1
        ensures cs[i] in h && cs[i] != c
      {
        if i == 0 {
          assert h[c] in h';
        } else {
          assert cs[i] == rest[i - 1];
        }
      }
      forall i, j | 0 <= i < j < |cs| - 1
        ensures cs[i] != cs[j]
      {
        assert cs[j] == rest[j - 1];
        if i > 0 {
          assert cs[i] == rest[i - 1];
        }
      }
    }
  }

  /** The first class on the chain `cs` that b is a subtype of. */
  function FirstSupertypeOf(h: Hierarchy, b: Type, cs: seq<string>): (r: Option<Type>)
    ensures r.Some? ==>
      exists k :: 0 <= k < |cs| && r.value == RefType(cs[k]) && IsSubtype(h, b, r.value)
        && forall j :: 0 <= j < k ==> !IsSubtype(h, b, RefType(cs[j]))
    ensures r.None? <==> forall k :: 0 <= k < |cs| ==> !IsSubtype(h, b, RefType(cs[k]))
  {
    if cs == [] then None
    else if IsSubtype(h, b, RefType(cs[0])) then Some(RefType(cs[0]))
    else
      var r := FirstSupertypeOf(h, b, cs[1..]);
      assert forall k :: 1 <= k < |cs| ==> cs[k] == cs[1..][k - 1];
      r
  }

  /** b if a <: b, else a if b <: a, else (for a class reference a) the first
      class on a's superclass chain that b is a subtype of; None is the
      source's null ("no common type"). */
  function LowestCommonAncestor(h: Hierarchy, a: Type, b: Type): (r: Option<Type>)
  {
    if IsSubtype(h, a, b) then Some(b)
    else if IsSubtype(h, b, a) then Some(a)
    else if !a.RefType? then None
    else FirstSupertypeOf(h, b, Ancestors(h, a.id))
  }

  /** What the ancestor found is: the larger of the two when one is below the
      other; otherwise a class on a's superclass chain that b is below. */
  lemma LcaIsUpperBound(h: Hierarchy, a: Type, b: Type)
    requires LowestCommonAncestor(h, a, b).Some?
    ensures var t := LowestCommonAncestor(h, a, b).value;
      && (IsSubtype(h, a, b) ==> t == b)
      && (!IsSubtype(h, a, b) && IsSubtype(h, b, a) ==> t == a)
      && (!IsSubtype(h, a, b) && !IsSubtype(h, b, a) ==>
            a.RefType? && t.RefType? && t.id in Ancestors(h, a.id) && IsSubtype(h, b, t))
  {
  }

  /** Absence of a common type: neither is a subtype of the other and either a
      is not a class reference or b is below no class on a's chain. */
  lemma LcaNone(h: Hierarchy, a: Type, b: Type)
    ensures LowestCommonAncestor(h, a, b).None? <==>
      !IsSubtype(h, a, b) && !IsSubtype(h, b, a)
      && (!a.RefType? || forall k :: 0 <= k < |Ancestors(h, a.id)| ==> !IsSubtype(h, b, RefType(Ancestors(h, a.id)[k])))
  {
  }

  /** If-then-else with an Int branch and a Bool branch has type Int, in either order. */
  lemma LcaIntBool(h: Hierarchy)
    ensures LowestCommonAncestor(h, IntType, BoolType) == Some(IntType)
    ensures LowestCommonAncestor(h, BoolType, IntType) == Some(IntType)
  {
  }

  /** The ancestor of a type with itself is itself, for Int, Bool and references. */
  lemma LcaIdempotent(h: Hierarchy, a: Type)
    requires a.IntType? || a.BoolType? || a.RefType?
    ensures LowestCommonAncestor(h, a, a) == Some(a)
  {
  }

  /** Not commutative: with C extends D extends E and X extends E, the chain of
      C reaches E, which X is below, but C is not a (direct) subtype of any
      class on X's chain. */
  lemma LcaNotCommutative()
    ensures var h := map["C" := "D", "D" := "E", "X" := "E"];
      LowestCommonAncestor(h, RefType("C"), RefType("X")) == Some(RefType("E"))
      && LowestCommonAncestor(h, RefType("X"), RefType("C")) == None
  {
    LcaFromC();
    LcaFromX();
  }

  /** From C the chain is D, E, and X lies below E. */
  lemma LcaFromC()
    ensures var h := map["C" := "D", "D" := "E", "X" := "E"];
      LowestCommonAncestor(h, RefType("C"), RefType("X")) == Some(RefType("E"))
  {
    var h := map["C" := "D", "D" := "E", "X" := "E"];
    assert Ancestors(h - {"C"} - {"D"}, "E") == [];
    assert Ancestors(h - {"C"}, "D") == ["E"];
    assert Ancestors(h, "C") == ["D", "E"];
  }

  /** From X the chain is E alone, and C is not a direct subclass of E. */
  lemma LcaFromX()
    ensures var h := map["C" := "D", "D" := "E", "X" := "E"];
      LowestCommonAncestor(h, RefType("X"), RefType("C")) == None
  {
    var h := map["C" := "D", "D" := "E", "X" := "E"];
    assert Ancestors(h - {"X"}, "E") == [];
    assert Ancestors(h, "X") == ["E"];
  }

  // ---------------------------------------------------------------------------
  // The relation exactly as written

  /** isSubtype as the source evaluates it, left to right with short-circuit.
      None stands for the runtime exception the source raises: a class with no
      recorded superclass dereferences a missing map entry, and a right-hand
      arrow with fewer parameters than the left one is indexed out of range.
      The arrow case also has no arity check. */
  function IsSubtypeAsWritten(h: Hierarchy, a: Type, b: Type): Option<bool>
    decreases TypeSize(a) + TypeSize(b), 1
  {
    if IsIntAndBoolType(a, b) then Some(true)
    else
      match SuperTypeHierarchyAsWritten(h, a, b)
      case None => None
      case Some(true) => Some(true)
      case Some(false) =>
        if IsEmptyTypeAndRefType(a, b) then Some(true) else MethodOverrideAsWritten(h, a, b)
  }

  function SuperTypeHierarchyAsWritten(h: Hierarchy, a: Type, b: Type): Option<bool> {
    if !a.RefType? || !b.RefType? then Some(false)
    else if a.id == b.id then Some(true)
    else if a.id !in h then None
    else Some(h[a.id] == b.id)
  }

  function MethodOverrideAsWritten(h: Hierarchy, a: Type, b: Type): Option<bool>
    decreases TypeSize(a) + TypeSize(b), 0
  {
    if !a.ArrowType? || !b.ArrowType? then Some(false)
    else
      match IsSubtypeAsWritten(h, a.ret, b.ret)
      case None => None
      case Some(false) => Some(false)
      case Some(true) => ParamsAsWritten(h, a.params, b.params)
  }

  /** The parameter loop: runs over the left arrow's parameters and indexes the
      right arrow's list at the same positions. */
  function ParamsAsWritten(h: Hierarchy, xs: seq<Type>, ys: seq<Type>): Option<bool>
    decreases TypesSize(xs) + TypesSize(ys), 2
  {
    if xs == [] then Some(true)
    else if ys == [] then None
    else
      match IsSubtypeAsWritten(h, ys[0], xs[0])
      case None => None
      case Some(false) => Some(false)
      case Some(true) => ParamsAsWritten(h, xs[1..], ys[1..])
  }

  /** Comparing two unrelated root classes makes the source dereference null;
      the corrected relation answers false. */
  lemma RootClassComparisonFails()
    ensures IsSubtypeAsWritten(map[], RefType("A"), RefType("B")) == None
    ensures !IsSubtype(map[], RefType("A"), RefType("B"))
  {
  }

  /** A right-hand arrow with fewer parameters makes the source index out of
      range; one with more parameters is accepted although the arities differ.
      The corrected relation rejects both. */
  lemma ArrowArityAsWritten()
    ensures IsSubtypeAsWritten(map[], ArrowType([IntType], IntType), ArrowType([], IntType)) == None
    ensures IsSubtypeAsWritten(map[], ArrowType([], IntType), ArrowType([IntType], IntType)) == Some(true)
    ensures !IsSubtype(map[], ArrowType([IntType], IntType), ArrowType([], IntType))
    ensures !IsSubtype(map[], ArrowType([], IntType), ArrowType([IntType], IntType))
  {
  }

  /** The corrected relation only ever removes pairs: every pair it relates,
      the source relates too, without raising. */
  lemma {:induction false} SubtypeImpliesAsWrittenTrue(h: Hierarchy, a: Type, b: Type)
    requires IsSubtype(h, a, b)
    ensures IsSubtypeAsWritten(h, a, b) == Some(true)
    decreases TypeSize(a) + TypeSize(b), 1
  {
    if !IsIntAndBoolType(a, b) && !CheckSuperTypeHierarchy(h, a, b) && !IsEmptyTypeAndRefType(a, b) {
      SubtypeImpliesAsWrittenTrue(h, a.ret, b.ret);
      ParamsContravariantAsWritten(h, a.params, b.params);
    }
  }

  lemma {:induction false} ParamsContravariantAsWritten(h: Hierarchy, xs: seq<Type>, ys: seq<Type>)
    requires |xs| == |ys| && ParamsContravariant(h, xs, ys)
    ensures ParamsAsWritten(h, xs, ys) == Some(true)
    decreases TypesSize(xs) + TypesSize(ys), 2
  {
    if xs != [] {
      SubtypeImpliesAsWrittenTrue(h, ys[0], xs[0]);
      assert TypesSize(xs) == TypeSize(xs[0]) + TypesSize(xs[1..]);
      assert TypesSize(ys) == TypeSize(ys[0]) + TypesSize(ys[1..]);
      ParamsContravariantAsWritten(h, xs[1..], ys[1..]);
    }
  }

  /** Conversely, whenever the source answers false without raising, the
      corrected relation answers false. */
  lemma {:induction false} AsWrittenFalseImpliesNotSubtype(h: Hierarchy, a: Type, b: Type)
    requires IsSubtypeAsWritten(h, a, b) == Some(false)
    ensures !IsSubtype(h, a, b)
    decreases TypeSize(a) + TypeSize(b), 1
  {
    if a.ArrowType? && b.ArrowType? && |a.params| == |b.params| {
      match IsSubtypeAsWritten(h, a.ret, b.ret)
      case Some(false) =>
        AsWrittenFalseImpliesNotSubtype(h, a.ret, b.ret);
      case Some(true) =>
        ParamsAsWrittenFalse(h, a.params, b.params);
    }
  }

  lemma {:induction false} ParamsAsWrittenFalse(h: Hierarchy, xs: seq<Type>, ys: seq<Type>)
    requires |xs| == |ys| && ParamsAsWritten(h, xs, ys) == Some(false)
    ensures !ParamsContravariant(h, xs, ys)
    decreases TypesSize(xs) + TypesSize(ys), 2
  {
    match IsSubtypeAsWritten(h, ys[0], xs[0])
    case Some(false) =>
      AsWrittenFalseImpliesNotSubtype(h, ys[0], xs[0]);
    case Some(true) =>
      assert TypesSize(xs) == TypeSize(xs[0]) + TypesSize(xs[1..]);
      assert TypesSize(ys) == TypeSize(ys[0]) + TypesSize(ys[1..]);
      ParamsAsWrittenFalse(h, xs[1..], ys[1..]);
  }

  /** With the corrected relation a class with no recorded superclass is below
      no other class, and arrows of different arity are unrelated. */
  lemma CorrectedSubtypeTotal(h: Hierarchy, a: Type, b: Type)
    ensures a.RefType? && b.RefType? && a.id !in h && a.id != b.id ==> !IsSubtype(h, a, b)
    ensures a.ArrowType? && b.ArrowType? && |a.params| != |b.params| ==> !IsSubtype(h, a, b)
  {
  }
}
