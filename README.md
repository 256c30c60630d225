# FOOL compiler middle end in Dafny

This project models the middle end of the FOOL compiler, a small language with
functions, classes and single inheritance. The middle end takes an abstract
syntax tree through three passes. The symbol-table pass resolves every use of
a name. The type checker types each expression and checks each declaration.
The code generator emits stack-machine code, and it builds one dispatch table
per class. Underneath them sits the subtype relation with its lowest common
ancestor.

Layout, one module per file:

- `wrappers.dfy` (`Wrappers`): `Option` and `Result`.
- `strings.dfy` (`Strings`): decimal text of numbers, used for label names and
  `push` operands.
- `ast.dfy` (`Ast`): the tree and the symbol-table entry (`AST`, `STentry`).
  These are immutable datatypes. An annotation slot that a pass fills in is a
  field, and the pass returns the rebuilt node.
- `type_rels.dfy` (`TypeRels`): `isSubtype` and `lowestCommonAncestor` as pure
  functions. The superclass map is an explicit argument.
- `symbol_table.dfy` (`SymbolTable`): specification functions for the
  symbol-table pass, and the class `SymbolTableVisitor`. The class's fields
  are the scope stack, the class table, the nesting level, the offset counter
  and the error counter, and its methods update them in place.
- `type_check.dfy` (`TypeCheck`): typing of expressions as a recursive function
  with a `Result`. Checking of declarations is specified as functions and
  carried out by the class `TypeChecker`, which owns the superclass map.
- `code_gen.dfy` (`CodeGen`): instructions, code blocks, and the code of every
  expression. It also holds the proofs about labels and code layout.
- `code_gen_decs.dfy` (`CodeGenDecs`): code generation for declarations and
  programs, and the dispatch tables. The class `CodeGenerator` holds the two
  label counters, the body buffer and the list of tables.

Every method of the three visitor classes is proved to compute exactly what
its specification function says. The properties are proved as lemmas about
those functions:

- lookup finds the innermost declaration;
- resolution changes no tree shape;
- offsets follow the declaration order;
- typing rules hold in both directions;
- errors are caught per declaration;
- every minted label is defined exactly once in the final program;
- dispatch tables keep inherited slots;
- the code layout of identifiers, calls, `new` and routine epilogues.

Where the code and the intended design of the language disagree, the model
follows the code:

- Subtyping between classes is one step of the superclass map, not its
  transitive closure (`TypeRels.SubtypeNotTransitive`).
- The lowest common ancestor is not commutative (`TypeRels.LcaNotCommutative`).
- A name declared twice in one scope keeps the later entry, because `put`
  overwrites (`SymbolTable.DeclareShadows`).
- In the symbol-table pass a class never enters its own name in the scope, and
  a redeclared class name is only a warning (`SymbolTable.ClassKeepsLookups`).
- The symbol-table visit of a method is an empty stub. The class visit then
  reads a method entry that was never entered, so any class with a method
  makes that pass raise (`SymbolTable.ClassWithMethodsRaises`).
- Every field entry gets offset -1, and the class type lists its field types in
  reverse order (`SymbolTable.FieldsEffectOffsets`,
  `SymbolTable.FieldsEffectReversed`).

Some node fields that the passes read are not declared in `AST.java`. They are:

- `superId` and `superSTentry` of a class;
- the type of a class node, which the type checker reads through `getType()`
  (`TypeCheckEASTVisitor.java` line 439);
- the `offset` of fields (lines 446-448) and of methods;
- the method `label`;
- the entries of dot-calls and `new`.

The model declares them as fields of its tree, with the meaning the passes
give them. They are inputs: no pass in the files the model covers writes any of
them. The symbol-table visit of a method is a stub. The class visit builds a
class type but stores it only in its own local entry, never on the node, and
never sets `superSTentry`. Dot-calls and `new` are not visited. The code generator reads `nestingLevel` of identifiers and of calls on
objects (`CodeGenerationASTVisitor.java` lines 210 and 475). `AST.java`
declares only `nl` on identifiers and neither field on calls on objects: the
model reads the single level slot the symbol-table pass fills. The class visit calls `visit(field)`
on each field. `SymbolTableASTVisitor.java` defines no visitor for field nodes,
so that call runs the base visitor's default, which is not part of this model;
the model treats the call as doing nothing (see "## Left out"). `TypeRels.java` contains
unresolved merge markers (lines 18-24), which the model ignores.

## Model

| member | source | states |
|---|---|---|
| Ast.ParTypes | src/compiler/SymbolTableASTVisitor.java:49-51 | the arrow type of a function lists one parameter type per parameter, in declaration order |
| TypeRels.ParamsContravariantAt | src/compiler/TypeRels.java:106-111 | the parameter loop accepts exactly when every parameter of the right arrow is a subtype of the left arrow's parameter at the same position |
| TypeRels.PrimitiveSubtyping | src/compiler/TypeRels.java:60-64 | Bool <: Int, Int <: Int and Bool <: Bool hold; Int <: Bool does not |
| TypeRels.SubtypesOfPrimitives | src/compiler/TypeRels.java:60-64 | the subtypes of Int are exactly Int and Bool; the only subtype of Bool is Bool |
| TypeRels.SubtypeKinds | src/compiler/TypeRels.java:25-30 | a subtype pair never mixes a primitive with a reference or arrow; references and null sit only below references; arrows only below arrows; method and class types are never related |
| TypeRels.NothingBelowNull | src/compiler/TypeRels.java:75-77 | null is a subtype of exactly the reference types; nothing, not even null, is a subtype of null |
| TypeRels.SubtypeReflexive | src/compiler/TypeRels.java:25-30 | the relation is reflexive on Int, Bool and class references |
| TypeRels.RefSubtype | src/compiler/TypeRels.java:83-92 | A <: B for classes iff A and B are the same class or B is A's recorded direct superclass |
| TypeRels.SubtypeNotTransitive | src/compiler/TypeRels.java:83-92 | with C extends D extends E, C <: D and D <: E but not C <: E |
| TypeRels.ArrowSubtype | src/compiler/TypeRels.java:100-113 | one arrow is a subtype of another iff they have the same arity, the returns are covariant and every parameter is contravariant |
| TypeRels.OverrideVariance | src/compiler/TypeRels.java:100-113 | an override narrowing a parameter from Int to Bool is rejected; one widening it and narrowing the return is accepted |
| TypeRels.AncestorsFollowHierarchy | src/compiler/TypeRels.java:45-51 | the walked chain starts at a's superclass; each next class is the superclass of the previous one; it ends at a class with no superclass or at a repetition |
| TypeRels.AncestorsDistinct | src/compiler/TypeRels.java:45-51 | the walk never passes through a class twice or back through its start before its last step |
| TypeRels.FirstSupertypeOf | src/compiler/TypeRels.java:47-51 | the loop yields the first class on the chain that b is a subtype of, and null iff b is below none of them |
| TypeRels.LcaIsUpperBound | src/compiler/TypeRels.java:39-54 | the ancestor found is b when a is below b, a when only b is below a, and otherwise a class on a's superclass chain that b is below |
| TypeRels.LcaNone | src/compiler/TypeRels.java:39-54 | null is returned iff neither type is below the other and either a is no class reference or b is below no class on a's chain |
| TypeRels.LcaIntBool | src/compiler/TypeRels.java:39-41 | Int and Bool meet at Int, in either order |
| TypeRels.LcaIdempotent | src/compiler/TypeRels.java:40 | a type meets itself at itself (Int, Bool, references) |
| TypeRels.LcaNotCommutative | src/compiler/TypeRels.java:39-54 | with C extends D extends E and X extends E, C and X meet at E while X and C have no common type |
| TypeRels.RootClassComparisonFails | src/compiler/TypeRels.java:91 | as written, comparing two distinct classes where the first has no superclass dereferences null; the corrected relation answers false |
| TypeRels.ArrowArityAsWritten | src/compiler/TypeRels.java:107-108 | as written, a right arrow with fewer parameters is indexed out of range and one with more is accepted; the corrected relation rejects both |
| TypeRels.AsWrittenFalseImpliesNotSubtype | src/compiler/TypeRels.java:25-30 | whenever the relation as written answers false, the corrected relation is false too |
| TypeRels.SubtypeImpliesAsWrittenTrue | src/compiler/TypeRels.java:25-30 | every pair the corrected relation relates, the relation as written relates too, without raising |
| TypeRels.ParamsAsWrittenFalse | src/compiler/TypeRels.java:107-111 | a parameter loop as written that answers false rejects under the corrected relation too |
| TypeRels.CorrectedSubtypeTotal | src/compiler/TypeRels.java:83-113 | the corrected relation is false where the source raises: a root class against another class, and arrows of different arity |
| SymbolTable.LookupFrom | src/compiler/SymbolTableASTVisitor.java:19-25 | a name is found iff some scope from level j down to 0 declares it, and the entry found is that of the innermost such scope |
| SymbolTable.ResolveKeepsShape | src/compiler/SymbolTableASTVisitor.java:139-169 | resolution changes only the entry and level slots of uses, never the tree's shape, names or literals |
| SymbolTable.ResolveAllKeepsShape | src/compiler/SymbolTableASTVisitor.java:151 | the same for an argument list |
| SymbolTable.ResolvedIffNoErrors | src/compiler/SymbolTableASTVisitor.java:139-169 | on an expression fresh from the parser (no slot filled) without `new` or dot-calls, it comes out fully annotated iff the pass counted no undeclared name in it |
| SymbolTable.ResolvedAllIffNoErrors | src/compiler/SymbolTableASTVisitor.java:151 | the same for an argument list, under the same condition |
| SymbolTable.DeclareShadows | src/compiler/SymbolTableASTVisitor.java:83-96 | after a declaration its name resolves to the new entry (current level, current offset); every other name resolves as before; the offset moves down by one; the error count grows by one iff the scope already held the name |
| SymbolTable.ParsScopeKeys | src/compiler/SymbolTableASTVisitor.java:66-73 | a function's new scope holds exactly its parameter names, and one error is counted per repeated parameter |
| SymbolTable.ParsScopeOffsets | src/compiler/SymbolTableASTVisitor.java:66-73 | the i-th parameter (not repeated later) has its type, the new level and offset i+1 |
| SymbolTable.FieldsEffectKeys | src/compiler/SymbolTableASTVisitor.java:281-297 | a class's virtual table holds exactly its field names, with one error per repeated field name |
| SymbolTable.FieldsEffectOffsets | src/compiler/SymbolTableASTVisitor.java:254-296 | every field entry sits at the class level with offset -1 |
| SymbolTable.FieldsEffectReversed | src/compiler/SymbolTableASTVisitor.java:295 | the class type lists the field types in reverse declaration order |
| SymbolTable.MethodsEffectPrefix | src/compiler/SymbolTableASTVisitor.java:302-317 | if the method loop completes, it completes on every prefix of the method list |
| SymbolTable.ClassWithMethodsRaises | src/compiler/SymbolTableASTVisitor.java:314-316 | when no field has a method type, a class with a method makes the pass raise |
| SymbolTable.DecEffect | src/compiler/SymbolTableASTVisitor.java:83-96 | a declaration leaves the stack depth and all outer scopes as they were and never lowers the error count |
| SymbolTable.VarInitialiserFirst | src/compiler/SymbolTableASTVisitor.java:83-96 | a variable's initialiser is resolved against the stack before the variable is entered, its undeclared names are counted, and then the name resolves to its new entry, with one more error when the innermost scope already had it |
| SymbolTable.VarSelfReference | src/compiler/SymbolTableASTVisitor.java:83-96 | `var x = x` with x declared nowhere leaves the initialiser's x unannotated and counts exactly one error, and x is declared afterwards |
| SymbolTable.FunEnter | src/compiler/SymbolTableASTVisitor.java:60-64 | entering a function pushes exactly one scope and restarts the local offset counter at -2 |
| SymbolTable.FunLocalOffset | src/compiler/SymbolTableASTVisitor.java:60-87 | the locals of a function are laid out from -2 down: the i-th local variable or function is entered one level below the function at offset -2 minus the number of present locals before it, and a variable keeps its declared type |
| SymbolTable.FirstLocalAtMinusTwo | src/compiler/SymbolTableASTVisitor.java:63-87 | a function's first local variable resolves, in the function's scope, to an entry at offset -2 with its declared type |
| SymbolTable.FunEffect | src/compiler/SymbolTableASTVisitor.java:46-80 | a function declaration leaves the stack depth and the outer scopes as they were and never lowers the error count |
| SymbolTable.DecsEffect | src/compiler/SymbolTableASTVisitor.java:74 | a declaration list keeps the stack depth and outer scopes, yields one annotated declaration per declaration, and never lowers the error count |
| SymbolTable.DecsEffectPrefix | src/compiler/SymbolTableASTVisitor.java:74 | if a declaration list completes, so does every prefix of it |
| SymbolTable.FunLeavesOnlyItsEntry | src/compiler/SymbolTableASTVisitor.java:46-80 | a function declaration leaves only its own entry in the scope (parameters and locals are gone) and takes one offset |
| SymbolTable.ClassKeepsLookups | src/compiler/SymbolTableASTVisitor.java:266-320 | after a class declaration every name resolves at every level exactly as before, so the class's own name stays undeclared |
| SymbolTable.ClassVirtualTable | src/compiler/SymbolTableASTVisitor.java:272-296 | the class table gains the class's name, whose virtual table has one entry per distinct field name, each one level deeper than the class with offset -1; other classes' tables are unchanged |
| SymbolTable.ClassErrors | src/compiler/SymbolTableASTVisitor.java:281-312 | when the method loop does not raise, a class adds one error per repeated field name and one per repeated method name |
| SymbolTable.MethodsEffectErrors | src/compiler/SymbolTableASTVisitor.java:301-312 | when the method loop does not raise, it counts one error per repeated method name |
| SymbolTable.DecOffset | src/compiler/SymbolTableASTVisitor.java:51 | a present declaration takes exactly one offset, whatever it contains |
| SymbolTable.DecsOffsets | src/compiler/SymbolTableASTVisitor.java:32 | a declaration list moves the offset down by the number of declarations present |
| SymbolTable.LetInLeavesNoScope | src/compiler/SymbolTableASTVisitor.java:28-36 | a let-in program removes the global scope it opened and consumes one offset per declaration |
| SymbolTable.LetInBodyAtLevelZero | src/compiler/SymbolTableASTVisitor.java:28-36 | the body of a let-in program is resolved against the global scope alone |
| SymbolTable.SymbolTableVisitor.constructor | src/compiler/SymbolTableASTVisitor.java:10-16 | no scope, an empty class table, offset -2, no errors, level 0 |
| SymbolTable.SymbolTableVisitor.StLookup | src/compiler/SymbolTableASTVisitor.java:19-25 | the lookup loop returns the innermost entry from the current level down |
| SymbolTable.SymbolTableVisitor.VisitExp | src/compiler/SymbolTableASTVisitor.java:99-237 | an expression visit returns the resolved tree and adds one error per undeclared use |
| SymbolTable.SymbolTableVisitor.VisitId | src/compiler/SymbolTableASTVisitor.java:156-169 | an identifier is annotated with its entry and the current level, or counts one error |
| SymbolTable.SymbolTableVisitor.VisitCall | src/compiler/SymbolTableASTVisitor.java:139-153 | a call is annotated or counts one error, then its arguments are visited |
| SymbolTable.SymbolTableVisitor.VisitArgs | src/compiler/SymbolTableASTVisitor.java:151 | the argument loop resolves each argument in order |
| SymbolTable.SymbolTableVisitor.VisitDec | src/compiler/SymbolTableASTVisitor.java:83-96 | a declaration visit makes exactly the change DecEffect describes |
| SymbolTable.SymbolTableVisitor.VisitFun | src/compiler/SymbolTableASTVisitor.java:46-80 | a function visit makes exactly the change FunEffect describes, restoring level and offset |
| SymbolTable.SymbolTableVisitor.EnterFun | src/compiler/SymbolTableASTVisitor.java:48-73 | entering a function declares it, raises the level by one and fills the new scope with its parameters |
| SymbolTable.SymbolTableVisitor.DeclarePars | src/compiler/SymbolTableASTVisitor.java:66-73 | the parameter loop fills the new scope as ParsScope says |
| SymbolTable.SymbolTableVisitor.VisitClass | src/compiler/SymbolTableASTVisitor.java:242-323 | a class visit makes exactly the change ClassEffect describes |
| SymbolTable.SymbolTableVisitor.DeclareFields | src/compiler/SymbolTableASTVisitor.java:281-297 | the field loop fills the virtual table and the field list as FieldsEffect says |
| SymbolTable.SymbolTableVisitor.VisitMethods | src/compiler/SymbolTableASTVisitor.java:302-317 | the method loop raises, counts repeats and builds the method list as MethodsEffect says |
| SymbolTable.SymbolTableVisitor.VisitDecs | src/compiler/SymbolTableASTVisitor.java:32 | the declaration loop makes the change DecsEffect describes |
| SymbolTable.SymbolTableVisitor.VisitProg | src/compiler/SymbolTableASTVisitor.java:28-43 | a program visit makes the change ProgEffect describes |
| TypeCheck.CheckArgsSpec | src/compiler/TypeCheckEASTVisitor.java:196-199 | the argument loop passes iff every argument types as a subtype of its parameter |
| TypeCheck.CheckArgsFirstFailure | src/compiler/TypeCheckEASTVisitor.java:196-199 | the loop stops at the first failing argument: a failure on a prefix is the outcome of the whole loop |
| TypeCheck.IdRule | src/compiler/TypeCheckEASTVisitor.java:211-224 | an identifier types iff its entry is set and is not a function, method or class type, and then has the entry's type; an unset entry is an incomplete tree |
| TypeCheck.ArithmeticRule | src/compiler/TypeCheckEASTVisitor.java:147-168 | `* + - /` type iff both operands are subtypes of Int, and then yield Int |
| TypeCheck.ComparisonRule | src/compiler/TypeCheckEASTVisitor.java:300-323 | `<=` and `>=` type iff both operands are subtypes of Int, and then yield Bool |
| TypeCheck.LogicRule | src/compiler/TypeCheckEASTVisitor.java:332-402 | `&&`, `||` and `!` type iff their operands are subtypes of Bool, and then yield Bool |
| TypeCheck.EqualRule | src/compiler/TypeCheckEASTVisitor.java:131-138 | `==` types iff one side's type is a subtype of the other's, and then yields Bool |
| TypeCheck.OperatorShortCircuit | src/compiler/TypeCheckEASTVisitor.java:149-151 | when the left operand of an operator other than `==` fails its check, the right operand plays no part in the outcome |
| TypeCheck.IfRule | src/compiler/TypeCheckEASTVisitor.java:111-122 | `if` types as t iff its condition is below Bool, both branches type and their lowest common ancestor is t |
| TypeCheck.CallRule | src/compiler/TypeCheckEASTVisitor.java:180-202 | a call types iff its entry's type (unwrapped from a method type) is an arrow of the same arity whose parameters take the arguments, and then yields the arrow's return type |
| TypeCheck.ClassCallRule | src/compiler/TypeCheckEASTVisitor.java:509-532 | a dot-call is typed the same way from its method entry |
| TypeCheck.NewRule | src/compiler/TypeCheckEASTVisitor.java:543-564 | `new C(args)` types iff C's entry is a class type whose fields take the arguments one by one, and then yields a reference to C |
| TypeCheck.TypeOfFailsCleanly | src/compiler/TypeCheckEASTVisitor.java:104-573 | with the corrected subtyping relation, typing an expression never raises a runtime exception, and a fully resolved expression never fails as incomplete |
| TypeCheck.ArgsFailCleanly | src/compiler/TypeCheckEASTVisitor.java:196-199 | the same for the argument loop |
| TypeCheck.Caught | src/compiler/TypeCheckEASTVisitor.java:37-44 | a turn of a declaration loop lets only a runtime exception escape; a type error appends one report at the loop's site to the log, and an incomplete tree or a clean turn leaves the state as it was |
| TypeCheck.CaughtInClass | src/compiler/TypeCheckEASTVisitor.java:424-431 | a turn of the class method loop catches only type errors, each appending one report to the log; any other outcome passes through unchanged |
| TypeCheck.FieldOverridesSpec | src/compiler/TypeCheckEASTVisitor.java:445-451 | field comparison passes iff every field the superclass also has is at a valid index of the class's list with a subtype of the superclass's field type |
| TypeCheck.MethodOverridesSpec | src/compiler/TypeCheckEASTVisitor.java:452-458 | with the superclass's method count as guard, method comparison passes iff every method at an inherited offset has a subtype of the inherited method type; an index error names such a method |
| TypeCheck.MethodGuardAsWritten | src/compiler/TypeCheckEASTVisitor.java:453 | as written (guard on the superclass's field count), a superclass with two fields and one method makes a new method at offset 1 index out of range; with the method count the check passes |
| TypeCheck.DecsCatch | src/compiler/TypeCheckEASTVisitor.java:37-44 | a declaration loop is ended only by a runtime exception |
| TypeCheck.MethodsCatch | src/compiler/TypeCheckEASTVisitor.java:424-431 | a type error never escapes a class's method loop |
| TypeCheck.DecsCheckStep | src/compiler/TypeCheckEASTVisitor.java:37-44 | each turn of the declaration loop checks the next declaration in the state the previous turns left |
| TypeCheck.MethodsCheckStep | src/compiler/TypeCheckEASTVisitor.java:424-431 | each turn of the method loop checks the next method in the state the previous turns left |
| TypeCheck.DecsCheckPrefix | src/compiler/TypeCheckEASTVisitor.java:37-44 | once a declaration loop is ended by an exception, later declarations change nothing |
| TypeCheck.MethodsCheckPrefix | src/compiler/TypeCheckEASTVisitor.java:424-431 | the same for the method loop |
| TypeCheck.FieldOverridesPrefix | src/compiler/TypeCheckEASTVisitor.java:445-451 | the field comparison ends at the first failing field |
| TypeCheck.MethodOverridesPrefix | src/compiler/TypeCheckEASTVisitor.java:452-458 | the method comparison ends at the first failing method |
| TypeCheck.GrowsTrans | src/compiler/TypeCheckEASTVisitor.java:420 | map growth composes across consecutive checks |
| TypeCheck.DecGrows | src/compiler/TypeCheckEASTVisitor.java:420 | checking a declaration only adds superclass records, for the classes it declares, and only appends reports |
| TypeCheck.DecsGrows | src/compiler/TypeCheckEASTVisitor.java:420 | the same for a declaration loop |
| TypeCheck.MethodsGrows | src/compiler/TypeCheckEASTVisitor.java:420 | the same for a method loop |
| TypeCheck.ClassRegistersSuper | src/compiler/TypeCheckEASTVisitor.java:419-421 | after a class with a superclass is checked, the map records that superclass for it |
| TypeCheck.ClassWithoutSuperNeverTypeErrors | src/compiler/TypeCheckEASTVisitor.java:434-436 | a class without a superclass (or its entry) never fails with a type error of its own |
| TypeCheck.ProgCheck | src/compiler/TypeCheckEASTVisitor.java:35-56 | a let-in program types its body under the map its declarations left, and its declarations end it only with a runtime exception |
| TypeCheck.CheckFieldOverrides | src/compiler/TypeCheckEASTVisitor.java:445-451 | the field comparison loop computes FieldOverrides |
| TypeCheck.CheckMethodOverrides | src/compiler/TypeCheckEASTVisitor.java:452-458 | the method comparison loop computes MethodOverrides |
| TypeCheck.TypeChecker.constructor | src/compiler/TypeRels.java:16 | a checker starts from the given superclass map with no reports |
| TypeCheck.TypeChecker.VisitDec | src/compiler/TypeCheckEASTVisitor.java:86-91 | a declaration visit changes the map and reports as DecCheck says and throws what it says |
| TypeCheck.TypeChecker.VisitFun | src/compiler/TypeCheckEASTVisitor.java:65-78 | a function visit is FunCheck |
| TypeCheck.TypeChecker.VisitCaught | src/compiler/TypeCheckEASTVisitor.java:38-44 | one caught turn of a declaration loop is Caught |
| TypeCheck.TypeChecker.VisitDecs | src/compiler/TypeCheckEASTVisitor.java:37-44 | the declaration loop is DecsCheck |
| TypeCheck.TypeChecker.VisitMethod | src/compiler/TypeCheckEASTVisitor.java:480-497 | a method visit is MethodCheck |
| TypeCheck.TypeChecker.VisitCaughtInClass | src/compiler/TypeCheckEASTVisitor.java:425-430 | one caught turn of the method loop is CaughtInClass |
| TypeCheck.TypeChecker.VisitMethods | src/compiler/TypeCheckEASTVisitor.java:424-431 | the method loop is MethodsCheck |
| TypeCheck.TypeChecker.VisitClass | src/compiler/TypeCheckEASTVisitor.java:415-461 | a class visit is ClassCheck: the superclass is recorded first, then methods, then overrides |
| TypeCheck.TypeChecker.VisitProg | src/compiler/TypeCheckEASTVisitor.java:35-56 | a program visit is ProgCheck |
| CodeGen.LabelTextInjective | src/compiler/CodeGenerationASTVisitor.java:118-119 | distinct labels have distinct names |
| CodeGen.DefTextInjective | src/compiler/CodeGenerationASTVisitor.java:126-128 | distinct labels have distinct definition lines |
| CodeGen.PushTextInjective | src/compiler/CodeGenerationASTVisitor.java:234 | the text of a `push` line determines the value pushed, negative values included |
| CodeGen.CountFlat | src/compiler/CodeGenerationASTVisitor.java:120-129 | counting an instruction in a joined block counts it in the joined text |
| CodeGen.CopiesFlat | src/compiler/CodeGenerationASTVisitor.java:68 | a `pop` loop over n items emits exactly n pops (none for n <= 0) |
| CodeGen.CopiesCount | src/compiler/CodeGenerationASTVisitor.java:186 | a hop loop emits exactly max(0, n) loads and nothing else |
| CodeGen.CodeDefines | src/compiler/CodeGenerationASTVisitor.java:116-371 | the code of an expression defines exactly the labels minted while it was generated, each once |
| CodeGen.OperandDefines | src/compiler/CodeGenerationASTVisitor.java:121-127 | the same for an operand as its parent joins it |
| CodeGen.PrintDefines | src/compiler/CodeGenerationASTVisitor.java:104-110 | `print` defines exactly the labels of its operand |
| CodeGen.NotDefines | src/compiler/CodeGenerationASTVisitor.java:357-371 | `!` defines its own two labels and those of its operand, each once |
| CodeGen.IfDefines | src/compiler/CodeGenerationASTVisitor.java:116-130 | `if` defines its two labels and those of its condition and branches, each once |
| CodeGen.BinDefines | src/compiler/CodeGenerationASTVisitor.java:136-351 | a binary operator defines its two labels if it branches, and those of its operands, each once |
| CodeGen.CallDefines | src/compiler/CodeGenerationASTVisitor.java:182-201 | a call or dot-call defines exactly the labels of its arguments |
| CodeGen.NewDefines | src/compiler/CodeGenerationASTVisitor.java:497-534 | `new` defines exactly the labels of its arguments |
| CodeGen.CodeRevDefines | src/compiler/CodeGenerationASTVisitor.java:185 | arguments in reverse order define exactly their labels |
| CodeGen.CodeAllDefines | src/compiler/CodeGenerationASTVisitor.java:500-502 | arguments in source order define exactly their labels |
| CodeGen.IdCodeDefinesNothing | src/compiler/CodeGenerationASTVisitor.java:207-217 | an identifier's code defines no label |
| CodeGen.IdCodeLayout | src/compiler/CodeGenerationASTVisitor.java:207-217 | an identifier emits `lfp`, exactly level-difference `lw` hops, then `push offset`, `add`, `lw` |
| CodeGen.IdCodeLoads | src/compiler/CodeGenerationASTVisitor.java:207-217 | an identifier loads exactly one word per access-link hop plus its own slot |
| CodeGen.CallTailLoads | src/compiler/CodeGenerationASTVisitor.java:186-198 | after its arguments a call emits one `lw` per hop, plus one more for a method entry, plus the final load |
| CodeGen.ClassCallTailLoads | src/compiler/CodeGenerationASTVisitor.java:475-488 | after its arguments a dot-call emits one `lw` per hop plus three loads (object, dispatch table, method) |
| CodeGen.HeapStoresLength | src/compiler/CodeGenerationASTVisitor.java:504-515 | `new` emits a six-instruction heap store per argument |
| CodeGen.HeapStoresStore | src/compiler/CodeGenerationASTVisitor.java:504-515 | those stores hold exactly one `sw` per argument |
| CodeGen.ReversedAt | src/compiler/CodeGenerationASTVisitor.java:185 | position i of the reversed list holds the element at position n-1-i |
| CodeGen.CodeRevIsReversed | src/compiler/CodeGenerationASTVisitor.java:185 | a call's argument code is the code of the reversed argument list in order |
| CodeGen.ArithmeticLayout | src/compiler/CodeGenerationASTVisitor.java:156-176 | `* + - /` emit the left operand's code, the right operand's code, then exactly the operator's instruction |
| CodeGen.BooleanResult | src/compiler/CodeGenerationASTVisitor.java:136-150 | every comparison and logical operator ends by pushing one truth value on the path where its test falls through and the other where it jumps, then joins the paths at its second label; the fall-through value is false for `==`, `<=`, `\|\|` and true for `>=`, `&&` |
| CodeGen.NotResult | src/compiler/CodeGenerationASTVisitor.java:357-371 | `!` ends by pushing false when its operand is true and true otherwise, joining the paths at its second label |
| CodeGenDecs.DecEmit | src/compiler/CodeGenerationASTVisitor.java:58-98 | a declaration only advances counters and appends tables, keeping the tables before it |
| CodeGenDecs.DecsEmit | src/compiler/CodeGenerationASTVisitor.java:33 | the same for a declaration list |
| CodeGenDecs.MethodEmit | src/compiler/CodeGenerationASTVisitor.java:431-464 | a method's label is the fresh label taken first, and the counter moves past it |
| CodeGenDecs.MethodsEmit | src/compiler/CodeGenerationASTVisitor.java:396-405 | the method loop changes no table except the class's own |
| CodeGenDecs.EpilogueLayout | src/compiler/CodeGenerationASTVisitor.java:77-85 | the epilogue is `stm`, one pop per local, `sra`, `pop`, one pop per parameter, `sfp`, `ltm`, `lra`, `js` |
| CodeGenDecs.EpiloguePops | src/compiler/CodeGenerationASTVisitor.java:78-81 | the epilogue pops once per local, once for the access link and once per parameter |
| CodeGenDecs.MissingDecEmitsNothing | src/compiler/CodeGenerationASTVisitor.java:65 | a declaration the parser could not build does not raise: appending it to a list changes neither the joined code nor the state |
| CodeGenDecs.MissingLocalPopped | src/compiler/CodeGenerationASTVisitor.java:64-67 | a function with such a local emits the same code and counters as without it, yet its body in the buffer pops one more slot |
| CodeGenDecs.RoutineDefines | src/compiler/CodeGenerationASTVisitor.java:70-87 | a routine defines its own label once plus the labels of its locals and body |
| CodeGenDecs.PlaceKeeps | src/compiler/CodeGenerationASTVisitor.java:398-404 | placing a label succeeds iff the offset is non-negative; an inherited slot is overridden in place and other slots are kept; a new offset appends |
| CodeGenDecs.InsertAsWrittenShifts | src/compiler/CodeGenerationASTVisitor.java:400 | as written, an override inserts at the offset and shifts every later inherited slot up by one |
| CodeGenDecs.InsertAsWrittenCounterexample | src/compiler/CodeGenerationASTVisitor.java:398-400 | overriding the first of two inherited methods gives a three-slot table as written, a two-slot table when placed |
| CodeGenDecs.DispatchCodeLayout | src/compiler/CodeGenerationASTVisitor.java:407-419 | a table's code is seven lines per slot, each group starting by pushing that slot's label, in table order |
| CodeGenDecs.DispatchCodeDefinesNothing | src/compiler/CodeGenerationASTVisitor.java:407-419 | storing a table defines no label |
| CodeGenDecs.PutDefines | src/compiler/CodeGenerationASTVisitor.java:70 | putting code in the buffer adds exactly its label definitions |
| CodeGenDecs.ExpEmitDefines | src/compiler/CodeGenerationASTVisitor.java:97 | an expression visit defines exactly the labels it minted |
| CodeGenDecs.DecEmitDefines | src/compiler/CodeGenerationASTVisitor.java:58-98 | a declaration's code plus the bodies it buffers define exactly the labels it minted, each once |
| CodeGenDecs.FunDefines | src/compiler/CodeGenerationASTVisitor.java:58-89 | the same for a function |
| CodeGenDecs.ClassDefines | src/compiler/CodeGenerationASTVisitor.java:379-425 | the same for a class |
| CodeGenDecs.DecsEmitDefines | src/compiler/CodeGenerationASTVisitor.java:33 | the same for a declaration list |
| CodeGenDecs.MethodEmitDefines | src/compiler/CodeGenerationASTVisitor.java:431-464 | the same for a method |
| CodeGenDecs.MethodsEmitDefines | src/compiler/CodeGenerationASTVisitor.java:396-405 | the same for a class's method loop |
| CodeGenDecs.ProgEmitDefines | src/compiler/CodeGenerationASTVisitor.java:29-41 | in a whole program's code every minted label of either kind is defined exactly once and no other label is defined |
| CodeGenDecs.MethodsEmitKeeps | src/compiler/CodeGenerationASTVisitor.java:396-405 | the method loop keeps every slot no method's offset names and never shortens the table |
| CodeGenDecs.ClassInherits | src/compiler/CodeGenerationASTVisitor.java:383-405 | a class appends its table, which starts from the superclass's table and keeps every inherited slot no method overrides |
| CodeGenDecs.DecsEmitPrefix | src/compiler/CodeGenerationASTVisitor.java:33 | a failing declaration stops the whole list |
| CodeGenDecs.MethodsEmitPrefix | src/compiler/CodeGenerationASTVisitor.java:396-405 | a failing method stops the whole class |
| CodeGenDecs.CodeGenerator.constructor | src/compiler/CodeGenerationASTVisitor.java:21-23 | both counters at zero, an empty buffer and no tables |
| CodeGenDecs.CodeGenerator.FreshLabel | src/compiler/CodeGenerationASTVisitor.java:435 | yields the next jump label and advances that counter only |
| CodeGenDecs.CodeGenerator.FreshFunLabel | src/compiler/CodeGenerationASTVisitor.java:69 | yields the next function label and advances that counter only |
| CodeGenDecs.CodeGenerator.PutCode | src/compiler/CodeGenerationASTVisitor.java:70 | appends a routine to the buffer |
| CodeGenDecs.CodeGenerator.Pops | src/compiler/CodeGenerationASTVisitor.java:64-68 | the pop loop builds n pops |
| CodeGenDecs.CodeGenerator.VisitExp | src/compiler/CodeGenerationASTVisitor.java:97 | an expression visit is ExpEmit |
| CodeGenDecs.CodeGenerator.VisitDec | src/compiler/CodeGenerationASTVisitor.java:58-98 | a declaration visit is DecEmit |
| CodeGenDecs.CodeGenerator.VisitDecs | src/compiler/CodeGenerationASTVisitor.java:33 | the declaration loop is DecsEmit |
| CodeGenDecs.CodeGenerator.VisitFun | src/compiler/CodeGenerationASTVisitor.java:58-89 | a function visit is DecEmit on a function |
| CodeGenDecs.CodeGenerator.VisitMethod | src/compiler/CodeGenerationASTVisitor.java:431-464 | a method visit is MethodEmit |
| CodeGenDecs.CodeGenerator.VisitClass | src/compiler/CodeGenerationASTVisitor.java:379-425 | a class visit is DecEmit on a class |
| CodeGenDecs.CodeGenerator.PlaceMethods | src/compiler/CodeGenerationASTVisitor.java:396-405 | the method loop is MethodsEmit |
| CodeGenDecs.CodeGenerator.StoreTable | src/compiler/CodeGenerationASTVisitor.java:407-419 | the table loop builds DispatchCode |
| CodeGenDecs.CodeGenerator.VisitProg | src/compiler/CodeGenerationASTVisitor.java:29-53 | a program visit is ProgEmit |

## Left out

- SymbolTable.FieldsEffect: assumes that `visit(field)` (`SymbolTableASTVisitor.java` line 292) does nothing. The symbol-table visitor defines no field visitor, and the base visitor's default is not part of this model; the same file writes explicit `return null` stubs for the kinds it skips (lines 326-343), so the default may instead raise. If it raises, every class with at least one field makes the symbol-table pass raise, as a class with a method does (`SymbolTable.ClassWithMethodsRaises`), and the field lemmas `FieldsEffectKeys`, `FieldsEffectOffsets`, `FieldsEffectReversed` and `ClassVirtualTable` then describe a visit the source never completes.
- Printing is not modelled. This covers the `ErrorManager` classes with their coloured console output and the `print`/`printNode` debug hooks. Errors are a counter in the symbol-table pass and a list of reports in the type checker.
- Double dispatch through `accept` is replaced by pattern matching on the datatypes.
- The ANTLR translation to the tree and the tree printer are not part of this model. The tree is taken as given.
- The library helpers (`nlJoin`, `freshLabel`, `freshFunLabel`, `putCode`, `getCode`) are not part of this model.
  - Joining is concatenation of blocks, where an absent or empty part contributes no line.
  - Labels are assumed to be named `label`n and `function`n from two counters starting at 0.
  - The buffer is a sequence of instructions.
- Instructions are a datatype, and `Render` gives their text.
- The virtual machine and its constant `MEMSIZE` are not part of this model. The constant is the parameter `mem`.
- Line numbers in error messages are not modelled.
- Missing subtrees other than declarations are not modelled. The parser can leave a null in place of an expression, a method, a `new` or a dot-call (`ASTGenerationSTVisitor.java` lines 46, 422, 453 and 484). The tree has no node for these cases. Only a null entry of a declaration list is modelled, as `Missing`: this covers a variable or function without its name (lines 108-112) and a class without its name (line 386). The model therefore does not capture what the passes do on such a node, which depends on its kind. A null expression, `new` or dot-call is skipped by the symbol-table pass and by code generation. A null method makes both of those passes dereference null. The symbol-table pass reads its id (`SymbolTableASTVisitor.java` line 304) and code generation reads its offset (`CodeGenerationASTVisitor.java` line 398). The type checker raises its incomplete-tree exception on all of them. The nearest enclosing declaration loop drops it (`TypeCheckEASTVisitor.java` lines 37-43). A class's own method loop catches only type errors (lines 424-431), so a null method ends that loop and skips the override checks before the enclosing loop drops the exception. A null main expression of a program is typed outside every such loop (`TypeCheckEASTVisitor.java` line 45), so its exception ends the type-checking pass.
- Inheritance as the source stands: no pass sets `superSTentry` or the class node's type, so both stay null. On a tree fresh from the symbol-table pass, the type checker therefore returns before the override checks (`TypeCheck.ClassWithoutSuperNeverTypeErrors`), and code generation starts every class from an empty dispatch table. The override checks (`TypeCheck.FieldOverridesSpec`, `TypeCheck.MethodOverridesSpec`) and inheritance (`CodeGenDecs.ClassInherits`) are reached only on trees whose slots are filled by hand. The model takes those slots as given.
- Java exceptions become values: a `Fault` in the type checker, `ok == false` in the symbol-table pass, and `None` in code generation. Code generation on a tree with an unset entry yields `None`. A missing declaration does not raise in code generation, whose incomplete-tree exceptions are off: it emits nothing.
- Sharing of entry objects between uses is not modelled. Entries are immutable, so a use holds an equal value.
- The dispatch table that a class visit both fills and lists is not modelled as an alias. The list's element is written back after each step.
- TypeRels.Ancestors: on a cyclic superclass map the source loops forever when no class matches. The model's walk stops at the first repetition instead.
- SymbolTable.ProgEffect: a program without declarations is modelled only as raising or not. It raises as soon as it uses a name, because no scope exists.
- TypeCheck.TypeOf: the null dereference and the out-of-range index inside `isSubtype` (`TypeRels.java` lines 91 and 107-108) are not modelled. The If, Equal and argument checks that reach them use the corrected relation.
- TypeRels.IsSubtype: the rest of the model uses the corrected relation of the first two findings below. The relation as written is `IsSubtypeAsWritten`.
- TypeCheck.ClassCheck: it uses the superclass's method count as the guard of the method comparison (third finding). The guard as written is exhibited by `MethodGuardAsWritten`.
- CodeGenDecs.MethodsEmit: it places an overriding method's label with `Place` (fourth finding). The insertion as written is `InsertAsWritten`.

## Findings

| source | as written | input that shows it | evidently intended | confidence | as-written member | corrected member |
|---|---|---|---|---|---|---|
| src/compiler/TypeRels.java:91 | a class reference with no recorded superclass is compared through `superType.get(a).equals(b)` | `isSubtype(RefType A, RefType B)` with an empty superclass map: null dereference | false: a root class is a subtype only of itself | not executed | TypeRels.RootClassComparisonFails | TypeRels.CorrectedSubtypeTotal |
| src/compiler/TypeRels.java:107-108 | the parameter loop runs over the left arrow's parameters with no arity check | `(Int)->Int <: ()->Int` indexes out of range; `()->Int <: (Int)->Int` is accepted | arrows of different arity are unrelated | not executed | TypeRels.ArrowArityAsWritten | TypeRels.ArrowSubtype |
| src/compiler/TypeCheckEASTVisitor.java:453 | the method comparison is guarded by the superclass's field count | superclass with two fields and one method; subclass with a second method at offset 1: index out of range | guard on the superclass's method count | not executed | TypeCheck.MethodGuardAsWritten | TypeCheck.MethodOverridesSpec |
| src/compiler/CodeGenerationASTVisitor.java:400 | an overriding method's label is inserted with `add(index, label)`, shifting later slots | superclass table [l0, l1], subclass overriding offset 0 with l2: table [l2, l0, l1] | the slot is replaced: [l2, l1] | not executed | CodeGenDecs.InsertAsWrittenCounterexample | CodeGenDecs.PlaceKeeps |
