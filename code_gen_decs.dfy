/** The declaration visits of the code generation pass and the dispatch
    tables of classes.

    The pass threads a state through its visits: the shared label counter,
    the function-label counter, the buffer that function and method bodies
    are put into, and the list of dispatch tables, one per class in
    declaration order. The functions below say what each visit emits and
    what the state becomes; `None` is a visit that throws (a null entry or a
    list index out of range), and nothing catches it. This pass does not
    raise on a declaration the parser could not build: it visits it as
    emitting nothing. The class `CodeGenerator` at the end does the same
    work step by step and is proved to agree with them. */
module CodeGenDecs {
  import opened Wrappers
  import opened Ast
  import opened CodeGen

  datatype CgState = CgState(lab: nat, funLab: nat, funCode: seq<Instr>, tables: seq<seq<Label>>)

  /** Neither label counter goes back and the list of dispatch tables does
      not get shorter. (Which earlier tables are kept is stated separately,
      where it holds.) */
  predicate Grows(st: CgState, s: CgState) {
    st.lab <= s.lab && st.funLab <= s.funLab && |st.tables| <= |s.tables|
  }

  // ---------------------------------------------------------------------------
  // Function and method bodies

  /** The end of a body: the result goes to the temporary register, then one
      pop per local declaration, the return address is restored, one pop for
      the access link, one pop per parameter, the control link is restored
      and the routine returns with the result on the stack. */
  function Epilogue(nd: nat, np: nat): Block {
    Cat(Cat(Cat(Line(Stm), Copies(Pop, nd)), Two(Sra, Pop)), Cat(Copies(Pop, np), Four(Sfp, Ltm, Lra, Js)))
  }

  /** The code of a function or method put into the buffer: its label, the
      new frame, the local declarations, the body and the epilogue. */
  function Routine(entry: Label, decl: Block, body: Block, nd: nat, np: nat): Block {
    Cat(Cat(Three(Def(entry), Cfp, Lra), Cat(decl, body)), Epilogue(nd, np))
  }

  /** The buffer with one more routine. */
  function Put(st: CgState, b: Block): CgState {
    st.(funCode := st.funCode + Flat(b))
  }

  // ---------------------------------------------------------------------------
  // Dispatch tables

  /** Where a method's label goes in its class's table, as the source
      evidently means it: a method whose offset lies inside the table
      overrides that slot, any other is appended. A negative offset makes
      the list operation throw. */
  function Place(t: seq<Label>, off: int, l: Label): Option<seq<Label>> {
    if off < |t| then
      if off < 0 then None else Some(t[off := l])
    else Some(t + [l])
  }

  /** The same step as the source writes it, with `List.add(index, element)`,
      which inserts at the index and shifts the rest of the table up. */
  function InsertAsWritten(t: seq<Label>, off: int, l: Label): Option<seq<Label>> {
    if off < |t| then
      if off < 0 then None else Some(t[..off] + [l] + t[off..])
    else Some(t + [l])
  }

  /** The seven lines that store one label of a dispatch table on the heap. */
  function StoreLabel(l: Label): Block {
    Cat(Four(PushLabel(l), Lhp, Sw, Lhp), Three(Push(1), Add, Shp))
  }

  /** The labels of a table stored on the heap in table order. */
  function DispatchCode(t: seq<Label>): Block {
    if t == [] then Nil else Cat(DispatchCode(t[..|t| - 1]), StoreLabel(t[|t| - 1]))
  }

  /** The table a class starts from: empty without a superclass, else a
      copy of the table at index -offset-2 of the superclass entry. The
      class's own empty table is already in the list when it is read, so
      that index may name it. */
  function InheritedTable(tables: seq<seq<Label>>, superEntry: Option<Entry>): Option<seq<Label>> {
    if superEntry.None? then Some([])
    else
      var all := tables + [[]];
      var j := -superEntry.value.offset - 2;
      if 0 <= j < |all| then Some(all[j]) else None
  }

  // ---------------------------------------------------------------------------
  // Declarations

  /** An expression: its code and the label counter moved past its labels. */
  function ExpEmit(mem: int, st: CgState, e: Exp): Option<(Block, CgState)> {
    if Resolved(e) then Some((Code(mem, st.lab, e), st.(lab := st.lab + 2 * Branches(e)))) else None
  }

  /** One declaration: a variable is the code of its initial value, a
      function pushes its fresh label after its body went into the buffer,
      a class loads the heap pointer (the address of its dispatch table) and
      stores its table. */
  function DecEmit(mem: int, st: CgState, d: Dec): (r: Option<(Block, CgState)>)
    ensures r.Some? ==> Grows(st, r.value.1) && r.value.1.tables[..|st.tables|] == st.tables
    decreases d, 1
  {
    match d
    case Missing => Some((Nil, st))
    case Var(_, _, x) => ExpEmit(mem, st, x)
    case Fun(_, _, pars, decs, body) =>
      (match DecsEmit(mem, st, decs)
       case None => None
       case Some((declCode, s1)) =>
         var fl := FunLabel(s1.funLab);
         match ExpEmit(mem, s1.(funLab := s1.funLab + 1), body)
         case None => None
         case Some((bodyCode, s2)) =>
           Some((Line(PushLabel(fl)), Put(s2, Routine(fl, declCode, bodyCode, |decs|, |pars|)))))
    case Class(_, _, _, methods, superEntry, _) =>
      var idx := |st.tables|;
      match InheritedTable(st.tables, superEntry)
      case None => None
      case Some(t0) =>
        match MethodsEmit(mem, st.(tables := st.tables + [t0]), idx, methods)
        case None => None
        case Some(s) => Some((Cat(Line(Lhp), DispatchCode(s.tables[idx])), s))
  }

  /** A list of declarations, joined in order. */
  function DecsEmit(mem: int, st: CgState, decs: seq<Dec>): (r: Option<(Block, CgState)>)
    ensures r.Some? ==> Grows(st, r.value.1) && r.value.1.tables[..|st.tables|] == st.tables
    decreases decs, 0
  {
    if decs == [] then Some((Nil, st))
    else
      match DecsEmit(mem, st, decs[..|decs| - 1])
      case None => None
      case Some((b, s)) =>
        match DecEmit(mem, s, decs[|decs| - 1])
        case None => None
        case Some((b2, s2)) => Some((Cat(b, b2), s2))
  }

  /** A method takes a fresh label first, then its body goes into the
      buffer; the visit yields the label. */
  function MethodEmit(mem: int, st: CgState, m: Method): (r: Option<(Label, CgState)>)
    ensures r.Some? ==> Grows(st, r.value.1) && r.value.1.tables[..|st.tables|] == st.tables
    ensures r.Some? ==> r.value.0 == Plain(st.lab) && r.value.1.lab > st.lab
    decreases m, 1
  {
    var ml := Plain(st.lab);
    match DecsEmit(mem, st.(lab := st.lab + 1), m.decs)
    case None => None
    case Some((declCode, s1)) =>
      match ExpEmit(mem, s1, m.body)
      case None => None
      case Some((bodyCode, s2)) => Some((ml, Put(s2, Routine(ml, declCode, bodyCode, |m.decs|, |m.pars|))))
  }

  /** The methods of the class whose table is at idx, in order: each is
      visited, then its label is placed in the table. */
  function MethodsEmit(mem: int, st: CgState, idx: nat, ms: seq<Method>): (r: Option<CgState>)
    requires idx < |st.tables|
    ensures r.Some? ==> Grows(st, r.value)
    ensures r.Some? ==> forall j :: 0 <= j < |st.tables| && j != idx ==> r.value.tables[j] == st.tables[j]
    decreases ms, 0
  {
    if ms == [] then Some(st)
    else
      match MethodsEmit(mem, st, idx, ms[..|ms| - 1])
      case None => None
      case Some(s) =>
        var m := ms[|ms| - 1];
        match MethodEmit(mem, s, m)
        case None => None
        case Some((ml, s2)) =>
          assert s2.tables[idx] == s2.tables[..|s.tables|][idx];
          match Place(s2.tables[idx], m.offset, ml)
          case None => None
          case Some(t) => Some(s2.(tables := s2.tables[idx := t]))
  }

  /** A program: for a let-in, `push 0`, the declarations, the main
      expression, `halt` and then the buffered bodies; a bare expression is
      followed by `halt` alone. The counters start at zero. */
  function ProgEmit(mem: int, p: Prog): Option<seq<Instr>> {
    var st := CgState(0, 0, [], []);
    match p
    case Bare(e) =>
      if Resolved(e) then Some(Flat(Code(mem, 0, e)) + [Halt]) else None
    case LetIn(decs, e) =>
      match DecsEmit(mem, st, decs)
      case None => None
      case Some((declCode, s1)) =>
        match ExpEmit(mem, s1, e)
        case None => None
        case Some((mainCode, s2)) => Some([Push(0)] + Flat(declCode) + Flat(mainCode) + [Halt] + s2.funCode)
  }

  // ---------------------------------------------------------------------------
  // Bodies and tables: layout

  /** The epilogue pops each local declaration, the access link and each
      parameter: nd + 1 + np pops in all, the access link's between the
      restoring of the return address and the parameters. */
  lemma EpilogueLayout(nd: nat, np: nat)
    ensures Flat(Epilogue(nd, np))
      == [Stm] + Flat(Copies(Pop, nd)) + [Sra, Pop] + Flat(Copies(Pop, np)) + [Sfp, Ltm, Lra, Js]
  {
    var locals, pars := Flat(Copies(Pop, nd)), Flat(Copies(Pop, np));
    FlatFour(Sfp, Ltm, Lra, Js);
    assert Flat(Two(Sra, Pop)) == [Sra, Pop];
    assert Flat(Cat(Line(Stm), Copies(Pop, nd))) == [Stm] + locals;
    assert Flat(Cat(Cat(Line(Stm), Copies(Pop, nd)), Two(Sra, Pop))) == [Stm] + locals + [Sra, Pop];
    assert Flat(Cat(Copies(Pop, np), Four(Sfp, Ltm, Lra, Js))) == pars + [Sfp, Ltm, Lra, Js];
  }

  lemma EpiloguePops(nd: nat, np: nat)
    ensures Count(Epilogue(nd, np), Pop) == nd + 1 + np
  {
    CopiesCount(Pop, nd, Pop);
    CopiesCount(Pop, np, Pop);
    CountTwo(Sra, Pop, Pop);
    CountFour(Sfp, Ltm, Lra, Js, Pop);
    assert Count(Cat(Line(Stm), Copies(Pop, nd)), Pop) == nd;
  }

  lemma EpilogueDefinesNothing(nd: nat, np: nat, l: Label)
    ensures Count(Epilogue(nd, np), Def(l)) == 0
  {
    CopiesCount(Pop, nd, Def(l));
    CopiesCount(Pop, np, Def(l));
    CountTwo(Sra, Pop, Def(l));
    CountFour(Sfp, Ltm, Lra, Js, Def(l));
    assert Count(Cat(Line(Stm), Copies(Pop, nd)), Def(l)) == 0;
  }

  /** A body pops whatever its declarations and its expression pop, plus one
      slot per local declaration, the access link and one per parameter. */
  lemma RoutinePops(entry: Label, decl: Block, body: Block, nd: nat, np: nat)
    ensures Count(Routine(entry, decl, body, nd, np), Pop) == Count(decl, Pop) + Count(body, Pop) + nd + 1 + np
  {
    EpiloguePops(nd, np);
    CountThree(Def(entry), Cfp, Lra, Pop);
    assert Count(Line(Def(entry)), Pop) == 0 && Count(Line(Cfp), Pop) == 0 && Count(Line(Lra), Pop) == 0;
    assert Count(Cat(decl, body), Pop) == Count(decl, Pop) + Count(body, Pop);
  }

  /** Two bodies whose declaration code reads alike, one with an extra local
      slot: put after the same buffer, the second has one more pop. */
  lemma RoutineExtraPop(fc: seq<Instr>, entry: Label, decl: Block, decl': Block, body: Block, nd: nat, np: nat)
    requires Flat(decl') == Flat(decl)
    ensures Occurrences(fc + Flat(Routine(entry, decl', body, nd + 1, np)), Pop)
      == Occurrences(fc + Flat(Routine(entry, decl, body, nd, np)), Pop) + 1
  {
    var rt, rt' := Routine(entry, decl, body, nd, np), Routine(entry, decl', body, nd + 1, np);
    CountFlat(decl, Pop);
    CountFlat(decl', Pop);
    RoutinePops(entry, decl, body, nd, np);
    RoutinePops(entry, decl', body, nd + 1, np);
    OccurrencesConcat(fc, Flat(rt), Pop);
    OccurrencesConcat(fc, Flat(rt'), Pop);
    CountFlat(rt, Pop);
    CountFlat(rt', Pop);
  }

  /** A body defines its own label and whatever its declarations and its
      expression define; the rest of it defines nothing. */
  lemma RoutineDefines(entry: Label, decl: Block, body: Block, nd: nat, np: nat, l: Label)
    ensures Count(Routine(entry, decl, body, nd, np), Def(l))
      == (if l == entry then 1 else 0) + Count(decl, Def(l)) + Count(body, Def(l))
  {
    EpilogueDefinesNothing(nd, np, l);
    CountThree(Def(entry), Cfp, Lra, Def(l));
    assert Count(Cat(decl, body), Def(l)) == Count(decl, Def(l)) + Count(body, Def(l));
  }

  /** The corrected placement overrides the slot of an inherited method and
      keeps every other slot; a new method goes at the end. */
  lemma PlaceKeeps(t: seq<Label>, off: int, l: Label)
    ensures Place(t, off, l).Some? <==> off >= 0
    ensures off >= 0 ==> var r := Place(t, off, l).value;
      |r| == (if off < |t| then |t| else |t| + 1)
      && r[if off < |t| then off else |t|] == l
      && forall i :: 0 <= i < |t| && i != off ==> r[i] == t[i]
  {
  }

  /** As written, an overriding method is inserted: every slot from its
      offset on moves up by one, so the inherited method at that offset
      stays in the table one slot too high, and so do all the methods
      after it. */
  lemma InsertAsWrittenShifts(t: seq<Label>, off: int, l: Label)
    requires 0 <= off < |t|
    ensures var r := InsertAsWritten(t, off, l).value;
      |r| == |t| + 1 && r[off] == l && r[off + 1..] == t[off..]
  {
  }

  /** Overriding the first of two inherited methods: the table as written
      becomes three entries long and its slot 1 holds the overridden
      method, where the evidently intended table keeps the second inherited
      method there. */
  lemma InsertAsWrittenCounterexample()
    ensures InsertAsWritten([Plain(0), Plain(1)], 0, Plain(2)) == Some([Plain(2), Plain(0), Plain(1)])
    ensures Place([Plain(0), Plain(1)], 0, Plain(2)) == Some([Plain(2), Plain(1)])
  {
    assert [Plain(0), Plain(1)][..0] + [Plain(2)] + [Plain(0), Plain(1)][0..] == [Plain(2), Plain(0), Plain(1)];
    assert [Plain(0), Plain(1)][0 := Plain(2)] == [Plain(2), Plain(1)];
  }

  /** A class stores its table on the heap seven lines per slot, in slot
      order, each block starting with the slot's label. */
  lemma {:induction false} DispatchCodeLayout(t: seq<Label>)
    ensures |Flat(DispatchCode(t))| == 7 * |t|
    ensures forall i :: 0 <= i < |t| ==> Flat(DispatchCode(t))[7 * i] == PushLabel(t[i])
  {
    if t != [] {
      var init := t[..|t| - 1];
      DispatchCodeLayout(init);
      var x := t[|t| - 1];
      FlatFour(PushLabel(x), Lhp, Sw, Lhp);
      FlatThree(Push(1), Add, Shp);
      assert Flat(StoreLabel(x)) == [PushLabel(x), Lhp, Sw, Lhp, Push(1), Add, Shp];
      forall i | 0 <= i < |t|
        ensures Flat(DispatchCode(t))[7 * i] == PushLabel(t[i])
      {
        if i < |init| {
          assert t[i] == init[i];
        }
      }
    }
  }

  lemma {:induction false} DispatchCodeDefinesNothing(t: seq<Label>, l: Label)
    ensures Count(DispatchCode(t), Def(l)) == 0
  {
    if t != [] {
      DispatchCodeDefinesNothing(t[..|t| - 1], l);
      CountFour(PushLabel(t[|t| - 1]), Lhp, Sw, Lhp, Def(l));
      CountThree(Push(1), Add, Shp, Def(l));
    }
  }

  // ---------------------------------------------------------------------------
  // Every label is defined once

  /** 1 when l is one of the function labels numbered lo to hi - 1, else 0. */
  function FunMinted(l: Label, lo: nat, hi: nat): nat {
    if l.FunLabel? && lo <= l.n < hi then 1 else 0
  }

  /** 1 when l is one of the labels of either kind minted from state st to
      state s, else 0. */
  function Fresh(l: Label, st: CgState, s: CgState): nat {
    Minted(l, st.lab, s.lab) + FunMinted(l, st.funLab, s.funLab)
  }

  lemma PutDefines(st: CgState, b: Block, l: Label)
    ensures Occurrences(Put(st, b).funCode, Def(l)) == Occurrences(st.funCode, Def(l)) + Count(b, Def(l))
  {
    OccurrencesConcat(st.funCode, Flat(b), Def(l));
    CountFlat(b, Def(l));
  }

  lemma ExpEmitDefines(mem: int, st: CgState, e: Exp, l: Label)
    requires ExpEmit(mem, st, e).Some?
    ensures Count(ExpEmit(mem, st, e).value.0, Def(l)) == Minted(l, st.lab, ExpEmit(mem, st, e).value.1.lab)
  {
    CodeDefines(mem, st.lab, e, l);
  }

  /** The code a declaration yields and the bodies it puts into the buffer
      define each label the declaration minted exactly once, and no other
      label. */
  lemma {:induction false} DecEmitDefines(mem: int, st: CgState, d: Dec, l: Label)
    requires DecEmit(mem, st, d).Some?
    ensures var (b, s) := DecEmit(mem, st, d).value;
      Count(b, Def(l)) + Occurrences(s.funCode, Def(l)) == Occurrences(st.funCode, Def(l)) + Fresh(l, st, s)
    decreases d, 1
  {
    match d
    case Missing =>
    case Var(_, _, x) => ExpEmitDefines(mem, st, x, l);
    case Fun(_, _, _, _, _) => FunDefines(mem, st, d, l);
    case Class(_, _, _, _, _, _) => ClassDefines(mem, st, d, l);
  }

  lemma {:induction false} FunDefines(mem: int, st: CgState, d: Dec, l: Label)
    requires d.Fun? && DecEmit(mem, st, d).Some?
    ensures var (b, s) := DecEmit(mem, st, d).value;
      Count(b, Def(l)) + Occurrences(s.funCode, Def(l)) == Occurrences(st.funCode, Def(l)) + Fresh(l, st, s)
    decreases d, 0
  {
    var (declCode, s1) := DecsEmit(mem, st, d.decs).value;
    DecsEmitDefines(mem, st, d.decs, l);
    var s1' := s1.(funLab := s1.funLab + 1);
    ExpEmitDefines(mem, s1', d.body, l);
    var (bodyCode, s2) := ExpEmit(mem, s1', d.body).value;
    var fl := FunLabel(s1.funLab);
    RoutineDefines(fl, declCode, bodyCode, |d.decs|, |d.pars|, l);
    PutDefines(s2, Routine(fl, declCode, bodyCode, |d.decs|, |d.pars|), l);
  }

  lemma {:induction false} ClassDefines(mem: int, st: CgState, d: Dec, l: Label)
    requires d.Class? && DecEmit(mem, st, d).Some?
    ensures var (b, s) := DecEmit(mem, st, d).value;
      Count(b, Def(l)) + Occurrences(s.funCode, Def(l)) == Occurrences(st.funCode, Def(l)) + Fresh(l, st, s)
    decreases d, 0
  {
    var idx := |st.tables|;
    var t0 := InheritedTable(st.tables, d.superEntry).value;
    var st' := st.(tables := st.tables + [t0]);
    MethodsEmitDefines(mem, st', idx, d.methods, l);
    var s := MethodsEmit(mem, st', idx, d.methods).value;
    DispatchCodeDefinesNothing(s.tables[idx], l);
  }

  lemma {:induction false} DecsEmitDefines(mem: int, st: CgState, decs: seq<Dec>, l: Label)
    requires DecsEmit(mem, st, decs).Some?
    ensures var (b, s) := DecsEmit(mem, st, decs).value;
      Count(b, Def(l)) + Occurrences(s.funCode, Def(l)) == Occurrences(st.funCode, Def(l)) + Fresh(l, st, s)
    decreases decs, 0
  {
    if decs != [] {
      var init := decs[..|decs| - 1];
      DecsEmitDefines(mem, st, init, l);
      var s := DecsEmit(mem, st, init).value.1;
      DecEmitDefines(mem, s, decs[|decs| - 1], l);
    }
  }

  /** A method's body, with its label, goes into the buffer. */
  lemma {:induction false} MethodEmitDefines(mem: int, st: CgState, m: Method, l: Label)
    requires MethodEmit(mem, st, m).Some?
    ensures var (_, s) := MethodEmit(mem, st, m).value;
      Occurrences(s.funCode, Def(l)) == Occurrences(st.funCode, Def(l)) + Fresh(l, st, s)
    decreases m, 1
  {
    var ml := Plain(st.lab);
    var st' := st.(lab := st.lab + 1);
    var (declCode, s1) := DecsEmit(mem, st', m.decs).value;
    DecsEmitDefines(mem, st', m.decs, l);
    ExpEmitDefines(mem, s1, m.body, l);
    var (bodyCode, s2) := ExpEmit(mem, s1, m.body).value;
    RoutineDefines(ml, declCode, bodyCode, |m.decs|, |m.pars|, l);
    PutDefines(s2, Routine(ml, declCode, bodyCode, |m.decs|, |m.pars|), l);
  }

  lemma {:induction false} MethodsEmitDefines(mem: int, st: CgState, idx: nat, ms: seq<Method>, l: Label)
    requires idx < |st.tables| && MethodsEmit(mem, st, idx, ms).Some?
    ensures Occurrences(MethodsEmit(mem, st, idx, ms).value.funCode, Def(l))
      == Occurrences(st.funCode, Def(l)) + Fresh(l, st, MethodsEmit(mem, st, idx, ms).value)
    decreases ms, 0
  {
    if ms != [] {
      var init := ms[..|ms| - 1];
      MethodsEmitDefines(mem, st, idx, init, l);
      var s := MethodsEmit(mem, st, idx, init).value;
      MethodEmitDefines(mem, s, ms[|ms| - 1], l);
    }
  }

  /** The frame of a program's code: `push 0`, the declarations, the body,
      `halt` and the buffered bodies. Only the three parts define labels. */
  lemma ProgFrameOccurrences(decl: seq<Instr>, main: seq<Instr>, bodies: seq<Instr>, l: Label)
    ensures Occurrences([Push(0)] + decl + main + [Halt] + bodies, Def(l))
      == Occurrences(decl, Def(l)) + Occurrences(main, Def(l)) + Occurrences(bodies, Def(l))
  {
    var d := Def(l);
    var a := [Push(0)] + decl;
    OccurrencesConcat([Push(0)], decl, d);
    OccurrencesConcat(a, main, d);
    OccurrencesConcat(a + main, [Halt], d);
    OccurrencesConcat(a + main + [Halt], bodies, d);
    assert Occurrences([Push(0)], d) == 0 by { assert [Push(0)][..0] == []; }
    assert Occurrences([Halt], d) == 0 by { assert [Halt][..0] == []; }
  }

  /** In the code of a whole let-in program every label minted while it was
      generated, of either kind, is defined exactly once, and no other label
      is defined. */
  lemma ProgEmitDefines(mem: int, decs: seq<Dec>, e: Exp, l: Label)
    requires ProgEmit(mem, LetIn(decs, e)).Some?
    ensures var s1 := DecsEmit(mem, CgState(0, 0, [], []), decs).value.1;
      var s2 := ExpEmit(mem, s1, e).value.1;
      Occurrences(ProgEmit(mem, LetIn(decs, e)).value, Def(l)) == Minted(l, 0, s2.lab) + FunMinted(l, 0, s2.funLab)
    ensures Occurrences(ProgEmit(mem, LetIn(decs, e)).value, Def(l)) <= 1
  {
    var st := CgState(0, 0, [], []);
    var (declCode, s1) := DecsEmit(mem, st, decs).value;
    DecsEmitDefines(mem, st, decs, l);
    ExpEmitDefines(mem, s1, e, l);
    var (mainCode, s2) := ExpEmit(mem, s1, e).value;
    assert ProgEmit(mem, LetIn(decs, e)).value == [Push(0)] + Flat(declCode) + Flat(mainCode) + [Halt] + s2.funCode;
    ProgFrameOccurrences(Flat(declCode), Flat(mainCode), s2.funCode, l);
    CountFlat(declCode, Def(l));
    CountFlat(mainCode, Def(l));
  }

  // ---------------------------------------------------------------------------
  // Declarations the parser could not build

  /** A declaration the parser could not build emits nothing: appending it to
      a list changes neither the code nor the state. */
  lemma MissingDecEmitsNothing(mem: int, st: CgState, decs: seq<Dec>)
    ensures DecsEmit(mem, st, decs + [Missing]).Some? <==> DecsEmit(mem, st, decs).Some?
    ensures DecsEmit(mem, st, decs).Some? ==>
      Flat(DecsEmit(mem, st, decs + [Missing]).value.0) == Flat(DecsEmit(mem, st, decs).value.0)
      && DecsEmit(mem, st, decs + [Missing]).value.1 == DecsEmit(mem, st, decs).value.1
  {
    assert (decs + [Missing])[..|decs|] == decs;
  }

  /** A function still pops the slot of a local declaration the parser could
      not build: its code and counters are those without it, and its body in
      the buffer has one more pop. */
  lemma MissingLocalPopped(mem: int, st: CgState, id: string, ret: Type, pars: seq<Par>, decs: seq<Dec>, body: Exp)
    ensures DecEmit(mem, st, Fun(id, ret, pars, decs + [Missing], body)).Some?
      <==> DecEmit(mem, st, Fun(id, ret, pars, decs, body)).Some?
    ensures DecEmit(mem, st, Fun(id, ret, pars, decs, body)).Some? ==>
      var (b', s') := DecEmit(mem, st, Fun(id, ret, pars, decs + [Missing], body)).value;
      var (b, s) := DecEmit(mem, st, Fun(id, ret, pars, decs, body)).value;
      && b' == b && s'.lab == s.lab && s'.funLab == s.funLab && s'.tables == s.tables
      && Occurrences(s'.funCode, Pop) == Occurrences(s.funCode, Pop) + 1
  {
    MissingDecEmitsNothing(mem, st, decs);
    if DecsEmit(mem, st, decs).Some? {
      var (declCode, s1) := DecsEmit(mem, st, decs).value;
      var declCode' := DecsEmit(mem, st, decs + [Missing]).value.0;
      var fl := FunLabel(s1.funLab);
      var s1' := s1.(funLab := s1.funLab + 1);
      if ExpEmit(mem, s1', body).Some? {
        var (bodyCode, s2) := ExpEmit(mem, s1', body).value;
        RoutineExtraPop(s2.funCode, fl, declCode, declCode', bodyCode, |decs|, |pars|);
      }
    }
  }

  // ---------------------------------------------------------------------------
  // Inherited slots

  /** Placing the methods of a class keeps every slot of the table it
      started from that no method's offset names, and never shortens it. */
  lemma {:induction false} MethodsEmitKeeps(mem: int, st: CgState, idx: nat, ms: seq<Method>, i: nat)
    requires idx < |st.tables| && MethodsEmit(mem, st, idx, ms).Some?
    requires i < |st.tables[idx]|
    requires forall k :: 0 <= k < |ms| ==> ms[k].offset != i
    ensures var t := MethodsEmit(mem, st, idx, ms).value.tables[idx];
      |st.tables[idx]| <= |t| && t[i] == st.tables[idx][i]
    decreases ms
  {
    if ms != [] {
      var init := ms[..|ms| - 1];
      MethodsEmitKeeps(mem, st, idx, init, i);
      var s := MethodsEmit(mem, st, idx, init).value;
      var m := ms[|ms| - 1];
      var s2 := MethodEmit(mem, s, m).value.1;
      assert s2.tables[idx] == s2.tables[..|s.tables|][idx];
      PlaceKeeps(s2.tables[idx], m.offset, MethodEmit(mem, s, m).value.0);
    }
  }

  /** A class appends one table, which starts as a copy of its superclass's
      table (or empty) and keeps each inherited slot that none of its
      methods overrides. */
  lemma ClassInherits(mem: int, st: CgState, d: Dec, i: nat)
    requires d.Class? && DecEmit(mem, st, d).Some?
    requires InheritedTable(st.tables, d.superEntry).Some?
    requires i < |InheritedTable(st.tables, d.superEntry).value|
    requires forall k :: 0 <= k < |d.methods| ==> d.methods[k].offset != i
    ensures var s := DecEmit(mem, st, d).value.1;
      |s.tables| > |st.tables| && s.tables[..|st.tables|] == st.tables
      && i < |s.tables[|st.tables|]| && s.tables[|st.tables|][i] == InheritedTable(st.tables, d.superEntry).value[i]
  {
    var t0 := InheritedTable(st.tables, d.superEntry).value;
    MethodsEmitKeeps(mem, st.(tables := st.tables + [t0]), |st.tables|, d.methods, i);
  }

  /** Once a visit of a list has failed, visiting more of the list fails
      too. */
  lemma {:induction false} DecsEmitPrefix(mem: int, st: CgState, decs: seq<Dec>, k: nat)
    requires k <= |decs| && DecsEmit(mem, st, decs[..k]).None?
    ensures DecsEmit(mem, st, decs).None?
    decreases |decs|
  {
    if k < |decs| {
      assert decs[..|decs| - 1][..k] == decs[..k];
      DecsEmitPrefix(mem, st, decs[..|decs| - 1], k);
    } else {
      assert decs[..k] == decs;
    }
  }

  lemma {:induction false} MethodsEmitPrefix(mem: int, st: CgState, idx: nat, ms: seq<Method>, k: nat)
    requires idx < |st.tables| && k <= |ms| && MethodsEmit(mem, st, idx, ms[..k]).None?
    ensures MethodsEmit(mem, st, idx, ms).None?
    decreases |ms|
  {
    if k < |ms| {
      assert ms[..|ms| - 1][..k] == ms[..k];
      MethodsEmitPrefix(mem, st, idx, ms[..|ms| - 1], k);
    } else {
      assert ms[..k] == ms;
    }
  }

  // ---------------------------------------------------------------------------
  // The generator

  /** The pass's state as an object: the label counters and the body buffer
      of the library the pass calls, and its list of dispatch tables. `mem`
      is the machine's memory size. Each visit that fails returns `false`
      and leaves the state unspecified, as the exception it models aborts
      the pass. */
  class CodeGenerator {
    const mem: int
    var lab: nat
    var funLab: nat
    var funCode: seq<Instr>
    var tables: seq<seq<Label>>

    function State(): CgState
      reads this
    {
      CgState(lab, funLab, funCode, tables)
    }

    constructor(mem: int)
      ensures this.mem == mem && State() == CgState(0, 0, [], [])
    {
      this.mem := mem;
      lab, funLab, funCode, tables := 0, 0, [], [];
    }

    method FreshLabel() returns (l: Label)
      modifies this
      ensures l == Plain(old(lab)) && State() == old(State()).(lab := old(lab) + 1)
    {
      l := Plain(lab);
      lab := lab + 1;
    }

    method FreshFunLabel() returns (l: Label)
      modifies this
      ensures l == FunLabel(old(funLab)) && State() == old(State()).(funLab := old(funLab) + 1)
    {
      l := FunLabel(funLab);
      funLab := funLab + 1;
    }

    method PutCode(b: Block)
      modifies this
      ensures State() == Put(old(State()), b)
    {
      funCode := funCode + Flat(b);
    }

    /** n pops, joined one at a time. */
    method Pops(n: nat) returns (b: Block)
      ensures b == Copies(Pop, n)
    {
      b := Nil;
      var i := 0;
      while i < n
        invariant i <= n && b == Copies(Pop, i)
      {
        b := Cat(b, Line(Pop));
        i := i + 1;
      }
    }

    method VisitExp(e: Exp) returns (ok: bool, code: Block)
      modifies this
      ensures ok == ExpEmit(mem, old(State()), e).Some?
      ensures ok ==> (code, State()) == ExpEmit(mem, old(State()), e).value
    {
      if !Resolved(e) {
        return false, Nil;
      }
      code := Code(mem, lab, e);
      lab := lab + 2 * Branches(e);
      ok := true;
    }

    method VisitDec(d: Dec) returns (ok: bool, code: Block)
      modifies this
      ensures ok == DecEmit(mem, old(State()), d).Some?
      ensures ok ==> (code, State()) == DecEmit(mem, old(State()), d).value
      decreases d, 2
    {
      match d
      case Missing => ok, code := true, Nil;
      case Var(_, _, x) => ok, code := VisitExp(x);
      case Fun(_, _, _, _, _) => ok, code := VisitFun(d);
      case Class(_, _, _, _, _, _) => ok, code := VisitClass(d);
    }

    /** The declarations of a list in order, their code joined. */
    method VisitDecs(decs: seq<Dec>) returns (ok: bool, code: Block)
      modifies this
      ensures ok == DecsEmit(mem, old(State()), decs).Some?
      ensures ok ==> (code, State()) == DecsEmit(mem, old(State()), decs).value
      decreases decs, 0
    {
      ghost var st := State();
      code := Nil;
      var i := 0;
      while i < |decs|
        invariant i <= |decs|
        invariant DecsEmit(mem, st, decs[..i]) == Some((code, State()))
      {
        var c;
        ok, c := VisitDec(decs[i]);
        assert decs[..i + 1][..i] == decs[..i];
        if !ok {
          DecsEmitPrefix(mem, st, decs, i + 1);
          return;
        }
        code := Cat(code, c);
        i := i + 1;
      }
      assert decs[..i] == decs;
      ok := true;
    }

    /** A function: its declarations, its fresh label, its body into the
        buffer, and `push` of its label as the declaration's code. */
    method VisitFun(d: Dec) returns (ok: bool, code: Block)
      requires d.Fun?
      modifies this
      ensures ok == DecEmit(mem, old(State()), d).Some?
      ensures ok ==> (code, State()) == DecEmit(mem, old(State()), d).value
      decreases d, 1
    {
      var declCode, bodyCode;
      ok, declCode := VisitDecs(d.decs);
      if !ok {
        return false, Nil;
      }
      var popDecl := Pops(|d.decs|);
      var popParl := Pops(|d.pars|);
      var funl := FreshFunLabel();
      ok, bodyCode := VisitExp(d.body);
      if !ok {
        return false, Nil;
      }
      PutCode(Cat(Cat(Three(Def(funl), Cfp, Lra), Cat(declCode, bodyCode)),
                  Cat(Cat(Cat(Line(Stm), popDecl), Two(Sra, Pop)), Cat(popParl, Four(Sfp, Ltm, Lra, Js)))));
      code := Line(PushLabel(funl));
    }

    /** A method: its fresh label first, then its declarations and its body
        into the buffer; the label is what the class's table receives. */
    method VisitMethod(m: Method) returns (ok: bool, ml: Label)
      modifies this
      ensures ok == MethodEmit(mem, old(State()), m).Some?
      ensures ok ==> (ml, State()) == MethodEmit(mem, old(State()), m).value
      decreases m, 1
    {
      ml := FreshLabel();
      var declCode, bodyCode;
      ok, declCode := VisitDecs(m.decs);
      if !ok {
        return;
      }
      var popDecl := Pops(|m.decs|);
      var popParl := Pops(|m.pars|);
      ok, bodyCode := VisitExp(m.body);
      if !ok {
        return;
      }
      PutCode(Cat(Cat(Three(Def(ml), Cfp, Lra), Cat(declCode, bodyCode)),
                  Cat(Cat(Cat(Line(Stm), popDecl), Two(Sra, Pop)), Cat(popParl, Four(Sfp, Ltm, Lra, Js)))));
    }

    /** A class: its table joins the list at once, is filled from the
        superclass's table and its own methods, and is then stored on the
        heap. */
    method VisitClass(d: Dec) returns (ok: bool, code: Block)
      requires d.Class?
      modifies this
      ensures ok == DecEmit(mem, old(State()), d).Some?
      ensures ok ==> (code, State()) == DecEmit(mem, old(State()), d).value
      decreases d, 1
    {
      var idx := |tables|;
      tables := tables + [[]];
      var table: seq<Label> := [];
      if d.superEntry.Some? {
        var j := -d.superEntry.value.offset - 2;
        if !(0 <= j < |tables|) {
          assert InheritedTable(old(tables), d.superEntry).None?;
          return false, Nil;
        }
        table := tables[j];
      }
      tables := tables[idx := table];
      assert InheritedTable(old(tables), d.superEntry) == Some(table);
      assert State() == old(State()).(tables := old(tables) + [table]);
      ok := PlaceMethods(idx, d.methods);
      if !ok {
        return false, Nil;
      }
      var dispatchCode := StoreTable(tables[idx]);
      code := Cat(Line(Lhp), dispatchCode);
    }

    /** The methods of the class whose table is at idx: each is visited and
        its label overrides the slot at its offset when the offset lies
        inside the table, or is appended. */
    method PlaceMethods(idx: nat, ms: seq<Method>) returns (ok: bool)
      requires idx < |tables|
      modifies this
      ensures ok == MethodsEmit(mem, old(State()), idx, ms).Some?
      ensures ok ==> State() == MethodsEmit(mem, old(State()), idx, ms).value
      decreases ms, 0
    {
      ghost var st := State();
      var i := 0;
      while i < |ms|
        invariant i <= |ms| && idx < |tables|
        invariant MethodsEmit(mem, st, idx, ms[..i]) == Some(State())
      {
        var m := ms[i];
        var ml;
        ok, ml := VisitMethod(m);
        assert ms[..i + 1][..i] == ms[..i];
        if !ok {
          MethodsEmitPrefix(mem, st, idx, ms, i + 1);
          return;
        }
        assert tables[idx] == tables[..|st.tables|][idx];
        var table := tables[idx];
        if m.offset < |table| {
          if m.offset < 0 {
            MethodsEmitPrefix(mem, st, idx, ms, i + 1);
            return false;
          }
          table := table[m.offset := ml];
        } else {
          table := table + [ml];
        }
        tables := tables[idx := table];
        i := i + 1;
      }
      assert ms[..i] == ms;
      ok := true;
    }

    /** The heap stores of a table's labels, one slot at a time. */
    method StoreTable(table: seq<Label>) returns (code: Block)
      ensures code == DispatchCode(table)
    {
      code := Nil;
      var k := 0;
      while k < |table|
        invariant k <= |table| && code == DispatchCode(table[..k])
      {
        assert table[..k + 1][..k] == table[..k];
        code := Cat(code, StoreLabel(table[k]));
        k := k + 1;
      }
      assert table[..k] == table;
    }

    /** A whole program, on a fresh generator. */
    method VisitProg(p: Prog) returns (ok: bool, code: seq<Instr>)
      requires State() == CgState(0, 0, [], [])
      modifies this
      ensures ok == ProgEmit(mem, p).Some?
      ensures ok ==> code == ProgEmit(mem, p).value
    {
      match p
      case Bare(e) =>
        var c;
        ok, c := VisitExp(e);
        code := if ok then Flat(c) + [Halt] else [];
      case LetIn(decs, e) =>
        var declCode, mainCode;
        ok, declCode := VisitDecs(decs);
        if !ok {
          return false, [];
        }
        ok, mainCode := VisitExp(e);
        if !ok {
          return false, [];
        }
        code := [Push(0)] + Flat(declCode) + Flat(mainCode) + [Halt] + funCode;
    }
  }
}
