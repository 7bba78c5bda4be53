/**
 * Where the generated relative jumps land, stated as index arithmetic on the
 * emitted code. Two readings of an offset are possible: measured from the
 * jump's own index (the target of the jump at `p` is `p + d`), or from the
 * next instruction (`p + 1 + d`). The If rule and the 0/1 idiom are right
 * under the first reading, the While rule only under the second; both
 * readings are worked out below and neither fits all three rules.
 */
module SC0Jumps {
  import opened Wrappers
  import opened Ast0
  import opened SC0
  import opened SC0Gen
  import SC0Exp

  /** The target of the jump at `p`, offsets measured from the jump itself. */
  function OwnTarget(code: seq<Instr>, p: nat): int
    requires p < |code| && code[p].Jump?
  {
    p + code[p].offset
  }

  /** The target of the jump at `p`, offsets measured from the instruction after it. */
  function NextTarget(code: seq<Instr>, p: nat): int
    requires p < |code| && code[p].Jump?
  {
    p + 1 + code[p].offset
  }

  /**
   * The 0/1 idiom anywhere in the code, own-index reading: the conditional
   * jump lands on `CONST 1`, falling through reaches `CONST 0`, whose GOTO
   * lands just past the idiom. Under the next-index reading the
   * conditional jump instead skips `CONST 1`.
   */
  lemma IdiomLanding(pre: seq<Instr>, j: Opcode, post: seq<Instr>)
    ensures var code := pre + BoolIdiom(j) + post; var p := |pre|;
      code[p].Jump? && code[p].op == j && OwnTarget(code, p) == p + 3 && code[p + 3] == Const(1) &&
      code[p + 1] == Const(0) &&
      code[p + 2] == Jump(GOTO, 2) && OwnTarget(code, p + 2) == p + |BoolIdiom(j)| &&
      NextTarget(code, p) == p + |BoolIdiom(j)|
  {
    var code := pre + BoolIdiom(j) + post;
    var p := |pre|;
    assert code[p..p + 4] == BoolIdiom(j);
  }

  /**
   * If without else: condition, IFZ, then-branch. The IFZ's own-index
   * target is the end of the code, just past the then-branch, which is all
   * that lies between; under the next-index reading it would be one further.
   */
  lemma IfLanding(c: Exp, s1: Stmt, vars: Vars)
    requires GenStmt(If(c, s1, None), vars).Ok?
    ensures GenExp(c, vars).Ok? && GenStmt(s1, vars).Ok?
    ensures var code := GenStmt(If(c, s1, None), vars).value.code;
      var cc, c1 := GenExp(c, vars).value, GenStmt(s1, vars).value.code;
      var p := |cc|;
      p < |code| && code[..p] == cc && code[p].Jump? && code[p].op == IFZ &&
      code[p + 1..] == c1 &&
      OwnTarget(code, p) == |code| && NextTarget(code, p) == |code| + 1
  {
    IfParts(c, s1, vars);
    var code := GenStmt(If(c, s1, None), vars).value.code;
    var cc, c1 := GenExp(c, vars).value, GenStmt(s1, vars).value.code;
    assert code[..|cc|] == cc;
    assert code[|cc| + 1..] == c1;
  }

  /**
   * If with else: condition, IFZ, then-branch, GOTO, else-branch. Own-index
   * reading: the IFZ lands on the first instruction of the else-branch, and
   * the GOTO ending the then-branch lands just past the else-branch.
   */
  lemma IfElseLanding(c: Exp, s1: Stmt, s2: Stmt, vars: Vars)
    requires GenStmt(If(c, s1, Some(s2)), vars).Ok?
    ensures GenExp(c, vars).Ok? && GenStmt(s1, vars).Ok? && GenStmt(s2, GenStmt(s1, vars).value.vars).Ok?
    ensures var code := GenStmt(If(c, s1, Some(s2)), vars).value.code;
      var cc, c1 := GenExp(c, vars).value, GenStmt(s1, vars).value.code;
      var c2 := GenStmt(s2, GenStmt(s1, vars).value.vars).value.code;
      var p := |cc|;
      var q := p + 1 + |c1|;
      q < |code| && code[..p] == cc && code[p + 1..q] == c1 &&
      code[p].Jump? && code[p].op == IFZ && OwnTarget(code, p) == q + 1 && code[q + 1..] == c2 &&
      code[q].Jump? && code[q].op == GOTO && OwnTarget(code, q) == |code|
  {
    IfElseParts(c, s1, s2, vars);
    var cc, c1 := GenExp(c, vars).value, GenStmt(s1, vars).value.code;
    var c2 := GenStmt(s2, GenStmt(s1, vars).value.vars).value.code;
    IfElseShape(cc, c1, c2);
  }

  /** The If-with-else layout, as positions in the concatenated code. */
  lemma IfElseShape(cc: seq<Instr>, c1: seq<Instr>, c2: seq<Instr>)
    ensures var code := cc + [Jump(IFZ, |c1| + 2)] + c1 + [Jump(GOTO, |c2| + 1)] + c2;
      var p := |cc|;
      var q := p + 1 + |c1|;
      q < |code| && code[..p] == cc && code[p + 1..q] == c1 &&
      code[p] == Jump(IFZ, |c1| + 2) && OwnTarget(code, p) == q + 1 && code[q + 1..] == c2 &&
      code[q] == Jump(GOTO, |c2| + 1) && OwnTarget(code, q) == |code|
  {
    var code := cc + [Jump(IFZ, |c1| + 2)] + c1 + [Jump(GOTO, |c2| + 1)] + c2;
    var p := |cc|;
    var q := p + 1 + |c1|;
    assert code[..p] == cc;
    assert code[p + 1..q] == c1;
    assert code[q + 1..] == c2;
  }

  /**
   * While: condition, IFZ, body, GOTO; |cond| + |body| + 2 instructions in
   * all. Own-index reading: the IFZ lands on the trailing GOTO instead of
   * past it, and the GOTO lands one before the condition's first
   * instruction. Next-index reading: the IFZ leaves the loop and the GOTO
   * returns to the condition.
   */
  lemma WhileLanding(c: Exp, body: Stmt, vars: Vars)
    requires GenStmt(While(c, body), vars).Ok?
    ensures GenExp(c, vars).Ok? && GenStmt(body, vars).Ok?
    ensures var code := GenStmt(While(c, body), vars).value.code;
      var cc, cb := GenExp(c, vars).value, GenStmt(body, vars).value.code;
      var p := |cc|;
      var q := |code| - 1;
      |code| == |cc| + |cb| + 2 &&
      code[..p] == cc && code[p + 1..q] == cb &&
      code[p] == Jump(IFZ, |cb| + 1) && code[q] == Jump(GOTO, -(|cc| + |cb| + 2)) &&
      OwnTarget(code, p) == q && OwnTarget(code, q) == -1 &&
      NextTarget(code, p) == |code| && NextTarget(code, q) == 0
  {
    WhileParts(c, body, vars);
    var code := GenStmt(While(c, body), vars).value.code;
    var cc, cb := GenExp(c, vars).value, GenStmt(body, vars).value.code;
    assert code[..|cc|] == cc;
    assert code[|cc| + 1..|code| - 1] == cb;
  }

  /** Whether every jump lands inside the code or just past its end, own-index reading. */
  predicate InRange(code: seq<Instr>) {
    forall p :: 0 <= p < |code| && code[p].Jump? ==> 0 <= p + code[p].offset <= |code|
  }

  /** Relative jumps stay in range when code is put next to other code. */
  lemma InRangeConcat(a: seq<Instr>, b: seq<Instr>)
    requires InRange(a) && InRange(b)
    ensures InRange(a + b)
  {
    forall p | 0 <= p < |a + b| && (a + b)[p].Jump?
      ensures 0 <= p + (a + b)[p].offset <= |a + b|
    {
      if p >= |a| {
        assert (a + b)[p] == b[p - |a|];
      }
    }
  }

  lemma {:induction false} GenExpInRange(e: Exp, vars: Vars)
    requires GenExp(e, vars).Ok?
    ensures InRange(GenExp(e, vars).value)
    decreases e
  {
    match e
    case Binop(op, e1, e2) =>
      GenExpInRange(e1, vars);
      GenExpInRange(e2, vars);
      InRangeConcat(GenExp(e1, vars).value, GenExp(e2, vars).value);
      InRangeConcat(GenExp(e1, vars).value + GenExp(e2, vars).value, BinopTail(op));
    case Unop(op, e1) =>
      GenExpInRange(e1, vars);
      InRangeConcat(GenExp(e1, vars).value, UnopTail(op));
    case Id(_) =>
    case IntLit(_) =>
    case BoolLit(_) =>
    case StrLit(_) =>
  }

  /** Statements with no While loop inside. */
  predicate WhileFree(s: Stmt)
    decreases s
  {
    match s
    case Block(Null) => true
    case Block(Elems(ss)) => forall i :: 0 <= i < |ss| ==> WhileFree(ss[i])
    case Assign(_, _) => true
    case If(_, s1, None) => WhileFree(s1)
    case If(_, s1, Some(s2)) => WhileFree(s1) && WhileFree(s2)
    case While(_, _) => false
    case Print(_) => true
  }

  /** Code for a statement without loops keeps every jump in range. */
  lemma {:induction false} GenStmtInRange(s: Stmt, vars: Vars)
    requires WhileFree(s) && GenStmt(s, vars).Ok?
    ensures InRange(GenStmt(s, vars).value.code)
    decreases s, 2
  {
    match s
    case Block(Null) =>
    case Block(Elems(ss)) =>
      GenStmtsInRange(ss, vars);
    case Assign(x, rhs) =>
      GenExpInRange(rhs, vars);
      InRangeConcat(GenExp(rhs, vars).value, [Store(IndexOf(Declare(vars, x), x))]);
    case If(_, _, None) =>
      IfInRange(s, vars);
    case If(_, _, Some(_)) =>
      IfElseInRange(s, vars);
    case Print(Some(arg)) =>
      GenExpInRange(arg, vars);
      InRangeConcat(GenExp(arg, vars).value, [Plain(PRINT)]);
    case Print(None) =>
  }

  lemma {:induction false} IfInRange(s: Stmt, vars: Vars)
    requires s.If? && s.s2.None? && WhileFree(s) && GenStmt(s, vars).Ok?
    ensures InRange(GenStmt(s, vars).value.code)
    decreases s, 1
  {
    IfParts(s.cond, s.s1, vars);
    GenExpInRange(s.cond, vars);
    GenStmtInRange(s.s1, vars);
    IfCodeInRange(GenExp(s.cond, vars).value, GenStmt(s.s1, vars).value.code);
  }

  lemma {:induction false} IfElseInRange(s: Stmt, vars: Vars)
    requires s.If? && s.s2.Some? && WhileFree(s) && GenStmt(s, vars).Ok?
    ensures InRange(GenStmt(s, vars).value.code)
    decreases s, 1
  {
    var s2 := s.s2.value;
    IfElseParts(s.cond, s.s1, s2, vars);
    var g1 := GenStmt(s.s1, vars).value;
    GenExpInRange(s.cond, vars);
    GenStmtInRange(s.s1, vars);
    GenStmtInRange(s2, g1.vars);
    IfElseCodeInRange(GenExp(s.cond, vars).value, g1.code, GenStmt(s2, g1.vars).value.code);
  }

  lemma IfCodeInRange(cc: seq<Instr>, c1: seq<Instr>)
    requires InRange(cc) && InRange(c1)
    ensures InRange(cc + [Jump(IFZ, |c1| + 1)] + c1)
  {
    var tail := [Jump(IFZ, |c1| + 1)] + c1;
    forall p | 0 <= p < |tail| && tail[p].Jump?
      ensures 0 <= p + tail[p].offset <= |tail|
    {
      if p > 0 {
        assert tail[p] == c1[p - 1];
      }
    }
    InRangeConcat(cc, tail);
    assert cc + ([Jump(IFZ, |c1| + 1)] + c1) == cc + [Jump(IFZ, |c1| + 1)] + c1;
  }

  lemma IfElseCodeInRange(cc: seq<Instr>, c1: seq<Instr>, c2: seq<Instr>)
    requires InRange(cc) && InRange(c1) && InRange(c2)
    ensures InRange(cc + [Jump(IFZ, |c1| + 2)] + c1 + [Jump(GOTO, |c2| + 1)] + c2)
  {
    BranchesInRange(c1, c2);
    InRangeConcat(cc, [Jump(IFZ, |c1| + 2)] + c1 + [Jump(GOTO, |c2| + 1)] + c2);
    assert cc + ([Jump(IFZ, |c1| + 2)] + c1 + [Jump(GOTO, |c2| + 1)] + c2) ==
      cc + [Jump(IFZ, |c1| + 2)] + c1 + [Jump(GOTO, |c2| + 1)] + c2;
  }

  /** The two branches of an If with else, with their IFZ and GOTO, keep jumps in range. */
  lemma BranchesInRange(c1: seq<Instr>, c2: seq<Instr>)
    requires InRange(c1) && InRange(c2)
    ensures InRange([Jump(IFZ, |c1| + 2)] + c1 + [Jump(GOTO, |c2| + 1)] + c2)
  {
    var tail := [Jump(IFZ, |c1| + 2)] + c1 + [Jump(GOTO, |c2| + 1)] + c2;
    forall p | 0 <= p < |tail| && tail[p].Jump?
      ensures 0 <= p + tail[p].offset <= |tail|
    {
      if 0 < p <= |c1| {
        assert tail[p] == c1[p - 1];
      } else if p > |c1| + 1 {
        assert tail[p] == c2[p - |c1| - 2];
      }
    }
  }

  lemma {:induction false} GenStmtsInRange(ss: seq<Stmt>, vars: Vars)
    requires forall i :: 0 <= i < |ss| ==> WhileFree(ss[i])
    requires GenStmts(ss, vars).Ok?
    ensures InRange(GenStmts(ss, vars).value.code)
    decreases ss, 0
  {
    if ss != [] {
      var g := GenStmt(ss[0], vars).value;
      GenStmtInRange(ss[0], vars);
      GenStmtsInRange(ss[1..], g.vars);
      InRangeConcat(g.code, GenStmts(ss[1..], g.vars).value.code);
    }
  }

  /** Any While loop, own-index reading, has a jump landing before the start of its code. */
  lemma WhileOutOfRange(c: Exp, body: Stmt, vars: Vars)
    requires GenStmt(While(c, body), vars).Ok?
    ensures !InRange(GenStmt(While(c, body), vars).value.code)
  {
    WhileLanding(c, body, vars);
  }

  /**
   * Neither reading makes If and While both land where their control flow
   * means: with `if (true) {}` and `while (true) {}` on an empty table, the
   * own-index reading sends the while's IFZ to its own GOTO (not past the
   * loop), and the next-index reading sends the if's IFZ one past the end.
   */
  lemma NoReadingFitsBoth()
    ensures var ifCode := GenStmt(If(BoolLit(true), Block(Elems([])), None), []).value.code;
      var whileCode := GenStmt(While(BoolLit(true), Block(Elems([]))), []).value.code;
      ifCode == [Const(1), Jump(IFZ, 1)] && whileCode == [Const(1), Jump(IFZ, 1), Jump(GOTO, -3)] &&
      OwnTarget(ifCode, 1) == |ifCode| && OwnTarget(whileCode, 1) == |whileCode| - 1 &&
      NextTarget(ifCode, 1) == |ifCode| + 1 && NextTarget(whileCode, 1) == |whileCode|
  {
    var empty := Block(Elems([]));
    assert GenStmt(empty, []) == Ok(Gen([], []));
    assert GenExp(BoolLit(true), []) == Ok([Const(1)]);
    assert GenStmt(If(BoolLit(true), empty, None), []) == Ok(Gen([Const(1)] + [Jump(IFZ, 1)] + [], []));
    assert GenStmt(While(BoolLit(true), empty), []) == Ok(Gen([Const(1)] + [Jump(IFZ, 1)] + [] + [Jump(GOTO, -3)], []));
  }
}
