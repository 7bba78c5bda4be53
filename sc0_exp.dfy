/**
 * Expression code: the operator map, when generation of an expression
 * succeeds or fails, and the shape of what it emits.
 */
module SC0Exp {
  import opened Wrappers
  import opened Ast0
  import opened SC0
  import opened SC0Gen

  /** The comparison operators, whose value is produced by the 0/1 idiom. */
  predicate Relational(op: BOP) {
    op.EQ? || op.NE? || op.LT? || op.LE? || op.GT? || op.GE?
  }

  /** Distinct operators get distinct opcodes. */
  lemma BopOpcodeInjective(a: BOP, b: BOP)
    requires BopOpcode(a) == BopOpcode(b)
    ensures a == b
  {
  }

  /** An operator maps to a conditional jump exactly when it is a comparison; never to an opcode with a number. */
  lemma BopOpcodeKind(op: BOP)
    ensures BopOpcode(op).IsJump() <==> Relational(op)
    ensures !BopOpcode(op).HasNumber() && BopOpcode(op) != GOTO && BopOpcode(op) != IFZ
    ensures |BinopTail(op)| == if Relational(op) then 4 else 1
  {
  }

  /** The variables an expression reads. */
  function Ids(e: Exp): set<string>
    decreases e
  {
    match e
    case Binop(_, e1, e2) => Ids(e1) + Ids(e2)
    case Unop(_, e1) => Ids(e1)
    case Id(nm) => {nm}
    case IntLit(_) => {}
    case BoolLit(_) => {}
    case StrLit(_) => {}
  }

  /** The string literals inside an expression. */
  function Strings(e: Exp): set<string>
    decreases e
  {
    match e
    case Binop(_, e1, e2) => Strings(e1) + Strings(e2)
    case Unop(_, e1) => Strings(e1)
    case StrLit(s) => {s}
    case _ => {}
  }

  /**
   * An expression generates exactly when it holds no string literal and
   * every variable it reads is in the table. A failure names a variable the
   * expression reads and the table lacks, or the text of one of its string
   * literals; it is never the null-array error.
   */
  lemma {:induction false} GenExpOutcome(e: Exp, vars: Vars)
    ensures GenExp(e, vars).Ok? <==> Strings(e) == {} && forall x :: x in Ids(e) ==> x in vars
    ensures GenExp(e, vars).Err? ==>
      var err := GenExp(e, vars).error;
      (err.UndefinedId? && err.name in Ids(e) && err.name !in vars) ||
      (err.UnknownExp? && exists s :: s in Strings(e) && err.node == ExpText(StrLit(s)))
    decreases e
  {
    match e
    case Binop(_, e1, e2) =>
      GenExpOutcome(e1, vars);
      GenExpOutcome(e2, vars);
    case Unop(_, e1) =>
      GenExpOutcome(e1, vars);
    case Id(nm) =>
    case IntLit(_) =>
    case BoolLit(_) =>
    case StrLit(s) =>
      assert s in Strings(e);
  }

  /** Id: one LOAD of the name's slot when the table holds it, otherwise an error naming it. */
  lemma IdLoad(nm: string, vars: Vars)
    ensures GenExp(Id(nm), vars).Ok? <==> nm in vars
    ensures nm in vars ==> exists k :: 0 <= k < |vars| && vars[k] == nm && GenExp(Id(nm), vars) == Ok([Load(k)])
    ensures nm !in vars ==> GenExp(Id(nm), vars) == Err(UndefinedId(nm))
  {
    if nm in vars {
      var k := IndexOf(vars, nm);
      assert vars[k] == nm;
    }
  }

  /**
   * Code for an expression only reads the table: it stores nothing, prints
   * nothing, every LOAD names a slot of the table holding a variable the
   * expression reads, and every instruction has the operand its opcode
   * takes.
   */
  predicate ReadsOnly(code: seq<Instr>, vars: Vars, ids: set<string>) {
    forall i :: 0 <= i < |code| ==>
      code[i].WellFormed() && !code[i].Store? && code[i] != Plain(PRINT) &&
      (code[i].Load? ==> code[i].slot < |vars| && vars[code[i].slot] in ids)
  }

  lemma ReadsOnlyConcat(a: seq<Instr>, b: seq<Instr>, vars: Vars, ids: set<string>, ids': set<string>)
    requires ReadsOnly(a, vars, ids) && ReadsOnly(b, vars, ids')
    ensures ReadsOnly(a + b, vars, ids + ids')
  {
    forall i | 0 <= i < |a + b|
      ensures var c := (a + b)[i]; c.Load? ==> c.slot < |vars| && vars[c.slot] in ids + ids'
    {
      if i >= |a| {
        assert (a + b)[i] == b[i - |a|];
      }
    }
  }

  lemma {:induction false} GenExpReadsOnly(e: Exp, vars: Vars)
    requires GenExp(e, vars).Ok?
    ensures ReadsOnly(GenExp(e, vars).value, vars, Ids(e))
    decreases e
  {
    match e
    case Binop(op, e1, e2) =>
      GenExpReadsOnly(e1, vars);
      GenExpReadsOnly(e2, vars);
      var c1, c2 := GenExp(e1, vars).value, GenExp(e2, vars).value;
      ReadsOnlyConcat(c1, c2, vars, Ids(e1), Ids(e2));
      BopOpcodeKind(op);
      ReadsOnlyConcat(c1 + c2, BinopTail(op), vars, Ids(e), {});
    case Unop(op, e1) =>
      GenExpReadsOnly(e1, vars);
      ReadsOnlyConcat(GenExp(e1, vars).value, UnopTail(op), vars, Ids(e1), {});
    case Id(nm) =>
    case IntLit(_) =>
    case BoolLit(_) =>
    case StrLit(_) =>
  }

  /**
   * Binop: both operands' code is always emitted, e1's then e2's, also for
   * AND and OR (no short circuit); then a single non-jump opcode for the
   * arithmetic and logic operators, or the 0/1 idiom for comparisons.
   */
  lemma BinopLayout(op: BOP, e1: Exp, e2: Exp, vars: Vars)
    ensures GenExp(Binop(op, e1, e2), vars).Ok? <==> GenExp(e1, vars).Ok? && GenExp(e2, vars).Ok?
    ensures GenExp(e1, vars).Err? ==> GenExp(Binop(op, e1, e2), vars) == Err(GenExp(e1, vars).error)
    ensures GenExp(e1, vars).Ok? && GenExp(e2, vars).Err? ==> GenExp(Binop(op, e1, e2), vars) == Err(GenExp(e2, vars).error)
    ensures GenExp(Binop(op, e1, e2), vars).Ok? ==>
      var code := GenExp(Binop(op, e1, e2), vars).value;
      var c1, c2 := GenExp(e1, vars).value, GenExp(e2, vars).value;
      var n := |c1| + |c2|;
      n <= |code| && code[..|c1|] == c1 && code[|c1|..n] == c2 &&
      (Relational(op) ==> code[n..] == BoolIdiom(BopOpcode(op))) &&
      (!Relational(op) ==> code[n..] == [Plain(BopOpcode(op))] && !BopOpcode(op).IsJump())
  {
    BopOpcodeKind(op);
    if GenExp(Binop(op, e1, e2), vars).Ok? {
      var code := GenExp(Binop(op, e1, e2), vars).value;
      var c1, c2 := GenExp(e1, vars).value, GenExp(e2, vars).value;
      assert code == c1 + c2 + BinopTail(op);
      assert code[..|c1|] == c1;
      assert code[|c1|..|c1| + |c2|] == c2;
      assert code[|c1| + |c2|..] == BinopTail(op);
    }
  }

  /** Unop: the operand's code, then the 0/1 idiom on IFZ for NOT, or one NEG. */
  lemma UnopLayout(op: UOP, e: Exp, vars: Vars)
    ensures GenExp(Unop(op, e), vars).Ok? <==> GenExp(e, vars).Ok?
    ensures GenExp(e, vars).Err? ==> GenExp(Unop(op, e), vars) == Err(GenExp(e, vars).error)
    ensures GenExp(e, vars).Ok? ==>
      var c := GenExp(e, vars).value;
      var code := GenExp(Unop(op, e), vars).value;
      |c| <= |code| && code[..|c|] == c &&
      (op == NOT ==> code[|c|..] == BoolIdiom(IFZ)) &&
      (op == UOP.NEG ==> code[|c|..] == [Plain(Opcode.NEG)])
  {
    if GenExp(e, vars).Ok? {
      var c := GenExp(e, vars).value;
      var code := GenExp(Unop(op, e), vars).value;
      assert code == c + UnopTail(op);
      assert code[..|c|] == c;
      assert code[|c|..] == UnopTail(op);
    }
  }

  /** Literals: one CONST of the value, 1 for true and 0 for false; a string literal fails with its own text. */
  lemma LiteralCode(i: Int32, b: bool, s: string, vars: Vars)
    ensures GenExp(IntLit(i), vars) == Ok([Const(i)])
    ensures GenExp(BoolLit(b), vars) == Ok([Const(if b then 1 else 0)])
    ensures GenExp(StrLit(s), vars) == Err(UnknownExp("\"" + s + "\""))
  {
  }
}
