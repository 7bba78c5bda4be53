/**
 * The SC0 code generator as a function of the tree and of the variable table.
 *
 * The source keeps the table in one static list whose index is the slot of a
 * variable; here it is a value threaded through generation left to right and
 * returned beside the code, created empty for each program. A generation
 * error (the source's GenException, or the NullPointerException of a Block
 * whose statement array is null) ends generation with no code at all.
 */
module SC0Gen {
  import opened Wrappers
  import opened Ast0
  import opened SC0

  /** Why generation stops. */
  datatype GenError =
    | UnknownExp(node: string)   // an expression no rule handles: a string literal or a null reference
    | UndefinedId(name: string)  // a variable read before any assignment to it
    | NullStmtArray              // a Block whose statement array is null

  /** The variable table: the variable in slot k is vars[k]. */
  type Vars = seq<string>

  /** Generated code and the table after it. */
  datatype Gen = Gen(code: seq<Instr>, vars: Vars)

  predicate NoDuplicates(vars: Vars) {
    forall i, j :: 0 <= i < j < |vars| ==> vars[i] != vars[j]
  }

  /** The table's `indexOf`: the first slot holding `x`, or -1 when there is none. */
  function IndexOf(vars: Vars, x: string): (k: int)
    ensures -1 <= k < |vars|
    ensures k >= 0 ==> vars[k] == x && forall j :: 0 <= j < k ==> vars[j] != x
    ensures k < 0 <==> x !in vars
    decreases |vars|
  {
    if vars == [] then -1
    else if vars[0] == x then 0
    else var k := IndexOf(vars[1..], x); if k < 0 then -1 else k + 1
  }

  /** The opcode of a binary operator. */
  function BopOpcode(op: BOP): Opcode {
    match op
    case ADD => Opcode.ADD
    case SUB => Opcode.SUB
    case MUL => Opcode.MUL
    case DIV => Opcode.DIV
    case AND => Opcode.AND
    case OR => Opcode.OR
    case EQ => IFEQ
    case NE => IFNE
    case LT => IFLT
    case LE => IFLE
    case GT => IFGT
    case GE => IFGE
  }

  /** The four instructions that leave 1 when jump `j` is taken and 0 when it is not. */
  function BoolIdiom(j: Opcode): seq<Instr> {
    [Jump(j, 3), Const(0), Jump(GOTO, 2), Const(1)]
  }

  /** What follows the operands' code: the operator's opcode, or the 0/1 idiom for a comparison. */
  function BinopTail(op: BOP): seq<Instr> {
    match op
    case ADD | SUB | MUL | DIV | AND | OR => [Plain(BopOpcode(op))]
    case EQ | NE | LT | LE | GT | GE => BoolIdiom(BopOpcode(op))
  }

  function UnopTail(op: UOP): seq<Instr> {
    if op == NOT then BoolIdiom(IFZ) else [Plain(Opcode.NEG)]
  }

  /** Code for an expression. Expressions only read the table. */
  function GenExp(e: Exp, vars: Vars): Result<seq<Instr>, GenError>
    decreases e
  {
    match e
    case Binop(op, e1, e2) =>
      var c1 :- GenExp(e1, vars);
      var c2 :- GenExp(e2, vars);
      Ok(c1 + c2 + BinopTail(op))
    case Unop(op, e1) =>
      var c :- GenExp(e1, vars);
      Ok(c + UnopTail(op))
    case Id(nm) =>
      var idx := IndexOf(vars, nm);
      if idx < 0 then Err(UndefinedId(nm)) else Ok([Load(idx)])
    case IntLit(i) => Ok([Const(i)])
    case BoolLit(b) => Ok([Const(if b then 1 else 0)])
    case StrLit(_) => Err(UnknownExp(ExpText(e)))
  }

  /** The table after an assignment to `x`: `x` is appended when it is not there yet. */
  function Declare(vars: Vars, x: string): Vars {
    if x in vars then vars else vars + [x]
  }

  /** Code for a statement, and the table after it: dispatch on the statement's kind. */
  function GenStmt(s: Stmt, vars: Vars): Result<Gen, GenError>
    decreases s, 1
  {
    match s
    case Block(_) => GenBlock(s, vars)
    case Assign(_, _) => GenAssign(s, vars)
    case If(_, _, _) => GenIf(s, vars)
    case While(_, _) => GenWhile(s, vars)
    case Print(_) => GenPrint(s, vars)
  }

  /** A Block: its statements in order; a null array fails. */
  function GenBlock(s: Stmt, vars: Vars): Result<Gen, GenError>
    requires s.Block?
    decreases s, 0
  {
    match s.stmts
    case Null => Err(NullStmtArray)
    case Elems(ss) => GenStmts(ss, vars)
  }

  /** An Assign: the right-hand side, then a STORE into the name's slot, entering the name first if new. */
  function GenAssign(s: Stmt, vars: Vars): Result<Gen, GenError>
    requires s.Assign?
  {
    var c :- GenExp(s.rhs, vars);
    var vars' := Declare(vars, s.lhs);
    Ok(Gen(c + [Store(IndexOf(vars', s.lhs))], vars'))
  }

  /** An If: condition, IFZ over the then-branch, then-branch, and with an else a GOTO over the else-branch. */
  function GenIf(s: Stmt, vars: Vars): Result<Gen, GenError>
    requires s.If?
    decreases s, 0
  {
    var cc :- GenExp(s.cond, vars);
    var g1 :- GenStmt(s.s1, vars);
    match s.s2
    case None => Ok(Gen(cc + [Jump(IFZ, |g1.code| + 1)] + g1.code, g1.vars))
    case Some(s2) =>
      var g2 :- GenStmt(s2, g1.vars);
      Ok(Gen(cc + [Jump(IFZ, |g1.code| + 2)] + g1.code + [Jump(GOTO, |g2.code| + 1)] + g2.code, g2.vars))
  }

  /** A While: condition, IFZ over the body, body, then a GOTO back by the length so far plus one. */
  function GenWhile(s: Stmt, vars: Vars): Result<Gen, GenError>
    requires s.While?
    decreases s, 0
  {
    var cc :- GenExp(s.cond, vars);
    var gb :- GenStmt(s.body, vars);
    var code := cc + [Jump(IFZ, |gb.code| + 1)] + gb.code;
    Ok(Gen(code + [Jump(GOTO, -(|code| + 1))], gb.vars))
  }

  /** A Print: the argument, then PRINT; a null argument reaches the expression dispatch and fails there. */
  function GenPrint(s: Stmt, vars: Vars): Result<Gen, GenError>
    requires s.Print?
  {
    match s.arg
    case None => Err(UnknownExp("null"))
    case Some(arg) =>
      var c :- GenExp(arg, vars);
      Ok(Gen(c + [Plain(PRINT)], vars))
  }

  /** Code for statements in order: each one's code after the previous one's, each seeing the table the previous one left. */
  function GenStmts(ss: seq<Stmt>, vars: Vars): Result<Gen, GenError>
    decreases ss
  {
    if ss == [] then Ok(Gen([], vars))
    else
      var g :- GenStmt(ss[0], vars);
      Append(g.code, GenStmts(ss[1..], g.vars))
  }

  /** `code` already emitted, followed by the outcome `r` of what comes next; an error discards everything. */
  function Append(code: seq<Instr>, r: Result<Gen, GenError>): Result<Gen, GenError> {
    match r
    case Ok(g) => Ok(Gen(code + g.code, g.vars))
    case Err(e) => Err(e)
  }

  /** Code for a whole program, starting from an empty table. */
  function GenProgram(p: Program): Result<seq<Instr>, GenError> {
    var g :- GenStmts(p.stmts, []);
    Ok(g.code)
  }

  // ---------------------------------------------------------------------------
  // The compound statements taken apart: a successful result is made of
  // successful parts, laid out as the rules above put them.

  lemma IfParts(c: Exp, s1: Stmt, vars: Vars)
    requires GenStmt(If(c, s1, None), vars).Ok?
    ensures GenExp(c, vars).Ok? && GenStmt(s1, vars).Ok?
    ensures var g := GenStmt(If(c, s1, None), vars).value;
      var cc, g1 := GenExp(c, vars).value, GenStmt(s1, vars).value;
      g.code == cc + [Jump(IFZ, |g1.code| + 1)] + g1.code && g.vars == g1.vars
  {
    assert GenStmt(If(c, s1, None), vars) == GenIf(If(c, s1, None), vars);
  }

  lemma IfElseParts(c: Exp, s1: Stmt, s2: Stmt, vars: Vars)
    requires GenStmt(If(c, s1, Some(s2)), vars).Ok?
    ensures GenExp(c, vars).Ok? && GenStmt(s1, vars).Ok? && GenStmt(s2, GenStmt(s1, vars).value.vars).Ok?
    ensures var g := GenStmt(If(c, s1, Some(s2)), vars).value;
      var cc, g1 := GenExp(c, vars).value, GenStmt(s1, vars).value;
      var g2 := GenStmt(s2, g1.vars).value;
      g.code == cc + [Jump(IFZ, |g1.code| + 2)] + g1.code + [Jump(GOTO, |g2.code| + 1)] + g2.code &&
      g.vars == g2.vars
  {
    assert GenStmt(If(c, s1, Some(s2)), vars) == GenIf(If(c, s1, Some(s2)), vars);
  }

  lemma WhileParts(c: Exp, body: Stmt, vars: Vars)
    requires GenStmt(While(c, body), vars).Ok?
    ensures GenExp(c, vars).Ok? && GenStmt(body, vars).Ok?
    ensures var g := GenStmt(While(c, body), vars).value;
      var cc, gb := GenExp(c, vars).value, GenStmt(body, vars).value;
      g.code == cc + [Jump(IFZ, |gb.code| + 1)] + gb.code + [Jump(GOTO, -(|cc| + |gb.code| + 2))] &&
      g.vars == gb.vars
  {
    assert GenStmt(While(c, body), vars) == GenWhile(While(c, body), vars);
  }
}
