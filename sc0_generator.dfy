/**
 * The SC0 generator as the source runs it: the variable table is a field
 * that Assign grows in place, and every gen builds its code list by
 * appending to it. Each method is proved to return the code, and to leave
 * the table, that the matching function of SC0Gen describes. On an error the
 * method returns the error; names added to the table before it stay there,
 * as they do in the source's static list.
 */
module SC0Generator {
  import opened Wrappers
  import opened Ast0
  import opened SC0
  import opened SC0Gen
  import SC0Sequence

  /** A method's outcome `r` and final table `vars` agree with the specification's outcome. */
  predicate Agrees(r: Result<seq<Instr>, GenError>, spec: Result<Gen, GenError>, vars: Vars) {
    match spec
    case Ok(g) => r == Ok(g.code) && vars == g.vars
    case Err(e) => r == Err(e)
  }

  class Generator {
    /** The static table SC0Gen.vars: the variable in slot k is vars[k]. */
    var vars: seq<string>

    constructor ()
      ensures vars == []
    {
      vars := [];
    }

    /** gen(Exp) and the expression gens: code for `e`; the table is only read. */
    method GenExp(e: Exp) returns (r: Result<seq<Instr>, GenError>)
      ensures r == SC0Gen.GenExp(e, vars)
      decreases e, 1
    {
      match e
      case Binop(_, _, _) =>
        r := GenBinop(e);
      case Unop(_, _) =>
        r := GenUnop(e);
      case Id(nm) =>
        var idx := IndexOf(vars, nm);
        if idx < 0 {
          return Err(UndefinedId(nm));
        }
        r := Ok([Load(idx)]);
      case IntLit(i) =>
        r := Ok([Const(i)]);
      case BoolLit(b) =>
        if b {
          r := Ok([Const(1)]);
        } else {
          r := Ok([Const(0)]);
        }
      case StrLit(_) =>
        r := Err(UnknownExp(ExpText(e)));
    }

    /** gen(Binop): both operands, then the operator or the 0/1 idiom. */
    method GenBinop(e: Exp) returns (r: Result<seq<Instr>, GenError>)
      requires e.Binop?
      ensures r == SC0Gen.GenExp(e, vars)
      decreases e, 0
    {
      var r1 := GenExp(e.e1);
      if r1.Err? {
        return Err(r1.error);
      }
      var r2 := GenExp(e.e2);
      if r2.Err? {
        return Err(r2.error);
      }
      var code := r1.value + r2.value;
      var op := BopOpcode(e.op);
      match e.op {
        case ADD | SUB | MUL | DIV | AND | OR =>
          code := code + [Plain(op)];
        case EQ | NE | LT | LE | GT | GE =>
          code := code + [Jump(op, 3)];
          code := code + [Const(0)];
          code := code + [Jump(GOTO, 2)];
          code := code + [Const(1)];
      }
      assert code == r1.value + r2.value + BinopTail(e.op);
      r := Ok(code);
    }

    /** gen(Unop): the operand, then the 0/1 idiom on IFZ for NOT or one NEG. */
    method GenUnop(e: Exp) returns (r: Result<seq<Instr>, GenError>)
      requires e.Unop?
      ensures r == SC0Gen.GenExp(e, vars)
      decreases e, 0
    {
      var r1 := GenExp(e.e);
      if r1.Err? {
        return Err(r1.error);
      }
      var code := r1.value;
      if e.uop == NOT {
        code := code + [Jump(IFZ, 3)];
        code := code + [Const(0)];
        code := code + [Jump(GOTO, 2)];
        code := code + [Const(1)];
      } else {
        code := code + [Plain(Opcode.NEG)];
      }
      assert code == r1.value + UnopTail(e.uop);
      r := Ok(code);
    }

    /** gen(Stmt): dispatch on the statement's kind. */
    method GenStmt(s: Stmt) returns (r: Result<seq<Instr>, GenError>)
      modifies this
      ensures Agrees(r, SC0Gen.GenStmt(s, old(vars)), vars)
      ensures old(vars) <= vars
      decreases s, 1
    {
      match s
      case Block(_) =>
        r := GenBlock(s);
      case Assign(_, _) =>
        r := GenAssign(s);
      case If(_, _, _) =>
        r := GenIf(s);
      case While(_, _) =>
        r := GenWhile(s);
      case Print(_) =>
        r := GenPrint(s);
    }

    /** gen(Block): each statement's code appended in order; a null array fails. */
    method GenBlock(s: Stmt) returns (r: Result<seq<Instr>, GenError>)
      requires s.Block?
      modifies this
      ensures Agrees(r, SC0Gen.GenStmt(s, old(vars)), vars)
      ensures old(vars) <= vars
      decreases s, 0
    {
      if s.stmts.Null? {
        return Err(NullStmtArray);
      }
      var ss := s.stmts.items;
      var code := [];
      var i := 0;
      assert ss[0..] == ss;
      SC0Sequence.AppendNil(GenStmts(ss, vars));
      while i < |ss|
        invariant 0 <= i <= |ss|
        invariant old(vars) <= vars
        invariant GenStmts(ss, old(vars)) == Append(code, GenStmts(ss[i..], vars))
      {
        var c := GenStmt(ss[i]);
        assert ss[i..][0] == ss[i] && ss[i..][1..] == ss[i + 1..];
        if c.Err? {
          return Err(c.error);
        }
        SC0Sequence.AppendAssoc(code, c.value, GenStmts(ss[i + 1..], vars));
        code := code + c.value;
        i := i + 1;
      }
      assert code + [] == code;
      r := Ok(code);
    }

    /** gen(Assign): the right-hand side, then a STORE into the name's slot, adding the name if new. */
    method GenAssign(s: Stmt) returns (r: Result<seq<Instr>, GenError>)
      requires s.Assign?
      modifies this
      ensures Agrees(r, SC0Gen.GenStmt(s, old(vars)), vars)
      ensures old(vars) <= vars
    {
      var c := GenExp(s.rhs);
      if c.Err? {
        return Err(c.error);
      }
      var code := c.value;
      var x := s.lhs;
      if x !in vars {
        vars := vars + [x];
        code := code + [Store(IndexOf(vars, x))];
      } else {
        code := code + [Store(IndexOf(vars, x))];
      }
      r := Ok(code);
    }

    /** gen(If): condition, IFZ over the then-branch, then-branch, and GOTO over the else-branch if any. */
    method GenIf(s: Stmt) returns (r: Result<seq<Instr>, GenError>)
      requires s.If?
      modifies this
      ensures Agrees(r, SC0Gen.GenStmt(s, old(vars)), vars)
      ensures old(vars) <= vars
      decreases s, 0
    {
      var c := GenExp(s.cond);
      if c.Err? {
        return Err(c.error);
      }
      var code := c.value;
      var r1 := GenStmt(s.s1);
      if r1.Err? {
        return Err(r1.error);
      }
      var s1code := r1.value;
      code := code + [Jump(IFZ, |s1code| + if s.s2.None? then 1 else 2)];
      code := code + s1code;
      if s.s2.Some? {
        var r2 := GenStmt(s.s2.value);
        if r2.Err? {
          return Err(r2.error);
        }
        var s2code := r2.value;
        code := code + [Jump(GOTO, |s2code| + 1)];
        code := code + s2code;
      }
      r := Ok(code);
    }

    /** gen(While): condition, IFZ over the body, body, GOTO back by the length so far plus one. */
    method GenWhile(s: Stmt) returns (r: Result<seq<Instr>, GenError>)
      requires s.While?
      modifies this
      ensures Agrees(r, SC0Gen.GenStmt(s, old(vars)), vars)
      ensures old(vars) <= vars
      decreases s, 0
    {
      var c := GenExp(s.cond);
      if c.Err? {
        return Err(c.error);
      }
      var code := c.value;
      var rb := GenStmt(s.body);
      if rb.Err? {
        return Err(rb.error);
      }
      var sCode := rb.value;
      code := code + [Jump(IFZ, |sCode| + 1)];
      code := code + sCode;
      code := code + [Jump(GOTO, -(|code| + 1))];
      r := Ok(code);
    }

    /** gen(Print): the argument, then PRINT; a null argument reaches gen(Exp) and fails there. */
    method GenPrint(s: Stmt) returns (r: Result<seq<Instr>, GenError>)
      requires s.Print?
      modifies this
      ensures Agrees(r, SC0Gen.GenStmt(s, old(vars)), vars)
      ensures old(vars) <= vars
    {
      if s.arg.None? {
        return Err(UnknownExp("null"));
      }
      var c := GenExp(s.arg.value);
      if c.Err? {
        return Err(c.error);
      }
      r := Ok(c.value + [Plain(PRINT)]);
    }

    /** gen(Program): each statement's code appended in order. */
    method GenProgram(p: Program) returns (r: Result<seq<Instr>, GenError>)
      modifies this
      ensures Agrees(r, GenStmts(p.stmts, old(vars)), vars)
      ensures old(vars) <= vars
    {
      var code := [];
      var i := 0;
      assert p.stmts[0..] == p.stmts;
      SC0Sequence.AppendNil(GenStmts(p.stmts, vars));
      while i < |p.stmts|
        invariant 0 <= i <= |p.stmts|
        invariant old(vars) <= vars
        invariant GenStmts(p.stmts, old(vars)) == Append(code, GenStmts(p.stmts[i..], vars))
      {
        var c := GenStmt(p.stmts[i]);
        assert p.stmts[i..][0] == p.stmts[i] && p.stmts[i..][1..] == p.stmts[i + 1..];
        if c.Err? {
          return Err(c.error);
        }
        SC0Sequence.AppendAssoc(code, c.value, GenStmts(p.stmts[i + 1..], vars));
        code := code + c.value;
        i := i + 1;
      }
      assert code + [] == code;
      r := Ok(code);
    }
  }

  /** One run of the generator on a program, with a table created empty for it. */
  method Generate(p: Program) returns (r: Result<seq<Instr>, GenError>)
    ensures r == SC0Gen.GenProgram(p)
  {
    var g := new Generator();
    r := g.GenProgram(p);
  }
}
