/**
 * The generator's output as the list of instruction strings the source
 * returns: every generated instruction has the operand its opcode takes,
 * so each line of the listing reads back as exactly that instruction.
 */
module SC0Listing {
  import opened Wrappers
  import opened Ast0
  import opened SC0
  import opened SC0Gen
  import SC0Exp

  predicate AllWellFormed(code: seq<Instr>) {
    forall i :: 0 <= i < |code| ==> code[i].WellFormed()
  }

  lemma WellFormedConcat(a: seq<Instr>, b: seq<Instr>)
    requires AllWellFormed(a) && AllWellFormed(b)
    ensures AllWellFormed(a + b)
  {
    forall i | 0 <= i < |a + b|
      ensures (a + b)[i].WellFormed()
    {
      if i >= |a| {
        assert (a + b)[i] == b[i - |a|];
      }
    }
  }

  lemma GenExpWellFormed(e: Exp, vars: Vars)
    requires GenExp(e, vars).Ok?
    ensures AllWellFormed(GenExp(e, vars).value)
  {
    SC0Exp.GenExpReadsOnly(e, vars);
  }

  lemma {:induction false} GenStmtWellFormed(s: Stmt, vars: Vars)
    requires GenStmt(s, vars).Ok?
    ensures AllWellFormed(GenStmt(s, vars).value.code)
    decreases s, 1
  {
    match s
    case Block(Null) =>
    case Block(Elems(ss)) =>
      GenStmtsWellFormed(ss, vars);
    case Assign(x, rhs) =>
      GenExpWellFormed(rhs, vars);
      WellFormedConcat(GenExp(rhs, vars).value, [Store(IndexOf(Declare(vars, x), x))]);
    case If(c, s1, None) =>
      GenExpWellFormed(c, vars);
      GenStmtWellFormed(s1, vars);
      var cc, c1 := GenExp(c, vars).value, GenStmt(s1, vars).value.code;
      WellFormedConcat(cc, [Jump(IFZ, |c1| + 1)]);
      WellFormedConcat(cc + [Jump(IFZ, |c1| + 1)], c1);
    case If(c, s1, Some(s2)) =>
      GenExpWellFormed(c, vars);
      GenStmtWellFormed(s1, vars);
      GenStmtWellFormed(s2, GenStmt(s1, vars).value.vars);
      var cc, c1 := GenExp(c, vars).value, GenStmt(s1, vars).value.code;
      var c2 := GenStmt(s2, GenStmt(s1, vars).value.vars).value.code;
      WellFormedConcat(cc, [Jump(IFZ, |c1| + 2)]);
      WellFormedConcat(cc + [Jump(IFZ, |c1| + 2)], c1);
      WellFormedConcat(cc + [Jump(IFZ, |c1| + 2)] + c1, [Jump(GOTO, |c2| + 1)]);
      WellFormedConcat(cc + [Jump(IFZ, |c1| + 2)] + c1 + [Jump(GOTO, |c2| + 1)], c2);
    case While(c, body) =>
      GenExpWellFormed(c, vars);
      GenStmtWellFormed(body, vars);
      var cc, cb := GenExp(c, vars).value, GenStmt(body, vars).value.code;
      WellFormedConcat(cc, [Jump(IFZ, |cb| + 1)]);
      WellFormedConcat(cc + [Jump(IFZ, |cb| + 1)], cb);
      WellFormedConcat(cc + [Jump(IFZ, |cb| + 1)] + cb, [Jump(GOTO, -(|cc| + |cb| + 2))]);
    case Print(Some(arg)) =>
      GenExpWellFormed(arg, vars);
      WellFormedConcat(GenExp(arg, vars).value, [Plain(PRINT)]);
    case Print(None) =>
  }

  lemma {:induction false} GenStmtsWellFormed(ss: seq<Stmt>, vars: Vars)
    requires GenStmts(ss, vars).Ok?
    ensures AllWellFormed(GenStmts(ss, vars).value.code)
    decreases ss, 0
  {
    if ss != [] {
      var g := GenStmt(ss[0], vars).value;
      GenStmtWellFormed(ss[0], vars);
      GenStmtsWellFormed(ss[1..], g.vars);
      WellFormedConcat(g.code, GenStmts(ss[1..], g.vars).value.code);
    }
  }

  /** The instruction strings a program generates, one per instruction. */
  function ProgramListing(p: Program): Result<seq<string>, GenError> {
    var code :- GenProgram(p);
    Ok(Listing(code))
  }

  /** Each line of a program's listing reads back as the instruction it was rendered from. */
  lemma ProgramListingReadsBack(p: Program)
    requires GenProgram(p).Ok?
    ensures ProgramListing(p).Ok?
    ensures var code := GenProgram(p).value; var lines := ProgramListing(p).value;
      |lines| == |code| && forall k :: 0 <= k < |code| ==> Parse(lines[k]) == Some(code[k])
  {
    var code := GenProgram(p).value;
    GenStmtsWellFormed(p.stmts, []);
    forall k | 0 <= k < |code|
      ensures Parse(Listing(code)[k]) == Some(code[k])
    {
      RenderRoundTrip(code[k]);
    }
  }

  /** `x = 5` then `y = x`: the first name gets slot 0, the second slot 1. */
  lemma AssignExample()
    ensures ProgramListing(Program([Assign("x", IntLit(5)), Assign("y", Id("x"))])) ==
      Ok(["CONST 5", "STORE 0", "LOAD 0", "STORE 1"])
  {
    AssignExampleCode();
    AssignExampleLines();
  }

  lemma AssignExampleLines()
    ensures Listing([Const(5), Store(0), Load(0), Store(1)]) == ["CONST 5", "STORE 0", "LOAD 0", "STORE 1"]
  {
    assert Decimal.DigitChar(5) == '5';
    assert Decimal.IntToString(5) == "5";
    assert Decimal.IntToString(1) == "1";
    assert Decimal.IntToString(0) == "0";
    assert Render(Const(5)) == "CONST 5";
    assert Render(Store(0)) == "STORE 0";
    assert Render(Load(0)) == "LOAD 0";
    assert Render(Store(1)) == "STORE 1";
  }

  lemma AssignExampleCode()
    ensures GenProgram(Program([Assign("x", IntLit(5)), Assign("y", Id("x"))])) ==
      Ok([Const(5), Store(0), Load(0), Store(1)])
  {
    var s1, s2 := Assign("x", IntLit(5)), Assign("y", Id("x"));
    FirstAssign();
    SecondAssign();
    assert [s1, s2][1..] == [s2];
    assert [s2][1..] == [];
    var code := [Const(5), Store(0), Load(0), Store(1)];
    assert [Const(5)] + [Store(0)] + ([Load(0)] + [Store(1)] + []) == code;
    assert GenStmts([], ["x", "y"]) == Ok(Gen([], ["x", "y"]));
    assert GenStmts([s2], ["x"]) == Ok(Gen([Load(0)] + [Store(1)] + [], ["x", "y"]));
    assert GenStmts([s1, s2], []) == Ok(Gen(code, ["x", "y"]));
  }

  lemma FirstAssign()
    ensures GenStmt(Assign("x", IntLit(5)), []) == Ok(Gen([Const(5)] + [Store(0)], ["x"]))
  {
    assert Declare([], "x") == ["x"];
    assert IndexOf(["x"], "x") == 0;
  }

  lemma SecondAssign()
    ensures GenStmt(Assign("y", Id("x")), ["x"]) == Ok(Gen([Load(0)] + [Store(1)], ["x", "y"]))
  {
    assert GenExp(Id("x"), ["x"]) == Ok([Load(0)]);
    assert Declare(["x"], "y") == ["x", "y"];
    assert IndexOf(["x", "y"], "y") == 1 by {
      assert ["x", "y"][1..] == ["y"];
    }
  }

  /** `print(1 < 2)`: the comparison's 0/1 idiom, then PRINT. */
  lemma CompareExample()
    ensures ProgramListing(Program([Print(Some(Binop(LT, IntLit(1), IntLit(2))))])) ==
      Ok(["CONST 1", "CONST 2", "IFLT +3", "CONST 0", "GOTO +2", "CONST 1", "PRINT"])
  {
    CompareExampleCode();
    CompareExampleLines();
  }

  lemma CompareExampleLines()
    ensures Listing([Const(1), Const(2), Jump(IFLT, 3), Const(0), Jump(GOTO, 2), Const(1), Plain(PRINT)]) ==
      ["CONST 1", "CONST 2", "IFLT +3", "CONST 0", "GOTO +2", "CONST 1", "PRINT"]
  {
    ConstLines();
    IdiomLines();
  }

  lemma ConstLines()
    ensures Render(Const(0)) == "CONST 0"
    ensures Render(Const(1)) == "CONST 1"
    ensures Render(Const(2)) == "CONST 2"
  {
    assert Decimal.IntToString(0) == "0";
    assert Decimal.IntToString(1) == "1";
    assert Decimal.IntToString(2) == "2";
  }

  lemma IdiomLines()
    ensures Render(Jump(IFLT, 3)) == "IFLT +3"
    ensures Render(Jump(GOTO, 2)) == "GOTO +2"
    ensures Render(Plain(PRINT)) == "PRINT"
  {
    assert OffsetText(3) == "+3";
    assert OffsetText(2) == "+2";
  }

  lemma CompareExampleCode()
    ensures GenProgram(Program([Print(Some(Binop(LT, IntLit(1), IntLit(2))))])) ==
      Ok([Const(1), Const(2), Jump(IFLT, 3), Const(0), Jump(GOTO, 2), Const(1), Plain(PRINT)])
  {
    var s := Print(Some(Binop(LT, IntLit(1), IntLit(2))));
    var c := [Const(1)] + [Const(2)] + BinopTail(LT);
    assert GenExp(Binop(LT, IntLit(1), IntLit(2)), []) == Ok(c);
    assert [s][1..] == [];
    var code := [Const(1), Const(2), Jump(IFLT, 3), Const(0), Jump(GOTO, 2), Const(1), Plain(PRINT)];
    assert c + [Plain(PRINT)] + [] == code;
    assert GenStmt(s, []) == Ok(Gen(c + [Plain(PRINT)], []));
    assert GenStmts([], []) == Ok(Gen([], []));
    assert GenStmts([s], []) == Ok(Gen(code, []));
  }

  /** A read of a variable never assigned, a null print argument and a null statement array stop generation. */
  lemma ErrorExamples()
    ensures ProgramListing(Program([Print(Some(Id("z")))])) == Err(UndefinedId("z"))
    ensures ProgramListing(Program([Print(None)])) == Err(UnknownExp("null"))
    ensures ProgramListing(Program([Block(Null)])) == Err(NullStmtArray)
  {
  }

  /** An error after code was already generated discards that code: there is no partial listing. */
  lemma LateErrorExample()
    ensures ProgramListing(Program([Assign("x", IntLit(1)), Print(Some(StrLit("hi")))])) == Err(UnknownExp("\"hi\""))
  {
    assert GenStmt(Assign("x", IntLit(1)), []) == Ok(Gen([Const(1)] + [Store(0)], ["x"])) by {
      assert Declare([], "x") == ["x"];
      assert IndexOf(["x"], "x") == 0;
    }
    var ss := [Assign("x", IntLit(1)), Print(Some(StrLit("hi")))];
    assert ss[1..] == [Print(Some(StrLit("hi")))];
    assert ExpText(StrLit("hi")) == "\"hi\"";
    assert GenStmt(ss[1], ["x"]) == Err(UnknownExp("\"hi\""));
    assert GenStmts(ss[1..], ["x"]) == Err(UnknownExp("\"hi\""));
    assert GenStmts(ss, []) == Err(UnknownExp("\"hi\""));
  }
}
