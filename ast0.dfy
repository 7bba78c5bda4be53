/**
 * The AST0 node model: a program is a list of statements; statements and
 * expressions are closed sets of variants whose fields never change after
 * construction, so they are datatypes here. A Java reference that the source
 * allows to be null (the else branch of an If, the argument of a Print) is an
 * Option; the statement array of a Block, which may be null too, is a
 * StmtArray.
 *
 * The text functions give what each node's toString returns when the static
 * indentation counter holds `t`; the class in ast0_printer.dfy computes the
 * same text the way the source does, by mutating that counter.
 */
module Ast0 {
  import opened Wrappers
  import Decimal

  /** Java's int, the type of an integer literal. */
  type Int32 = i: int | -0x8000_0000 <= i < 0x8000_0000

  /** The twelve binary operators, each printed as its symbol. */
  datatype BOP = ADD | SUB | MUL | DIV | AND | OR | EQ | NE | LT | LE | GT | GE {
    function Symbol(): string {
      match this
      case ADD => "+"
      case SUB => "-"
      case MUL => "*"
      case DIV => "/"
      case AND => "&&"
      case OR => "||"
      case EQ => "=="
      case NE => "!="
      case LT => "<"
      case LE => "<="
      case GT => ">"
      case GE => ">="
    }
  }

  /** The two unary operators: arithmetic negation and logical not. */
  datatype UOP = NEG | NOT {
    function Symbol(): string {
      match this
      case NEG => "-"
      case NOT => "!"
    }
  }

  datatype Exp =
    | Binop(op: BOP, e1: Exp, e2: Exp)
    | Unop(uop: UOP, e: Exp)
    | Id(nm: string)
    | IntLit(i: Int32)
    | BoolLit(b: bool)
    | StrLit(s: string)

  /** A Java array of statements, which may be null. */
  datatype StmtArray = Null | Elems(items: seq<Stmt>)

  datatype Stmt =
    | Block(stmts: StmtArray)
    | Assign(lhs: string, rhs: Exp)       // lhs: the name of the target Id
    | If(cond: Exp, s1: Stmt, s2: Option<Stmt>)
    | While(cond: Exp, body: Stmt)
    | Print(arg: Option<Exp>)

  datatype Program = Program(stmts: seq<Stmt>)

  /** Different operators print differently. */
  lemma BopSymbolInjective(a: BOP, b: BOP)
    requires a.Symbol() == b.Symbol()
    ensures a == b
  {
  }

  // ---------------------------------------------------------------- text

  /** What `tab()` returns: one space per level of the counter (none when it is not positive). */
  function Spaces(n: int): (r: string)
    ensures |r| == if n < 0 then 0 else n
    ensures forall i :: 0 <= i < |r| ==> r[i] == ' '
    decreases n
  {
    if n <= 0 then "" else Spaces(n - 1) + " "
  }

  function BoolText(b: bool): string {
    if b then "true" else "false"
  }

  /** Expression text: a parenthesised prefix form for operators, the bare name, the decimal value, `true`/`false`, the quoted string. */
  function ExpText(e: Exp): string {
    match e
    case Binop(op, e1, e2) => "(Binop " + op.Symbol() + " " + ExpText(e1) + " " + ExpText(e2) + ")"
    case Unop(op, e1) => "(Unop " + op.Symbol() + " " + ExpText(e1) + ")"
    case Id(nm) => nm
    case IntLit(i) => Decimal.IntToString(i)
    case BoolLit(b) => BoolText(b)
    case StrLit(s) => "\"" + s + "\""
  }

  function ArgText(arg: Option<Exp>): string {
    match arg
    case None => "()"
    case Some(e) => ExpText(e)
  }

  /** Statement text with the counter at `t`; a child statement is rendered with the counter at `t + 1`. */
  function StmtText(s: Stmt, t: int): string
    decreases s
  {
    match s
    case Block(Null) => ""
    case Block(Elems(ss)) => Spaces(t) + "{\n" + StmtsText(ss, t + 1) + Spaces(t) + "}\n"
    case Assign(x, rhs) => Spaces(t) + "Assign " + x + " " + ExpText(rhs) + "\n"
    case If(c, s1, s2) =>
      Spaces(t) + "If " + ExpText(c) + "\n" + Spaces(t + 1) + StmtText(s1, t + 1)
      + (match s2
         case None => ""
         case Some(s2) => Spaces(t) + "Else\n" + Spaces(t + 1) + StmtText(s2, t + 1))
    case While(c, body) => Spaces(t) + "While " + ExpText(c) + "\n" + Spaces(t + 1) + StmtText(body, t + 1)
    case Print(arg) => Spaces(t) + "Print " + ArgText(arg) + "\n"
  }

  /** The texts of a list of statements, one after the other. */
  function StmtsText(ss: seq<Stmt>, t: int): string
    decreases ss
  {
    if ss == [] then "" else StmtText(ss[0], t) + StmtsText(ss[1..], t)
  }

  function ProgramText(p: Program, t: int): string {
    "# AST0 Program\n" + StmtsText(p.stmts, t)
  }

  // ------------------------------------------------------- line structure

  /** The number of line breaks in a string. */
  function Newlines(s: string): nat
    decreases |s|
  {
    if s == [] then 0 else Newlines(s[..|s| - 1]) + (if s[|s| - 1] == '\n' then 1 else 0)
  }

  lemma {:induction false} JoinLines(a: string, b: string)
    ensures Newlines(a + b) == Newlines(a) + Newlines(b)
    decreases |b|
  {
    if b == [] {
      assert a + b == a;
    } else {
      assert (a + b)[..|a + b| - 1] == a + b[..|b| - 1];
      JoinLines(a, b[..|b| - 1]);
    }
  }

  lemma {:induction false} NoBreak(s: string)
    requires '\n' !in s
    ensures Newlines(s) == 0
    decreases |s|
  {
    if s != [] {
      NoBreak(s[..|s| - 1]);
    }
  }

  /** A line that ends in a break and holds no other. */
  lemma EndsLine(line: string)
    requires '\n' !in line
    ensures Newlines(line + "\n") == 1
  {
    NoBreak(line);
    assert (line + "\n")[..|line|] == line;
  }

  /** No name or string literal in the expression holds a line break. */
  predicate OneLineExp(e: Exp) {
    match e
    case Binop(_, e1, e2) => OneLineExp(e1) && OneLineExp(e2)
    case Unop(_, e1) => OneLineExp(e1)
    case Id(nm) => '\n' !in nm
    case IntLit(_) => true
    case BoolLit(_) => true
    case StrLit(s) => '\n' !in s
  }

  predicate OneLineStmt(s: Stmt) {
    match s
    case Block(Null) => true
    case Block(Elems(ss)) => forall i :: 0 <= i < |ss| ==> OneLineStmt(ss[i])
    case Assign(x, rhs) => '\n' !in x && OneLineExp(rhs)
    case If(c, s1, s2) => OneLineExp(c) && OneLineStmt(s1) && (s2.Some? ==> OneLineStmt(s2.value))
    case While(c, body) => OneLineExp(c) && OneLineStmt(body)
    case Print(arg) => arg.Some? ==> OneLineExp(arg.value)
  }

  /**
   * How many lines a statement prints as: one for each Assign, Print, If and
   * While header, one for an Else line exactly when there is an else branch,
   * two braces for a Block, nothing for a Block whose array is null.
   */
  function Lines(s: Stmt): nat
    decreases s
  {
    match s
    case Block(Null) => 0
    case Block(Elems(ss)) => 2 + LinesOf(ss)
    case Assign(_, _) => 1
    case If(_, s1, None) => 1 + Lines(s1)
    case If(_, s1, Some(s2)) => 2 + Lines(s1) + Lines(s2)
    case While(_, body) => 1 + Lines(body)
    case Print(_) => 1
  }

  function LinesOf(ss: seq<Stmt>): nat
    decreases ss
  {
    if ss == [] then 0 else Lines(ss[0]) + LinesOf(ss[1..])
  }

  /** Expression text holds no line break when no name or string in it does. */
  lemma {:induction false} ExpTextOneLine(e: Exp)
    requires OneLineExp(e)
    ensures '\n' !in ExpText(e)
  {
    match e
    case Binop(op, e1, e2) =>
      ExpTextOneLine(e1);
      ExpTextOneLine(e2);
      BinopTextOneLine(op, ExpText(e1), ExpText(e2));
    case Unop(op, e1) =>
      ExpTextOneLine(e1);
      UnopTextOneLine(op, ExpText(e1));
    case Id(nm) =>
    case IntLit(i) =>
      var n: int := i;
      Decimal.NatToStringRoundTrip(if n < 0 then -n else n);
    case BoolLit(b) =>
    case StrLit(s) =>
  }

  lemma BinopTextOneLine(op: BOP, a: string, b: string)
    requires '\n' !in a && '\n' !in b
    ensures '\n' !in "(Binop " + op.Symbol() + " " + a + " " + b + ")"
  {
    assert '\n' !in "(Binop " + op.Symbol() + " ";
  }

  lemma UnopTextOneLine(op: UOP, a: string)
    requires '\n' !in a
    ensures '\n' !in "(Unop " + op.Symbol() + " " + a + ")"
  {
    assert '\n' !in "(Unop " + op.Symbol() + " ";
  }

  /** A statement whose names and strings hold no line break prints as exactly Lines(s) lines. */
  lemma {:induction false} StmtTextLines(s: Stmt, t: int)
    requires OneLineStmt(s)
    ensures Newlines(StmtText(s, t)) == Lines(s)
    decreases s
  {
    match s
    case Block(Null) =>
    case Block(Elems(ss)) =>
      StmtsTextLines(ss, t + 1);
      BlockLines(ss, t);
    case Assign(x, rhs) =>
      ExpTextOneLine(rhs);
      EndsLine(Spaces(t) + "Assign " + x + " " + ExpText(rhs));
    case If(c, s1, s2) =>
      ExpTextOneLine(c);
      StmtTextLines(s1, t + 1);
      if s2.Some? {
        StmtTextLines(s2.value, t + 1);
        ElseLines(s2.value, t);
      }
      IfLines(c, s1, s2, t);
    case While(c, body) =>
      ExpTextOneLine(c);
      StmtTextLines(body, t + 1);
      WhileLines(c, body, t);
    case Print(arg) =>
      if arg.Some? { ExpTextOneLine(arg.value); }
      EndsLine(Spaces(t) + "Print " + ArgText(arg));
  }

  lemma {:induction false} StmtsTextLines(ss: seq<Stmt>, t: int)
    requires forall i :: 0 <= i < |ss| ==> OneLineStmt(ss[i])
    ensures Newlines(StmtsText(ss, t)) == LinesOf(ss)
    decreases ss
  {
    if ss != [] {
      StmtTextLines(ss[0], t);
      StmtsTextLines(ss[1..], t);
      JoinLines(StmtText(ss[0], t), StmtsText(ss[1..], t));
    }
  }

  lemma BlockLines(ss: seq<Stmt>, t: int)
    ensures Newlines(StmtText(Block(Elems(ss)), t)) == 2 + Newlines(StmtsText(ss, t + 1))
  {
    var inner := StmtsText(ss, t + 1);
    BraceLines();
    NoBreak(Spaces(t));
    JoinLines(Spaces(t), "{\n");
    JoinLines(Spaces(t) + "{\n", inner);
    JoinLines(Spaces(t) + "{\n" + inner, Spaces(t));
    JoinLines(Spaces(t) + "{\n" + inner + Spaces(t), "}\n");
  }

  lemma BraceLines()
    ensures Newlines("{\n") == 1 && Newlines("}\n") == 1
  {
    assert "{\n"[..1] == "{" && "}\n"[..1] == "}";
    assert "{"[..0] == "}"[..0] == "";
  }

  /** The header line of an If or While and the indentation of its child: one line. */
  lemma HeaderLines(word: string, c: string, t: int)
    requires '\n' !in word && '\n' !in c
    ensures Newlines(Spaces(t) + word + c + "\n" + Spaces(t + 1)) == 1
  {
    EndsLine(Spaces(t) + word + c);
    NoBreak(Spaces(t + 1));
    JoinLines(Spaces(t) + word + c + "\n", Spaces(t + 1));
  }

  /** The Else line and the indented else branch. */
  lemma ElseLines(other: Stmt, t: int)
    ensures Newlines(Spaces(t) + "Else\n" + Spaces(t + 1) + StmtText(other, t + 1)) == 1 + Newlines(StmtText(other, t + 1))
  {
    HeaderLines("Else", "", t);
    assert Spaces(t) + "Else" + "" + "\n" + Spaces(t + 1) == Spaces(t) + "Else\n" + Spaces(t + 1);
    JoinLines(Spaces(t) + "Else\n" + Spaces(t + 1), StmtText(other, t + 1));
  }

  lemma IfLines(c: Exp, s1: Stmt, s2: Option<Stmt>, t: int)
    requires '\n' !in ExpText(c)
    requires Newlines(StmtText(s1, t + 1)) == Lines(s1)
    requires s2.Some? ==>
      Newlines(Spaces(t) + "Else\n" + Spaces(t + 1) + StmtText(s2.value, t + 1)) == 1 + Lines(s2.value)
    ensures Newlines(StmtText(If(c, s1, s2), t)) == Lines(If(c, s1, s2))
  {
    var head := Spaces(t) + "If " + ExpText(c) + "\n" + Spaces(t + 1);
    HeaderLines("If ", ExpText(c), t);
    JoinLines(head, StmtText(s1, t + 1));
    if s2.Some? {
      var tail := Spaces(t) + "Else\n" + Spaces(t + 1) + StmtText(s2.value, t + 1);
      JoinLines(head + StmtText(s1, t + 1), tail);
      assert StmtText(If(c, s1, s2), t) == head + StmtText(s1, t + 1) + tail;
    } else {
      assert StmtText(If(c, s1, s2), t) == head + StmtText(s1, t + 1);
    }
  }

  lemma WhileLines(c: Exp, body: Stmt, t: int)
    requires '\n' !in ExpText(c)
    ensures Newlines(StmtText(While(c, body), t)) == 1 + Newlines(StmtText(body, t + 1))
  {
    var head := Spaces(t) + "While " + ExpText(c) + "\n" + Spaces(t + 1);
    HeaderLines("While ", ExpText(c), t);
    JoinLines(head, StmtText(body, t + 1));
  }
}
