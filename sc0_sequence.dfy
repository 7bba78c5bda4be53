/**
 * Sequencing and the variable table: statement lists produce the
 * concatenation of their members' code, the table is threaded left to right,
 * and it only ever grows by appending names it does not hold yet.
 */
module SC0Sequence {
  import opened Wrappers
  import opened Ast0
  import opened SC0
  import opened SC0Gen

  /** Appending in two steps is appending the concatenation. */
  lemma AppendAssoc(a: seq<Instr>, b: seq<Instr>, r: Result<Gen, GenError>)
    ensures Append(a, Append(b, r)) == Append(a + b, r)
  {
    if r.Ok? {
      assert a + (b + r.value.code) == (a + b) + r.value.code;
    }
  }

  /** Nothing emitted before: the outcome is unchanged. */
  lemma AppendNil(r: Result<Gen, GenError>)
    ensures Append([], r) == r
  {
    if r.Ok? {
      assert [] + r.value.code == r.value.code;
    }
  }

  /** The outcome of running `r` and then the list `ys` on the table `r` left. */
  function Then(r: Result<Gen, GenError>, ys: seq<Stmt>): Result<Gen, GenError> {
    match r
    case Ok(g) => Append(g.code, GenStmts(ys, g.vars))
    case Err(e) => Err(e)
  }

  /**
   * A list split anywhere generates as its first part followed by its second
   * part on the table the first part left: the code of a list is the
   * in-order concatenation of its statements' code.
   */
  lemma {:induction false} GenStmtsAppend(xs: seq<Stmt>, ys: seq<Stmt>, vars: Vars)
    ensures GenStmts(xs + ys, vars) == Then(GenStmts(xs, vars), ys)
    decreases xs
  {
    if xs == [] {
      assert xs + ys == ys;
      var r := GenStmts(ys, vars);
      if r.Ok? {
        assert [] + r.value.code == r.value.code;
      }
    } else {
      assert (xs + ys)[0] == xs[0];
      assert (xs + ys)[1..] == xs[1..] + ys;
      var r := GenStmt(xs[0], vars);
      if r.Ok? {
        GenStmtsAppend(xs[1..], ys, r.value.vars);
        var rest := GenStmts(xs[1..], r.value.vars);
        if rest.Ok? {
          AppendAssoc(r.value.code, rest.value.code, GenStmts(ys, rest.value.vars));
        }
      }
    }
  }

  /** One statement more at the end of a list: its code follows the list's. */
  lemma GenStmtsSnoc(xs: seq<Stmt>, s: Stmt, vars: Vars)
    ensures GenStmts(xs + [s], vars) ==
      match GenStmts(xs, vars)
      case Err(e) => Err(e)
      case Ok(g) => Append(g.code, GenStmt(s, g.vars))
  {
    GenStmtsAppend(xs, [s], vars);
    var r := GenStmts(xs, vars);
    if r.Ok? {
      var t := GenStmt(s, r.value.vars);
      assert [s][1..] == [];
      if t.Ok? {
        assert t.value.code + [] == t.value.code;
        assert GenStmts([s], r.value.vars) == Ok(Gen(t.value.code, t.value.vars));
      }
    }
  }

  /** A program generates exactly as a Block holding its statements does, from an empty table. */
  lemma ProgramIsBlock(p: Program)
    ensures GenProgram(p).Ok? <==> GenStmt(Block(Elems(p.stmts)), []).Ok?
    ensures GenProgram(p).Ok? ==> GenProgram(p).value == GenStmt(Block(Elems(p.stmts)), []).value.code
    ensures GenProgram(p).Err? ==> GenProgram(p).error == GenStmt(Block(Elems(p.stmts)), []).error
  {
  }

  // ---------------------------------------------------------------------------
  // The variable table

  /** The names assigned by a statement, in the order generation meets them. */
  function Assigned(s: Stmt): seq<string>
    decreases s
  {
    match s
    case Block(Null) => []
    case Block(Elems(ss)) => AssignedAll(ss)
    case Assign(x, _) => [x]
    case If(_, s1, None) => Assigned(s1)
    case If(_, s1, Some(s2)) => Assigned(s1) + Assigned(s2)
    case While(_, body) => Assigned(body)
    case Print(_) => []
  }

  function AssignedAll(ss: seq<Stmt>): seq<string>
    decreases ss
  {
    if ss == [] then [] else Assigned(ss[0]) + AssignedAll(ss[1..])
  }

  /** Reference table: the names `xs` entered one after another, each appended only if absent. */
  function AddNames(vars: Vars, xs: seq<string>): Vars
    decreases |xs|
  {
    if xs == [] then vars else AddNames(Declare(vars, xs[0]), xs[1..])
  }

  lemma {:induction false} AddNamesAppend(vars: Vars, xs: seq<string>, ys: seq<string>)
    ensures AddNames(vars, xs + ys) == AddNames(AddNames(vars, xs), ys)
    decreases |xs|
  {
    if xs == [] {
      assert xs + ys == ys;
    } else {
      assert (xs + ys)[0] == xs[0];
      assert (xs + ys)[1..] == xs[1..] + ys;
      AddNamesAppend(Declare(vars, xs[0]), xs[1..], ys);
    }
  }

  /**
   * After a successful statement the table is the old one with the
   * statement's assigned names entered in order.
   */
  lemma {:induction false} GenStmtTable(s: Stmt, vars: Vars)
    requires GenStmt(s, vars).Ok?
    ensures GenStmt(s, vars).value.vars == AddNames(vars, Assigned(s))
    decreases s, 1
  {
    match s
    case Block(Null) =>
    case Block(Elems(ss)) =>
      GenStmtsTable(ss, vars);
    case Assign(x, _) =>
      assert [x][1..] == [];
    case If(_, s1, None) =>
      GenStmtTable(s1, vars);
    case If(_, s1, Some(s2)) =>
      GenStmtTable(s1, vars);
      GenStmtTable(s2, GenStmt(s1, vars).value.vars);
      AddNamesAppend(vars, Assigned(s1), Assigned(s2));
    case While(_, body) =>
      GenStmtTable(body, vars);
    case Print(_) =>
  }

  lemma {:induction false} GenStmtsTable(ss: seq<Stmt>, vars: Vars)
    requires GenStmts(ss, vars).Ok?
    ensures GenStmts(ss, vars).value.vars == AddNames(vars, AssignedAll(ss))
    decreases ss, 0
  {
    if ss != [] {
      var g := GenStmt(ss[0], vars).value;
      GenStmtTable(ss[0], vars);
      GenStmtsTable(ss[1..], g.vars);
      AddNamesAppend(vars, Assigned(ss[0]), AssignedAll(ss[1..]));
    }
  }

  /**
   * Entering names only appends: every existing slot keeps its name, the
   * table never holds a name twice, and it holds exactly the old names and
   * the entered ones.
   */
  lemma {:induction false} AddNamesGrows(vars: Vars, xs: seq<string>)
    ensures vars <= AddNames(vars, xs)
    ensures NoDuplicates(vars) ==> NoDuplicates(AddNames(vars, xs))
    ensures forall x :: x in AddNames(vars, xs) <==> x in vars || x in xs
    decreases |xs|
  {
    if xs != [] {
      var v' := Declare(vars, xs[0]);
      AddNamesGrows(v', xs[1..]);
      assert forall x :: x in xs <==> x == xs[0] || x in xs[1..];
    }
  }

  /** The number of distinct names in `xs`. */
  function Distinct(xs: seq<string>): nat
    decreases |xs|
  {
    if xs == [] then 0
    else if xs[|xs| - 1] in xs[..|xs| - 1] then Distinct(xs[..|xs| - 1])
    else Distinct(xs[..|xs| - 1]) + 1
  }

  /** Starting from an empty table, it ends with one slot per distinct name entered. */
  lemma {:induction false} AddNamesSize(xs: seq<string>)
    ensures |AddNames([], xs)| == Distinct(xs)
    decreases |xs|
  {
    if xs != [] {
      var init := xs[..|xs| - 1];
      var last := xs[|xs| - 1];
      assert xs == init + [last];
      AddNamesAppend([], init, [last]);
      AddNamesGrows([], init);
      assert [last][1..] == [];
      AddNamesSize(init);
    }
  }

  /**
   * The whole table a program builds: the names it assigns, each once, in
   * order of first assignment; no slot is ever reused for another name.
   */
  lemma ProgramTable(p: Program)
    requires GenStmts(p.stmts, []).Ok?
    ensures GenStmts(p.stmts, []).value.vars == AddNames([], AssignedAll(p.stmts))
    ensures NoDuplicates(GenStmts(p.stmts, []).value.vars)
    ensures |GenStmts(p.stmts, []).value.vars| == Distinct(AssignedAll(p.stmts))
  {
    GenStmtsTable(p.stmts, []);
    AddNamesGrows([], AssignedAll(p.stmts));
    AddNamesSize(AssignedAll(p.stmts));
  }

  /**
   * Assign: the right-hand side's code then one STORE. A first assignment
   * appends the name and stores into the new last slot; a re-assignment
   * leaves the table alone and reuses the name's slot.
   */
  lemma AssignStore(x: string, rhs: Exp, vars: Vars)
    requires NoDuplicates(vars)
    ensures GenStmt(Assign(x, rhs), vars).Ok? <==> GenExp(rhs, vars).Ok?
    ensures GenExp(rhs, vars).Err? ==> GenStmt(Assign(x, rhs), vars) == Err(GenExp(rhs, vars).error)
    ensures GenExp(rhs, vars).Ok? ==>
      var g := GenStmt(Assign(x, rhs), vars).value;
      var c := GenExp(rhs, vars).value;
      |g.code| == |c| + 1 && g.code[..|c|] == c && g.code[|c|].Store? &&
      var k := g.code[|c|].slot;
      k < |g.vars| && g.vars[k] == x && NoDuplicates(g.vars) &&
      (x !in vars ==> g.vars == vars + [x] && k == |vars|) &&
      (x in vars ==> g.vars == vars && forall j :: 0 <= j < |vars| && vars[j] == x ==> j == k)
  {
    if GenExp(rhs, vars).Ok? {
      var c := GenExp(rhs, vars).value;
      var g := GenStmt(Assign(x, rhs), vars).value;
      assert g.code == c + [Store(IndexOf(Declare(vars, x), x))];
      assert g.code[..|c|] == c;
      if x !in vars {
        var k := IndexOf(vars + [x], x);
        assert (vars + [x])[|vars|] == x;
        assert k == |vars|;
      }
    }
  }
}
