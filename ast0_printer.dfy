/**
 * The AST0 printer as the source runs it: every node's toString reads the
 * static indentation counter through tab(), and a Block, If or While raises
 * the counter around the printing of its children and lowers it again. The
 * counter is the field `tab` of a Printer; each method is proved to build the
 * text that the matching function of Ast0 describes and to leave the counter
 * as it found it.
 */
module Ast0Printer {
  import opened Wrappers
  import opened Ast0

  class Printer {
    /** The static counter Ast0.tab. */
    var tab: int

    constructor ()
      ensures tab == 0
    {
      tab := 0;
    }

    /** tab(): a string of `tab` spaces, grown one space per turn of the loop. */
    method Tab() returns (str: string)
      ensures str == Spaces(tab)
      ensures |str| == if tab < 0 then 0 else tab
    {
      str := "";
      var i := 0;
      while i < tab
        invariant 0 <= i <= if tab < 0 then 0 else tab
        invariant str == Spaces(i)
      {
        assert Spaces(i + 1) == Spaces(i) + " ";
        str := str + " ";
        i := i + 1;
      }
    }

    /** Statement.toString: the text of `s` at the current level; the counter ends where it started. */
    method StmtString(s: Stmt) returns (str: string)
      modifies this
      ensures tab == old(tab)
      ensures str == StmtText(s, old(tab))
      decreases s, 1
    {
      match s
      case Block(_) =>
        str := BlockString(s);
      case Assign(x, rhs) =>
        var t := Tab();
        str := t + "Assign " + x + " " + ExpText(rhs) + "\n";
      case If(_, _, _) =>
        str := IfString(s);
      case While(_, _) =>
        str := WhileString(s);
      case Print(arg) =>
        var t := Tab();
        str := t + "Print " + ArgText(arg) + "\n";
    }

    /** Block.toString: nothing for a null array, else the braces around the children one level deeper. */
    method BlockString(s: Stmt) returns (str: string)
      requires s.Block?
      modifies this
      ensures tab == old(tab)
      ensures str == StmtText(s, old(tab))
      decreases s, 0
    {
      if s.stmts.Null? {
        return "";
      }
      var ss := s.stmts.items;
      var t0 := tab;
      var t := Tab();
      str := t + "{\n";
      tab := tab + 1;
      var i := 0;
      while i < |ss|
        invariant 0 <= i <= |ss|
        invariant tab == t0 + 1
        invariant str + StmtsText(ss[i..], t0 + 1) == Spaces(t0) + "{\n" + StmtsText(ss, t0 + 1)
      {
        var x := StmtString(ss[i]);
        assert StmtsText(ss[i..], t0 + 1) == x + StmtsText(ss[i + 1..], t0 + 1) by {
          assert ss[i..][0] == ss[i] && ss[i..][1..] == ss[i + 1..];
        }
        str := str + x;
        i := i + 1;
      }
      assert ss[i..] == [];
      tab := tab - 1;
      t := Tab();
      str := str + t + "}\n";
    }

    /** If.toString: the header, the then branch one level deeper, and the Else part only when there is an else branch. */
    method IfString(s: Stmt) returns (str: string)
      requires s.If?
      modifies this
      ensures tab == old(tab)
      ensures str == StmtText(s, old(tab))
      decreases s, 0
    {
      var t0 := tab;
      var t := Tab();
      str := t + "If " + ExpText(s.cond) + "\n";
      tab := tab + 1;
      t := Tab();
      var x := StmtString(s.s1);
      str := str + (t + x);
      tab := tab - 1;
      ghost var front := Spaces(t0) + "If " + ExpText(s.cond) + "\n" + Spaces(t0 + 1) + StmtText(s.s1, t0 + 1);
      assert str == front;
      if s.s2.Some? {
        var e := ElseString(s.s2.value);
        str := str + e;
        assert StmtText(s, t0) == front + e;
      } else {
        assert StmtText(s, t0) == front;
      }
    }

    /** The Else line of If.toString and the else branch one level deeper. */
    method ElseString(s2: Stmt) returns (str: string)
      modifies this
      ensures tab == old(tab)
      ensures str == Spaces(old(tab)) + "Else\n" + Spaces(old(tab) + 1) + StmtText(s2, old(tab) + 1)
      decreases s2, 2
    {
      var t := Tab();
      str := t + "Else\n";
      tab := tab + 1;
      t := Tab();
      var x := StmtString(s2);
      str := str + (t + x);
      tab := tab - 1;
    }

    /** While.toString: the header and the body one level deeper. */
    method WhileString(s: Stmt) returns (str: string)
      requires s.While?
      modifies this
      ensures tab == old(tab)
      ensures str == StmtText(s, old(tab))
      decreases s, 0
    {
      var t := Tab();
      str := t + "While " + ExpText(s.cond) + "\n";
      tab := tab + 1;
      t := Tab();
      var x := StmtString(s.body);
      str := str + (t + x);
      tab := tab - 1;
    }

    /** Program.toString: the header line, then every statement at the current level. */
    method ProgramString(p: Program) returns (str: string)
      modifies this
      ensures tab == old(tab)
      ensures str == ProgramText(p, old(tab))
    {
      var ss := p.stmts;
      str := "# AST0 Program\n";
      var i := 0;
      while i < |ss|
        invariant 0 <= i <= |ss|
        invariant tab == old(tab)
        invariant str + StmtsText(ss[i..], tab) == ProgramText(p, tab)
      {
        var x := StmtString(ss[i]);
        assert StmtsText(ss[i..], tab) == x + StmtsText(ss[i + 1..], tab) by {
          assert ss[i..][0] == ss[i] && ss[i..][1..] == ss[i + 1..];
        }
        str := str + x;
        i := i + 1;
      }
      assert ss[i..] == [];
    }
  }
}
