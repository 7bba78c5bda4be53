/**
 * SC0 stack code: the instructions the generator emits and the exact text it
 * prints for each. An instruction is an opcode with at most one operand: a
 * plain number for CONST, LOAD and STORE, a signed relative offset for the
 * jumps (IFZ, GOTO and the six compare-and-jump opcodes).
 */
module SC0 {
  import opened Wrappers
  import Decimal

  datatype Opcode =
    | CONST | LOAD | STORE
    | IFZ | GOTO | IFEQ | IFNE | IFLT | IFLE | IFGT | IFGE
    | ADD | SUB | MUL | DIV | AND | OR | NEG | PRINT
  {
    function Name(): string {
      match this
      case CONST => "CONST"
      case LOAD => "LOAD"
      case STORE => "STORE"
      case IFZ => "IFZ"
      case GOTO => "GOTO"
      case IFEQ => "IFEQ"
      case IFNE => "IFNE"
      case IFLT => "IFLT"
      case IFLE => "IFLE"
      case IFGT => "IFGT"
      case IFGE => "IFGE"
      case ADD => "ADD"
      case SUB => "SUB"
      case MUL => "MUL"
      case DIV => "DIV"
      case AND => "AND"
      case OR => "OR"
      case NEG => "NEG"
      case PRINT => "PRINT"
    }

    /** The opcodes that carry a relative offset. */
    predicate IsJump() {
      IFZ? || GOTO? || IFEQ? || IFNE? || IFLT? || IFLE? || IFGT? || IFGE?
    }

    /** The opcodes that carry a plain number. */
    predicate HasNumber() {
      CONST? || LOAD? || STORE?
    }
  }

  datatype Instr =
    | Const(value: int)
    | Load(slot: nat)
    | Store(slot: nat)
    | Jump(op: Opcode, offset: int)
    | Plain(op: Opcode)
  {
    /** Each opcode appears with the operand kind it takes. */
    predicate WellFormed() {
      match this
      case Jump(op, _) => op.IsJump()
      case Plain(op) => !op.IsJump() && !op.HasNumber()
      case _ => true
    }
  }

  /** A relative offset as printed: an explicit `+` or `-` before the magnitude. */
  function OffsetText(d: int): string {
    if d >= 0 then "+" + Decimal.NatToString(d) else "-" + Decimal.NatToString(-d)
  }

  /** The text of one instruction: the opcode name, then a space and the operand if there is one. */
  function Render(i: Instr): string {
    match i
    case Const(n) => CONST.Name() + " " + Decimal.IntToString(n)
    case Load(k) => LOAD.Name() + " " + Decimal.IntToString(k)
    case Store(k) => STORE.Name() + " " + Decimal.IntToString(k)
    case Jump(op, d) => op.Name() + " " + OffsetText(d)
    case Plain(op) => op.Name()
  }

  /** The printed instruction list: one string per instruction, in order. */
  function Listing(code: seq<Instr>): seq<string> {
    seq(|code|, k requires 0 <= k < |code| => Render(code[k]))
  }

  // ------------------------------------------------------ reading text back

  function OpcodeOfName(name: string): Option<Opcode> {
    if name == "CONST" then Some(CONST)
    else if name == "LOAD" then Some(LOAD)
    else if name == "STORE" then Some(STORE)
    else if name == "IFZ" then Some(IFZ)
    else if name == "GOTO" then Some(GOTO)
    else if name == "IFEQ" then Some(IFEQ)
    else if name == "IFNE" then Some(IFNE)
    else if name == "IFLT" then Some(IFLT)
    else if name == "IFLE" then Some(IFLE)
    else if name == "IFGT" then Some(IFGT)
    else if name == "IFGE" then Some(IFGE)
    else if name == "ADD" then Some(ADD)
    else if name == "SUB" then Some(SUB)
    else if name == "MUL" then Some(MUL)
    else if name == "DIV" then Some(DIV)
    else if name == "AND" then Some(AND)
    else if name == "OR" then Some(OR)
    else if name == "NEG" then Some(NEG)
    else if name == "PRINT" then Some(PRINT)
    else None
  }

  /** The position of the first space in `s`, or |s| when there is none. */
  function FirstSpace(s: string): (k: nat)
    ensures k <= |s|
    ensures k < |s| ==> s[k] == ' '
    ensures forall j :: 0 <= j < k ==> s[j] != ' '
    decreases |s|
  {
    if s == [] || s[0] == ' ' then 0 else 1 + FirstSpace(s[1..])
  }

  /** Reads a printed offset: a sign, then digits. */
  function ParseOffset(s: string): Option<int> {
    if |s| > 0 && s[0] == '+' then Some(Decimal.DigitsValue(s[1..]))
    else if |s| > 0 && s[0] == '-' then Some(-Decimal.DigitsValue(s[1..]))
    else None
  }

  /** Reads one printed instruction back: the opcode name up to the first space, then the operand after it. */
  function Parse(s: string): Option<Instr> {
    var k := FirstSpace(s);
    match OpcodeOfName(s[..k])
    case None => None
    case Some(op) => ParseOperand(op, if k == |s| then None else Some(s[k + 1..]))
  }

  function ParseOperand(op: Opcode, arg: Option<string>): Option<Instr> {
    match arg
    case None => if op.IsJump() || op.HasNumber() then None else Some(Plain(op))
    case Some(text) =>
      if op.IsJump() then
        match ParseOffset(text)
        case None => None
        case Some(d) => Some(Jump(op, d))
      else if op == CONST then Some(Const(Decimal.ParseInt(text)))
      else if op == LOAD || op == STORE then
        var n := Decimal.ParseInt(text);
        if n < 0 then None else if op == LOAD then Some(Load(n)) else Some(Store(n))
      else None
  }

  /** Text made of an opcode name, a space and an operand is read as that opcode with that operand text. */
  lemma SplitAtName(op: Opcode, rest: string)
    ensures Parse(op.Name() + " " + rest) == ParseOperand(op, Some(rest))
  {
    var s := op.Name() + " " + rest;
    NameRoundTrip(op);
    FirstSpaceAfter(op.Name(), rest);
    assert s[..|op.Name()|] == op.Name();
    assert s[|op.Name()| + 1..] == rest;
  }

  lemma NameRoundTrip(op: Opcode)
    ensures OpcodeOfName(op.Name()) == Some(op)
    ensures 0 < |op.Name()| && ' ' !in op.Name()
  {
  }

  lemma {:induction false} FirstSpaceAfter(name: string, rest: string)
    requires ' ' !in name
    ensures FirstSpace(name + " " + rest) == |name|
    decreases |name|
  {
    if name != [] {
      assert (name + " " + rest)[1..] == name[1..] + " " + rest;
      FirstSpaceAfter(name[1..], rest);
    }
  }

  /** Every well-formed instruction is read back from its text: the printed listing is unambiguous. */
  lemma RenderRoundTrip(i: Instr)
    requires i.WellFormed()
    ensures Parse(Render(i)) == Some(i)
  {
    match i
    case Const(n) => ConstRoundTrip(n);
    case Load(k) => SlotRoundTrip(k);
    case Store(k) => SlotRoundTrip(k);
    case Jump(op, d) => JumpRoundTrip(op, d);
    case Plain(op) => PlainRoundTrip(op);
  }

  lemma ConstRoundTrip(n: int)
    ensures Parse(Render(Const(n))) == Some(Const(n))
  {
    SplitAtName(CONST, Decimal.IntToString(n));
    Decimal.IntToStringRoundTrip(n);
  }

  lemma SlotRoundTrip(k: nat)
    ensures Parse(Render(Load(k))) == Some(Load(k))
    ensures Parse(Render(Store(k))) == Some(Store(k))
  {
    LoadRoundTrip(k);
    StoreRoundTrip(k);
  }

  lemma LoadRoundTrip(k: nat)
    ensures Parse(Render(Load(k))) == Some(Load(k))
  {
    SplitAtName(LOAD, Decimal.IntToString(k));
    Decimal.IntToStringRoundTrip(k);
  }

  lemma StoreRoundTrip(k: nat)
    ensures Parse(Render(Store(k))) == Some(Store(k))
  {
    SplitAtName(STORE, Decimal.IntToString(k));
    Decimal.IntToStringRoundTrip(k);
  }

  lemma JumpRoundTrip(op: Opcode, d: int)
    requires op.IsJump()
    ensures Parse(Render(Jump(op, d))) == Some(Jump(op, d))
  {
    SplitAtName(op, OffsetText(d));
    OffsetRoundTrip(d);
  }

  lemma PlainRoundTrip(op: Opcode)
    requires !op.IsJump() && !op.HasNumber()
    ensures Parse(Render(Plain(op))) == Some(Plain(op))
  {
    NameRoundTrip(op);
    FirstSpaceNone(op.Name());
    assert Render(Plain(op))[..|op.Name()|] == op.Name();
  }

  lemma OffsetRoundTrip(d: int)
    ensures ParseOffset(OffsetText(d)) == Some(d)
  {
    var m := if d >= 0 then d else -d;
    Decimal.NatToStringRoundTrip(m);
    assert OffsetText(d)[1..] == Decimal.NatToString(m);
  }

  lemma {:induction false} FirstSpaceNone(s: string)
    requires ' ' !in s
    ensures FirstSpace(s) == |s|
    decreases |s|
  {
    if s != [] {
      FirstSpaceNone(s[1..]);
    }
  }

  /** Different well-formed instructions print differently. */
  lemma RenderInjective(i: Instr, j: Instr)
    requires i.WellFormed() && j.WellFormed()
    requires Render(i) == Render(j)
    ensures i == j
  {
    RenderRoundTrip(i);
    RenderRoundTrip(j);
  }
}
