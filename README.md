# SC0 code generator and AST0 nodes, in Dafny

This project models the back end of a small teaching compiler. Its input is
an AST0 program tree: statements Block, Assign, If (with an optional else),
While and Print (with an optional argument), and expressions Binop, Unop,
Id, IntLit, BoolLit and StrLit. Its output is SC0 stack code: a list of
instruction strings such as `CONST 5`, `LOAD 0`, `STORE 1`, `IFZ +3`,
`GOTO -7`, `IFLT +3`, `ADD` and `PRINT`. The model also covers the indented
AST0 pretty-printer, which is driven by a static indentation counter.

Files and modules:

- `wrappers.dfy` (`Wrappers`): `Option` and `Result`.
- `decimal.dfy` (`Decimal`): Java's decimal text for an `int`, with a
  reader that recovers the value.
- `ast0.dfy` (`Ast0`): the node types as datatypes, and the text of
  expressions and statements as functions of the indentation level. It also
  counts the lines of a printed statement.
- `ast0_printer.dfy` (`Ast0Printer`): class `Printer`. Its field `tab` is the
  static counter `Ast0.tab`. Its methods build each node's text with loops
  and `++`/`--` on `tab`, as the `toString` methods do. Each method is proved
  to produce the text the `Ast0` function gives and to restore `tab`.
- `sc0.dfy` (`SC0`): instructions as a datatype, their exact text, and a
  reader proving that the text of every well-formed instruction reads back
  as that instruction.
- `sc0_gen.dfy` (`SC0Gen`): the generator as pure functions. The variable
  table is a `seq<string>` threaded from left to right. A `GenException`, or
  the `NullPointerException` of a null statement array, is an `Err`.
- `sc0_generator.dfy` (`SC0Generator`): class `Generator`. Its field `vars`
  is the static `ArrayList` table. Its methods append to a code list as the
  `gen` overloads do. Each is proved to agree with `SC0Gen`.
- `sc0_sequence.dfy` (`SC0Sequence`): concatenation and threading for
  statement lists, and the variable table. The table only grows, keeps
  every slot, holds no name twice, and has one slot per distinct name.
- `sc0_exp.dfy` (`SC0Exp`): the operator map. It also says when an
  expression generates or fails, and the layout of Binop and Unop code
  (both operands are always emitted, so there is no short-circuit).
- `sc0_jumps.dfy` (`SC0Jumps`): where the relative jumps land, stated as
  index arithmetic on the emitted code.
- `sc0_listing.dfy` (`SC0Listing`): the instruction strings of a whole
  program, plus worked examples.

## Jump offsets

An offset `d` on the jump at index `p` can be read two ways. Under the
own-index reading the target is `p + d`. Under the next-index reading it is
`p + 1 + d`. The If rule (`SC0Gen.java:126`, `130`) and the 0/1 idiom
(`SC0Gen.java:201-204`, `221-224`) land where their control flow needs only
under the own-index reading.

Under that same reading the While rule (`SC0Gen.java:144`, `146`) is off by
one:

- the IFZ lands on the loop's own trailing GOTO, not past it;
- the GOTO lands one instruction before the condition.

Under the next-index reading the While rule is right, but If and the idiom
are each one too far. The model states what the code emits and proves both
readings (`SC0Jumps.WhileLanding`, `SC0Jumps.NoReadingFitsBoth`). It does
not change either rule. The SC0 machine that would settle the question is
not part of this model.

## Model

| member | source | states |
|---|---|---|
| `Ast0.BopSymbolInjective` | ast/Ast0.java:141-148 | the twelve binary operators print as twelve different symbols |
| `Ast0.Spaces` | ast/Ast0.java:17-22 | `tab()` text has exactly as many characters as the counter (none when it is not positive), all of them spaces |
| `Ast0.ExpTextOneLine` | ast/Ast0.java:158-219 | expression text has no line break unless a name or string literal inside it has one |
| `Ast0.StmtTextLines` | ast/Ast0.java:48-135 | a statement prints as exactly `Lines(s)` lines: 0 for a null Block, braces plus children for a Block, 1 for Assign and Print, a header plus the child for If and While, and an Else line plus the else branch only when there is one |
| `Ast0.StmtsTextLines` | ast/Ast0.java:62-63 | the children of a Block contribute the sum of their line counts |
| `Ast0.BlockLines` | ast/Ast0.java:57-68 | a non-null Block adds exactly the `{` and `}` lines around its children |
| `Ast0.HeaderLines` | ast/Ast0.java:94-96 | the If/While header and the child's indentation form one line |
| `Ast0.ElseLines` | ast/Ast0.java:98-103 | the Else part adds one line plus the lines of the else branch |
| `Ast0.IfLines` | ast/Ast0.java:93-105 | an If prints as 1 + lines(s1), plus 1 + lines(s2) only when s2 is present |
| `Ast0.WhileLines` | ast/Ast0.java:116-122 | a While prints as 1 + lines(body) |
| `Ast0Printer.Printer.constructor` | ast/Ast0.java:14 | the indentation counter starts at 0 |
| `Ast0Printer.Printer.Tab` | ast/Ast0.java:17-22 | the loop builds exactly `Spaces(tab)`, of length `tab` (0 when negative) |
| `Ast0Printer.Printer.StmtString` | ast/Ast0.java:73-135 | any statement's text equals `StmtText(s, tab)` and the counter is restored |
| `Ast0Printer.Printer.BlockString` | ast/Ast0.java:57-68 | `""` for a null array, else `{`, the children one level deeper, `}`; the counter's `++` is undone |
| `Ast0Printer.Printer.IfString` | ast/Ast0.java:93-105 | If text with the then branch one level deeper; the counter is restored |
| `Ast0Printer.Printer.ElseString` | ast/Ast0.java:98-103 | the Else line and the else branch one level deeper; the counter is restored |
| `Ast0Printer.Printer.WhileString` | ast/Ast0.java:116-122 | While text with the body one level deeper; the counter is restored |
| `Ast0Printer.Printer.ProgramString` | ast/Ast0.java:36-41 | the `# AST0 Program` header followed by every statement's text, in order |
| `Decimal.NatToStringRoundTrip` | ast/Ast0.java:200 | the decimal digits of a natural number are digits, have no leading zero and read back as the number |
| `Decimal.IntToStringRoundTrip` | ast/Ast0.java:200 | the text of any int (with `-` for negatives) is non-empty and reads back as the int |
| `Decimal.IntToStringInjective` | ast/Ast0.java:200 | different ints have different texts |
| `SC0.NameRoundTrip` | SC0Gen.java:277-293 | every opcode name is non-empty, has no space and names that opcode alone |
| `SC0.OffsetRoundTrip` | SC0Gen.java:144-146 | an offset printed with its explicit `+` or `-` reads back as the offset |
| `SC0.ConstRoundTrip` | SC0Gen.java:251-258 | `CONST n` reads back as `Const(n)` for every int n |
| `SC0.LoadRoundTrip` | SC0Gen.java:239-246 | `LOAD k` reads back as `Load(k)` |
| `SC0.StoreRoundTrip` | SC0Gen.java:101-107 | `STORE k` reads back as `Store(k)` |
| `SC0.SlotRoundTrip` | SC0Gen.java:101-107 | both slot instructions read back from their text |
| `SC0.JumpRoundTrip` | SC0Gen.java:123-149 | `IFZ +n`, `GOTO -n` and the other jumps read back as the jump with that signed offset |
| `SC0.PlainRoundTrip` | SC0Gen.java:188-208 | an opcode without an operand reads back from its bare name |
| `SC0.RenderRoundTrip` | SC0Gen.java:96-273 | every well-formed instruction reads back from the string the generator builds for it |
| `SC0.RenderInjective` | SC0Gen.java:96-273 | distinct well-formed instructions have distinct strings |
| `SC0Gen.IndexOf` | SC0Gen.java:19-25 | the table's `indexOf`: the first slot holding the name, and -1 exactly when the name is absent |
| `SC0Sequence.GenStmtsAppend` | SC0Gen.java:74-82 | a statement list split anywhere generates as its first part followed by its second part, run on the table the first part left; an error in either part is the list's error |
| `SC0Sequence.GenStmtsSnoc` | SC0Gen.java:74-82 | one more statement appends its code after the list's code |
| `SC0Sequence.ProgramIsBlock` | SC0Gen.java:52-57 | a program generates exactly as a Block holding its statements does, from an empty table |
| `SC0Sequence.GenStmtTable` | SC0Gen.java:96-110 | after a statement, the table is the old one with the statement's assigned names entered in order, each only if absent |
| `SC0Sequence.GenStmtsTable` | SC0Gen.java:74-82 | the same for a statement list, threaded left to right |
| `SC0Sequence.AddNamesGrows` | SC0Gen.java:101-107 | entering names only appends: old slots keep their names, no name appears twice, and the table holds exactly the old and the entered names |
| `SC0Sequence.AddNamesSize` | SC0Gen.java:101-102 | from an empty table, there is one slot per distinct name entered |
| `SC0Sequence.ProgramTable` | SC0Gen.java:25 | a program's table lists its assigned names once each, in order of first assignment |
| `SC0Sequence.AssignStore` | SC0Gen.java:96-110 | Assign emits the rhs code and one STORE; a first assignment appends the name and stores to slot \|old table\|; a re-assignment keeps the table and reuses the name's only slot; a failing rhs is the Assign's error |
| `SC0Exp.BopOpcodeInjective` | SC0Gen.java:277-293 | different binary operators map to different opcodes |
| `SC0Exp.BopOpcodeKind` | SC0Gen.java:192-206 | an operator maps to a conditional jump exactly when it is relational; relational operators add 4 instructions and the others add 1 |
| `SC0Exp.GenExpOutcome` | SC0Gen.java:164-170 | an expression generates exactly when it has no string literal and every name it reads is in the table; a failure names a missing variable or the text of a string literal |
| `SC0Exp.IdLoad` | SC0Gen.java:239-246 | Id emits one `LOAD k` with `vars[k] == nm` when the name is present, and otherwise fails with `UndefinedId(nm)`; no negative slot is emitted |
| `SC0Exp.GenExpReadsOnly` | SC0Gen.java:164-273 | expression code never stores or prints; every LOAD is a slot of the table holding a name the expression reads; every instruction is well formed |
| `SC0Exp.BinopLayout` | SC0Gen.java:188-208 | Binop always emits e1's code then e2's code (also for AND/OR), then one non-jump opcode or the 0/1 idiom for relational operators; errors come from e1 first, then e2 |
| `SC0Exp.UnopLayout` | SC0Gen.java:214-231 | Unop emits the operand's code, then the idiom on IFZ for NOT or one NEG for negation |
| `SC0Exp.LiteralCode` | SC0Gen.java:248-273 | IntLit emits `CONST i`; BoolLit emits `CONST 1` or `CONST 0`; a StrLit fails with its quoted text |
| `SC0Jumps.IdiomLanding` | SC0Gen.java:198-205 | wherever the idiom sits, its conditional jump lands on `CONST 1`, falling through reaches `CONST 0`, and its GOTO lands just past the idiom (own index) |
| `SC0Jumps.IfLanding` | SC0Gen.java:123-134 | without an else, the IFZ follows the condition's code, the then-branch follows the IFZ, and the IFZ lands just past the then-branch (own index) |
| `SC0Jumps.IfElseLanding` | SC0Gen.java:123-134 | with an else, the IFZ lands on the first else instruction and the GOTO lands just past the else branch (own index) |
| `SC0Jumps.WhileLanding` | SC0Gen.java:140-149 | a While is condition, `IFZ +(\|s\|+1)`, body, `GOTO -(\|cond\|+\|s\|+2)`, for \|cond\|+\|s\|+2 instructions; under the own-index reading the IFZ lands on the GOTO and the GOTO lands at -1; under the next-index reading they land at the end and at 0 |
| `SC0Jumps.GenExpInRange` | SC0Gen.java:188-231 | every jump in expression code lands inside the code or just past its end (own index) |
| `SC0Jumps.GenStmtInRange` | SC0Gen.java:61-134 | every jump in the code of a statement without While lands inside the code or just past its end (own index) |
| `SC0Jumps.GenStmtsInRange` | SC0Gen.java:74-82 | the same for a statement list without While |
| `SC0Jumps.WhileOutOfRange` | SC0Gen.java:144-146 | the code of any While has a jump landing before its start (own index) |
| `SC0Jumps.NoReadingFitsBoth` | SC0Gen.java:123-149 | for `if (true) {}` and `while (true) {}`, the own-index reading sends the while's IFZ to its own GOTO, and the next-index reading sends the if's IFZ one past the end |
| `SC0Listing.GenExpWellFormed` | SC0Gen.java:164-273 | every instruction of expression code has the operand kind its opcode takes |
| `SC0Listing.GenStmtWellFormed` | SC0Gen.java:61-160 | every instruction of statement code has the operand kind its opcode takes |
| `SC0Listing.GenStmtsWellFormed` | SC0Gen.java:74-82 | the same for a statement list |
| `SC0Listing.ProgramListingReadsBack` | SC0Gen.java:52-57 | a program's listing has one string per instruction, and each string reads back as its instruction |
| `SC0Listing.AssignExample` | SC0Gen.java:88-93 | `Assign x 5; Assign y x` generates `CONST 5`, `STORE 0`, `LOAD 0`, `STORE 1` |
| `SC0Listing.CompareExample` | SC0Gen.java:181-186 | `Print (Binop < 1 2)` generates `CONST 1`, `CONST 2`, `IFLT +3`, `CONST 0`, `GOTO +2`, `CONST 1`, `PRINT` |
| `SC0Listing.ErrorExamples` | SC0Gen.java:239-246 | an unassigned name, a null Print argument and a null Block array each stop generation with their error |
| `SC0Listing.LateErrorExample` | SC0Gen.java:164-170 | a failure after code was already generated returns only the error, with no partial code |
| `SC0Generator.Generator.constructor` | SC0Gen.java:25 | the table starts empty |
| `SC0Generator.Generator.GenExp` | SC0Gen.java:164-171 | the expression dispatch returns exactly `SC0Gen.GenExp(e, vars)`, including the Id, IntLit, BoolLit and unknown-node cases |
| `SC0Generator.Generator.GenBinop` | SC0Gen.java:188-208 | the appended list equals `SC0Gen.GenExp` of the Binop |
| `SC0Generator.Generator.GenUnop` | SC0Gen.java:214-231 | the appended list equals `SC0Gen.GenExp` of the Unop |
| `SC0Generator.Generator.GenStmt` | SC0Gen.java:61-68 | code and final table agree with `SC0Gen.GenStmt`; the table only grows |
| `SC0Generator.Generator.GenBlock` | SC0Gen.java:74-82 | the loop's code and table agree with `SC0Gen.GenStmt` of the Block; a null array fails |
| `SC0Generator.Generator.GenAssign` | SC0Gen.java:96-110 | code and the in-place table update agree with `SC0Gen.GenStmt` of the Assign |
| `SC0Generator.Generator.GenIf` | SC0Gen.java:123-134 | code and table agree with `SC0Gen.GenStmt` of the If |
| `SC0Generator.Generator.GenWhile` | SC0Gen.java:140-149 | code and table agree with `SC0Gen.GenStmt` of the While |
| `SC0Generator.Generator.GenPrint` | SC0Gen.java:154-160 | code and table agree with `SC0Gen.GenStmt` of the Print; a null argument fails as an unknown node |
| `SC0Generator.Generator.GenProgram` | SC0Gen.java:52-57 | the loop's code and table agree with `SC0Gen.GenStmts` of the program's statements |
| `SC0Generator.Generate` | SC0Gen.java:52-57 | one run on a fresh generator returns exactly `SC0Gen.GenProgram(p)` |

## Left out

- `SC0Gen.main` is not modelled: reading the input file, calling the
  parser, and printing numbered lines. `SC0Listing.ProgramListing` is the
  list of strings that `main` would print.
- The parser `ast.Ast0Parser` is not part of this model.
- The SC0 machine is not part of this model. Jump targets are stated as
  index arithmetic only, and no stack evaluation is modelled.
- The static table lives for the whole process in the source. Here each
  program starts from an empty table (`SC0Generator.Generate` makes a new
  `Generator`).
- `IntLit` holds a Java `int` (`Ast0.Int32`). How the parser handles
  overflow is not modelled.
- Exception messages are not modelled in full. A `GenError` keeps only the
  missing name or the offending node's text.
- The `Unknown Ast0 Stmt` branch (`SC0Gen.java:67`) cannot be reached. The
  statement type is closed, and null statements are not modelled.
- Only the fields the source treats as nullable may be absent: `If.s2`,
  `Print.arg` and `Block.stmts`. A null `Program.stmts`, or any other null
  field, is not modelled.
- The `List` constructors of `Program` and `Block` are not modelled. They
  only convert a list to an array.
- `SC0Generator.Generator.GenStmt`: when generation fails, the contract
  only says that the table has grown. The source leaves whatever names were
  added before the failure. The spec function returns no table on failure,
  and the same holds for the other statement methods of `Generator`.
- `Exp.toString` is modelled as the pure function `Ast0.ExpText`. It does
  not read the indentation counter, so no class method is needed for it.
