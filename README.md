# A mini-compiler, modelled and verified

This project models a small compiler toolchain for an expression language with assignments,
one-line function definitions (`function f(x, y) = x * y + 1`), calls and the operators
`+ - * / ^`. The toolchain runs in four stages:

- the **lexer** (`src/lexer.py`) turns source text into tokens;
- the **parser** (`src/parser.py`) builds a syntax tree (`src/ast.py`) by recursive descent;
- the **semantic analyzer** (`src/semantic.py`) checks names, call targets and arities in two
  passes;
- the **code generator** (`src/codegen.py`) lowers the tree to stack bytecode, and the **VM**
  (`src/vm.py`) runs it. Functions run in recursive frames that share one globals dictionary.

Each source file has a Dafny module:

- `Values` (`values.dfy`): Python numbers and `None`, Python `==` and host arithmetic.
- `Ast` (`ast.dfy`): the syntax tree.
- `Lexer` (`lexer.dfy`): the master regular expression, `tokenize` as a function, and `Tokenize`, a method that loops the way the generator does.
- `Grammar` (`grammar.dfy`): what each parse method returns, as functions over the token list and an index.
- `Parsing` (`parsing.dfy`): the `Parser` object: a class with `pos` and `current`, each method proved against `Grammar`.
- `Unparse` (`unparse.dfy`): a printer from trees to tokens, with the proof that the grammar parses its output back.
- `Positions` (`positions.dfy`): the parser ignores token positions, so a parse of printed tokens carries over to lexed text.
- `Semantic` (`semantic.dfy`): the analyzer: pure checks plus the `SemanticAnalyzer` class with its `functions` and `globals` fields.
- `Codegen` (`codegen.dfy`): the bytecode, the emit functions, and the `Compiler` class whose fields grow in place.
- `Vm` (`vm.dfy`): `run_frame` as a function `Exec`, and the `Store`, `Frame` and `VM` classes proved against it.
- `Eval` (`eval.dfy`): a direct tree-walking meaning of programs, used as the reference for compiled code.
- `Correctness` (`correctness.dfy`): compile-then-run agrees with direct evaluation.
- `Pipeline` (`pipeline.dfy`): the driver: parse, analyze, compile, run.

The main results:

- The parser is exactly the grammar. `Unparse.ExpressionRoundTrip` and `Unparse.ProgramRoundTrip` show that it parses printed trees back to themselves, which pins down precedence and left associativity. `Positions.ProgramIgnoresPositions` carries this over from printed tokens to the tokens the lexer yields, and `Pipeline.ScriptFromText` takes one float test from its text all the way to the VM's globals.
- The analyzer accepts a program exactly when every name is in scope in statement order, every call names a known function with the right number of arguments, and no function is defined twice (`Semantic.AnalysisIff`).
- Compiled code runs to the same result as direct evaluation, up to Python `==` (`Correctness.CompileThenRun`). It also keeps its operand stack balanced (`Codegen.MainStackEffect`).

## Model

| member | source | states |
|---|---|---|
| `Values.PyEqIsEquivalence` | src/codegen.py:95-100 | Python `==` on the values the constant pool compares (ints, floats, None) is reflexive, symmetric and transitive. |
| `Values.ArithMeaning` | src/vm.py:56-65 | On two numbers, each VM operator gives a result `==` to the real-number result. Only whether `+ - *` return an int or a float depends on the operand types. Division by zero and math-domain errors are raised for the same operands either way. |
| `Values.ArithRespectsPyEq` | src/vm.py:56-65 | Replacing an operand by one `==` to it (2 for 2.0) gives an `==` result or the same error. |
| `Values.RealPow` | src/vm.py:64-65 | A power of a non-zero base with a natural exponent is non-zero, so `math.pow` with a negative integral exponent never divides by zero. |
| `Lexer.RunEnd` | src/lexer.py:5 | A maximal run of one character class ends at the first character outside the class, or at the end of the input. |
| `Lexer.NumberEnd` | src/lexer.py:4 | A NUMBER match starting at a digit consumes at least that digit and stays within the input. |
| `Lexer.NextMatch` | src/lexer.py:3-16 | The master pattern always matches at least one character at a position inside the input, so tokenizing always makes progress. |
| `Lexer.LexFrom` | src/lexer.py:28-56 | A successful tokenization ends with an EOF token at the input's length. |
| `Lexer.Tokenize` | src/lexer.py:28-56 | The loop over matches yields exactly the tokens `LexFrom(code, 0)` describes, or the same error. |
| `Lexer.TokenAtShape` | src/lexer.py:34-50 | A token's position is its match's start and its text is the matched lexeme. NUMBER tokens, and only they, carry a number. `function` becomes the FUNCTION keyword. NEWLINE is emitted exactly for `\n`. Blanks and unmatched characters emit nothing. |
| `Lexer.NumberLiteralShape` | src/lexer.py:4 | A number literal is a float exactly when its lexeme contains a dot, which then has digits on both sides. The float shifted left by the digits after the dot is the integer all the digits spell. Otherwise it is the int its decimal digits denote. |
| `Lexer.LexTokensAreMatches` | src/lexer.py:31-55 | Every token before EOF is the token the master pattern produces at that token's position. |
| `Lexer.LexSingleEof` | src/lexer.py:56 | Exactly one EOF token is produced, and it comes last. |
| `Lexer.LexPositionsIncrease` | src/lexer.py:55 | Token positions strictly increase. |
| `Lexer.LexGapsAreBlank` | src/lexer.py:51-52 | Only blanks (spaces and tabs) lie between consecutive tokens. |
| `Lexer.LexErrorCharacter` | src/lexer.py:53-54 | A lexing error reports a character in the input, at its position, that no token can start with. |
| `Lexer.LexTotal` | src/lexer.py:13 | Tokenizing fails only when the input contains a character no token can start with. |
| `Lexer.NumberThenIdentifier` | src/lexer.py:4-5 | `12ab` lexes as NUMBER 12 followed by ID `ab`: no separator is needed between tokens. |
| `Lexer.KeywordFloatNewline` | src/lexer.py:34-50 | `function 1.5\n` lexes as FUNCTION, NUMBER 1.5, NEWLINE and EOF at position 13. |
| `Lexer.ScriptTokens` | src/lexer.py:28-56 | `result = 1 + 2 * 3.0\n` lexes as ID, ASSIGN, NUMBER 1, OP `+`, NUMBER 2, OP `*`, NUMBER 3.0, NEWLINE and EOF, at the offsets where each lexeme starts. |
| `Grammar.Primary` | src/parser.py:126-140 | A primary consumes at least one token and yields an expression tree. |
| `Grammar.CallPrimary` | src/parser.py:111-124 | A call primary consumes at least one token and yields an expression tree. |
| `Grammar.CallSuffix` | src/parser.py:114-123 | The call-suffix loop never moves backwards and keeps an expression tree. |
| `Grammar.Arguments` | src/parser.py:116-121 | An argument list yields only expression trees and never moves backwards. |
| `Grammar.Binary` | src/parser.py:84-109 | Each binary level consumes at least one token and yields an expression tree. |
| `Grammar.Expression` | src/parser.py:81-82 | An expression consumes at least one token and yields an expression tree. |
| `Grammar.Parameters` | src/parser.py:67-72 | A parameter list never moves backwards. |
| `Grammar.FunctionDefinition` | src/parser.py:63-78 | A definition consumes at least one token. |
| `Grammar.Statement` | src/parser.py:38-61 | Every statement consumes at least one token, so the statement loop terminates. |
| `Grammar.ProgramFrom` | src/parser.py:30-36 | A successful parse yields a Program node. |
| `Parsing.Parser.constructor` | src/parser.py:5-8 | A new parser starts at index 0 with the first token current. |
| `Parsing.Parser.Advance` | src/parser.py:10-14 | `pos` always grows by one. `current` follows it while it is inside the list and otherwise stays at the last token (EOF). |
| `Parsing.Parser.Accept` | src/parser.py:16-21 | A token of the given kind is consumed and its value returned. Any other token leaves the parser unchanged and returns None. |
| `Parsing.Parser.Expect` | src/parser.py:23-28 | Like accept, but a token of another kind is a SyntaxError, and the parser is left where it was. |
| `Parsing.Parser.Parse` | src/parser.py:30-36 | Returns exactly what the grammar gives for the program: newlines skipped between statements, and the first SyntaxError otherwise. |
| `Parsing.Parser.ParseStatement` | src/parser.py:38-61 | A definition, an `ID =` assignment (decided by one token of lookahead) or an expression statement, each optionally followed by a newline, as the grammar says. |
| `Parsing.Parser.ParseFunctionDef` | src/parser.py:63-78 | Matches the grammar's definition rule token by token and stops at the same SyntaxError. |
| `Parsing.Parser.ParseParameters` | src/parser.py:67-72 | The parameter loop matches the grammar's parameter list. |
| `Parsing.Parser.ParseExpression` | src/parser.py:81-82 | Matches the grammar's expression. |
| `Parsing.Parser.ParseAddSub` | src/parser.py:84-91 | The `+ -` loop builds the left-associative tree the grammar gives for level 3. |
| `Parsing.Parser.ParseMulDiv` | src/parser.py:93-100 | The `* /` loop builds the left-associative tree the grammar gives for level 2. |
| `Parsing.Parser.ParsePower` | src/parser.py:102-109 | The `^` loop builds the left-associative tree the grammar gives for level 1. |
| `Parsing.Parser.ParseCallPrimary` | src/parser.py:111-124 | Repeated call suffixes wrap the callee as the grammar says, by name when it is a variable and by tree otherwise. |
| `Parsing.Parser.ParseArguments` | src/parser.py:116-121 | The comma-separated argument loop matches the grammar and never moves backwards. |
| `Parsing.Parser.ParsePrimary` | src/parser.py:126-140 | A number, a name or a parenthesised expression, and SyntaxError on any other token. |
| `Parsing.ParseSource` | src/parser.py:5-36 | Constructing the parser on source text and parsing it gives the lexer's error or the grammar's result on the tokens. |
| `Unparse.ExpressionRoundTrip` | src/parser.py:81-140 | For every expression tree, the grammar parses the printed tree back to the same tree and consumes every token. |
| `Unparse.ProgramRoundTrip` | src/parser.py:30-78 | For every list of statements, printed one per line with any number of blank lines between them, the parser returns a Program with exactly those statements. |
| `Positions.ProgramIgnoresPositions` | src/parser.py:30-140 | The parser never reads a token's position. Two token lists that agree on every kind and value both fail to parse, or parse to the same program. |
| `Unparse.ArgsLemma` | src/parser.py:116-121 | A printed argument list followed by `)` parses back to the same arguments. |
| `Unparse.StatementLemma` | src/parser.py:38-61 | A printed statement parses back to the same statement and consumes its newline. |
| `Unparse.ParamsLemma` | src/parser.py:67-72 | A printed parameter list followed by `)` parses back to the same names. |
| `Unparse.PowerIsLeftAssociative` | src/parser.py:102-109 | `2 ^ 3 ^ 2` parses as `(2 ^ 3) ^ 2`. |
| `Unparse.SubtractionIsLeftAssociative` | src/parser.py:84-91 | `a - b - c` parses as `(a - b) - c`. |
| `Unparse.PrecedenceLevels` | src/parser.py:84-124 | In `1 + 2 * f(3) ^ 2`, the call binds tightest, then `^`, then `*`, then `+`. |
| `Unparse.ParenthesesAndComputedCallee` | src/parser.py:123 | `(a + b)()` parses to a call whose callee is the tree `a + b`, not a name. |
| `Unparse.NoSeparatorNeeded` | src/parser.py:49-56 | `x = 1 y` parses as two statements: the newline after a statement is optional. |
| `Semantic.CheckExpressionIff` | src/semantic.py:34-64 | `check_expression` passes exactly on trees where every variable is a parameter, an assigned global or a function name, and every call names a known function with as many arguments as it has parameters. |
| `Semantic.CheckArgsIff` | src/semantic.py:61-62 | The argument loop passes exactly when every argument passes. |
| `Semantic.ErrorsAreGenuine` | src/semantic.py:37-64 | Every error reports a real violation. An undefined variable is in no scope, an undefined function is not in the table, and an arity error reports the recorded arity and a different argument count. |
| `Semantic.ArgsErrorsAreGenuine` | src/semantic.py:61-62 | The same for the errors raised inside an argument list. |
| `Semantic.StatementCheck` | src/semantic.py:23-32 | Only an assignment that passes adds its target to the globals. Nothing else changes them. |
| `Semantic.StatementCheckIff` | src/semantic.py:23-32 | A statement passes exactly when its expression keeps the scoping rules, with a definition's body seeing its own parameters. |
| `Semantic.CollectPassesIff` | src/semantic.py:13-17 | Pass 1 succeeds exactly when the definitions' names are pairwise distinct and not already known. Its only error is a duplicate definition. |
| `Semantic.CollectArities` | src/semantic.py:13-17 | After pass 1 the table keeps the old entries, records each definition's parameter count, and holds nothing else. |
| `Semantic.CheckAllIff` | src/semantic.py:19-20 | Pass 2 succeeds exactly when every statement keeps the rules using only the globals assigned before it. |
| `Semantic.CheckAllGlobals` | src/semantic.py:19-20 | Pass 2 only adds assignment targets to the globals. After a success it has added all of them. |
| `Semantic.AnalysisIff` | src/semantic.py:11-21 | `analyze` succeeds exactly when the definitions are distinct and every statement keeps the rules in order, using the complete function table. |
| `Semantic.CollectRecordsFirst` | src/semantic.py:13-17 | The first definition is always recorded. |
| `Semantic.RerunRejects` | src/semantic.py:7-17 | Analyzing a program that defines a function twice on the same analyzer fails with a duplicate definition, because the first run's table is kept. |
| `Semantic.SemanticAnalyzer.constructor` | src/semantic.py:7-9 | A new analyzer has an empty function table and no globals. |
| `Semantic.SemanticAnalyzer.Analyze` | src/semantic.py:11-21 | Both passes run over the fields. The result and the fields afterwards are those of `Analysis`, including the partial table left by a failure. |
| `Semantic.SemanticAnalyzer.CheckStatement` | src/semantic.py:23-32 | One statement is checked with the given locals. The function table is unchanged, and the globals grow as `StatementCheck` says. |
| `Semantic.AnalyzeTwice` | src/semantic.py:11-21 | Calling `analyze` twice on one analyzer for a program with a definition always fails the second time. |
| `Semantic.ForwardCall` | src/semantic.py:13-17 | A call may come before the definition it calls. |
| `Semantic.SelfReference` | src/semantic.py:26-29 | `x = x + 1` needs an earlier assignment to `x`. |
| `Semantic.BodySeesEarlierGlobals` | src/semantic.py:24-25 | A function body sees only the globals assigned before the definition. |
| `Semantic.DuplicateBeforeBodies` | src/semantic.py:13-17 | A duplicate definition is reported before any body is checked. |
| `Semantic.ArityChecked` | tests_run.py:75-87 | `function f(x) = x + 1` followed by `result = f(1,2)` fails with an arity error: expected 1, got 2. |
| `Semantic.UndefinedVariableRejected` | tests_run.py:111-122 | `x = y + 1` fails on the undefined `y`, and records nothing. |
| `Semantic.ComputedCalleeRejected` | src/semantic.py:52-55 | Calling anything but a name is an unsupported call. |
| `Codegen.OperatorInstr` | src/codegen.py:74-81 | An operator has an instruction exactly when it is one of `+ - * / ^`. |
| `Codegen.FindConst` | src/codegen.py:97 | `list.index` returns the first slot `==` to the value, or fails when none is. |
| `Codegen.ConstSlot` | src/codegen.py:95-100 | The returned slot holds a value `==` to the constant. The pool only grows, by that constant at the end, and only when no existing slot is `==` to it. |
| `Codegen.ConstSlotKeepsDistinct` | src/codegen.py:95-100 | The pool never holds two `==` constants. |
| `Codegen.FunctionCode` | src/codegen.py:40-47 | A compiled function keeps the definition's parameter names. |
| `Codegen.Compiler.constructor` | src/codegen.py:18-22 | A new compiler has empty fields and no parameters. |
| `Codegen.Compiler.AddConst` | src/codegen.py:95-100 | Only the pool changes, to `ConstSlot`'s pool, and the slot is `ConstSlot`'s. |
| `Codegen.Compiler.EmitExpression` | src/codegen.py:59-93 | Appends exactly the code `EmitExpr` gives, up to the first raise, and leaves the pool `EmitExpr` gives. |
| `Codegen.Compiler.EmitBinary` | src/codegen.py:71-82 | Both operands, then the operator's instruction, or an unknown-operator error after the operand code. |
| `Codegen.Compiler.EmitCall` | src/codegen.py:83-92 | The arguments, then `CALL name argc`, or an unsupported-target error after the argument code. |
| `Codegen.Compiler.EmitArguments` | src/codegen.py:85-86 | The argument loop appends each argument's code in order and stops at the first raise. |
| `Codegen.Compiler.EmitStatement` | src/codegen.py:49-57 | An assignment ends with `STORE_VAR`, and any other statement with `POP`. |
| `Codegen.Compiler.CompileFunction` | src/codegen.py:40-47 | A fresh compiler compiles the body with the parameters as locals and appends `RET`. |
| `Codegen.Compiler.Compile` | src/codegen.py:24-38 | Definitions are compiled first, a later one replacing an earlier one of the same name. Then the pool and the code are reset, the other statements are compiled and `RET` is added. The result and all fields afterwards are `CompileProgram`'s. |
| `Codegen.EmitExprShape` | src/codegen.py:59-93 | Emitted code is straight-line (no `RET`), every `PUSH_CONST` indexes the pool, and `LOAD_LOCAL` is used exactly for parameters. The pool stays free of `==` duplicates. |
| `Codegen.EmitArgsShape` | src/codegen.py:85-86 | The same for argument lists. |
| `Codegen.EmitStmtShape` | src/codegen.py:49-57 | The same for statements. |
| `Codegen.EmitMainShape` | src/codegen.py:33-35 | The same for the main statement loop. |
| `Codegen.ExprStackEffect` | src/codegen.py:59-93 | The code of an expression pushes exactly one value and never reads below its starting depth. |
| `Codegen.ArgsStackEffect` | src/codegen.py:85-86 | The code of `n` arguments pushes exactly `n` values. |
| `Codegen.StmtStackEffect` | src/codegen.py:49-57 | A statement's code leaves the stack as it found it. |
| `Codegen.MainStackEffect` | src/codegen.py:33-35 | The main statements leave the stack as they found it, so the final `RET` returns None. |
| `Codegen.FunctionCodeShaped` | src/codegen.py:40-47 | A function's code object is well formed, its body leaves exactly one value, and it ends in its only `RET`. |
| `Codegen.CompileDefsShaped` | src/codegen.py:26-29 | Every entry of the compiled function table is well formed. |
| `Codegen.CompiledProgramShaped` | src/codegen.py:24-38 | The main code object has no parameters, loads only globals, leaves an empty stack for its `RET`, and every function is well formed. |
| `Codegen.ParameterLoadsLocally` | src/codegen.py:64-70 | In `function f(x) = x + y`, `x` compiles to `LOAD_LOCAL` and `y` to `LOAD_VAR`. |
| `Codegen.PoolMergesIntAndFloat` | src/codegen.py:95-100 | The float `1.0` reuses the slot of the int `1`, because `1 == 1.0`. |
| `Codegen.LaterDefinitionWins` | src/codegen.py:26-29 | A second definition of a name replaces the first in the function table. |
| `Vm.ArithInstr` | src/vm.py:56-65 | Exactly the five arithmetic opcodes pop two operands and compute. |
| `Vm.Step` | src/vm.py:33-90 | An instruction other than `CALL` leaves `ip` where the fetch put it and returns exactly when it is `RET`. |
| `Vm.Decimal` | src/vm.py:80 | An int renders as a non-empty string. |
| `Vm.DecimalSpells` | src/vm.py:80 | The rendering of an int is a string of decimal digits that spells that int, with no leading zero, so distinct ints give distinct `arg{i}` names. |
| `Vm.Store.constructor` | src/vm.py:19 | The globals start empty. |
| `Vm.Frame.constructor` | src/vm.py:3-10 | A frame starts at `ip` 0 with an empty stack and no locals, and shares the given globals. |
| `Vm.Frame.BindArguments` | src/vm.py:75-80 | Argument `i` is bound under the `i`th parameter name, or `arg{i}` past the last parameter, in order. |
| `Vm.VM.constructor` | src/vm.py:16-19 | A VM starts with fresh, empty globals. |
| `Vm.VM.Run` | src/vm.py:21-23 | Runs the main code object from `ip` 0, with no locals and the VM's globals, as `Exec` says. |
| `Vm.VM.RunFrame` | src/vm.py:25-91 | The fetch loop ends as `Exec` says: the value returned or the error raised, with the frame's `ip` and stack and the shared globals at that point. |
| `Vm.VM.Execute` | src/vm.py:33-90 | One instruction other than `CALL` changes the stack and globals as `Step` says, and returns a value only for `RET`. |
| `Vm.VM.ExecuteArith` | src/vm.py:56-65 | Pops two operands and pushes their result, or raises the host's arithmetic error. |
| `Vm.VM.Call` | src/vm.py:66-85 | Pops the arguments and raises for an unknown callee. Otherwise it runs the callee in a fresh frame sharing the globals, pushes its result and carries on, as `Exec` does. |
| `Vm.ExecRunsForward` | src/vm.py:29-31 | A frame's `ip` never moves backwards and never passes the end of its code. |
| `Vm.FallingOffReturnsNone` | src/vm.py:91 | Code with no `RET` ahead that runs without error returns None at the end of its instructions. |
| `Vm.FuelMonotone` | src/vm.py:84 | A run that never hits the recursion limit gives the same result with any larger limit. |
| `Vm.EndlessRecursionHitsLimit` | src/vm.py:84-85 | A function that calls itself unconditionally always ends in the recursion-limit error. |
| `Vm.SubtractsTopFromBelow` | src/vm.py:58-59 | `5 3 SUB` gives 2: the top of the stack is the right operand. |
| `Vm.LocalsShadowGlobals` | src/vm.py:36-53 | `LOAD_VAR` prefers a local over a global of the same name. `LOAD_LOCAL` never reads a global. |
| `Vm.ExtraArgumentBoundByPosition` | src/vm.py:75-80 | A second argument passed to a one-parameter function is bound as `arg1`. |
| `Vm.CalleeSharesGlobals` | src/vm.py:73 | A global stored by the callee is visible to the caller afterwards. |
| `Vm.UnknownCalleePopsArguments` | src/vm.py:68-70 | The arguments are popped before an unknown callee is reported. |
| `Correctness.OperatorsAgree` | src/codegen.py:74-81 | The compiler's instruction for an operator is the VM instruction that performs that operator. |
| `Correctness.BindEnvEq` | src/vm.py:75-80 | Binding `==` argument lists gives `==` locals. |
| `Correctness.ExpressionSimulated` | src/codegen.py:59-93 | The code emitted for any expression, run on any stack, pushes a value `==` to the expression's value and carries on, or raises the evaluator's error. |
| `Correctness.ArgsSimulated` | src/codegen.py:85-86 | The argument code pushes values `==` to the evaluated arguments, in order. |
| `Correctness.InstructionCallSimulated` | src/vm.py:66-85 | A `CALL` on `==` arguments pushes a value `==` to the evaluated call, or raises the same error. |
| `Correctness.CalleeSimulated` | src/vm.py:84-85 | Running a compiled function body in its new frame returns a value `==` to the evaluated body, and the globals are unchanged. |
| `Correctness.StatementSimulated` | src/codegen.py:49-57 | A compiled top-level statement updates the globals as evaluation does, up to `==`. |
| `Correctness.MainSimulated` | src/codegen.py:33-35 | The compiled main statements leave globals `==` to the evaluated ones, or raise the same error. |
| `Correctness.DefinitionsRelated` | src/codegen.py:26-29 | The compiled function table holds, under each name, the code of the definition the evaluator uses. |
| `Correctness.CompileThenRun` | src/codegen.py:24-38 | Compiling a program and running it on a fresh VM gives the evaluator's error, or None with globals `==` to the evaluated ones. Compiled code never meets a construct the evaluator rejects. |
| `Pipeline.Parse` | run_example.py:12-13 | Parsing source text yields a Program node or a syntax error. |
| `Pipeline.CompileAndRun` | run_example.py:12-28 | The driver's four stages end as the staged function `Toolchain` says. A program that gets through every stage agrees with its direct evaluation. |
| `Pipeline.ToolchainAgrees` | tests_floats.py:24-36 | Every program the toolchain runs to the end leaves globals `==` to its direct evaluation, or raises the evaluator's error. |
| `Pipeline.ScriptCase` | tests_floats.py:10-18 | A one-line `result = e` script leaves exactly `result`, bound to the value of `e`. |
| `Pipeline.FloatScriptSums` | tests_floats.py:11-16 | `1.5 + 2.25 * 2` is 6.0, `1 + 2.5` is 3.5 and `1 + 2 * 3.0` is 7.0, all floats. |
| `Pipeline.FloatScriptQuotients` | tests_floats.py:12-17 | `5 / 2` is 2.5, `1 / 2` is 0.5 and `2 ^ 3` is 8.0: division and power always give floats. |
| `Pipeline.CompiledFloatCase` | tests_floats.py:16 | `result = 1 + 2 * 3.0` compiled and run leaves `result == 7.0` in the globals. |
| `Pipeline.ParsePrinted` | src/parser.py:5-36 | Source text whose tokens agree, in kind and value, with the printing of a list of statements parses to a Program with exactly those statements. |
| `Pipeline.ScriptParses` | tests_floats.py:16 | The text `result = 1 + 2 * 3.0\n` parses to the assignment of `1 + (2 * 3.0)` to `result`. |
| `Pipeline.ScriptFromText` | tests_floats.py:16-36 | Starting from its text, `result = 1 + 2 * 3.0\n` gets through lexing, parsing, analysis, compilation and the VM, and leaves `result == 7.0`. |
| `Pipeline.FunctionNameAsValue` | src/semantic.py:42-44 | A function's name used as a variable passes analysis. The compiled program still raises UndefinedVariable, because `LOAD_VAR` looks only at locals and globals. |

## Left out

- Floats are exact reals. Rounding, overflow and `inf`/`nan` are not modelled.
- `math.pow` with a non-integral exponent is computed only when the result is exact (base 0 or 1). Otherwise it is the error `Unrepresentable`. So the float test `9 ^ 0.5` (tests_floats.py:14) is not covered.
- The regular-expression engine is not modelled. The master pattern is written out as one function of the input and a position. `\d` is taken as ASCII digits.
- `tokenize` is a lazy generator. The model computes the whole token list, or the first error. Error message texts are not modelled; errors are datatypes carrying the same data.
- The `line` counter in `tokenize` is never used, so it is not modelled.
- The host's recursion limit is a `fuel` bound on call depth. The exact depth at which Python raises RecursionError is not modelled.
- Grammar.Expression, Parsing.Parser.ParseExpression, Semantic.CheckExpression and Codegen.EmitExpr accept any nesting depth. The source recurses once per nesting level in the parser (src/parser.py:81-140), the analyzer (src/semantic.py:34-64) and the code generator (src/codegen.py:59-93). Around 160 nested parentheses exhaust Python's recursion limit, and the source then raises RecursionError where the model succeeds.
- `Parsing.Parser.constructor` takes the token list, where the source's constructor also runs the lexer. `Parsing.ParseSource` is the composition the source performs.
- Token payloads are read with total accessors (`TextOf`, `NumberOf`). The grammar only reads them on tokens of the matching kind.
- `Semantic.SemanticAnalyzer.Analyze` and `Codegen.Compiler.Compile` require a Program node (`requires program.Program?`), which is the argument type the source declares.
- `local_params` is `None` at top level in the source. It is modelled as the empty list, since both are falsy.
- The VM's `frame.functions` field is never read by the source (calls use the VM's table), so `Frame` stores it without using it.
- A code object's instruction list is not modelled as shared with the compiler's list. The compiler never changes it after `compile` returns.
- Popping `argc` arguments one by one and reversing them is modelled as taking the top `argc` slice of the stack.
- Several loops inside one source method are separate methods: `Parsing.Parser.ParseParameters`, `Parsing.Parser.ParseArguments`, `Codegen.Compiler.EmitBinary`, `Codegen.Compiler.EmitCall`, `Codegen.Compiler.EmitArguments`, `Vm.VM.Execute`, `Vm.VM.ExecuteArith`, `Vm.VM.Call` and `Vm.Frame.BindArguments`.
- An empty stack or a bad constant index makes the host raise IndexError. The model raises `StackUnderflow` or `ConstIndexOutOfRange` instead.
- `Correctness.CompileThenRun` holds only up to Python `==`, not identity. The constant pool returns the first `==` constant, so `1.0` may run as `1`.
- The driver scripts read a program file, `example.pcg`, which is not part of this model. `Pipeline.ScriptFromText` runs one float test from its source text. The other float tests are stated on syntax trees. `Positions.ProgramIgnoresPositions` and `Pipeline.ParsePrinted` carry the parser's round trip over to lexed text, but the lexing of those other texts is not proved.
- Printing (test output, `__repr__` of tokens) is not modelled.
