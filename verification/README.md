# Turtle parser: a Dafny model

The turtle program reads a text file in a small drawing language and then
either checks it (parse mode) or runs it, sending drawing commands to a
display (interpret mode). A program is a brace-enclosed list of
instructions:

- `FD`, `LT`, `RT` and `BKSTP` with one operand;
- `SET V := <reverse-Polish expression> ;`;
- `DO V FROM a TO b { … }`;
- `WHILE V < b { … }` and `WHILE V > b { … }`;
- `CLR` with `ADV`, `RAND` or a colour name;
- `PN`, which toggles the pen.

This project models the recursive-descent parser and interpreter in
`sources/parser.c`, together with the command-line check in
`sources/turtle.c`.

The parser reads whitespace-separated tokens into a growing token array. A
loop body runs again by moving the cursor back to the loop's opening brace,
so later passes replay tokens from the array. In the model:

- The parse context is an immutable `Session` that every rule takes and
  returns.
- The token array is the number of scans made so far. Slot `i` always
  holds the `i`-th token of the file.
- Every call to the drawing collaborator is appended to a `trace` of
  events.

The modules follow the program's structure:

| file | module | what it models |
|---|---|---|
| numbers.dfy | `Optional`, `Numbers` | the four operators and `doMaths`, the `(int)` cast, the numeric-literal recogniser |
| store.dfy | `VariableStore` | the 26 variables, each with an assigned flag and a value |
| stack.dfy | `ValueStack` | the reverse-Polish value stack |
| lexicon.dfy | `Lexicon` | `whatToken`, `checkForValidOperator`, `checkForVarNum`, `checkForInstruction`, `checkForColour`, `getCurrentTokenVal` |
| session.dfy | `State`, `TokenCache` | the parse context, `getToken`, replay of cached tokens |
| polish.dfy | `ReversePolish` | `processPolish`, `processOperator`, `finishPolish`, against a reference postfix evaluator |
| rules.dfy | `Rules` | `processAction`, `processSet`, `processColour`, the heads of `processDo` and `processWhile` |
| grammar.dfy | `Grammar` | `processMain`, `processInstructionList`, `processInstruction`, the DO executors, `processWhile`, `executeWhileLoop`, `skipLoop`, `checkForEndOfCode`, `parse`, `interpret` |
| grammar_facts.dfy | `GrammarFacts` | consequences for particular inputs: classification, operands, CLR words, SET and the shared value stack |
| samples.dfy | `Samples` | whole files through `parse` and `interpret`: `{ FD 10 }` accepted, `{ } FD` rejected, the counted loop `{ DO A FROM 1 TO 2 { FD A } }` drawing two moves |
| command_line.dfy | `CommandLine` | `checkInput`, `printCommandLineError` |

The model keeps the program's quirks as written:

- `finishPolish` ignores whether its pop worked. So `SET A := ;` is
  accepted on an empty stack, and `val` keeps whatever reading the
  variable left there.
- There is one value stack for the whole run. An expression that fails
  with values still stacked leaves them there (finishPolish pops only the
  top one). When interpreting, skipLoop can swallow that failure, and the
  leftover value then makes every later single-operand SET fail, while a
  later bare `SET A := ;` takes the leftover value.
- The WHILE test is strict in both directions. When the variable equals
  the bound in interpret mode, neither the skip nor the loop runs. The rule
  then succeeds with the cursor on the opening brace, and the enclosing
  instruction list goes on to read the body's tokens as its own.
- The DO bounds are cast to `int` once, at entry. The loop variable is
  assigned the first bound before the `TO` bound is read, so when interpreting
  `DO A FROM 3 TO A` runs once.
- In parse mode a DO loop still walks through every counter value.
  Variables are marked assigned there, but their values stay 0.
- In interpret mode `skipLoop` turns a syntax error in a bypassed body into
  a warning and succeeds. The hanging-brace count can then stay above
  zero, and processMain succeeds without checking for the end of the code.

Rules that can run loops take a `fuel` bound and return `OutOfFuel` when
it runs out. All other rules are total.

## Model

| member | source | states |
|---|---|---|
| Numbers.MathsSamples | sources/parser.c:877-883 | doMaths gives 5, 38, 3 and 340 on the repository's four arithmetic checks |
| ReversePolish.BinaryExpression | sources/parser.c:433-444 | on `x y o ;` the postfix machine pops y, then x, pushes `x o y`, and stops on the `;` with that one value on top of the stack it started from |
| Numbers.Trunc | sources/parser.c:481 | the `(int)` cast of a DO bound truncates toward zero: the result has the sign of x, lies within 1 of x and is never farther from 0 than x |
| Numbers.DigitRunIsNumber | sources/parser.c:906-916 | every non-empty run of decimal digits is recognised as a number, with the integer value it spells |
| Numbers.NegatedRunIsNumber | sources/parser.c:906-916 | '-' followed by a run of digits is recognised as the negated integer |
| Numbers.NonNumberSamples | sources/parser.c:911-912 | "X" and "The West Midlands" are not numbers |
| Numbers.NumberSamples | sources/parser.c:913-914 | "25" reads as 25 and "-25" as -25 |
| Numbers.DecimalSample | sources/parser.c:915 | "38547.1698" reads as 38547.1698 |
| VariableStore.FreshStore | sources/parser.c:893-894 | at the start of a run no variable is assigned and every value is 0 |
| VariableStore.Assign | sources/parser.c:895-901 | assignValToVariable marks the variable assigned in both modes, writes the value only when interpreting, and changes no other variable |
| VariableStore.StoreSamples | sources/parser.c:885-903 | only upper-case letters are variables (X is, a, % and + are not); X is unassigned at first and holds 34 after an interpret-mode assignment; Q becomes assigned after a parse-mode assignment but keeps the value 0 |
| VariableStore.ParseAssignKeepsValues | sources/parser.c:899-901 | a parse-mode assignment changes no variable's value and unassigns nothing |
| ValueStack.Pop | sources/parser.c:436 | popping fails exactly on an empty stack; otherwise pushing the popped value back gives the stack as it was |
| ValueStack.PushThenPopReverses | sources/parser.c:433-444 | pushing values and then popping as many returns them in reverse order and leaves the stack as it was |
| ValueStack.PopEmptyFails | sources/parser.c:436-438 | popping one or more values from an empty stack fails |
| Lexicon.Classify | sources/parser.c:181-220 | a token is an operator exactly when it is a one-character + - * or /; it is a variable exactly when it is one upper-case letter, assigned exactly when the store says so; a number only when it is a numeric literal; and it is a brace or a semicolon exactly when it spells one |
| Lexicon.WordKind | sources/parser.c:185-203 | each of the 19 fixed spellings is classified as its own kind whatever the store, and no other text gets that kind |
| Lexicon.OperandKind | sources/parser.c:708-715 | checkForVarNum holds exactly for numeric literals and single assigned variable letters, and the value getCurrentTokenVal reads is the literal's or the variable's |
| Lexicon.TokenValue | sources/parser.c:802-808 | an assigned variable's value is the one in the store, and a number's value is the one the recogniser reads |
| Lexicon.OperatorIsNoOperand | sources/parser.c:747-769 | an operator token is never a number or variable operand |
| Lexicon.OperatorOf | sources/parser.c:747-769 | checkForValidOperator: a token is an operator exactly when it is one of the one-character strings + - * / |
| Lexicon.OperatorSymbol | sources/parser.c:752-764 | each operator's one-character symbol reads back as that operator: `+` selects add, `-` subtract, `*` multiply and `/` divide |
| Lexicon.InstructionWordKind | sources/parser.c:726-744 | checkForInstruction: whatever the store, a token is read as an instruction exactly when it spells one of the nine instruction keywords, and then as that keyword |
| Lexicon.ColourNamed | sources/parser.c:772-799 | checkForColour: WHTE, RED, BLUE, GREEN, YLLW and PRPL each name their own colour, and a token names a colour only if it is that colour's spelling |
| State.Start | sources/parser.c:32-41 | a fresh run has scanned nothing, has no hanging braces, a fresh store, an empty trace and the requested mode |
| State.Dispatch | sources/parser.c:321-324 | a drawing call is recorded only when interpreting, and nothing else in the session changes |
| TokenCache.GetToken | sources/parser.c:150-178 | behind the tail of the token array the cursor moves without scanning; at the tail one more slot is scanned; the call fails exactly when the next index is past both the array and the file |
| TokenCache.Advance | sources/parser.c:150-220 | getToken followed by whatToken: the token read is the file's token at the next index, classified under the store; val and the operation change only for a VarNum or an operator |
| TokenCache.ReadTokensFollowSource | sources/parser.c:150-178 | reading n tokens yields the file's tokens from the next index on and succeeds while the file lasts, however much of it was scanned before |
| TokenCache.ReadTokensStayInCache | sources/parser.c:152-157 | inside the token array, reading never scans and yields the cached tokens |
| TokenCache.RewindReplays | sources/parser.c:524-529 | after the cursor is moved back to a loop's brace, reading again returns the tokens of the first pass without scanning |
| ReversePolish.ApplyOperator | sources/parser.c:433-444 | processOperator succeeds exactly when there are at least two values, and replaces the top two, a below b, by `a op b` |
| ReversePolish.FinishPolish | sources/parser.c:447-456 | finishPolish succeeds exactly when at most one value is left; on an empty stack it succeeds and keeps val; otherwise val becomes the top value |
| ReversePolish.Polish | sources/parser.c:397-430 | processPolish agrees with the reference postfix machine run from the next token on the run's value stack: success exactly when the machine reaches `;` with at most one value, that value taken, the cursor left on the `;`; whatever happens, the stack is left as the machine left it, less the value finishPolish popped |
| ReversePolish.PostfixReadsTerms | sources/parser.c:397-456 | reading the tokens of a spelled-out expression closed by `;` is evaluating its terms with the textbook postfix evaluator |
| ReversePolish.PolishMeetsReference | sources/parser.c:397-456 | an expression of operands and operators closed by `;` is accepted exactly when the textbook evaluator, started on the run's value stack, neither underflows nor leaves more than one value; that value becomes val and the stack is then empty |
| Rules.ReadWord | sources/parser.c:181-204 | reading a fixed spelling succeeds exactly when the next token is that spelling |
| Rules.ReadVarNum | sources/parser.c:708-715 | checkForVarNum on the next token succeeds exactly when it is an operand, and leaves its value in val |
| Rules.ReadVariable | sources/parser.c:717-724 | checkForAnyVar on the next token succeeds exactly when it is one upper-case letter, assigned or not |
| Rules.ReadAssigned | sources/parser.c:559-562 | the variable of a WHILE head is accepted exactly when it is one upper-case letter that is already assigned |
| Rules.ReadComparator | sources/parser.c:566-570 | the comparator of a WHILE head is accepted exactly when it is `<` or `>` |
| Rules.ReadBound | sources/parser.c:574-584 | the `VARNUM {` that ends a loop head is accepted exactly when the operand and the brace are there, leaving the bound in val and the cursor on the brace |
| Rules.ActionRule | sources/parser.c:352-364 | FD, LT, RT and BKSTP succeed exactly when their operand is a number or an assigned variable; when interpreting exactly one drawing call with the operand's value is made, when parsing none |
| Rules.SetRule | sources/parser.c:368-390 | SET succeeds exactly when a variable, `:=` and an expression the postfix machine accepts on the run's value stack follow; the variable gets the expression's value, or, for a bare `;` on an empty stack, what reading the variable left in val; a failed SET assigns nothing; after the head the stack is left as the expression left it |
| Rules.ColourWord | sources/parser.c:670-700 | after CLR, ADV and RAND make their drawing call and a colour name sets and applies that colour; any other word is rejected and changes nothing |
| Rules.ColourRule | sources/parser.c:670-700 | CLR succeeds exactly when the next token is ADV, RAND or a colour name, making the matching drawing call only when interpreting |
| Rules.DoStart | sources/parser.c:461-481 | the first half of a DO head is accepted exactly when it reads `VAR FROM VARNUM`, and assigns the truncated first bound to the loop variable at once |
| Rules.ReadDoHead | sources/parser.c:461-508 | a DO head is accepted exactly when it reads `VAR FROM VARNUM TO VARNUM {`, the second bound read after the variable holds the first; both bounds are truncated and the cursor is left on the brace |
| Rules.Flip | sources/parser.c:597-630 | the opposite of a WHILE comparator never holds together with it, and neither holds when the value equals the bound |
| Rules.ReadWhileHead | sources/parser.c:556-586 | a WHILE head is accepted exactly when it reads an assigned variable, `<` or `>`, an operand and `{`; the bound keeps its fraction and no variable changes |
| Grammar.Counters | sources/parser.c:517-550 | a DO loop runs through `abs(last - first) + 1` counter values, counting up from the first bound when it is at most the last and down otherwise |
| Grammar.CountUp | sources/parser.c:517-532 | the upward loop visits `first, first+1, …, last`, and nothing when first > last |
| Grammar.CountDown | sources/parser.c:535-550 | the downward loop visits `first, first-1, …, last`, and nothing when first < last |
| Grammar.InstrList | sources/parser.c:284-304 | with fuel, a next `}` ends the list at once with success and one brace fewer hanging; the end of the file or a token that is neither `}` nor an instruction keyword fails it; an instruction keyword runs that instruction, with everything Instruction promises of it (a DO or WHILE included); the list fails with it, or goes on after it with a list that ends as just said and whose result is the list's; a successful list ends on a `}` |
| Grammar.InstrFirst | sources/parser.c:289-295 | an instruction keyword runs its instruction, with everything Instruction promises of it; a failing instruction is the list's failure, and a succeeding one is followed by the rest of the list, which ends as InstrList says and whose result is the list's |
| Grammar.Instruction | sources/parser.c:308-348 | each keyword runs its own rule and the rule's verdict and session are the instruction's: SET as SetRule, CLR as ColourRule, FD, LT, RT and BKSTP as ActionRule with their action, PN toggles the pen only when interpreting; DO runs as Do states (its head, then one DO-loop pass per counter) and WHILE as While states (its head, then the skipped body or the WHILE-loop passes), with the head and passes recorded; every instruction keeps the braces balanced in parse mode |
| Grammar.Do | sources/parser.c:461-514 | a malformed DO head fails; a well-formed one assigns the first bound, leaves the cursor on the brace and runs the DO loop over the counters from the first bound to the last |
| Grammar.DoLoop | sources/parser.c:517-550 | pass i runs the body from the brace with the loop variable assigned counter i and one more brace hanging, starting from the session the previous pass left; a pass that fails ends the loop with its failure; when every pass succeeds there is one pass per counter and the loop succeeds with the last pass's session |
| Grammar.DoPass | sources/parser.c:520-530 | one DO pass assigns the next counter to the loop variable, rewinds to the brace with one more brace hanging and runs the body; a pass that succeeds extends the passes DoLoop describes, with the session it left as the next pass's start; one that fails ends the loop with its failure, with the session settled and the braces balanced as for any instruction |
| Grammar.While | sources/parser.c:556-594 | a malformed WHILE head fails; when parsing, or when interpreting with the opposite condition already true, the body is parsed once through skipLoop; otherwise the loop runs; when interpreting and the variable equals the bound WHILE succeeds with the cursor on the brace and nothing changed |
| Grammar.WhileLoop | sources/parser.c:597-630 | each pass is made only when the condition holds on the session before it, and runs the body from the brace with one more brace hanging; a pass that fails ends the loop with its failure; after passes that all succeed a false condition ends the loop with success; a condition false at the start does nothing |
| Grammar.WhilePass | sources/parser.c:604-610 | one WHILE pass, made because the condition holds, rewinds to the brace with one more brace hanging and runs the body; a pass that succeeds extends the passes WhileLoop describes, with the session it left as the next pass's start; one that fails ends the loop with its failure, with the session settled and the braces balanced as for any instruction |
| Grammar.Skip | sources/parser.c:633-663 | the body is parsed once from the brace with interpreting switched off and one more brace hanging; the mode is then restored; in parse mode a syntax error in the body fails the rule, when interpreting the rule succeeds anyway; nothing is drawn and no value changes |
| Grammar.Program | sources/parser.c:259-281 | a file whose first token is not `{` fails; otherwise the instruction list runs with one brace hanging; when it succeeds with no brace left, the result is whether only blanks follow (checkForEndOfCode, parser.c:233-242); otherwise the list's result is the program's; the list runs as InstrList states, its first instruction, a loop included, as Instruction states |
| Grammar.ParseFile | sources/parser.c:131-138 | parse runs processMain in parse mode from a fresh session, with the result Program states; it draws nothing and leaves every value 0 |
| Grammar.InterpretFile | sources/parser.c:140-147 | interpret runs processMain in interpret mode from a fresh session, with the result Program states |
| Samples.ForwardTenRuns | sources/parser.c:259-304 | processMain on `{ FD 10 }` from a fresh session with enough fuel succeeds with no brace hanging, having drawn one forward move of 10 exactly when interpreting |
| Samples.ParseForwardTen | sources/parser.c:131-138 | parse accepts `{ FD 10 }` and draws nothing |
| Samples.InterpretForwardTen | sources/parser.c:140-147 | interpret accepts `{ FD 10 }` and draws exactly one forward move of 10 |
| Samples.ExtraInputRejected | sources/parser.c:233-242 | `{ } FD` fails in both modes: the braces balance after `}`, and checkForEndOfCode finds more than blanks after it |
| Samples.CountedForwardBounds | sources/parser.c:461-514 | whatever the store, `A FROM 1 TO 2 {` after DO is a well-formed head for A with first bound 1 and last bound 2 |
| Samples.CountedForwardHead | sources/parser.c:461-514 | the DO of `{ DO A FROM 1 TO 2 { FD A } }` leaves the cursor on the body's brace with one brace hanging and nothing drawn, and its loop runs over the counters 1 and 2 |
| Samples.CountedForwardPass | sources/parser.c:284-304 | one pass of the body `{ FD A }`, entered with A assigned (and equal to v when interpreting), succeeds on the body's `}` with that brace closed, having drawn FD v exactly when interpreting |
| Samples.CountedForwardFirst | sources/parser.c:517-532 | the first pass of the DO loop over 1 and 2 succeeds on the body's `}`, having drawn FD 1 exactly when interpreting |
| Samples.CountedForwardSecond | sources/parser.c:517-532 | after a first pass that succeeded, the DO loop over 1 and 2 makes exactly one more pass, which succeeds on the body's `}` and draws FD 2 exactly when interpreting |
| Samples.CountedForwardLoop | sources/parser.c:517-532 | the DO loop over 1 and 2 makes exactly two passes, both succeed, and together they draw FD 1 then FD 2 exactly when interpreting |
| Samples.CountedForwardRuns | sources/parser.c:259-304 | processMain on `{ DO A FROM 1 TO 2 { FD A } }` from a fresh session with fuel at least 4 succeeds with no brace hanging, having drawn FD 1 then FD 2 exactly when interpreting |
| Samples.ParseCountedForward | sources/parser.c:131-138 | parse accepts `{ DO A FROM 1 TO 2 { FD A } }` and draws nothing |
| Samples.InterpretCountedForward | sources/parser.c:140-147 | interpret accepts `{ DO A FROM 1 TO 2 { FD A } }` and draws a forward move of 1 and then one of 2 |
| GrammarFacts.SignedNumberClassified | sources/parser.c:747-752 | '-' followed by digits is a number, not an operator, with the negated value |
| GrammarFacts.MinusSamples | sources/parser.c:749-757 | "-5" is the number -5, while "-" alone is the subtraction operator |
| GrammarFacts.VariableOperand | sources/parser.c:208-215 | a variable letter is an operand exactly when it is assigned, with the stored value; an unassigned one is classified as unassigned |
| GrammarFacts.FreshVariablesAreNoOperands | sources/parser.c:893-894 | in a fresh run no variable letter is an operand |
| GrammarFacts.ColourWordsExactly | sources/parser.c:670-700 | CLR accepts exactly ADV, RAND, WHTE, RED, BLUE, GREEN, YLLW and PRPL |
| GrammarFacts.BareSetAccepted | sources/parser.c:447-456 | SET with a bare `;` succeeds on a value stack of at most one value and empties it; a value left there by an earlier failed expression becomes the scratch value |
| GrammarFacts.TwoOperandsRejected | sources/parser.c:447-456 | SET with an expression of two operands fails, assigns nothing, and leaves the first operand on the run's value stack |
| GrammarFacts.LeftoverSpoilsNextSet | sources/parser.c:368-390 | SET with a one-operand expression succeeds exactly when the run's value stack is empty, with the operand's value as the result |
| CommandLine.CheckInput | sources/turtle.c:22-39 | the command line is accepted exactly when it has no words, a program name and one file, or a program name and `test` followed by all, white or black; the usage message is printed exactly when it is rejected outside testing |
| CommandLine.Reject | sources/turtle.c:42-47 | a rejection always fails, and the usage message is printed exactly when not testing |
| CommandLine.CommandLineSamples | sources/turtle.c:108-138 | the repository's command-line checks: one word, four words, a wrong second word and a wrong suite are rejected, the three suites accepted |

## Left out

- I/O is left out. The file is given as its tokens plus the text after the last token (`Source`), already split the way `fscanf("%s")` splits it. A scan fails only at the end of the file, so the "invalid character" branch of getToken does not arise.
- The syntax-error messages and the `showSyntaxErrors` switch are left out; a failed rule returns `ok == false`. The exit(1) for an unknown instruction cannot happen, because processInstruction is only called on instruction keywords.
- The drawing collaborator is a trace of events. The turtle's geometry, the random colour and SDL are not modelled.
- checkForNumber, checkValidVariable, checkVariableAssigned, assignValToVariable, the value stack and doMaths are called from parser.c but defined elsewhere; their source is not part of this model. The model reconstructs them from their calls and from the repository's checks of them (parser.c:877-916). `ParseNumber` reads an optional '-' followed by digits with at most one '.', at least one digit in all; it agrees with the number checks at parser.c:906-916.
- Lexicon.Classify and Rules.SetRule assume that checkVariableAssigned copies an assigned variable's value into `val` in both modes and leaves `val` alone for an unassigned one, as the checks at parser.c:893-901 show for the cases they cover. The result of a bare `SET A := ;` depends on this.
- The value stack starts empty in a fresh session; its set-up is not part of this model.
- Numbers are reals rather than doubles. Rounding is not modelled, and neither is an IEEE infinity for division by zero; `DoMaths` returns 0 there.
- Numbers.Trunc: does not model the undefined behaviour of casting a value outside the `int` range.
- Grammar.Counters: the DO executors count with an `int` (parser.c:519 and 537), so a last bound of INT_MAX going up, or INT_MIN going down, overflows the counter and the C loop never ends. The model's counters are unbounded integers and always end after `abs(last - first) + 1` passes.
- The token array's memory management (resizeTokenArray, calloc, free) and the handler setup and teardown are left out. `val`, the current operation and the colour start uninitialised in C; the model starts them at 0, Add and White.
- Grammar.InstrList, Grammar.InstrFirst, Grammar.Do, Grammar.DoLoop, Grammar.DoPass, Grammar.While, Grammar.WhileLoop, Grammar.WhilePass, Grammar.Skip, Grammar.Program, Grammar.ParseFile, Grammar.InterpretFile: they promise nothing when they return `OutOfFuel`. The fuel bound is not in the source, which can loop forever; it stands in for unbounded recursion and iteration.
- Grammar.InstrList: the record of a list run holds everything Instruction promises for the list's first instruction only. The instructions after it are described by how the rest of the list ends (ListEnds), not one by one. A record nested once per instruction made the proofs too costly for the solver. Every DO or WHILE pass is itself a list run, so the first instruction of each pass is described in full. The same holds for Grammar.InstrFirst and Grammar.Program.
- checkForEndOfCode compares an `fgetc` result stored in a `char` with EOF, so a 0xFF byte would end the check early. Bytes are not modelled, and neither is this.
- The white-box test of a self-referencing SET (parser.c:843-847) reads a test file that is not part of this model.
