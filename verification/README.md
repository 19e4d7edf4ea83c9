# Verified model of the parsing runtime

This repository ships the run-time parts of generated parsers: the driver templates of
Bison for LALR(1) and GLR parsers, a scanner and a parser for a small command language
generated by Flex and Bison, and the buffer classes of asio. This project models these
parts in Dafny, in the form the sources have: classes over growing arrays, in-place
loops, and state machines driven by labels. It proves what they are for, on all inputs
and all runs.

## The LALR(1) driver (`Flex&Bison/data/yacc.c`)

* `LrTables` holds Bison's compressed tables, the lookups in them, and what it means for
  tables to be valid (`ValidTables`), a finite check: index ranges, accessing symbols, what
  each state knows of the symbols and states below it (kept by every edge), reducible
  right-hand sides within that knowledge, legal gotos, a final state entered only by the end
  of input.
* `Lalr` is the automaton of yyparse as a state machine, one step per label. User actions
  and the scanner are an environment that may do anything: end normally, YYABORT, YYACCEPT,
  YYERROR, with or without yyerrok. Values stand for how they came about (`ParseTrees`).
* `LalrSoundness`, `LalrOwnership`, `LalrTermination` prove the main results about its runs:
  no stack underflow, acceptance only of parse trees of the input, release of every value
  exactly once, rate-limited error reports, and when a parse ends: exactly if finitely many of
  its actions use yyerrok or YYERROR, and always if nothing is reduced between a shift of
  `error` and the next token that is shifted. `LalrLoops` shows that recovery can loop.
* `LalrRecovery` looks at error recovery over whole runs: which errors are counted, which of
  them cost the lookahead, where the recovery lands, and when the stacks are exhausted.
* `LalrParser` is yyparse itself, over two arrays that are reallocated; each label is proved
  to take the step of the state machine.
* `Lac` is lookahead correction: `yy_lac` over its two-part stack, and its fidelity to the
  real driver.

## The scanner (`FlexParser/Flex/lex.flex.cpp`)

* `ScanTables` has the generated tables, and the proof that they encode a plain automaton.
* `Lexing` states what scanning means on a whole text: longest match, lossless, line count.
* `Patterns` has the regular expressions of `lex.l` as the languages they denote; `LexRules`
  proves that the automaton accepts a text for a rule exactly if the text matches the pattern
  of that rule and of no earlier one, and so that its tokens are those that `lex.l` describes.
* `Scanner` is yylex over a buffer that is shifted, doubled and refilled in the middle of
  tokens by an adversarial YY_INPUT. Its matches are those of `lex.l`, whatever the portions.

## The GLR driver (`Flex&Bison/data/glr.c`)

* `GlrGraph` defines the graph-structured stack (pointers are indices into the item array)
  and its invariants; `GlrOps`, `GlrInvariants`, `GlrSingle` and `GlrRounds` prove what each
  operation keeps; `GlrLanguage` says what the stacks stand for: configurations of the
  nondeterministic LR automaton that the tables describe.
* `GlrReach` is about what the driver might miss. Processing the stacks finds every
  configuration that reductions lead to before the next shift, so that a round is one step of
  the subset construction; and the runs of the automaton that can go on all go through the
  live stacks, so that no sentence is rejected.
* `GlrForest` says what states and deferred reductions derive: a symbol from a stretch of the
  input, the same for a state and all its options. `GlrRanks` shows, for grammars without
  cycles, why a deferred reduction never ends in a state that has a value.
* `GlrDeferred` says what becomes of a reduction that is put off: an option of a state that
  ends the stack the reduction leads to, which no later operation takes away.
* `GlrStack` is the stack with its arrays; `GlrCompress` the in-place compression;
  `GlrParser` the whole driver: both loops of yyparse, splitting and merging, deaths, the
  synchronised shift, resolution and compression, and error recovery. `GlrAmbiguous` runs it
  on the tables of an ambiguous grammar.
* `GlrOptions` and `GlrResolve` are the lists of semantic options: their in-place merge, and
  the scan that chooses among them; `GlrValues` the recursion of yyresolveStates,
  yyresolveAction and yyresolveValue, which works on pooled options and terminates in grammars
  without cycles.
* `GlrMeaning` says what values mean, against any property that goes with the user's actions
  and mergers; `GlrTrees` shows what this comes to: they are values of packed parse trees over
  exactly the tokens of their stretch.
* `GlrExpand` redoes the expansion of the item array with real addresses.

## The command parser (`FlexParser/Flex/parser.tab.cpp`)

* `CommandTables` has the sixteen-state tables and the proof that they are valid;
  `CommandParser` what the LALR driver does on them; `CommandStages` the `process_*` functions;
  `CommandProgram` the parser with its actions: when the program exits, and what it has filed,
  in terms of the token codes.

## asio (`asio/asio/buffer.hpp`, `asio/asio/basic_streambuf.hpp`)

* `Buffers` has the two-cursor scatter/gather copies, `StreamBuffer` the stream buffer as a
  bounded queue of bytes in one array that is shifted and resized.

## Where the code differs from what is said about it

* Error recovery of the LALR driver need not terminate, even with tables that admit no
  infinite run of reductions: `LalrLoops.RecoveryCanLoop`. `LalrTermination.HaltsExactlyWhen`
  gives the exact condition on a run; two that can be seen before it are `HaltsWhenPlain`, on
  the actions, and `HaltsWhenErrorWaits`, on the tables.
* A comment in `yydoAction` (glr.c:1320-1323) says that the branch for a set split point is
  never taken. It is: `yyrecoverSyntaxError` can return early without compressing the stack,
  and deterministic parsing then goes on with the split point set. The model has the branch
  (`GlrParser.Driver.PopChain`), and the invariants hold on it.
* The loops of `yyrecoverSyntaxError` that reduce several stacks to one (glr.c:2197-2205) have
  nothing to do: recovery always starts with one stack.
* `yyexpandGLRStack` does not relocate `yylastDeleted`: `GlrExpand.Arena.Expand` says when that
  matters, and `GlrStack.Stack.Restorable` that the driver never uses it after an expansion.
* The scan of `yyresolveValue` depends on the order of the options: `GlrResolve.OrderMatters`.
  It misses a best option exactly if the options before it have none
  (`GlrResolve.UndecidedExactlyWhen`), and never if `yypreference` decides between any two
  options (`GlrResolve.ComparableIsDecided`). For that it is enough that it decides between any
  two distinct rules of a symbol, and that each rule has a merger or a right-hand side of at
  most one symbol (`GlrValues.ResolveValue`, `GlrAmbiguous.NeverAborts`); two options of a longer
  rule without a merger, cut at different places, are left undecided.
* The second enlargement of the buffer in `yy_get_next_buffer` (lex.flex.cpp:1086-1095), the
  second fullness test in `yysetstate` (yacc.c:1660-1661), and the error branches of
  `process_index` and `process_create_new_file` are never taken.
* A reserve of the stream buffer that throws leaves the queue damaged unless it repeats itself
  every gptr - eback bytes (`StreamBuffer.DamagedUnless`, `StreamBuffer.LosesBytes`); `overflow`
  throws exactly when the queue is full, and then there is nothing to damage.


## Model

| member | source | states |
|---|---|---|
| `LrTables.ReduceOnStack` | Flex&Bison/data/yacc.c:1775-1840 | With valid tables a reduction on any legal stack never pops the bottom, pops exactly the right-hand side of its rule, and the goto it pushes makes a legal stack again. Validity is a finite check: every state remembers some of the symbols and states below it, and every edge keeps this. |
| `LrTables.NoUnderflow` | Flex&Bison/data/yacc.c:1775-1797 | A stack on which the tables ask for rule r is deeper than the right-hand side of r: state 0 is not among the states that the top remembers within it. |
| `LrTables.PastIsTrue` | Flex&Bison/data/yacc.c:1775-1797 | What the state on top remembers of the stack is true of every path of the automaton that ends in it, however it got there. |
| `LrTables.RhsOnTop` | Flex&Bison/data/yacc.c:1775-1797 | The symbols on top of a legal stack are the right-hand side of every rule that its state may reduce. |
| `LrTables.GotoBelow` | Flex&Bison/data/yacc.c:1830-1838 | Below that right-hand side is a state with a goto on the left-hand side. |
| `LrTables.FinalStack` | Flex&Bison/data/yacc.c:1666-1667 | A stack that ends in YYFINAL is exactly: bottom, start symbol, end of input. |
| `LalrSoundness.ChosenLegal` | Flex&Bison/data/yacc.c:1674-1773 | Whatever the driver chooses in yybackup and yydefault is legal on the stack it has: a shift follows an edge of the automaton, a reduction can be carried out. |
| `LalrSoundness.ErrorShiftLegal` | Flex&Bison/data/yacc.c:1944-1981 | Shifting `error` during recovery follows an edge of the automaton. |
| `LalrSoundness.NextKeepsShape` | Flex&Bison/data/yacc.c:1590-2036 | Every step of the driver keeps the stack a path of the automaton, with one value per pushed state, and never indexes a table out of bounds. |
| `LalrSoundness.NeverCrashes` | Flex&Bison/data/yacc.c:1590-2036 | In every run, whatever the input, the semantic actions and error recovery do, the stack stays a path of the automaton and no table or stack is accessed out of bounds. |
| `LalrSoundness.NextKeepsInv` | Flex&Bison/data/yacc.c:1590-2036 | Every step keeps the values on the stack well-formed parse trees of the stacked symbols; before any error they cover exactly the tokens shifted and have been built by exactly the reductions performed. |
| `LalrSoundness.RunInv` | Flex&Bison/data/yacc.c:1590-2036 | In every reachable configuration the stacked values are well-formed parse trees, exact as long as there has been no error. |
| `LalrSoundness.AcceptsOnlyParses` | Flex&Bison/data/yacc.c:1590-1840 | LR soundness: at acceptance the stack holds one parse tree of the start symbol and the end-of-input token; without recovery the leaves of the tree are exactly the tokens read, in order, and its nodes in post-order exactly the reductions performed. |
| `LalrSoundness.ZeroParses` | Flex&Bison/data/yacc.c:1996-2036 | If yyparse has returned 0 and no action executed YYACCEPT, there is a parse tree of the start symbol whose leaves, without recovery, are the tokens read up to the end of input, and whose nodes are the reductions performed. |
| `LalrOwnership.NextAccounted` | Flex&Bison/data/yacc.c:1750-2036 | Every step keeps the account: each value created so far is on the stack, in the lookahead or released, in total once. |
| `LalrOwnership.RunAccounted` | Flex&Bison/data/yacc.c:1750-2036 | The account holds in every reachable configuration, through shift, reduction, discarding, popping, YYERROR, YYABORT and cleanup. |
| `LalrOwnership.ReleasedExactlyOnce` | Flex&Bison/data/yacc.c:1896-2036 | When yyparse has returned, every token value read and every `$$` pushed has been released exactly once, and nothing else has. |
| `LalrOwnership.ReleasedAtMostOnce` | Flex&Bison/data/yacc.c:1775-2036 | In the middle of a run nothing has been released twice or before it existed. |
| `LalrOwnership.NextLimited` | Flex&Bison/data/yacc.c:1742-1991 | A step counts at most one action and, unless that action executes yyerrok, keeps 3 * yynerrs at most tokens shifted + yyerrstatus. |
| `LalrOwnership.ErrorsAreRateLimited` | Flex&Bison/data/yacc.c:1742-1917 | As long as no action executes yyerrok, 3 * (yynerrs - 1) is at most the number of tokens shifted. |
| `LalrRecovery.StatusIsThree` | Flex&Bison/data/yacc.c:1896-1945 | In a run, yyerrstatus is 3 at yynewstate or yyerrlab if and only if `error` has been shifted before and neither a token shifted nor yyerrok executed since. |
| `LalrRecovery.StatusIsZero` | Flex&Bison/data/yacc.c:1742-1747 | It is 0 if and only if three tokens have been shifted, or yyerrok executed, since every entry into yyerrlab1. |
| `LalrRecovery.DiscardedExactlyWhen` | Flex&Bison/data/yacc.c:1896-1917 | At a syntax error the lookahead is discarded, and released, if and only if it comes right after a recovery: `error` has been shifted and since then neither a token nor yyerrok. At the end of the input the parse then fails instead. In all other cases the lookahead stays in hand. |
| `LalrRecovery.CountedExactlyWhen` | Flex&Bison/data/yacc.c:1850-1856 | yynerrs grows by one exactly at the syntax errors before which, since every entry into yyerrlab1, three tokens have been shifted or yyerrok has been executed. |
| `LalrRecovery.LookaheadStays` | Flex&Bison/data/yacc.c:1674-1917 | A lookahead is given up in three ways only: it is shifted, with its value on the stack; it is discarded by an error right after a recovery; or the parse ends. |
| `LalrRecovery.RecoveryLands` | Flex&Bison/data/yacc.c:1947-1990 | Recovery pops exactly the states above the topmost one that shifts `error`, releases exactly their values, from the top, and shifts `error` there, with the lookahead kept. |
| `LalrRecovery.RecoveryFails` | Flex&Bison/data/yacc.c:1947-1967 | If no state on the stack shifts `error`, everything is popped and released and yyparse fails. |
| `LalrRecovery.ExhaustedExactlyWhen` | Flex&Bison/data/yacc.c:1611-1662 | yyparse gives up for lack of memory exactly when it enters a state with YYMAXDEPTH states on the stack. |
| `LalrTermination.BackupProgress` | Flex&Bison/data/yacc.c:1674-1840 | A step from yybackup decreases a well-founded measure of the parse. |
| `LalrTermination.ErrorProgress` | Flex&Bison/data/yacc.c:1846-1991 | A step of error recovery decreases the same measure. |
| `LalrTermination.HaltsExactlyWhen` | Flex&Bison/data/yacc.c:1846-1991 | With tables that admit no infinite run of reductions and no defaulted error state, a parse of a finite input ends if and only if only finitely many of its executed actions use yyerrok or YYERROR. |
| `LalrTermination.HaltsWhenPlain` | Flex&Bison/data/yacc.c:1846-1991 | So it ends whenever, from some action on, none would use yyerrok or YYERROR. |
| `LalrTermination.HaltsWhenErrorWaits` | Flex&Bison/data/yacc.c:1846-1991 | Where no state entered by `error` reduces - the next token is shifted or discarded - every parse of a finite input ends, whatever the actions do. |
| `LalrTermination.HaltsWithoutErrorToken` | Flex&Bison/data/yacc.c:1944-1991 | And with tables in which no state shifts `error` it ends whatever the actions do. |
| `LalrLoops.RecoveryCanLoop` | Flex&Bison/data/yacc.c:1923-1991 | Recovery does not always terminate: there are valid tables without infinite reductions and without defaulted errors for which no parse ends, on any input that starts with a token, when every action executes yyerrok or YYERROR. |
| `LalrLoops.Valid` | Flex&Bison/data/yacc.c:1674-1840 | The tables of that counterexample are valid. |
| `LalrLoops.Tame` | Flex&Bison/data/yacc.c:1674-1840 | The tables of that counterexample admit no infinite run of reductions and have no defaulted error state. |
| `LalrParser.Parser.constructor` | Flex&Bison/data/yacc.c:1555-1586 | yyparse starts in the initial configuration of the state machine. |
| `LalrParser.Parser.Push` | Flex&Bison/data/yacc.c:1590-1597 | A state and its value go on top; everything below is kept. |
| `LalrParser.Parser.Relocate` | Flex&Bison/data/yacc.c:1634-1655 | Bigger arrays start with what is on the stacks. |
| `LalrParser.Parser.Grow` | Flex&Bison/data/yacc.c:1634-1655 | Relocation doubles the stacks up to YYMAXDEPTH and keeps their contents. |
| `LalrParser.Parser.Execute` | Flex&Bison/data/yacc.c:1790-1806 | The action may reset yyerrstatus; the values of the right-hand side count as released. |
| `LalrParser.Parser.RunAction` | Flex&Bison/data/yacc.c:1775-1806 | The action sees the values of its right-hand side, which count as released from then on. |
| `LalrParser.Parser.PushGoto` | Flex&Bison/data/yacc.c:1822-1840 | The right-hand side is popped and `$$` pushed with the goto state. |
| `LalrParser.Parser.ReduceBy` | Flex&Bison/data/yacc.c:1775-1840 | yyreduce takes the step of the state machine, for all outcomes of the action. |
| `LalrParser.Parser.ReadAhead` | Flex&Bison/data/yacc.c:1686-1715 | The lookahead is read only if there is none. |
| `LalrParser.Parser.ShiftToken` | Flex&Bison/data/yacc.c:1742-1759 | The lookahead moves to the stack and yyerrstatus counts down. |
| `LalrParser.Parser.BackUp` | Flex&Bison/data/yacc.c:1674-1773 | yybackup and yydefault take the step of the state machine; a defaulted state reads no token. |
| `LalrParser.Parser.SetState` | Flex&Bison/data/yacc.c:1595-1669 | yysetstate takes the step of the state machine; the second test whether the stack is full is redundant. |
| `LalrParser.Parser.RaiseError` | Flex&Bison/data/yacc.c:1923-1940 | yyerrorlab pops the right-hand side and goes on in yyerrlab1. |
| `LalrParser.Parser.ErrorDetected` | Flex&Bison/data/yacc.c:1846-1917 | yyerrlab takes the step of the state machine, for which LalrRecovery.DiscardedExactlyWhen and CountedExactlyWhen say when an error costs the lookahead and when it is counted. |
| `LalrParser.Parser.ErrorPop` | Flex&Bison/data/yacc.c:1944-1991 | One round of yyerrlab1 takes the step of the state machine: it shifts `error` where that is possible, else pops one state or gives up at the bottom. |
| `LalrParser.Parser.PopAll` | Flex&Bison/data/yacc.c:2032-2037 | The cleanup loop releases what is on the stack, top first, and leaves the bottom. |
| `LalrParser.Parser.CleanUp` | Flex&Bison/data/yacc.c:2018-2037 | yyreturn releases the lookahead and then the stack. |
| `LalrParser.Parser.Visit` | Flex&Bison/data/yacc.c:1590-2036 | One visit of any label is one step of the state machine, so that all results about runs hold of this parser. |
| `LalrParser.Parser.Steps` | Flex&Bison/data/yacc.c:1590-2036 | After any number of labels the parser is in the configuration that the state machine reaches in as many steps. |
| `LalrParser.Parser.YyParse` | Flex&Bison/data/yacc.c:1542-2037 | When the parse halts yyparse returns with its code and has released exactly the values there were, each once; if it returns 0 and no action executed YYACCEPT, what it has parsed is a parse tree whose leaves are, without recovery, the tokens read. |
| `Lac.OneOutlook` | Flex&Bison/data/yacc.c:1051-1144 | A token cannot both be shifted in the end and run into an error. |
| `Lac.ReducedLive` | Flex&Bison/data/yacc.c:1089-1121 | A reduction chosen on a legal stack can be done and leads to a legal stack. |
| `Lac.LookaheadCorrector.constructor` | Flex&Bison/data/yacc.c:1545-1560 | The virtual stack starts with its initial capacity. |
| `Lac.LookaheadCorrector.Realloc` | Flex&Bison/data/yacc.c:920-970 | There is room for one more element afterwards, and the used ones are kept; it fails only when the stack would exceed YYMAXDEPTH. |
| `Lac.LookaheadCorrector.Pop` | Flex&Bison/data/yacc.c:1092-1109 | Popping the two-part stack pops the ordinary stack it stands for. |
| `Lac.LookaheadCorrector.VirtualReduce` | Flex&Bison/data/yacc.c:1089-1141 | A reduction on the two-part stack is the reduction on the ordinary stack it stands for; memory runs out only beyond YYMAXDEPTH. |
| `Lac.LookaheadCorrector.YyLac` | Flex&Bison/data/yacc.c:1051-1144 | yy_lac returns 0 exactly when the token is shifted after finitely many reductions, 1 exactly when they end in an error (always for an undefined token), 2 only when the stack would exceed YYMAXDEPTH; the real stack is not written. |
| `Lac.AlwaysAllocated` | Flex&Bison/data/yacc.c:1598-1655 | In every run the stack is within what has been allocated, with room for one more state outside yysetstate. |
| `Lac.DriverFollows` | Flex&Bison/data/yacc.c:1590-1840 | The driver, keeping its lookahead, goes through the very stacks that yy_lac simulates, extending its own as far as YYMAXDEPTH. |
| `Lac.PredictionComesTrue` | Flex&Bison/data/yacc.c:1051-1144 | What yy_lac predicts after n reductions is what the driver does after n reductions. |
| `Lac.LacFidelity` | Flex&Bison/data/yacc.c:1051-1144 | On a lookahead whose reductions end exactly one answer of yy_lac is right, and the driver then does what it says, with the lookahead still in hand until then, as long as its actions end normally and its stack stays below YYMAXDEPTH. |
| `ScanTables.WalkIsStep` | FlexParser/Flex/lex.flex.cpp:383-472 | In every state the automaton can be in, following yy_def, yy_chk and yy_meta through the compressed tables gives the transition of the plain automaton; the end-of-buffer byte leads to its own state. |
| `ScanTables.NoWayOn` | FlexParser/Flex/lex.flex.cpp:748 | A state with base 59 accepts and has no transitions, so yy_match may stop there. |
| `ScanTables.EndRow` | FlexParser/Flex/lex.flex.cpp:429-467 | Nothing follows the end-of-buffer state. |
| `Lexing.NothingLonger` | FlexParser/Flex/lex.flex.cpp:730-748 | After a jam, or in a state without transitions, no longer text is accepted. |
| `Lexing.OneByteMatches` | FlexParser/Flex/lex.flex.cpp:383-420 | Every single byte is accepted by some rule, so scanning never gets stuck. |
| `Lexing.LongestMatches` | FlexParser/Flex/lex.flex.cpp:730-757 | Every non-empty text has a longest match of at least one byte. |
| `Lexing.LongestUnique` | FlexParser/Flex/lex.flex.cpp:730-757 | A text has only one longest match. |
| `Lexing.TokensAreLossless` | FlexParser/Flex/lex.flex.cpp:719-769 | The texts matched, put together, are the input. |
| `Lexing.OnlySomeRulesMatchNewlines` | FlexParser/Flex/lex.flex.cpp:470-472 | Only rules 1 and 7 match texts with a newline: a fact about the whole automaton that makes the line count right. |
| `Patterns.CommentPattern` | FlexParser/Flex/lex.l:15 | A text matches the comment pattern of rule 1 exactly if it is `/*`, then something without `*/` inside, then `*/`. |
| `Patterns.PatternsLook` | FlexParser/Flex/lex.l:15-22 | For every rule and the default rule: a text matches the regular expression of lex.l, taken as the language it denotes, exactly if it looks as the expression says, byte by byte. |
| `LexRules.RuleIsFirstMatch` | FlexParser/Flex/lex.l:15-22 | The automaton of the generated tables accepts a text for rule r if and only if the text matches the regular expression of rule r in lex.l and that of no earlier rule. |
| `LexRules.LongestIsFlexMatch` | FlexParser/Flex/lex.flex.cpp:719-757 | The longest match by the automaton is Flex's match: no longer prefix matches any rule of lex.l, and of the rules that match this one the first is taken. |
| `LexRules.FlexMatchUnique` | FlexParser/Flex/lex.l:15-22 | These patterns leave no choice: at every place of a text there is one length and one rule. |
| `LexRules.TokensAreFlexTokens` | FlexParser/Flex/lex.l:14-23 | The tokens of a text, cut by the automaton, are those that the patterns of lex.l cut it into. |
| `LexRules.FlexTokensUnique` | FlexParser/Flex/lex.l:14-23 | The patterns cut a text in one way only. |
| `LexRules.TokensAreLongest` | FlexParser/Flex/lex.flex.cpp:719-769 | Every match, at its place in the input, is Flex's: the longest by any pattern of lex.l, and by the first of them. |
| `Scanner.ActionFound` | FlexParser/Flex/lex.flex.cpp:750-757 | The accepting state remembered during a match is the longest match when the automaton has jammed. |
| `Scanner.NextState` | FlexParser/Flex/lex.flex.cpp:739-745 | The inner loop of yy_match follows yy_def to the transition of the compressed automaton. |
| `Scanner.Scanner.constructor` | FlexParser/Flex/lex.flex.cpp:698-717 | Scanning starts at line 1 with the whole input pending. |
| `Scanner.Scanner.YyInput` | FlexParser/Flex/lex.flex.cpp:1060-1063 | YY_INPUT delivers some bytes, at least one unless the input is used up; how many is up to an adversary. |
| `Scanner.Scanner.Restart` | FlexParser/Flex/lex.flex.cpp:1069-1073 | yyrestart empties the buffer. |
| `Scanner.Scanner.MakeRoom` | FlexParser/Flex/lex.flex.cpp:1016-1056 | The buffer is doubled until there is room to read; the partial token is kept. |
| `Scanner.Scanner.MoveToFront` | FlexParser/Flex/lex.flex.cpp:1002-1006 | The partial token moves to the front of the buffer, also when the two places overlap. |
| `Scanner.Scanner.Gather` | FlexParser/Flex/lex.flex.cpp:1001-1066 | The partial token moves to the front and what YY_INPUT delivers is read behind it: together with the input left they are the same text as before. |
| `Scanner.Scanner.GetNextBuffer` | FlexParser/Flex/lex.flex.cpp:970-1104 | The partial token followed by the rest of the input is the same text before and after; the result tells a refill from the end of file and from the last match. |
| `Scanner.Scanner.MatchLoop` | FlexParser/Flex/lex.flex.cpp:730-748 | yy_match runs the automaton as far as it goes and remembers the longest acceptance on the way, or stops at a NUL. |
| `Scanner.Scanner.GetPreviousState` | FlexParser/Flex/lex.flex.cpp:1108-1133 | Replaying the partial token gives its state and its longest acceptance again; NULs in it count as text. |
| `Scanner.Scanner.TryNulTrans` | FlexParser/Flex/lex.flex.cpp:1140-1161 | The state after a NUL, or 0 if the automaton jams on it. |
| `Scanner.Scanner.NulInText` | FlexParser/Flex/lex.flex.cpp:864-898 | A NUL that is text is stepped over, or ends the match before it. |
| `Scanner.Scanner.RefillBuffer` | FlexParser/Flex/lex.flex.cpp:901-951 | At the end of the buffered text more is read and the partial token scanned again; the text from the token on is unchanged. |
| `Scanner.Scanner.EndOfBufferAction` | FlexParser/Flex/lex.flex.cpp:833-955 | The end-of-buffer action loses no text and does make progress. |
| `Scanner.Scanner.FindAction` | FlexParser/Flex/lex.flex.cpp:750-757 | yy_find_action finds the rule and the length of the longest match. |
| `Scanner.Scanner.ScanToAction` | FlexParser/Flex/lex.flex.cpp:730-757 | From a match in progress to the action of its longest match, or to the end-of-buffer action. |
| `Scanner.Scanner.BeforeAction` | FlexParser/Flex/lex.flex.cpp:759 | YY_DO_BEFORE_ACTION terminates yytext in place and keeps the byte it overwrites. |
| `Scanner.Scanner.Round` | FlexParser/Flex/lex.flex.cpp:719-955 | One action: that of the rule with the longest match, or the end-of-buffer action, after which there is less to do. |
| `Scanner.Scanner.NextMatch` | FlexParser/Flex/lex.flex.cpp:719-955 | The loop of yylex finds the longest match at the start of the pending text, however often the buffer is refilled on the way. |
| `Scanner.Scanner.StartMatch` | FlexParser/Flex/lex.flex.cpp:719-728 | A new match starts with the byte that YY_DO_BEFORE_ACTION had overwritten put back. |
| `Scanner.Scanner.CountLines` | FlexParser/Flex/lex.flex.cpp:761-769 | yylineno grows by the newlines in yytext. |
| `Scanner.Scanner.MatchAndAct` | FlexParser/Flex/lex.flex.cpp:719-831 | One round of yylex executes the action of the next token of the text and no other: what it matches is the longest prefix of the rest of the input that matches a pattern of lex.l, by the first of these patterns. |
| `Scanner.Scanner.YyLex` | FlexParser/Flex/lex.flex.cpp:717-961 | yylex returns at the next token of rules 1 to 6, passing over what rules 7 to 9 match, or at the end of the input; every text it matches matches the pattern of its rule in lex.l, and that of no earlier rule. |
| `Scanner.ScanAll` | FlexParser/Flex/lex.flex.cpp:717-961 | Chunk invariance: whatever portions YY_INPUT delivers, the matches are exactly those into which the patterns of lex.l cut the whole text, and yylineno ends at one more than its newlines. |
| `GlrOps.AddStateLinks` | Flex&Bison/data/glr.c:1257-1272 | Pushing a state keeps the representation invariant, with or without a split point. |
| `GlrOps.AddStatePositions` | Flex&Bison/data/glr.c:1257-1272 | Positions never decrease from a state to those above it. |
| `GlrOps.AddStateAutomaton` | Flex&Bison/data/glr.c:1257-1293 | Pushing along an edge keeps every stack in the graph, live or dead, a path of the automaton. |
| `GlrOps.AddStateUnique` | Flex&Bison/data/glr.c:1274-1293 | Pushing a state whose LR state, predecessor and position no live state has keeps live states unique. |
| `GlrOps.AddOptionLinks` | Flex&Bison/data/glr.c:1040-1063 | A new option keeps the representation invariant. |
| `GlrOps.AddOptionUnique` | Flex&Bison/data/glr.c:1040-1063 | A new option does not affect uniqueness. |
| `GlrOps.AddOptionDerivations` | Flex&Bison/data/glr.c:1040-1063 | Every option still derives the state that it belongs to. |
| `GlrOps.UpdateSplitLinks` | Flex&Bison/data/glr.c:1186-1194 | Lowering the split point keeps the representation invariant. |
| `GlrOps.UpdateSplitUnique` | Flex&Bison/data/glr.c:1186-1194 | It uncovers states of the contiguous part, which cannot clash with those above. |
| `GlrOps.SplitStackLinks` | Flex&Bison/data/glr.c:1459-1501 | Splitting a stack keeps the representation invariant and sets the split point. |
| `GlrOps.SplitStackUnique` | Flex&Bison/data/glr.c:1459-1501 | A copy of a stack adds no live states. |
| `GlrOps.SurvivorsAre` | Flex&Bison/data/glr.c:1219-1253 | yyremoveDeletes keeps exactly the live tops. |
| `GlrOps.SurvivorsDistinct` | Flex&Bison/data/glr.c:1219-1253 | Distinct tops stay distinct. |
| `GlrOps.SearchStops` | Flex&Bison/data/glr.c:1433-1446 | Where the merge search stops on a stack - at the predecessor, at the split point, or below the position - nothing further down can be a merge target. |
| `GlrOps.SearchComplete` | Flex&Bison/data/glr.c:1433-1452 | The bounded search is complete: if it finds no target, no live state of the remaining graph has the LR state, predecessor and position of the new one. |
| `GlrOps.ReductionIsLegal` | Flex&Bison/data/glr.c:1423-1430 | The predecessor links do not run out below a right-hand side (the assertions never fire), and the automaton has a goto there. |
| `GlrOps.PushReduces` | Flex&Bison/data/glr.c:1418-1454 | The states of the resulting stack are those of the old one after the reduction. |
| `GlrInvariants.MergedDerives` | Flex&Bison/data/glr.c:1043-1063 | When a reduction is merged into state p, walking its right-hand side from the option's state reaches the predecessor of p, p is the goto on its left-hand side, and both end at the same token. |
| `GlrInvariants.MergedInv` | Flex&Bison/data/glr.c:1433-1450 | A merge keeps all invariants: representation, positions, automaton, uniqueness, derivations. |
| `GlrInvariants.PushedDerives` | Flex&Bison/data/glr.c:1274-1293 | The option of a state pushed by a deferred reduction derives that state. |
| `GlrInvariants.PushedInv` | Flex&Bison/data/glr.c:1453-1454 | A deferred reduction to a new state, after a search without result, keeps all invariants. |
| `GlrInvariants.MergedForest` | Flex&Bison/data/glr.c:1423-1454 | After a merge all options of the state, the new one included, derive its symbol from its stretch of the input. |
| `GlrInvariants.PushedForest` | Flex&Bison/data/glr.c:1443-1446 | So does the option of a state that is pushed. |
| `GlrInvariants.PushedOutgrown` | Flex&Bison/data/glr.c:1443-1446 | What is pushed derives more than any finished state beside it. |
| `GlrInvariants.ShiftedOutgrown` | Flex&Bison/data/glr.c:1257-1273 | A state for a token that is pushed is not beside a finished one. |
| `GlrInvariants.TargetIsUnresolved` | Flex&Bison/data/glr.c:1423-1439 | In a grammar without cycles a merge target never has a value already. |
| `GlrInvariants.LiveDerivations` | Flex&Bison/data/glr.c:1043-1063 | Derivation soundness: for every option in the list of a live state without a value, as many links down as its rule is long lead, past states for the symbols of the right-hand side, to the predecessor of the state; the state is the goto on the left-hand side; and both derive the same symbol from the same stretch of the input. |
| `GlrInvariants.UpdateSplitInv` | Flex&Bison/data/glr.c:1186-1194 | Updating the split point keeps all invariants. |
| `GlrInvariants.SplitStackInv` | Flex&Bison/data/glr.c:1459-1501 | Splitting a stack keeps all invariants. |
| `GlrInvariants.SurvivorsInv` | Flex&Bison/data/glr.c:1219-1253 | Removing dead stacks keeps all invariants. |
| `GlrStack.GoDown` | Flex&Bison/data/glr.c:1437-1449 | One step of the search down a chain passes over no target. |
| `GlrDeferred.AddOptionKeepsOptions` | Flex&Bison/data/glr.c:1040-1063 | A new option comes first, and no state loses one. |
| `GlrDeferred.MergedDeferred` | Flex&Bison/data/glr.c:1433-1450 | A merge makes the reduction an option of the state merged into, which is live, is derived by it, and stands on the stack that the reduction leads to. |
| `GlrDeferred.PushedDeferred` | Flex&Bison/data/glr.c:1274-1293 | So does a push, with the new state. |
| `GlrDeferred.RecordedStays` | Flex&Bison/data/glr.c:1040-1063 | A reduction that has been put off stays an option of its state, and a derivation of it, as long as states keep their options. |
| `GlrDeferred.MergedAbsorbed` | Flex&Bison/data/glr.c:1433-1450 | What a merge ends in is a live state without a value, at the same place in the input, that ends the very stack the reduction leads to. |
| `GlrDeferred.MergedNoMore` | Flex&Bison/data/glr.c:1433-1450 | A merge makes no state live that was not. |
| `GlrDeferred.PushedNoMore` | Flex&Bison/data/glr.c:1453-1454 | A push makes only the pushed state live. |
| `GlrStack.SingleStackLoose` | Flex&Bison/data/glr.c:1207-1217 | Any stack there is or was, brought back on its own, has the links, positions, automaton paths and derivations that the others have. |
| `GlrStack.Stack.constructor` | Flex&Bison/data/glr.c:1095-1109 | An empty stack: used items plus space left make up the array. |
| `GlrStack.Stack.NewItem` | Flex&Bison/data/glr.c:1029-1037 | One item more is used, one fewer is free. |
| `GlrStack.Stack.Expand` | Flex&Bison/data/glr.c:1121-1177 | Expansion keeps every item, link, top and the split point, and restores the headroom; it fails only beyond YYMAXDEPTH. |
| `GlrStack.Stack.Reserve` | Flex&Bison/data/glr.c:571-577 | YY_RESERVE_GLRSTACK: at least two items are free afterwards. |
| `GlrStack.Stack.Shift` | Flex&Bison/data/glr.c:1257-1272 | yyglrShift pushes exactly one resolved state on stack k; no other stack changes. |
| `GlrStack.Stack.AddDeferredAction` | Flex&Bison/data/glr.c:1040-1063 | yyaddDeferredAction puts exactly one option in front of those of the state. |
| `GlrStack.Stack.ShiftDefer` | Flex&Bison/data/glr.c:1274-1293 | yyglrShiftDefer pushes an unresolved state with one option; the headroom of two items suffices for both. |
| `GlrStack.Stack.SearchChain` | Flex&Bison/data/glr.c:1437-1449 | The search down one stack finds a target or proves that there is none on it. |
| `GlrStack.Stack.FindTarget` | Flex&Bison/data/glr.c:1433-1450 | The search over all stacks but k finds a target on one of them, or proves that there is none. |
| `GlrStack.Stack.WalkDown` | Flex&Bison/data/glr.c:1423-1428 | Following the links below a right-hand side. |
| `GlrStack.Stack.PrepareReduction` | Flex&Bison/data/glr.c:1423-1430 | The state below the right-hand side is found, the split point lowered to it, and its goto is legal. |
| `GlrStack.Stack.MarkDeleted` | Flex&Bison/data/glr.c:1196-1203 | The stack is dead, and remembered as the one deleted last unless it was dead before. |
| `GlrStack.Stack.MergeStack` | Flex&Bison/data/glr.c:1441-1446 | The merge keeps all invariants, ends stack k, and leaves the others as they were; the state merged into, which is on another stack, has the reduction among its options and ends the very stack that the reduction leads to; nothing becomes live. |
| `GlrStack.Stack.PushReduction` | Flex&Bison/data/glr.c:1453-1454 | The push keeps all invariants and leaves the other stacks as they were; the new state, the only one that becomes live, has the reduction as its option. |
| `GlrStack.Stack.ReduceDeferred` | Flex&Bison/data/glr.c:1418-1457 | yyglrReduce in nondeterministic mode keeps all invariants; stack k ends, but only if the stack that the reduction leads to is there already, or holds the LR states that the reduction gives; either way some live state ends the reduced stack and has the reduction among its options; the others are untouched, no state loses an option, and nothing else becomes live. |
| `GlrStack.Stack.Split` | Flex&Bison/data/glr.c:1459-1501 | yysplitStack keeps all invariants; only the copy shares its top. |
| `GlrStack.Stack.RemoveDeletes` | Flex&Bison/data/glr.c:1219-1253 | The in-place loop leaves exactly the live tops in their order. |
| `GlrStack.Stack.UndeleteLastStack` | Flex&Bison/data/glr.c:1205-1217 | The stack deleted last is back as the only one, with all invariants. |
| `GlrCompress.AboveIsChain` | Flex&Bison/data/glr.c:1897-1925 | The states from the split point up to a top form a chain of increasing indices, so that copying downwards never overwrites one not copied yet. |
| `GlrCompress.ReverseLinks` | Flex&Bison/data/glr.c:1905-1908 | The first loop turns the links of the chain round, in place. |
| `GlrCompress.CopyDown` | Flex&Bison/data/glr.c:1916-1924 | The second loop lays the states out from the split point on, in place, following the turned links. |
| `GlrCompress.Rearrange` | Flex&Bison/data/glr.c:1905-1924 | Both loops together put the states of the chain behind the split point, in their order. |
| `GlrCompress.CompressKeepsStack` | Flex&Bison/data/glr.c:1897-1925 | The contiguous stack has the same states, positions and values from bottom to top. |
| `GlrCompress.CompressedInv` | Flex&Bison/data/glr.c:1897-1925 | Compression keeps all invariants and restores the form without split point. |
| `GlrCompress.Compress` | Flex&Bison/data/glr.c:1897-1925 | yycompressStack: does nothing unless there is one stack and a split point; otherwise its result is the compressed stack, and the space count is right. |
| `GlrSingle.SingleUnique` | Flex&Bison/data/glr.c:1433-1454 | One stack alone never violates uniqueness. |
| `GlrSingle.ResolvedInv` | Flex&Bison/data/glr.c:1879-1895 | Resolving the values of the one stack keeps its links and LR states, and restores all invariants, also on a stack that had been brought back. |
| `GlrSingle.CanResolve` | Flex&Bison/data/glr.c:1879-1895 | The values of the one stack can be resolved: what its states derive is less than the input so far. |
| `GlrSingle.RhsIsValued` | Flex&Bison/data/glr.c:1307-1341 | A reduction run at once finds all states of its right-hand side with values. |
| `GlrSingle.ReducedFollows` | Flex&Bison/data/glr.c:1401-1415 | What it pushes derives something, or is a symbol that may derive nothing. |
| `GlrSingle.SingleCompressible` | Flex&Bison/data/glr.c:2432-2438 | A stack whose states have all got values meets what compression needs. |
| `GlrSingle.TruncatedInv` | Flex&Bison/data/glr.c:1308-1317 | Popping a contiguous stack keeps all invariants. |
| `GlrSingle.CutSingle` | Flex&Bison/data/glr.c:1318-1341 | Popping along the links, while the split point is set, keeps all invariants. |
| `GlrSingle.PushSingle` | Flex&Bison/data/glr.c:1411-1414 | Pushing the goto state on a popped stack keeps all invariants. |
| `GlrForest.RhsIsLess` | Flex&Bison/data/glr.c:1624-1663 | In a grammar without cycles every state of the right-hand side of an option derives less than the option: a shorter stretch, or a symbol of lower rank. |
| `GlrForest.ReductionDerives` | Flex&Bison/data/glr.c:1397-1457 | A reduction that the automaton allows derives its left-hand side from the stretch of its right-hand side, and from none only if the left-hand side may derive nothing. |
| `GlrForest.ForestGrows` | Flex&Bison/data/glr.c:1043-1063 | New states and options keep what all items derive. |
| `GlrForest.OptionsAreListed` | Flex&Bison/data/glr.c:1795-1806 | The options of a state without a value can be scanned, whatever has been pooled or resolved before. |
| `GlrForest.IdenticalSameKeys` | Flex&Bison/data/glr.c:1503-1523 | Identical options of one state have right-hand sides that derive the same symbols from the same stretches. |
| `GlrForest.ErrorRuleIsCyclic` | Flex&Bison/data/glr.c:2208-2241 | A rule that only adds `error` to its own left-hand side makes a cycle when `error` derives nothing, as in recovery, which shifts it without reading. |
| `GlrRanks.SingleOutgrown` | Flex&Bison/data/glr.c:1189-1194 | On a single stack no two states stand on the same state. |
| `GlrRanks.OutgrownStays` | Flex&Bison/data/glr.c:1397-1457 | That everything beside a finished state derives more than it is kept by adding items. |
| `GlrRanks.ReducedGrowsPast` | Flex&Bison/data/glr.c:1416-1446 | A reduction derives more than any finished state that stands where it leads. |
| `GlrValues.RhsValues` | Flex&Bison/data/glr.c:1307-1341 | The values of a right-hand side, in its order. |
| `GlrValues.ActionMakes` | Flex&Bison/data/glr.c:1624-1663 | What the action of an option makes of fitting values is a value that its rule makes for the symbol and the stretch of the option. |
| `GlrValues.ResolveStates` | Flex&Bison/data/glr.c:1605-1622 | The states of a stretch get values; the recursion terminates in a grammar without cycles; nothing that derives as much is touched; and all values fit whatever goes with the user's code and fitted before. |
| `GlrValues.ResolveAction` | Flex&Bison/data/glr.c:1624-1663 | The action of an option is executed last, on the values of its right-hand side as they then are, which fit, and its value is what is returned; what derives as much or more is untouched. |
| `GlrValues.ResolveValue` | Flex&Bison/data/glr.c:1789-1876 | The state gets the merged values of the first of its remaining options of highest precedence and, where the scan asks for a merge, of all options behind it with the same precedence, in the order of the list; each is what the action of its rule made when it was executed; YYABORT does not come from an ambiguity if yypreference decides between any two distinct rules of a symbol, and each rule has a merger or at most one symbol on its right-hand side. |
| `GlrValues.MergeOthers` | Flex&Bison/data/glr.c:1842-1862 | All later options with the precedence of the best one are merged into its value, in the order of the list, each by the merger of its own rule, and no others. |
| `GlrMeaning.SoundStays` | Flex&Bison/data/glr.c:1397-1457 | Deferred reductions leave all values as sound as they were. |
| `GlrMeaning.SoundShift` | Flex&Bison/data/glr.c:2415-2427 | A token that is shifted has a sound value: its own. |
| `GlrMeaning.SoundReduced` | Flex&Bison/data/glr.c:1401-1415 | A reduction run at once on sound values pushes a sound value. |
| `GlrMeaning.SoundResolved` | Flex&Bison/data/glr.c:1879-1895 | Resolving values keeps all values sound. |
| `GlrMeaning.SoundCompressed` | Flex&Bison/data/glr.c:1897-1925 | So does the compression of the stack. |
| `GlrTrees.TreesAreSensible` | Flex&Bison/data/glr.c:1624-1663 | Being the value of a derivation goes with the user's actions and mergers and with the tokens, whatever they are. |
| `GlrTrees.SoundMeans` | Flex&Bison/data/glr.c:1789-1876 | A value is sound for a symbol and a stretch if and only if it is the value of a packed parse tree of that symbol over that stretch, in which what is merged are derivations by rules of one precedence, each by the merger of its rule. |
| `GlrTrees.TreeYield` | Flex&Bison/data/glr.c:1789-1876 | The leaves of such a tree are the tokens of its stretch: all, in order, each once. |
| `GlrTrees.SoundParses` | Flex&Bison/data/glr.c:2265-2448 | A sound value of the start symbol is that of a parse tree of the whole stretch. |
| `GlrRounds.SurvivorsReady` | Flex&Bison/data/glr.c:2373-2394 | After processing and yyremoveDeletes every stack is alive and has a shift on the one lookahead. |
| `GlrRounds.ShiftIsNew` | Flex&Bison/data/glr.c:2415-2427 | The shift loop makes no state that is there already. |
| `GlrRounds.FinalAlone` | Flex&Bison/data/glr.c:2415-2427 | Two distinct stacks are never both about to shift the end of input. |
| `GlrRounds.ShiftedGoing` | Flex&Bison/data/glr.c:1941 | So after a shift on several stacks none of them is final, and the assertion at the head of yyprocessOneStack never fires. |
| `GlrRounds.ShiftedDistinct` | Flex&Bison/data/glr.c:2415-2427 | The tops after the shift are pairwise distinct. |
| `GlrLanguage.FollowsReduction` | Flex&Bison/data/glr.c:1397-1457 | A reduction that the tables allow leads from one configuration of the nondeterministic LR automaton to another. |
| `GlrLanguage.FollowsShift` | Flex&Bison/data/glr.c:2412-2427 | A shift leads from one such configuration to another, with one more token behind it. |
| `GlrLanguage.ReducedFollow` | Flex&Bison/data/glr.c:1397-1457 | After a deferred reduction on one stack every live stack is still such a configuration. |
| `GlrLanguage.SurvivorsFollow` | Flex&Bison/data/glr.c:1219-1253 | After removing dead stacks every live stack is still such a configuration. |
| `GlrLanguage.ShiftedFollow` | Flex&Bison/data/glr.c:2412-2427 | After the shift on all stacks every stack is such a configuration, with one more token. |
| `GlrLanguage.FollowsReads` | Flex&Bison/data/glr.c:2265-2448 | A run of the automaton keeps to the paths of the tables; it reads on while there are tokens, and is in the final state exactly when it has shifted the end of input. |
| `GlrReach.DeferCovers` | Flex&Bison/data/glr.c:1418-1457 | Putting off a reduction loses nothing: what it leads to has been seen, or is a live stack that waits to be processed. |
| `GlrReach.DieCovers` | Flex&Bison/data/glr.c:1991-1999 | The death of a stack on the action Error loses nothing: all its conflicts have been followed, and it could not have shifted. |
| `GlrReach.NothingLost` | Flex&Bison/data/glr.c:1927-2006 | Whatever has become of a stack that was to be processed: every stack that reductions on the lookahead lead to from it, and that can shift it, is alive, or is led to by a live stack still to be processed. |
| `GlrReach.SearchEnds` | Flex&Bison/data/glr.c:2365-2394 | When no stack waits any more, every configuration that reductions on the lookahead lead to from the stacks at the start, and that can shift it, is a live stack; and every live stack is such a configuration. |
| `GlrReach.AllMoved` | Flex&Bison/data/glr.c:2407-2430 | After the shift the live stacks are exactly the configurations that the nondeterministic automaton moves to on the token. |
| `GlrReach.CoveringMoved` | Flex&Bison/data/glr.c:2365-2439 | If all runs of the automaton that can shift the next token go through the live stacks, they still do after the live stacks have moved on with the automaton. |
| `GlrReach.StepCovers` | Flex&Bison/data/glr.c:2300-2363 | In the same way they all go through the one stack of deterministic parsing. |
| `GlrReach.NoWayOnRejects` | Flex&Bison/data/glr.c:2395-2405 | If no run can shift the next token, no run of the automaton accepts the input. |
| `GlrReach.ErringRejects` | Flex&Bison/data/glr.c:2317-2362 | If the action of the one stack is Error without a conflict, no run of the automaton accepts the input. |
| `GlrReach.NoChoice` | Flex&Bison/data/glr.c:2300-2363 | Without a conflict the tables ask for the action of the state and nothing else. |
| `GlrReach.DetEndsOnce` | Flex&Bison/data/glr.c:2300-2363 | The deterministic automaton ends in one way only: with acceptance, an error, or a conflict, at one configuration. |
| `GlrParser.Driver.constructor` | Flex&Bison/data/glr.c:2265-2294 | The driver starts without lookahead, at position 0. |
| `GlrParser.Driver.ReadToken` | Flex&Bison/data/glr.c:1959-1974 | The lookahead, read only if there is none; end of file is normalised. |
| `GlrParser.Driver.Defer` | Flex&Bison/data/glr.c:1397-1457 | A deferred reduction keeps the driver's invariant, stack k gets the LR states it should or ends in a stack that is there already, and what it leads to is seen or waits to be processed. |
| `GlrParser.Driver.Die` | Flex&Bison/data/glr.c:1196-1203 | Marking a stack deleted touches no other, and it can be brought back; it is done only where the action is Error and all conflicting reductions have been followed. |
| `GlrParser.Driver.SplitOne` | Flex&Bison/data/glr.c:1979-1989 | One conflicting reduction is done on a copy, and the copy processed: the configuration it leads to, and all that this leads to, is seen or waits. |
| `GlrParser.Driver.SplitConflicts` | Flex&Bison/data/glr.c:1979-1989 | All conflicting reductions are done on copies and have become options; the configurations that they lead to, and all that these lead to, are seen or wait; stack k itself is untouched. |
| `GlrParser.Driver.ActOn` | Flex&Bison/data/glr.c:1991-2002 | A stack whose conflicts are settled gets ready to shift, dies or reduces, as its action says; a reduction becomes an option and its result is seen or waits; no other stack changes. |
| `GlrParser.Driver.OnToken` | Flex&Bison/data/glr.c:1976-2002 | Every reduction that the tables ask for in the state on the token - those in conflict, done on copies, and the state's own - has become an option of a state that ends the reduced stack, and the configuration it leads to is seen or waits; the driver's invariant holds afterwards. |
| `GlrParser.Driver.LookAhead` | Flex&Bison/data/glr.c:1955-2002 | The same when the lookahead may have to be read first; once read it stays. |
| `GlrParser.Driver.ProcessTop` | Flex&Bison/data/glr.c:1934-2003 | One state on top of one stack is dealt with, a defaulted state without a lookahead, another with it; none of the reductions that the tables ask for is forgotten. |
| `GlrParser.Driver.ProcessOneStack` | Flex&Bison/data/glr.c:1927-2006 | Afterwards stack k is dead or about to shift the lookahead, all stacks split off are, too, and all other stacks are untouched. Nothing is lost: every configuration that reductions on the lookahead lead to from stack k is in a set closed under the reductions that the tables ask for, in which each that can shift the lookahead is what a live stack consists of, or is still to be processed on another stack. So a stack ends dead only where its reduced stacks have the action Error, or are live on another stack. |
| `GlrParser.Driver.ProcessNext` | Flex&Bison/data/glr.c:2392-2393 | One stack more is ready, the ones before it still are, and only the stacks behind it have still to be processed. |
| `GlrParser.Driver.ProcessAll` | Flex&Bison/data/glr.c:2392-2393 | Synchronised shift: when the loop is over, every stack, the new ones included, is dead or about to shift the one lookahead; the live stacks are reached by reductions from the stacks at the start, and every configuration so reached that can shift the lookahead is a live stack. So all stacks are dead only if every reduced stack errs. |
| `GlrParser.Driver.Prune` | Flex&Bison/data/glr.c:2373-2394 | What yyremoveDeletes leaves is all alive and all about to shift; if nothing is left, the stack deleted last can be brought back. |
| `GlrParser.Driver.ShiftOn` | Flex&Bison/data/glr.c:2417-2426 | The action looked up again is a shift along an edge, never an error or a reduction code pushed as a state. |
| `GlrParser.Driver.ShiftAll` | Flex&Bison/data/glr.c:2415-2430 | The shift loop pushes one legal state with the token's own value on every stack. |
| `GlrParser.Driver.ResolveStack` | Flex&Bison/data/glr.c:1879-1895 | Afterwards every state from the split point to the top has a value, sound if all values were; the LR states are the same. If it fails, some action ended that way, or an ambiguity has been met that yypreference does not decide: there is none if it decides between any two distinct rules of a symbol, and each rule has a merger or at most one symbol. |
| `GlrParser.Driver.GiveUp` | Flex&Bison/data/glr.c:2395-2405 | When all stacks have died the parser goes on with the one deleted last, as a single stack with all values; the error is counted unless the parser is recovering. |
| `GlrParser.Driver.ShiftRound` | Flex&Bison/data/glr.c:2407-2438 | After the shift either several stacks go on, or one is left, resolved and compressed; they are exactly the configurations to which the nondeterministic automaton moves on the token. |
| `GlrParser.Driver.ReturnToOne` | Flex&Bison/data/glr.c:2432-2438 | Back to deterministic parsing: one contiguous stack with the LR states it had and sound values. |
| `GlrParser.Driver.CompressOne` | Flex&Bison/data/glr.c:1897-1925 | The compressed stack keeps its contents, and its values stay sound. |
| `GlrParser.Driver.Round` | Flex&Bison/data/glr.c:2365-2439 | One round is one step of the subset construction: the LR stacks afterwards are exactly those to which the nondeterministic automaton moves, by reductions and one shift, from those before; a syntax error is raised only if it moves nowhere. The driver's invariant is kept, with and without an error before. |
| `GlrParser.Driver.RoundTurn` | Flex&Bison/data/glr.c:2365-2439 | Before the first error, the runs of the automaton on the input that can go on all go through the live stacks after a round if they did before it; and if the round raises an error, no run accepts the input. |
| `GlrParser.Driver.PopEnd` | Flex&Bison/data/glr.c:1307-1317 | A contiguous stack loses exactly the right-hand side; the goto is legal. |
| `GlrParser.Driver.PopChain` | Flex&Bison/data/glr.c:1318-1341 | A stack with a split point loses exactly the right-hand side along its links; the goto is legal. |
| `GlrParser.Driver.PopRhs` | Flex&Bison/data/glr.c:1307-1341 | Either way of popping leaves the stack that the rule's right-hand side was on, whose state is not final and has a legal goto; values stay sound. |
| `GlrParser.Driver.ReduceNow` | Flex&Bison/data/glr.c:1401-1415 | A reduction with its action run at once keeps the driver's invariant, sound values included, and gives the LR states it should, unless memory is exhausted or the action itself, which is logged, says otherwise: YYERROR, YYABORT or YYACCEPT. |
| `GlrParser.Driver.ShiftNow` | Flex&Bison/data/glr.c:2345-2353 | A shift in deterministic mode keeps the driver's invariant, sound values included, and counts yyerrState down. |
| `GlrParser.Driver.StandardStep` | Flex&Bison/data/glr.c:2301-2363 | One step of deterministic parsing is the step of the deterministic LR automaton on the next token: acceptance exactly in the final state, a conflict exactly where the tables have one, a syntax error exactly where the action is Error, with the stack as it was; otherwise the stack that the shift or reduction gives, unless memory is exhausted or the action of the rule, which is logged, says otherwise. An error is counted exactly if the parser is not recovering. |
| `GlrParser.Driver.Perform` | Flex&Bison/data/glr.c:2311-2362 | A shift extends the one stack by its target and a reduction gives the reduced stack, unless memory is exhausted or the action of the rule says otherwise; only the action Error, or a rule's action that says so, raises a user error, and only Error counts one. |
| `GlrParser.Driver.Standard` | Flex&Bison/data/glr.c:2300-2363 | Before the first error the first loop of yyparse is a run of the deterministic LR automaton from the stack at its start: it ends at acceptance, at a conflict or at a syntax error where that run does - which it does in one way only - unless the fuel or memory runs out or an action says otherwise; and at a syntax error no run of the nondeterministic automaton accepts the input. |
| `GlrParser.Driver.StandardTurn` | Flex&Bison/data/glr.c:2300-2363 | One turn of the first loop is one step of that run. |
| `GlrParser.Driver.Nondeterministic` | Flex&Bison/data/glr.c:2365-2439 | The second loop ends with a single compressed stack, through which all runs of the automaton go that can go on, or at an error, which before the first error it raises only if no run of the automaton accepts the input. |
| `GlrParser.Driver.SkipTokens` | Flex&Bison/data/glr.c:2151-2195 | The lookahead and further tokens are skipped until the state on top has an action; it has none on the tokens skipped. Recovery fails here only at the end of the input. |
| `GlrParser.Driver.ShiftError` | Flex&Bison/data/glr.c:2208-2241 | Exactly the states above the topmost one that shifts `error` are popped, and `error` is shifted there; this fails only if no state of the stack shifts `error`. |
| `GlrParser.Driver.Recover` | Flex&Bison/data/glr.c:2142-2242 | Recovery keeps the driver's invariant, also when it returns early and leaves the split point set; within three tokens of the last recovery it keeps the stack and skips tokens without an action, otherwise it keeps the lookahead and lands on the topmost state that shifts `error`; it fails only at the end of input or if there is no such state. |
| `GlrParser.Driver.PushBottom` | Flex&Bison/data/glr.c:2292-2293 | The first state is pushed: the driver's invariant holds, and all runs of the automaton start there. |
| `GlrParser.Driver.Attempt` | Flex&Bison/data/glr.c:2295-2439 | Deterministic parsing, and nondeterministic parsing if it ends in a conflict: acceptance in the final state, the driver's invariant, or an error with the stack ready for recovery; the first error is raised only if no run of the automaton accepts the input, or by the action run last. |
| `GlrParser.Driver.Stage` | Flex&Bison/data/glr.c:2295-2445 | Deterministic parsing, and what ends it: several stacks, an error that is recovered from, or acceptance; recovery begins only if no run of the automaton accepts the input, or an action raises an error. |
| `GlrParser.Driver.ParseToError` | Flex&Bison/data/glr.c:2265-2439 | yyparse as far as its first error is sound in the same way for every grammar without cycles, also where one would come from `error` deriving nothing: at acceptance the stack is a configuration reached by shifting exactly the tokens read, and the value of the start symbol is that of a packed parse tree of them. It reports an error only if no run of the automaton accepts the input, or if the action run last raised one. |
| `GlrParser.Driver.YyParse` | Flex&Bison/data/glr.c:2265-2448 | GLR soundness: at acceptance one stack is left - bottom, start symbol, end of input. If there was no error, it is a configuration that the nondeterministic LR automaton reaches by shifting exactly the tokens read, the last of which is the first end of input, and the value of the start symbol is that of a packed parse tree whose leaves are exactly the tokens before it, each once and in order. GLR completeness: error recovery begins only if no run of the nondeterministic automaton accepts the input, or some action raises an error; with actions that all end normally and no ambiguity left to be reported, a sentence is accepted, without recovery, unless memory or fuel runs out. |
| `GlrAmbiguous.ValidWithConflict` | Flex&Bison/data/glr.c:1976-1989 | Valid GLR tables with a real conflict: those of an ambiguous grammar. |
| `GlrAmbiguous.NeverAborts` | Flex&Bison/data/glr.c:1806-1840 | The condition under which an ambiguity never aborts holds of the ambiguous grammar of the example. |
| `GlrAmbiguous.Parse` | Flex&Bison/data/glr.c:2265-2294 | A parser made for these tables: if it accepts without error, it has parsed its input; and if all actions end normally it accepts the sentence `a`, without recovery, unless memory or fuel runs out. |
| `GlrAmbiguous.AcceptsA` | Flex&Bison/data/glr.c:2265-2294 | The automaton of the example accepts `a`. |
| `GlrOptions.ChainDecreases` | Flex&Bison/data/glr.c:724-726 | Chains of options are in strictly decreasing address order. |
| `GlrOptions.NewestFirst` | Flex&Bison/data/glr.c:1040-1063 | yyaddDeferredAction establishes that order. |
| `GlrOptions.MergeAdvance` | Flex&Bison/data/glr.c:1552-1569 | The merge loop passes over an option that comes first. |
| `GlrOptions.MergeInsert` | Flex&Bison/data/glr.c:1561-1567 | It inserts an option of the second chain at its place. |
| `GlrOptions.MergeAppends` | Flex&Bison/data/glr.c:1556-1560 | It appends what is left of the second chain. |
| `GlrOptions.MergeStops` | Flex&Bison/data/glr.c:1554-1555 | It may stop where the two chains meet: they share the rest. |
| `GlrOptions.MergeInto` | Flex&Bison/data/glr.c:1550-1570 | The in-place loop terminates, with the options of both chains in the first. |
| `GlrOptions.MergeChains` | Flex&Bison/data/glr.c:1549-1572 | Both states end up with one chain, strictly decreasing, that holds exactly the options either had; nothing but links of these options has changed. |
| `GlrOptions.MergePair` | Flex&Bison/data/glr.c:1536-1572 | A pair of states shares the value of either or the options of both; values stay fitting, and no state loses an option except to a value. |
| `GlrOptions.MergeOptionSets` | Flex&Bison/data/glr.c:1525-1574 | yymergeOptionSets: every state of the two right-hand sides ends up with a value, or with the options of both states of its pair, also where the sides meet; where the states of a side stand for different things, each pair shares exactly the value of either or the options of both; values stay fitting, and all links between states are as before. |
| `GlrResolve.IdenticalOptions` | Flex&Bison/data/glr.c:1503-1523 | True exactly when both options are of one rule and their right-hand sides end at the same tokens. |
| `GlrResolve.Prefer` | Flex&Bison/data/glr.c:1576-1599 | yypreference: when each of the four answers is given. |
| `GlrResolve.BestNext` | Flex&Bison/data/glr.c:1818-1838 | One option more: the best one so far is still the first of highest precedence, with all equals mergeable. |
| `GlrResolve.AmbiguousHasNoBest` | Flex&Bison/data/glr.c:1818-1823 | Where the scan reports an ambiguity, the options seen so far have no best one. |
| `GlrResolve.DecidesForBest` | Flex&Bison/data/glr.c:1806-1840 | What the scan of a list of rules decides for is the best one. |
| `GlrResolve.BestPrecedence` | Flex&Bison/data/glr.c:1818-1838 | The rules with the precedence of the best one are the best one itself and those that follow it: none before it has that precedence. |
| `GlrResolve.UndecidedExactlyWhen` | Flex&Bison/data/glr.c:1806-1840 | The scan of a list of rules reports an ambiguity if and only if some prefix of the list has no best rule, whatever comes after. |
| `GlrResolve.ComparableIsDecided` | Flex&Bison/data/glr.c:1806-1840 | If yypreference decides between any two of the rules, at different places of the list, the scan decides, in whatever order they come. |
| `GlrResolve.OrderMatters` | Flex&Bison/data/glr.c:1806-1840 | Otherwise the order matters: the same three options, which have a best one, are reported as ambiguous in one order and resolved in another. |
| `GlrResolve.MergeIdentical` | Flex&Bison/data/glr.c:1810-1814 | Two identical options pool what their right-hand sides mean. |
| `GlrResolve.DropIdentical` | Flex&Bison/data/glr.c:1810-1814 | The redundant option leaves the list; every option dropped is identical to one that stays. |
| `GlrResolve.ScanOne` | Flex&Bison/data/glr.c:1806-1840 | One round of the scan keeps its invariant. |
| `GlrResolve.Scan` | Flex&Bison/data/glr.c:1795-1840 | If no ambiguity is reported, the options left are decided: yybest is the first of maximal precedence, every later one of that precedence has the same non-zero merger, and yymerge says whether there is one. Otherwise two options that are neither identical nor comparable have been met, and the options seen so far are undecided. |
| `GlrExpand.Arena.RelocItem` | Flex&Bison/data/glr.c:1111-1162 | A relocated item has the same links, counted from the new base. |
| `GlrExpand.Arena.CopyItems` | Flex&Bison/data/glr.c:1137-1162 | The copying loop relocates all items. |
| `GlrExpand.Arena.RelocTops` | Flex&Bison/data/glr.c:1163-1171 | The tops are relocated, dead ones stay null. |
| `GlrExpand.Arena.Expand` | Flex&Bison/data/glr.c:1121-1177 | With real addresses, expansion is a graph isomorphism: every link, the split point and all tops are the same up to relocation; only yylastDeleted is not relocated, which matters exactly when the array moves. |
| `CommandTables.Ranges` | FlexParser/Flex/parser.tab.cpp:462-611 | The concrete tables have the shapes that the driver needs. |
| `CommandTables.Actions` | FlexParser/Flex/parser.tab.cpp:557-604 | What the sixteen states do on every token; only state 1 looks at one. |
| `CommandTables.Gotos` | FlexParser/Flex/parser.tab.cpp:564-604 | Where reductions lead. |
| `CommandTables.StackShape` | FlexParser/Flex/parser.tab.cpp:557-611 | Every stack has one of three shapes, with at most three states. |
| `CommandTables.Valid` | FlexParser/Flex/parser.tab.cpp:462-611 | The concrete tables satisfy the validity predicate that all LALR results assume. |
| `CommandTables.NoRecovery` | FlexParser/Flex/parser.tab.cpp:541-604 | No state of the concrete tables shifts the error token. |
| `CommandTables.NoEndlessReductions` | FlexParser/Flex/parser.tab.cpp:541-604 | The concrete tables admit no infinite run of reductions and have no defaulted error state. |
| `CommandParser.LeadingIs` | FlexParser/Flex/parser.tab.cpp:1391-1495 | How many commands an input starts with is where its first other token is. |
| `CommandParser.PhaseNext` | FlexParser/Flex/parser.tab.cpp:1236-1622 | Every step of the command parser stays in one of its phases. |
| `CommandParser.PhaseRun` | FlexParser/Flex/parser.tab.cpp:1236-1622 | Every reachable configuration of the command parser is in one of its phases. |
| `CommandParser.Halting` | FlexParser/Flex/parser.tab.cpp:1236-1622 | Every parse ends, whatever the actions do. |
| `CommandParser.CommandsThenEnd` | FlexParser/Flex/parser.tab.cpp:1236-1622 | yyparse returns 0 exactly when only commands come before the end of input; otherwise it stops at the first other token with one error and result 1; each action has run once per command, in order. |
| `CommandParser.NeverDeep` | FlexParser/Flex/parser.tab.cpp:1243-1300 | There are never more than three states on the stack, which is never extended. |
| `CommandParser.OwnValue` | FlexParser/Flex/parser.tab.cpp:1408-1457 | The action of a token runs before the next token is read, so yylval is still its own. |
| `CommandParser.ParseCommands` | FlexParser/Flex/parser.tab.cpp:1236-1700 | The array-based driver, run on these tables, returns that result with that many errors, tokens read and actions. |
| `CommandStages.OneHead` | FlexParser/Flex/parser.tab.cpp:1700-1709 | At most one command name is the one that a comment can belong to. |
| `CommandStages.TreatsMeans` | FlexParser/Flex/parser.tab.cpp:1700-1709 | treat_as_sigleline_cmt equals the current line exactly when a comment belongs to the command name on that line. |
| `CommandStages.Stages.constructor` | FlexParser/Flex/parser.tab.cpp:1696-1698 | The initial stage, index and comment line. |
| `CommandStages.Stages.ProcessLineComment` | FlexParser/Flex/parser.tab.cpp:1711-1714 | One line comment is handed on. |
| `CommandStages.Stages.ProcessGlobalComment` | FlexParser/Flex/parser.tab.cpp:1700-1709 | A global comment, or the line comment of the command name before it on its line, which it uses up. |
| `CommandStages.Stages.ProcessIndex` | FlexParser/Flex/parser.tab.cpp:1716-1730 | The stage is 1; the error branch is never taken. |
| `CommandStages.Stages.ProcessCreateNewFile` | FlexParser/Flex/parser.tab.cpp:1732-1748 | The stage is 2 and numbering starts afresh; the error branch is never taken. |
| `CommandStages.Stages.ProcessTakeBits` | FlexParser/Flex/parser.tab.cpp:1750-1764 | The program exits exactly when bits do not come after a file name. |
| `CommandStages.Stages.ProcessCmd` | FlexParser/Flex/parser.tab.cpp:1766-1781 | The program exits exactly when a command name does not come after bits. |
| `CommandStages.Stages.Process` | FlexParser/Flex/parser.tab.cpp:1696-1781 | The program exits exactly at the first command that is out of order. |
| `CommandStages.Stages.ProcessAll` | FlexParser/Flex/parser.tab.cpp:1696-1781 | The program does not exit if and only if all commands are in order; then each is handed on as it should be, and the index of each command name is the number of command names since the last file name. |
| `CommandProgram.RunAction` | FlexParser/Flex/parser.tab.cpp:1400-1460 | The switch of yyreduce: after the action of a token, what has been handed on is what the token codes 258 to 263 read so far call for, each with its own text and line - the text of a 261 as a file name, of a 262 as bits, of a 263 as a command name; the program exits exactly at a 262 whose last key is not a 261, or a 263 whose last key is not a 262. |
| `CommandProgram.SameOrder` | FlexParser/Flex/parser.tab.cpp:1732-1781 | The stages are in order after n tokens if and only if none of the first n token codes is misplaced. |
| `CommandProgram.SameCalls` | FlexParser/Flex/parser.tab.cpp:1696-1781 | What the stages want handed on after n tokens is what the token codes, texts and lines call for. |
| `CommandProgram.Turn` | FlexParser/Flex/parser.tab.cpp:1236-1500 | One visit of a label takes the step of the parser, and runs the action of the rule it reduces, if any, on the token read last. |
| `CommandProgram.RunProgram` | FlexParser/Flex/parser.tab.cpp:1236-1781 | The whole program on its input, in terms of the token codes: it exits exactly at the first bits that do not follow a file name or command name that does not follow bits, having read no further and handed on what came before; otherwise every command has been handed on with its own text, line and number, and yyparse returns 0 if the input ends there and 1 if another token comes. |
| `Buffers.OffsetDrops` | asio/asio/buffer.hpp:442-504 | operator+: a buffer sequence whose first buffer is taken from `start` on stands for what it stood for without the first `start` bytes, or without those of that buffer if it has fewer. |
| `Buffers.FlatAt` | asio/asio/buffer.hpp:385-396 | The k-th byte of what a buffer sequence stands for is the byte at its address, and there are as many as buffer_size says. |
| `Buffers.BufferSize` | asio/asio/buffer.hpp:385-396 | buffer_size is the length of what the sequence stands for. |
| `Buffers.CopiedFlat` | asio/asio/buffer.hpp:1693-1736 | Bytes copied from place to place are the flattened source in the flattened target, when no byte of the targets is in two places or in the sources. |
| `Buffers.CopiedStep` | asio/asio/buffer.hpp:1705-1731 | One partial copy extends the copied prefix. |
| `Buffers.CopyBuffer` | asio/asio/buffer.hpp:1295-1304 | memcpy of the smaller size; nothing else is written. |
| `Buffers.CopyRound` | asio/asio/buffer.hpp:1705-1731 | One round of the two-cursor loop copies on and moves at least one cursor to the next buffer, or reaches the limit. |
| `Buffers.BufferCopy` | asio/asio/buffer.hpp:1693-1736 | Copies min(target size, source size) bytes, empty buffers included: this prefix of the flattened target is that of the flattened source, and all other memory is unchanged. |
| `Buffers.BufferCopyAtMost` | asio/asio/buffer.hpp:2186-2231 | Copies min(target size, source size, limit) bytes in the same way, and writes nothing else. |
| `StreamBuffer.AfterFailure` | asio/asio/basic_streambuf.hpp:315-331 | What a reserve that throws leaves of the queue: its bytes have moved down and its pointers have not. |
| `StreamBuffer.DamagedUnless` | asio/asio/basic_streambuf.hpp:315-331 | That is the queue it was if and only if it repeats itself every gptr - eback bytes. |
| `StreamBuffer.LosesBytes` | asio/asio/basic_streambuf.hpp:204-209 | A queue that a caller can have, and a prepare on it that throws and overwrites a byte. |
| `StreamBuffer.MoveDown` | asio/asio/basic_streambuf.hpp:316-319 | memmove to the start of the array. |
| `StreamBuffer.StreamBuf.Compact` | asio/asio/basic_streambuf.hpp:312-317 | The bytes of the queue are moved to the start of the array, and nothing is if they are there already; the pointers stay. |
| `StreamBuffer.StreamBuf.constructor` | asio/asio/basic_streambuf.hpp:131-141 | An empty queue with a put area of at most 128 bytes. |
| `StreamBuffer.StreamBuf.Size` | asio/asio/basic_streambuf.hpp:158-161 | size() is the number of bytes that have entered and not left, at most max_size(). |
| `StreamBuffer.StreamBuf.Reserve` | asio/asio/basic_streambuf.hpp:299-337 | Fails exactly when the queue and n bytes exceed max_size(); otherwise there is room and the queue is the same, across shifting and resizing. After a failure the queue is the same if and only if it repeats itself every gptr - eback bytes. |
| `StreamBuffer.StreamBuf.Prepare` | asio/asio/basic_streambuf.hpp:204-209 | A stretch of n bytes behind the queue to write to; a failure leaves the damaged queue of reserve. |
| `StreamBuffer.StreamBuf.Commit` | asio/asio/basic_streambuf.hpp:223-229 | Exactly the bytes written there enter the queue at its end. |
| `StreamBuffer.StreamBuf.Send` | asio/asio/basic_streambuf.hpp:204-229 | prepare, writing, and commit together: all of the data enters the queue at its end, or, exactly if there is no room for it, the call fails. |
| `StreamBuffer.StreamBuf.Consume` | asio/asio/basic_streambuf.hpp:238-245 | n bytes leave at the head, or all there are. |
| `StreamBuffer.StreamBuf.Underflow` | asio/asio/basic_streambuf.hpp:254-265 | The byte at the head, which stays; end of file exactly when the queue is empty. |
| `StreamBuffer.StreamBuf.MakeRoom` | asio/asio/basic_streambuf.hpp:278-288 | When the put area is used up there is room for another byte unless the queue is full. |
| `StreamBuffer.StreamBuf.Overflow` | asio/asio/basic_streambuf.hpp:274-297 | The byte enters the queue; it fails exactly when the queue is full, and then leaves it as it was. |
| `StreamBuffer.StreamBuf.Put` | asio/asio/basic_streambuf.hpp:274-297 | sputc on these overrides: bounded FIFO. |
| `StreamBuffer.StreamBuf.Get` | asio/asio/basic_streambuf.hpp:254-265 | sbumpc on these overrides: first in, first out. |

## Left out

What the model of a member deliberately does not say:

- GlrParser.Driver.YyParse: that yyparse terminates is not stated: `fuel` bounds its loops, since the driver need not end (recovery can loop). That no sentence is rejected concerns runs of the automaton, not every derivation of the sentence: of the packed derivations, it is said of each reduction that it is recorded (GlrParser.Driver.OnToken).
- GlrParser.Driver.Round: what is said about the stacks after a round concerns rounds in which the values can be resolved; after a failed resolution the model's run ends.
- GlrParser.Driver.ProcessOneStack: ends with `OutOfFuel` where the source would recurse further.
- GlrValues.ResolveStates: that the lowest state of the stretch is resolved first is in the body alone.
- GlrValues.ResolveAction: the destruction of right-hand sides, and the lookahead that a deferred action sees (yyrawchar and yyval of its option), are not modelled.
- GlrValues.ResolveValue: says nothing about the graph when an action does not end normally, since the model's run ends there.
- GlrParser.Driver.Recover: concerns grammars that have no cycle when `error` derives nothing, as it does when recovery shifts it; `list: list error` is a cycle in this sense (GlrForest.ErrorRuleIsCyclic), and with it recovery can bring about a merge into a state that has a value. For such grammars there is GlrParser.Driver.ParseToError, which goes as far as the first error.
- GlrInvariants.TargetIsUnresolved: concerns grammars without cycles, as all results about the GLR driver do.
- GlrTrees.SoundMeans: a tree may merge any derivations of one precedence, and count actions in any way; which options are executed and merged is said of each resolution (GlrValues.ResolveValue), not of the tree as a whole.
- GlrParser.Driver.GiveUp: a deferred action that executes YYERROR ends the run of the model (`DeferredError`); the source goes on to recover on a stack of which some states have neither value nor options. (An ambiguity, or YYABORT, ends the source's run, too.)
- GlrStack.Stack.constructor: requires room for four items, so that doubling the used items always yields the headroom; YYINITDEPTH is 200.
- GlrStack.Stack.UndeleteLastStack: sets the lookahead flag of the stack brought back, which in the source keeps a stale value that nothing reads before the next round sets it.
- LalrTermination.HaltsExactlyWhen: speaks of the actions that the run executes, which no caller can see before it; HaltsWhenPlain, HaltsWhenErrorWaits and HaltsWithoutErrorToken are for callers. All four concern tables without infinite runs of reductions and without defaulted error states.
- Lac.LookaheadCorrector.YyLac: concerns lookaheads whose reductions end; with others yy_lac runs until memory is exhausted.
- Lac.LacFidelity: concerns actions that end normally and a stack that stays below YYMAXDEPTH, where the driver itself gives up; the bookkeeping of when yy_lac is called (YY_LAC_ESTABLISH, YY_LAC_DISCARD) is not modelled.
- StreamBuffer.StreamBuf.Reserve: unbounded integers; the truncation of `pbump(static_cast<int>(n))` and pointer overflow for huge n are not modelled.
- StreamBuffer.StreamBuf.Overflow: the case of an end-of-file argument, which changes nothing, is not modelled.
- CommandStages.Stages.ProcessCmd: the decrement of yylineno before the program exits is not modelled, nor are printing and pausing; exit is the end of the run.
- CommandProgram.RunProgram: an action is executed between two visits of labels, after the goto of its rule has been pushed; the parser does not look at what actions do. What the scanner leaves in yylval and yylineno is a parameter.

What the repository does that the model does not:

- m4 macro expansion, push parsers, `yyoverflow`, YYBACKUP, yyclearin, locations (`YYLLOC_DEFAULT`), debug output, messages and their translation: one plain configuration of the templates is modelled.
- Table construction by Bison and Flex: validity of tables is a predicate, proved for the command parser's tables and for those of two small grammars.
- Allocation failure other than reaching YYMAXDEPTH, and the growth of the array of GLR stack tops.
- Cleanup and destructor calls of the GLR driver (glr.c:2463-2515).
- Scanner input through files, buffer switching, unput, a user's yywrap that supplies more input, overflow of the doubled buffer size, copying of yytext into token values.
- `Flex&Bison/data/lalr1.cc`, `lalr1.java`, `stack.hh`, `glr.cc`, `location.cc`: further drivers and wrappers of the same automata.
- The rest of asio (sockets, timers, serial ports, signal sets, socket streams), `bas`, and the other directories: forwarding to services that are not here, or input and output.
- The overloads of buffer_copy with a single buffer on one side: special cases of the ones modelled.
