/** The command parser as a program: yyparse, with actions that hand each command on with
    the value that its token has left in yylval. */
module CommandProgram {
  import opened LrTables
  import opened ParseTrees
  import opened Lalr
  import opened LalrSoundness
  import opened CommandTables
  import opened CommandParser
  import opened CommandStages
  import LalrParser
  import LalrTermination

  /** yylval and yylineno when yylex returns. */
  datatype Lexed = Lexed(text: string, line: nat)

  // ---------------------------------------------------------------- what the program is to do

  const GLOBALCMT := 258
  const SGLINECMT := 259
  const INDEX := 260
  const FILENAME := 261
  const TAKEBITS := 262
  const CMDNAME := 263

  /** The last of INDEX, FILENAME and TAKEBITS among the first n tokens, 0 if there is none. */
  function LastKeyCode(input: seq<int>, n: nat): int
    requires n <= |input|
  {
    if n == 0 then 0
    else if input[n-1] == INDEX || input[n-1] == FILENAME || input[n-1] == TAKEBITS then input[n-1]
    else LastKeyCode(input, n - 1)
  }

  /** Bits that do not follow a file name, or a command name that does not follow bits. */
  predicate Misplaced(input: seq<int>, i: nat)
    requires i < |input|
  {
    || (input[i] == TAKEBITS && LastKeyCode(input, i) != FILENAME)
    || (input[i] == CMDNAME && LastKeyCode(input, i) != TAKEBITS)
  }

  /** The number of command names among the first n tokens since the last file name. */
  function NamesSince(input: seq<int>, n: nat): nat
    requires n <= |input|
  {
    if n == 0 || input[n-1] == FILENAME then 0
    else NamesSince(input, n - 1) + if input[n-1] == CMDNAME then 1 else 0
  }

  /** The comment at i is the first on the line of the last command name before it. */
  predicate BehindName(input: seq<int>, lexed: nat -> Lexed, i: nat)
    requires i < |input|
  {
    exists j {:trigger input[j]} :: 0 <= j < i && NameIsLast(input, lexed, j, i)
  }

  predicate NameIsLast(input: seq<int>, lexed: nat -> Lexed, j: nat, i: nat)
    requires j < i < |input|
  {
    && input[j] == CMDNAME && lexed(j).line == lexed(i).line
    && forall m {:trigger input[m]} | j < m < i ::
      input[m] != CMDNAME && !(input[m] == GLOBALCMT && lexed(m).line == lexed(i).line)
  }

  /** What the i-th token hands on. */
  function Filed(input: seq<int>, lexed: nat -> Lexed, i: nat): seq<Call>
    requires i < |input|
  {
    var text, line := lexed(i).text, lexed(i).line;
    if input[i] == GLOBALCMT then
      if BehindName(input, lexed, i) then [SetLineComment(text, line)] else [SetGlobalComment(text)]
    else if input[i] == SGLINECMT then [SetLineComment(text, line)]
    else if input[i] == FILENAME then [SetFileName(text)]
    else if input[i] == TAKEBITS then [SetBits(text)]
    else if input[i] == CMDNAME then [SetCmdName(text, line, NamesSince(input, i))]
    else []
  }

  function AllFiled(input: seq<int>, lexed: nat -> Lexed, n: nat): seq<Call>
    requires n <= |input|
  {
    if n == 0 then [] else AllFiled(input, lexed, n - 1) + Filed(input, lexed, n - 1)
  }

  /** What the program comes to on its input: it exits at the first token that is misplaced;
      if there is none before the first token that is no command, everything is handed on, and
      yyparse returns. */
  ghost predicate Outcome(input: seq<int>, lexed: nat -> Lexed, exited: bool, code: nat, calls: seq<Call>, read: nat) {
    var k := Leading(input);
    && k <= |input|
    && if exited then
         && 0 < read <= k && Misplaced(input, read - 1) && (forall i: nat | i < read - 1 :: !Misplaced(input, i))
         && calls == AllFiled(input, lexed, read - 1)
       else
         && (forall i: nat | i < k :: !Misplaced(input, i)) && calls == AllFiled(input, lexed, k)
         && read == k + 1 && code == if Raw(input, k) <= 0 then 0 else 1
  }

  /** The process_* function that the action of rule t + 7 calls. */
  function KindOf(t: nat): Kind {
    match t
    case 3 => GlobalComment
    case 4 => LineComment
    case 5 => Index
    case 6 => FileName
    case 7 => TakeBits
    case _ => CmdName
  }

  /** The first n tokens as commands, each with its own value. */
  function Issued(input: seq<int>, lexed: nat -> Lexed, n: nat): (cs: seq<Command>)
    ensures |cs| == n
  {
    seq(n, i requires 0 <= i => Command(KindOf(Symbol(input, i)), lexed(i).text, lexed(i).line))
  }

  /** How many actions of tokens have run, k tokens of commands having been read. */
  function Acted(c: Config, k: nat): int { if AboutToAct(c) then k - 1 else k }

  lemma {:induction false} LeadingAtLeast(input: seq<int>, k: nat)
    requires forall i: nat | i < k :: IsCommand(Raw(input, i))
    ensures k <= Leading(input)
  {
    if k > 0 {
      assert IsCommand(Raw(input, 0));
      forall i: nat
        ensures Raw(input[1..], i) == Raw(input, i + 1)
      {
      }
      LeadingAtLeast(input[1..], k - 1);
    }
  }

  /** A step runs the action of a token exactly when it is about to, and then it is the token
      read last; the actions of rules below 10 are empty. */
  ghost predicate StepActs(env: Env, c: Config, d: Config, k: nat, k': nat) {
    && Phase(env, d, k') && Acted(d, k') == Acted(c, k) + (if AboutToAct(c) then 1 else 0)
    && (if AboutToAct(c) then
          && k == c.pos == d.pos > 0 && k <= Leading(env.input)
          && d.rules == c.rules + [Symbol(env.input, k - 1) + 7] && 3 <= Symbol(env.input, k - 1) < 9
        else
          d.rules == c.rules || (|d.rules| == |c.rules| + 1 && d.rules[|d.rules|-1] < 10))
  }

  lemma StepIs(env: Env, c: Config, k: nat) returns (k': nat)
    requires Commands().Ranges() && Quiet(env) && Phase(env, c, k)
    ensures StepActs(env, c, Next(Commands(), env, c), k, k')
  {
    hide Next, Commands, Ending, Digesting, Fired;
    LeadingAtLeast(env.input, k);
    k' := k;
    if c.lab != NewState {
      FromError(env, c, k);
    } else if |c.states| == 1 {
      FromBottom(env, c, k);
      Reduction(env, c, 0, 2);
    } else if |c.states| == 2 {
      NextCommand(env, c, k);
      if IsCommand(Raw(env.input, k)) {
        k' := k + 1;
      }
    } else if c.states[2] == 2 {
      FromFinal(env, c, k);
    } else {
      TokenActs(env, c, k);
    }
  }

  lemma TokenActs(env: Env, c: Config, k: nat)
    requires Commands().Ranges() && Quiet(env) && Phase(env, c, k) && c.lab == NewState && |c.states| == 3
      && c.states[2] != 2
    requires k <= Leading(env.input)
    ensures StepActs(env, c, Next(Commands(), env, c), k, k)
  {
    hide Next, Commands, Ending, Fired, TranslateCommand, Raw, Leading;
    var s := c.states[2];
    FromToken(env, c, k);
    Reduction(env, c, s, if s < 9 then s + 7 else if s == 9 then 3 else s - 6);
  }

  // ---------------------------------------------------------------- the stages and the token codes

  lemma {:induction false} LeadingInside(input: seq<int>)
    ensures Leading(input) <= |input|
    ensures forall i {:trigger input[i]} | 0 <= i < Leading(input) :: IsCommand(input[i])
  {
    if input != [] && IsCommand(input[0]) {
      LeadingInside(input[1..]);
      assert forall i {:trigger input[i]} | 0 < i < |input| :: input[i] == input[1..][i - 1];
    }
  }

  /** The n-th command is of the kind that its token code says, and has its text and line. */
  lemma IssuedAt(input: seq<int>, lexed: nat -> Lexed, k: nat, i: nat)
    requires i < k <= |input| && IsCommand(input[i])
    ensures var c := Issued(input, lexed, k)[i];
      && c.text == lexed(i).text && c.line == lexed(i).line
      && (c.kind == GlobalComment <==> input[i] == GLOBALCMT) && (c.kind == LineComment <==> input[i] == SGLINECMT)
      && (c.kind == Index <==> input[i] == INDEX) && (c.kind == FileName <==> input[i] == FILENAME)
      && (c.kind == TakeBits <==> input[i] == TAKEBITS) && (c.kind == CmdName <==> input[i] == CMDNAME)
  {
    hide Symbol;
    SymbolIs(input, i);
  }

  lemma SymbolIs(input: seq<int>, i: nat)
    requires i < |input| && IsCommand(input[i])
    ensures Symbol(input, i) == input[i] - 255
  {
    TranslateIs(input[i]);
  }

  ghost predicate AllCommands(input: seq<int>, k: nat) {
    k <= |input| && forall i {:trigger input[i]} | 0 <= i < k :: IsCommand(input[i])
  }

  lemma {:induction false} SameKey(input: seq<int>, lexed: nat -> Lexed, k: nat, n: nat)
    requires AllCommands(input, k) && n <= k
    ensures var cs := Issued(input, lexed, k);
      LastKeyCode(input, n) == if LastKey(cs, n) < 0 then 0 else input[LastKey(cs, n)]
  {
    hide Issued;
    if n > 0 {
      IssuedAt(input, lexed, k, n - 1);
      SameKey(input, lexed, k, n - 1);
    }
  }

  lemma {:induction false} SameNumber(input: seq<int>, lexed: nat -> Lexed, k: nat, n: nat)
    requires AllCommands(input, k) && n <= k
    ensures NamesSince(input, n) == Numbered(Issued(input, lexed, k), n)
  {
    hide Issued;
    if n > 0 {
      IssuedAt(input, lexed, k, n - 1);
      SameNumber(input, lexed, k, n - 1);
    }
  }

  lemma SameTrailing(input: seq<int>, lexed: nat -> Lexed, k: nat, n: nat)
    requires AllCommands(input, k) && n < k
    ensures BehindName(input, lexed, n) == Trailing(Issued(input, lexed, k), n)
  {
    hide Issued;
    var cs := Issued(input, lexed, k);
    forall i {:trigger cs[i]} {:trigger input[i]} | 0 <= i < k
      ensures cs[i].line == lexed(i).line && (cs[i].kind == CmdName <==> input[i] == CMDNAME)
      ensures cs[i].kind == GlobalComment <==> input[i] == GLOBALCMT
    {
      IssuedAt(input, lexed, k, i);
    }
    forall j {:trigger input[j]} {:trigger cs[j]} | 0 <= j < n
      ensures NameIsLast(input, lexed, j, n) <==> Heads(cs, j, n, cs[n].line)
    {
      assert cs[n].line == lexed(n).line;
    }
    if BehindName(input, lexed, n) {
      var j :| 0 <= j < n && NameIsLast(input, lexed, j, n);
      assert cs[j].line == cs[j].line && Heads(cs, j, n, cs[n].line);
    }
    if Trailing(cs, n) {
      var j :| 0 <= j < n && Heads(cs, j, n, cs[n].line);
      assert input[j] == input[j] && NameIsLast(input, lexed, j, n);
    }
  }

  lemma SameCall(input: seq<int>, lexed: nat -> Lexed, k: nat, n: nat)
    requires AllCommands(input, k) && n < k
    ensures Filed(input, lexed, n) == Wanted(Issued(input, lexed, k), n)
  {
    hide Issued, BehindName, Trailing, NamesSince, Numbered;
    IssuedAt(input, lexed, k, n);
    SameTrailing(input, lexed, k, n);
    SameNumber(input, lexed, k, n);
  }

  lemma {:induction false} SameCalls(input: seq<int>, lexed: nat -> Lexed, k: nat, n: nat)
    requires AllCommands(input, k) && n <= k
    ensures AllFiled(input, lexed, n) == AllWanted(Issued(input, lexed, k), n)
  {
    hide Issued, Filed, Wanted;
    if n > 0 {
      SameCall(input, lexed, k, n - 1);
      SameCalls(input, lexed, k, n - 1);
    }
  }

  lemma SameOrder(input: seq<int>, lexed: nat -> Lexed, k: nat, n: nat)
    requires AllCommands(input, k) && n <= k
    ensures InOrder(Issued(input, lexed, k), n) <==> forall i: nat | i < n :: !Misplaced(input, i)
  {
    hide Issued, LastKey, LastKeyCode;
    var cs := Issued(input, lexed, k);
    forall i: nat {:trigger cs[i]} {:trigger Misplaced(input, i)} | i < n
      ensures Misplaced(input, i) <==>
        || (cs[i].kind == TakeBits && !(LastKey(cs, i) >= 0 && cs[LastKey(cs, i)].kind == FileName))
        || (cs[i].kind == CmdName && !(LastKey(cs, i) >= 0 && cs[LastKey(cs, i)].kind == TakeBits))
    {
      IssuedAt(input, lexed, k, i);
      SameKey(input, lexed, k, i);
      if LastKey(cs, i) >= 0 {
        IssuedAt(input, lexed, k, LastKey(cs, i));
      }
    }
  }

  lemma HaltsAt(env: Env) returns (n: nat)
    requires Commands().Ranges()
    ensures Run(Commands(), env, Init(env), n).lab.Done?
  {
    hide Commands, Run;
    Halting(env);
    n :| Run(Commands(), env, Init(env), n).lab.Done?;
  }

  /** After a step: an action of a token has been run if and only if the last rule says so,
      and then its command is the next, with its own value. */
  lemma ActionIs(env: Env, lexed: nat -> Lexed, c: Config, d: Config, k: nat, k': nat)
    requires StepActs(env, c, d, k, k')
    ensures Phase(env, d, k')
    ensures var cs := Issued(env.input, lexed, Leading(env.input));
      if |d.rules| > |c.rules| && 10 <= d.rules[|d.rules|-1] < 16 then
        && 0 <= Acted(c, k) < |cs| && Acted(d, k') == Acted(c, k) + 1 && d.pos == Acted(c, k) + 1
        && cs[Acted(c, k)] == Command(KindOf(d.rules[|d.rules|-1] - 7), lexed(d.pos - 1).text, lexed(d.pos - 1).line)
      else Acted(d, k') == Acted(c, k)
  {
    hide Phase, Leading, TranslateCommand, Commands;
  }

  /** The end of a parse that has not exited. */
  lemma EndIs(env: Env, c: Config, k: nat)
    requires Phase(env, c, k) && c.lab.Done?
    ensures Acted(c, k) == k == Leading(env.input) && c.pos == k + 1
    ensures c.lab.code == if Raw(env.input, k) <= 0 then 0 else 1
  {
    LeadingIs(env.input, k);
  }

  /** A program that is at its first command out of order. */
  lemma ExitIs(input: seq<int>, lexed: nat -> Lexed, code: nat, calls: seq<Call>, n: nat)
    requires n < Leading(input)
    requires var cs := Issued(input, lexed, Leading(input));
      InOrder(cs, n) && !InOrder(cs, n + 1) && calls == AllWanted(cs, n)
    ensures Outcome(input, lexed, true, code, calls, n + 1)
  {
    hide Leading, Issued, InOrder, AllWanted, AllFiled, Misplaced;
    LeadingInside(input);
    var k := Leading(input);
    SameCalls(input, lexed, k, n);
    SameOrder(input, lexed, k, n);
    SameOrder(input, lexed, k, n + 1);
  }

  /** A program that has come to the end. */
  lemma ReturnIs(input: seq<int>, lexed: nat -> Lexed, code: nat, calls: seq<Call>)
    requires var k := Leading(input);
      var cs := Issued(input, lexed, k);
      InOrder(cs, k) && calls == AllWanted(cs, k) && code == if Raw(input, k) <= 0 then 0 else 1
    ensures Outcome(input, lexed, false, code, calls, Leading(input) + 1)
  {
    hide Leading, Issued, InOrder, AllWanted, AllFiled, Misplaced;
    LeadingInside(input);
    var k := Leading(input);
    SameCalls(input, lexed, k, k);
    SameOrder(input, lexed, k, k);
  }

  lemma AfterIs(stages: Stages, cs: seq<Command>, n: nat)
    requires n <= |cs| && stages.After(cs, n)
    ensures InOrder(cs, n) && stages.calls == AllWanted(cs, n)
  {
  }

  lemma AtStart(env: Env, lexed: nat -> Lexed, stages: Stages)
    requires Commands().Ranges() && Quiet(env)
    requires stages.stage == 1 && stages.cmdIdx == 0 && stages.treatAsSingle == 0 && stages.calls == []
    ensures Run(Commands(), env, Init(env), 0) == Init(env) && Handed(env, lexed, stages, Init(env), 0)
  {
    hide Commands, Tables.Ranges, Issued, Leading;
    NothingWanted(Issued(env.input, lexed, Leading(env.input)));
  }

  lemma NextInRun(T: Tables, env: Env, i: nat)
    requires T.Ranges()
    ensures Run(T, env, Init(env), i + 1) == Next(T, env, Run(T, env, Init(env), i))
  {
    hide Next;
  }

  /** In configuration c, with k tokens of commands read, the commands whose actions have run
      are in order and have been handed on. */
  ghost predicate Handed(env: Env, lexed: nat -> Lexed, stages: Stages, c: Config, k: nat)
    reads stages
  {
    && Phase(env, c, k) && 0 <= Acted(c, k) <= Leading(env.input)
    && stages.After(Issued(env.input, lexed, Leading(env.input)), Acted(c, k))
  }

  /** The switch of yyreduce: the action of rule `rule`, which a step from c to d reduces. */
  method RunAction(ghost env: Env, ghost lexed: nat -> Lexed, stages: Stages, ghost c: Config, ghost d: Config,
                   ghost k: nat, ghost k': nat, rule: nat, yylval: Lexed)
    returns (exited: bool)
    requires Handed(env, lexed, stages, c, k) && StepActs(env, c, d, k, k')
    requires |d.rules| > |c.rules| && rule == d.rules[|d.rules|-1] >= 10
    requires d.pos > 0 && yylval == lexed(d.pos - 1) && yylval.line > 0
    modifies stages
    ensures exited ==> Outcome(env.input, lexed, true, 0, stages.calls, d.pos)
    ensures !exited ==>
      && Handed(env, lexed, stages, d, k')
      && d.pos <= |env.input| && stages.calls == AllFiled(env.input, lexed, d.pos)
      && forall i: nat | i < d.pos :: !Misplaced(env.input, i)
  {
    hide Phase, StepActs, Acted, Leading, Issued, InOrder, AllWanted, LastKey, Numbered, Treats, Outcome, Stages.After,
      AllFiled, Misplaced;
    ActionIs(env, lexed, c, d, k, k');
    exited := false;
    RuleOfToken(env, c, d, k, k');
    if 10 <= rule < 16 {
      ghost var cs, n := Issued(env.input, lexed, Leading(env.input)), Acted(c, k);
      AfterIs(stages, cs, n);
      exited := stages.Process(cs, n, Command(KindOf(rule - 7), yylval.text, yylval.line));
      if exited {
        ExitIs(env.input, lexed, 0, stages.calls, n);
      } else {
        GoesOn(env.input, lexed, stages, n + 1);
      }
    }
  }

  /** After the first n commands. */
  lemma GoesOn(input: seq<int>, lexed: nat -> Lexed, stages: Stages, n: nat)
    requires n <= Leading(input) && stages.After(Issued(input, lexed, Leading(input)), n)
    ensures n <= |input| && stages.calls == AllFiled(input, lexed, n) && forall i: nat | i < n :: !Misplaced(input, i)
  {
    hide Leading, Issued, InOrder, AllWanted, AllFiled, Misplaced, LastKey, Numbered, Treats;
    LeadingInside(input);
    SameCalls(input, lexed, Leading(input), n);
    SameOrder(input, lexed, Leading(input), n);
  }

  /** No action runs before the first token has been read, but for the empty one of rule 2. */
  lemma ReadBefore(env: Env, c: Config, d: Config, k: nat, k': nat)
    requires StepActs(env, c, d, k, k')
    ensures |d.rules| > |c.rules| && 10 <= d.rules[|d.rules|-1] ==> d.pos > 0
  {
    hide Phase, Acted, Leading;
  }

  lemma RuleOfToken(env: Env, c: Config, d: Config, k: nat, k': nat)
    requires StepActs(env, c, d, k, k') && |d.rules| > |c.rules| && d.rules[|d.rules|-1] >= 10
    ensures d.rules[|d.rules|-1] < 16
  {
    hide Phase, Acted, Leading, Symbol;
  }

  lemma NothingRan(env: Env, lexed: nat -> Lexed, stages: Stages, c: Config, d: Config, k: nat, k': nat)
    requires Handed(env, lexed, stages, c, k) && StepActs(env, c, d, k, k')
    requires |d.rules| <= |c.rules| || d.rules[|d.rules|-1] < 10
    ensures Handed(env, lexed, stages, d, k')
  {
    hide Phase, Acted, Leading, Issued, StepActs, Stages.After;
    ActionIs(env, lexed, c, d, k, k');
  }

  lemma HandedIs(env: Env, lexed: nat -> Lexed, stages: Stages, c: Config, k: nat)
    requires Handed(env, lexed, stages, c, k)
    ensures Phase(env, c, k)
    ensures c.lab.Done? ==> Outcome(env.input, lexed, false, c.lab.code, stages.calls, c.pos)
  {
    hide Phase, Acted, Leading, Issued, InOrder, AllWanted, Outcome, Stages.After;
    if c.lab.Done? {
      EndIs(env, c, k);
      AfterIs(stages, Issued(env.input, lexed, Leading(env.input)), k);
      ReturnIs(env.input, lexed, c.lab.code, stages.calls);
    }
  }

  /** What a step from c to d means to the stages; it reduces `rule`, or nothing if that is 0. */
  method FollowStep(ghost env: Env, ghost lexed: nat -> Lexed, stages: Stages, ghost c: Config, ghost d: Config,
                    ghost k: nat, rule: nat, yylval: Lexed)
    returns (exited: bool, ghost k': nat)
    requires Commands().Ranges() && Quiet(env) && Handed(env, lexed, stages, c, k) && d == Next(Commands(), env, c)
    requires if |d.rules| > |c.rules| then rule == d.rules[|d.rules|-1] else rule == 0
    requires d.pos > 0 ==> yylval == lexed(d.pos - 1) && yylval.line > 0
    modifies stages
    ensures if exited then Outcome(env.input, lexed, true, 0, stages.calls, d.pos)
            else Handed(env, lexed, stages, d, k')
  {
    hide Commands, Next, Quiet, StepActs, Handed, Outcome, Tables.Ranges;
    HandedIs(env, lexed, stages, c, k);
    k' := StepIs(env, c, k);
    exited := false;
    if rule >= 10 {
      ReadBefore(env, c, d, k, k');
      exited := RunAction(env, lexed, stages, c, d, k, k', rule, yylval);
    } else {
      NothingRan(env, lexed, stages, c, d, k, k');
    }
  }

  lemma AtIs(p: LalrParser.Parser, l: Label)
    requires p.Valid()
    ensures p.At(l).lab == l && p.At(l).rules == p.rules && p.At(l).pos == p.tokensRead
  {
  }

  /** One visit of a label, with the action of the rule that it reduces. */
  method Turn(p: LalrParser.Parser, l: Label, lexed: nat -> Lexed, stages: Stages, yylval: Lexed, ghost k: nat)
    returns (l': Label, yylval': Lexed, exited: bool, ghost k': nat)
    requires p.T == Commands() && p.T.Ranges() && ValidTables(p.T) && Quiet(p.env) && p.Valid() && p.Room(l)
    requires (p.yylen > 0 ==> l.Return?) && Shape(p.T, p.At(l)) && Handed(p.env, lexed, stages, p.At(l), k)
    requires p.tokensRead > 0 ==> yylval == lexed(p.tokensRead - 1)
    requires forall i: nat :: lexed(i).line > 0
    modifies p, p.yyss, p.yyvs, stages
    ensures p.Valid() && p.Room(l') && (p.yylen > 0 ==> l'.Return?)
    ensures (p.yyss == old(p.yyss) || fresh(p.yyss)) && (p.yyvs == old(p.yyvs) || fresh(p.yyvs))
    ensures p.At(l') == Next(p.T, p.env, old(p.At(l)))
    ensures p.tokensRead > 0 ==> yylval' == lexed(p.tokensRead - 1)
    ensures if exited then Outcome(p.env.input, lexed, true, 0, stages.calls, p.tokensRead)
            else Handed(p.env, lexed, stages, p.At(l'), k')
  {
    hide Commands, Next, ValidTables, Quiet, StepActs, Handed, Outcome, Shape, Tables.Ranges, LalrParser.Parser.At,
      LalrParser.Parser.Valid, LalrParser.Parser.Room;
    ghost var c := p.At(l);
    var fired := |p.rules|;
    AtIs(p, l);
    l' := p.Visit(l);
    AtIs(p, l');
    yylval' := if p.tokensRead > 0 then lexed(p.tokensRead - 1) else yylval;
    var rule := if |p.rules| > fired then p.rules[|p.rules|-1] else 0;
    exited, k' := FollowStep(p.env, lexed, stages, c, p.At(l'), k, rule, yylval');
  }

  /** yyparse on the tables of the command parser, with its actions; `lexed(i)` is what the
      scanner leaves with the i-th token. */
  method RunProgram(p: LalrParser.Parser, lexed: nat -> Lexed, stages: Stages) returns (exited: bool, code: nat)
    requires p.T == Commands() && Quiet(p.env) && p.Valid() && p.yylen == 0 && p.At(NewState) == Init(p.env)
    requires stages.stage == 1 && stages.cmdIdx == 0 && stages.treatAsSingle == 0 && stages.calls == []
    requires forall i: nat :: lexed(i).line > 0
    modifies p, p.yyss, p.yyvs, stages
    ensures Outcome(p.env.input, lexed, exited, code, stages.calls, p.tokensRead)
  {
    hide Commands, Run, Next, ValidTables, Quiet, Handed, Outcome, Shape, Tables.Ranges, LalrParser.Parser.At;
    Ranges();
    Valid();
    ghost var bound: nat := HaltsAt(p.env);
    var l := NewState;
    var yylval := Lexed("", 1);
    ghost var i: nat, k: nat := 0, 0;
    AtIs(p, l);
    AtStart(p.env, lexed, stages);
    while !l.Done?
      invariant p.Valid() && p.Room(l) && i <= bound && (p.yylen > 0 ==> l.Return?)
      invariant p.At(l) == Run(p.T, p.env, Init(p.env), i) && Handed(p.env, lexed, stages, p.At(l), k)
      invariant (p.yyss == old(p.yyss) || fresh(p.yyss)) && (p.yyvs == old(p.yyvs) || fresh(p.yyvs))
      invariant p.tokensRead > 0 ==> yylval == lexed(p.tokensRead - 1)
      decreases bound - i
    {
      NeverCrashes(p.T, p.env, i);
      NextInRun(p.T, p.env, i);
      AtIs(p, l);
      l, yylval, exited, k := Turn(p, l, lexed, stages, yylval, k);
      if exited {
        code := 0;
        return;
      }
      i := i + 1;
    }
    exited, code := false, l.code;
    AtIs(p, l);
    HandedIs(p.env, lexed, stages, p.At(l), k);
  }
}
