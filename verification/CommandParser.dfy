/** The LALR driver on the tables of the command parser: what it accepts, what it does on
    the way, and that it never needs more than three states. */
module CommandParser {
  import opened LrTables
  import opened ParseTrees
  import opened Lalr
  import opened LalrTermination
  import opened CommandTables
  import LalrParser

  predicate IsCommand(raw: int) { 258 <= raw <= 263 }

  /** No action ends the parse or raises an error; the depths are those of the file. */
  ghost predicate Quiet(env: Env) {
    env.initDepth == 200 && env.maxDepth == 10000 && forall n :: env.act(n) == ActionResult(Normal, false)
  }

  function Symbol(input: seq<int>, k: nat): nat { Translate(Commands(), Raw(input, k)) }

  /** The rules that the first k commands are reduced by, in order: for each the action of
      its token, then its nonterminal to a command, then one more command. */
  function Fired(input: seq<int>, k: nat): seq<nat> {
    if k == 0 then [2]
    else Fired(input, k - 1) + [Symbol(input, k - 1) + 7] + [Symbol(input, k - 1) + 1] + [3]
  }

  /** How many commands the input starts with. */
  function Leading(input: seq<int>): nat {
    if input != [] && IsCommand(input[0]) then 1 + Leading(input[1..]) else 0
  }

  lemma {:induction false} LeadingIs(input: seq<int>, k: nat)
    requires (forall i: nat | i < k :: IsCommand(Raw(input, i))) && !IsCommand(Raw(input, k))
    ensures Leading(input) == k
  {
    if k > 0 {
      assert IsCommand(Raw(input, 0));
      forall i: nat
        ensures Raw(input[1..], i) == Raw(input, i + 1)
      {
      }
      LeadingIs(input[1..], k - 1);
    }
  }

  // ---------------------------------------------------------------- the phases of a run

  /** Between two actions of the driver, with k commands read. */
  ghost predicate Working(env: Env, c: Config, k: nat) {
    && c.look == None && c.errstatus == 0 && c.nerrs == 0 && c.pos <= k + 1
    && (c.pos == k || (|c.states| == 3 && c.states[2] == 2))
    && (|c.states| == 1 ==> c.states == [0] && k == 0 && c.rules == [])
    && (|c.states| == 2 ==> c.states == [0, 1] && c.rules == Fired(env.input, k))
    && (|c.states| == 3 ==> c.states == [0, 1, c.states[2]] && Digesting(env, c, k))
    && |c.states| <= 3
  }

  /** The last token on its way to becoming a command. */
  ghost predicate Digesting(env: Env, c: Config, k: nat)
    requires |c.states| == 3
  {
    var s := c.states[2];
    if s == 2 then c.pos == k + 1 && Raw(env.input, k) <= 0 && c.rules == Fired(env.input, k)
    else
      && k > 0 && |c.vals| == 2
      && var t := Symbol(env.input, k - 1);
         var f := Fired(env.input, k - 1);
      && 3 <= t < 9
      && ((s == t && c.vals[1] == Leaf(t, k - 1) && c.rules == f)
          || (s == t + 7 && c.rules == f + [t + 7])
          || (s == 9 && c.rules == f + [t + 7] + [t + 1]))
  }

  /** k commands, then something else: the end, or a token that is no command. */
  ghost predicate Ending(env: Env, c: Config, k: nat, code: nat) {
    && c.pos == k + 1 && c.rules == Fired(env.input, k) && !IsCommand(Raw(env.input, k))
    && code == (if Raw(env.input, k) <= 0 then 0 else 1)
  }

  ghost predicate Phase(env: Env, c: Config, k: nat) {
    && |c.states| == |c.vals| + 1 && c.cap == 200 && (forall i: nat | i < k :: IsCommand(Raw(env.input, i)))
    && match c.lab
       case NewState => Working(env, c, k)
       case ErrLab => Ending(env, c, k, 1) && c.states == [0, 1] && c.errstatus == 0 && c.nerrs == 0
       case ErrLab1 => Ending(env, c, k, 1) && (c.states == [0, 1] || c.states == [0]) && c.nerrs == 1
       case Return(code) => Ending(env, c, k, code) && (c.states == [0] || c.states == [0, 1, 2]) && c.nerrs == code
       case Done(code) => Ending(env, c, k, code) && c.states == [0] && c.nerrs == code
       case Crash => false
  }

  lemma SymbolOf(input: seq<int>, k: nat)
    ensures Symbol(input, k) == Translate(Commands(), Raw(input, k)) < 9
    ensures IsCommand(Raw(input, k)) ==> 3 <= Symbol(input, k)
    ensures Symbol(input, k) == 0 <==> Raw(input, k) <= 0
    ensures Symbol(input, k) < 3 ==> !IsCommand(Raw(input, k))
    ensures !IsCommand(Raw(input, k)) ==> Symbol(input, k) < 3
  {
  }

  // ---------------------------------------------------------------- the steps

  /** A reduction by the rule that the state on top stands for. */
  lemma Reduction(env: Env, c: Config, s: nat, r: nat)
    requires Commands().Ranges() && Quiet(env) && c.lab == NewState && c.cap == 200
    requires 0 < |c.states| <= 3 && |c.states| == |c.vals| + 1 && c.states[|c.states|-1] == s < 16 && s != 1 && s != 2
    requires r == (if s == 0 then 2 else if s < 9 then s + 7 else if s == 9 then 3 else s - 6)
    requires s == 0 ==> |c.states| == 1
    requires s != 0 ==> |c.states| == 3 && c.states[0] == 0 && c.states[1] == 1
    ensures var d := Next(Commands(), env, c);
      && d.lab == NewState && d.cap == 200 && |d.states| == |d.vals| + 1
      && d.states == (if s == 0 || s == 9 then [0, 1] else [0, 1, if s < 9 then s + 7 else 9])
      && d.rules == c.rules + [r] && d.look == c.look && d.pos == c.pos
      && d.errstatus == c.errstatus && d.nerrs == c.nerrs && (s != 0 && s != 9 ==> |d.vals| == 2)
  {
    hide Commands, Act, Goto, Held, TranslateCommand, Tables.Ranges, Current, Defaulted, Cleanup, ReadToken, Translate,
      PopForError, ReportError, DoShift, ErrorShift;
    Ranges();
    var T := Commands();
    var x := Translate(T, Current(env, c).raw);
    RangeOfSymbol(Current(env, c).raw);
    Actions(s, x);
    RuleShapes(r);
    var n := T.r2[r];
    assert Next(T, env, c) == Backup(T, env, c) == DoReduce(T, env, c, r);
    var q := c.states[..|c.states| - n];
    assert q == if s == 0 || s == 9 then [0] else [0, 1];
    Gotos(q[|q|-1], T.r1[r]);
  }

  lemma RangeOfSymbol(raw: int)
    ensures Translate(Commands(), raw) < 9
  {
  }

  /** The state after `commands`, which looks at the next token. */
  lemma NextCommand(env: Env, c: Config, k: nat)
    requires Commands().Ranges() && Quiet(env) && Phase(env, c, k) && c.lab == NewState && c.states == [0, 1]
    ensures var d := Next(Commands(), env, c);
      && d.rules == c.rules
      && if IsCommand(Raw(env.input, k)) then Phase(env, d, k + 1) && |d.states| == 3 && AboutToAct(d)
         else Phase(env, d, k) && !AboutToAct(d)
  {
    hide Commands, Act, Goto, Held, TranslateCommand, Fired;
    Ranges();
    var T := Commands();
    var x := Translate(T, Current(env, c).raw);
    SymbolOf(env.input, k);
    assert x == Symbol(env.input, k);
    Actions(1, x);
    var d := ReadToken(env, c);
    assert Next(T, env, c) == Backup(T, env, c);
    if 3 <= x {
      assert Backup(T, env, c) == DoShift(T, d, x);
      assert DoShift(T, d, x).states == [0, 1, x];
    } else if x == 0 {
      assert Backup(T, env, c) == DoShift(T, d, 2);
      assert DoShift(T, d, 2).states == [0, 1, 2];
    } else {
      assert Backup(T, env, c) == d.(lab := ErrLab);
    }
  }

  /** The bottom: no command yet. */
  lemma FromBottom(env: Env, c: Config, k: nat)
    requires Commands().Ranges() && Quiet(env) && Phase(env, c, k) && c.lab == NewState && |c.states| == 1
    ensures Phase(env, Next(Commands(), env, c), k)
  {
    hide Next, Commands;
    Reduction(env, c, 0, 2);
  }

  /** The token becomes a command, and that one more of the commands. */
  lemma FromToken(env: Env, c: Config, k: nat)
    requires Commands().Ranges() && Quiet(env) && Phase(env, c, k) && c.lab == NewState && |c.states| == 3
      && c.states[2] != 2
    ensures Phase(env, Next(Commands(), env, c), k)
  {
    hide Next, Commands, TranslateCommand;
    var s := c.states[2];
    var t := Symbol(env.input, k - 1);
    Reduction(env, c, s, if s < 9 then s + 7 else if s == 9 then 3 else s - 6);
    var f := Fired(env.input, k - 1);
    assert Fired(env.input, k) == f + [t + 7] + [t + 1] + [3];
  }

  /** The end of input has been shifted. */
  lemma FromFinal(env: Env, c: Config, k: nat)
    requires Commands().Ranges() && Quiet(env) && Phase(env, c, k) && c.lab == NewState && |c.states| == 3
      && c.states[2] == 2
    ensures var d := Next(Commands(), env, c); Phase(env, d, k) && d.rules == c.rules && d.lab != NewState
  {
    hide Commands, Fired, Held;
    Ranges();
  }

  /** The token is no command: one error, and nothing on the stack can shift `error`. */
  lemma FromError(env: Env, c: Config, k: nat)
    requires Commands().Ranges() && Quiet(env) && Phase(env, c, k) && c.lab != NewState
    ensures var d := Next(Commands(), env, c); Phase(env, d, k) && d.rules == c.rules && d.lab != NewState
  {
    hide Commands, Fired, Held, Act, Goto, ErrorShift;
    Ranges();
    Actions(0, 0);
    Actions(1, 0);
    var d := Next(Commands(), env, c);
    if c.lab == ErrLab {
      assert d == ReportError(c);
      assert Phase(env, d, k);
    } else if c.lab == ErrLab1 {
      assert d == PopForError(Commands(), c);
      assert c.states == [0, 1] ==> c.states[..1] == [0];
      assert Phase(env, d, k);
    } else if c.lab.Return? {
      assert d == Cleanup(c, c.lab.code);
      assert Phase(env, d, k);
    }
  }

  lemma PhaseNext(env: Env, c: Config, k: nat) returns (k': nat)
    requires Commands().Ranges() && Quiet(env) && Phase(env, c, k)
    ensures Phase(env, Next(Commands(), env, c), k')
  {
    hide Next, Commands, Ending, Digesting;
    k' := k;
    if c.lab == NewState {
      if |c.states| == 1 {
        FromBottom(env, c, k);
      } else if |c.states| == 2 {
        NextCommand(env, c, k);
        if IsCommand(Raw(env.input, k)) {
          k' := k + 1;
        }
      } else if c.states[2] == 2 {
        FromFinal(env, c, k);
      } else {
        FromToken(env, c, k);
      }
    } else {
      FromError(env, c, k);
    }
  }

  lemma {:induction false} PhaseRun(env: Env, n: nat) returns (k: nat)
    requires Commands().Ranges() && Quiet(env)
    ensures Phase(env, Run(Commands(), env, Init(env), n), k) && Run(Commands(), env, Init(env), n).states != []
  {
    hide Next, Commands, Digesting;
    if n == 0 {
      k := 0;
    } else {
      k := PhaseRun(env, n - 1);
      k := PhaseNext(env, Run(Commands(), env, Init(env), n - 1), k);
    }
  }

  // ---------------------------------------------------------------- what it comes to

  /** Every run of the command parser ends, whatever its actions do. */
  lemma Halting(env: Env)
    ensures Commands().Ranges() && Halts(Commands(), env)
  {
    hide Commands, NoInfiniteReductions, NoDefaultedError, NoErrorShift, ValidTables, Halts;
    Ranges();
    Valid();
    NoEndlessReductions();
    NoRecovery();
    HaltsWithoutErrorToken(Commands(), env);
  }

  /** The parser returns 0 exactly when nothing but commands come before the end of input;
      otherwise it reports one error, at the first token that is none, and returns 1.  It
      has read that far and no further, and has run the actions of the commands before it,
      once each and in order. */
  lemma CommandsThenEnd(env: Env, n: nat)
    requires Quiet(env) && Commands().Ranges() && Run(Commands(), env, Init(env), n).lab.Done?
    ensures var c, k := Run(Commands(), env, Init(env), n), Leading(env.input);
      && c.lab == Done(if Raw(env.input, k) <= 0 then 0 else 1) && c.nerrs == c.lab.code
      && c.pos == k + 1 && c.rules == Fired(env.input, k)
  {
    hide Commands, Run, Fired;
    var k := PhaseRun(env, n);
    LeadingIs(env.input, k);
  }

  /** Never more than three states, so the stacks are never extended. */
  lemma NeverDeep(env: Env, n: nat)
    requires Quiet(env) && Commands().Ranges()
    ensures var c := Run(Commands(), env, Init(env), n); |c.states| <= 3 && c.cap == 200 && c.lab != Crash
  {
    hide Commands, Run, Fired, Digesting;
    var k := PhaseRun(env, n);
  }

  lemma Digested(env: Env, c: Config, k: nat)
    requires Phase(env, c, k) && c.lab == NewState && c.states != [] && 3 <= c.states[|c.states|-1] < 9
    ensures |c.states| == 3 && c.states[0] == 0 && c.states[1] == 1 && k == c.pos > 0
    ensures |c.vals| == 2 && c.vals[1] == Leaf(c.states[2], c.pos - 1) && c.cap == 200
  {
    hide Commands, Fired, Raw;
  }

  /** In configuration c the driver is about to run the action of the token on top. */
  predicate AboutToAct(c: Config) {
    c.lab == NewState && c.states != [] && c.vals != [] && 3 <= c.states[|c.states|-1] < 9
  }

  /** It is the token read last, and running its action does not read another. */
  ghost predicate ActsOnItsOwn(env: Env, c: Config)
    requires Commands().Ranges() && AboutToAct(c)
  {
    && c.pos > 0 && c.vals[|c.vals|-1] == Leaf(c.states[|c.states|-1], c.pos - 1)
    && Next(Commands(), env, c).rules == c.rules + [c.states[|c.states|-1] + 7]
    && Next(Commands(), env, c).pos == c.pos
  }

  lemma ActsInPhase(env: Env, c: Config, k: nat)
    requires Quiet(env) && Commands().Ranges() && Phase(env, c, k) && AboutToAct(c)
    ensures ActsOnItsOwn(env, c)
  {
    hide Commands, Next, Fired, TranslateCommand, Translate, Raw, Phase;
    Digested(env, c, k);
    Reduction(env, c, c.states[2], c.states[2] + 7);
  }

  /** The action of a token runs before the next token is read: yylval is still its own. */
  lemma OwnValue(env: Env, n: nat)
    requires Quiet(env) && Commands().Ranges()
    ensures var c := Run(Commands(), env, Init(env), n); AboutToAct(c) ==> ActsOnItsOwn(env, c)
  {
    hide Commands, Run, ActsOnItsOwn, Phase, Quiet;
    var k := PhaseRun(env, n);
    var c := Run(Commands(), env, Init(env), n);
    if AboutToAct(c) {
      ActsInPhase(env, c, k);
    }
  }

  /** The driver itself, run on these tables. */
  method ParseCommands(p: LalrParser.Parser) returns (code: nat)
    requires p.T == Commands() && Quiet(p.env) && p.Valid() && p.yylen == 0 && p.At(NewState) == Init(p.env)
    modifies p, p.yyss, p.yyvs
    ensures var k := Leading(p.env.input);
      && code == (if Raw(p.env.input, k) <= 0 then 0 else 1) && p.yynerrs == code
      && p.tokensRead == k + 1 && p.rules == Fired(p.env.input, k)
  {
    hide Commands, Run, Fired, ValidTables, Halts;
    Halting(p.env);
    Valid();
    code := p.YyParse();
    ghost var n :| Run(p.T, p.env, Init(p.env), n).lab == Done(code)
      && Run(p.T, p.env, Init(p.env), n) == p.At(Done(code));
    CommandsThenEnd(p.env, n);
  }
}
