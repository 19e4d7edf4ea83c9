/** The LALR(1) driver as a state machine: one step per visit of the labels of yyparse
    that another label can jump to.  The imperative parser in LalrParser refines it. */
module Lalr {
  import opened LrTables
  import opened ParseTrees

  /** How a user action ends, and whether it executed yyerrok on the way. */
  datatype Outcome = Normal | YyError | YyAbort | YyAccept
  datatype ActionResult = ActionResult(outcome: Outcome, errok: bool)

  /** Everything the parser cannot choose: the scanner's answers, the result of the n-th
      semantic action, and the depths YYINITDEPTH and YYMAXDEPTH. */
  datatype Env = Env(input: seq<int>, act: nat -> ActionResult, initDepth: nat, maxDepth: nat)
  {
    /** The n-th action neither resets the error status nor raises an error itself. */
    predicate Plain(n: nat) { !act(n).errok && act(n).outcome != YyError }
  }

  datatype Label =
    | NewState              // yysetstate, with the state pushed
    | ErrLab                // yyerrlab
    | ErrLab1               // the popping loop of yyerrlab1
    | Return(code: nat)     // yyreturn, before the cleanup
    | Done(code: nat)       // yyparse has returned
    | Crash                 // a table or the stack was accessed outside its bounds

  /** yychar after YYEOF normalisation, with yylval: that of the idx-th token. */
  datatype Token = Token(raw: int, idx: nat)

  /** `look` is None for YYEMPTY.  The last five fields are history. */
  datatype Config = Config(
    lab: Label, states: seq<nat>, vals: seq<Tree>, cap: nat,
    look: Option<Token>, pos: nat, errstatus: nat, nerrs: nat, nred: nat,
    shifted: nat, rules: seq<nat>, recovered: bool,
    created: seq<Owner>, released: seq<Owner>)
  {
    function Top(): nat requires states != [] { states[|states|-1] }

    /** The driver can look its top state up and has one value per pushed state. */
    predicate Sane(T: Tables) {
      states != [] && Top() < T.States() && |vals| == |states| - 1
    }
  }

  function Init(env: Env): Config {
    Config(NewState, [0], [], env.initDepth, None, 0, 0, 0, 0, 0, [], false, [], [])
  }

  // ---------------------------------------------------------------- yysetstate .. yyreduce

  /** YYSTACK_RELOCATE: double the stacks, up to YYMAXDEPTH. */
  function Grown(env: Env, cap: nat): nat {
    if env.maxDepth < 2 * cap then env.maxDepth else 2 * cap
  }

  /** What YYLEX answers next. */
  function Scanned(env: Env, c: Config): Token {
    var raw := Raw(env.input, c.pos);
    Token(if raw <= 0 then 0 else raw, c.pos)
  }

  function ReadToken(env: Env, c: Config): Config {
    if c.look.Some? then c
    else c.(look := Some(Scanned(env, c)), pos := c.pos + 1, created := c.created + [TokVal(c.pos)])
  }

  /** The token the next action is chosen by: the lookahead, or what the scanner is
      about to answer. */
  function Current(env: Env, c: Config): Token {
    if c.look.Some? then c.look.value else Scanned(env, c)
  }

  function DoShift(T: Tables, c: Config, t: nat): Config
    requires c.look.Some?
  {
    c.(lab := NewState, states := c.states + [t],
       vals := c.vals + [Leaf(Translate(T, c.look.value.raw), c.look.value.idx)],
       look := None, errstatus := if c.errstatus > 0 then c.errstatus - 1 else 0,
       shifted := c.shifted + 1)
  }

  /** Rule r has something to pop and a state to go to on this stack. */
  predicate CanReduce(T: Tables, states: seq<nat>, r: nat)
    requires T.Ranges()
  {
    && 0 < r < T.Rules()
    && T.r2[r] < |states|
    && Goto(T, states[|states| - T.r2[r] - 1], T.r1[r]) >= 0
  }

  function DoReduce(T: Tables, env: Env, c: Config, r: nat): Config
    requires T.Ranges() && |c.vals| == |c.states| - 1
  {
    if !CanReduce(T, c.states, r) then c.(lab := Crash) else
      var n := T.r2[r];
      var res := env.act(c.nred);
      var kids := c.vals[|c.vals|-n..];
      var popped := c.(states := c.states[..|c.states|-n], vals := c.vals[..|c.vals|-n],
                       nred := c.nred + 1, released := c.released + Held(kids),
                       errstatus := if res.errok then 0 else c.errstatus);
      match res.outcome
      case YyAbort => popped.(lab := Return(1))
      case YyAccept => popped.(lab := Return(0))
      case YyError => popped.(lab := ErrLab1, errstatus := 3, recovered := true)
      case Normal =>
        popped.(lab := NewState, states := popped.states + [Goto(T, popped.Top(), T.r1[r])],
                vals := popped.vals + [Node(r, kids, c.nred)], rules := c.rules + [r],
                created := popped.created + [RedVal(c.nred)])
  }

  /** The action yybackup and yydefault choose. */
  function Chosen(T: Tables, env: Env, c: Config): Action
    requires T.Ranges() && c.Sane(T)
  {
    Act(T, c.Top(), Translate(T, Current(env, c).raw))
  }

  /** yybackup: a defaulted state acts without reading a token. */
  function Backup(T: Tables, env: Env, c: Config): Config
    requires T.Ranges() && c.Sane(T)
  {
    var d := if Defaulted(T, c.Top()) then c else ReadToken(env, c);
    match Chosen(T, env, c)
    case Shift(t) => if d.look.Some? then DoShift(T, d, t) else assert false; d
    case Reduce(r) => DoReduce(T, env, d, r)
    case Error => d.(lab := ErrLab)
  }

  /** yysetstate: grow the stacks when the last slot is taken, then accept or go on. */
  function EnterState(T: Tables, env: Env, c: Config): Config
    requires T.Ranges() && c.Sane(T)
  {
    if c.cap <= |c.states| && env.maxDepth <= c.cap then c.(lab := Return(2))
    else
      var d := if c.cap <= |c.states| then c.(cap := Grown(env, c.cap)) else c;
      if d.cap <= |d.states| then d.(lab := Return(1))
      else if d.Top() == T.final then d.(lab := Return(0))
      else Backup(T, env, d)
  }

  // ---------------------------------------------------------------- error recovery

  function ReportError(c: Config): Config {
    var d := c.(nerrs := if c.errstatus == 0 then c.nerrs + 1 else c.nerrs);
    if c.errstatus == 3 && c.look.Some? && c.look.value.raw == 0 then d.(lab := Return(1))
    else
      var e := if c.errstatus == 3 && c.look.Some?
               then d.(look := None, released := d.released + [TokVal(c.look.value.idx)]) else d;
      e.(lab := ErrLab1, errstatus := 3, recovered := true)
  }

  /** The state that shifting `error` leads to, if s can shift it. */
  function ErrorShift(T: Tables, s: nat): Option<nat>
    requires T.Ranges() && s < T.States()
  {
    match Entry(T, s, TERROR)
    case Some(v) => if v > 0 then Some(v) else None
    case None => None
  }

  function PopForError(T: Tables, c: Config): Config
    requires T.Ranges() && c.Sane(T)
  {
    match ErrorShift(T, c.Top())
    case Some(t) => c.(lab := NewState, states := c.states + [t], vals := c.vals + [ErrLeaf])
    case None =>
      var n := |c.vals|;
      if n == 0 then c.(lab := Return(1))
      else c.(states := c.states[..n], vals := c.vals[..n-1],
              released := c.released + Owners(c.vals[n-1]))
  }

  /** yyreturn: destroy the lookahead and whatever is left on the stack. */
  function Cleanup(c: Config, code: nat): Config
    requires c.states != []
  {
    c.(lab := Done(code), states := c.states[..1], vals := [], look := None,
       released := c.released
                   + (if c.look.Some? then [TokVal(c.look.value.idx)] else [])
                   + Popped(c.vals))
  }

  function Next(T: Tables, env: Env, c: Config): Config
    requires T.Ranges()
  {
    if !c.Sane(T) then c.(lab := Crash) else
    match c.lab
    case NewState => EnterState(T, env, c)
    case ErrLab => ReportError(c)
    case ErrLab1 => PopForError(T, c)
    case Return(code) => Cleanup(c, code)
    case Done(_) => c
    case Crash => c
  }

  /** n steps from c. */
  function Run(T: Tables, env: Env, c: Config, n: nat): Config
    requires T.Ranges()
  {
    if n == 0 then c else Next(T, env, Run(T, env, c, n - 1))
  }
}
