/** When a parse ends: exactly when only finitely many of its actions execute yyerrok or
    YYERROR.  With either of them in an unlucky place the driver loops for ever. */
module LalrTermination {
  import opened LrTables
  import opened ParseTrees
  import opened Lalr
  import opened LalrSoundness
  import opened LalrOwnership

  // ---------------------------------------------------------------- runs of reductions

  /** With next token x the driver reduces on this stack. */
  predicate Reduces(T: Tables, states: seq<nat>, x: nat)
    requires T.Ranges()
  {
    && states != []
    && states[|states|-1] < T.States()
    && states[|states|-1] != T.final
    && Act(T, states[|states|-1], x).Reduce?
    && CanReduce(T, states, Act(T, states[|states|-1], x).rule)
  }

  function Reduced(T: Tables, states: seq<nat>, x: nat): seq<nat>
    requires T.Ranges() && Reduces(T, states, x)
  {
    var r := Act(T, states[|states|-1], x).rule;
    var q := states[..|states| - T.r2[r]];
    q + [Goto(T, q[|q|-1], T.r1[r])]
  }

  /** The state stack after the first n reductions that x asks for. */
  function ReduceN(T: Tables, states: seq<nat>, x: nat, n: nat): seq<nat>
    requires T.Ranges()
    decreases n
  {
    if n == 0 || !Reduces(T, states, x) then states
    else ReduceN(T, Reduced(T, states, x), x, n - 1)
  }

  /** After n reductions the driver does something else. */
  predicate Settles(T: Tables, states: seq<nat>, x: nat, n: nat)
    requires T.Ranges()
  {
    !Reduces(T, ReduceN(T, states, x, n), x)
  }

  ghost predicate Ends(T: Tables, states: seq<nat>, x: nat)
    requires T.Ranges()
  {
    exists n: nat :: Settles(T, states, x, n)
  }

  /** No infinite run of reductions on one lookahead. */
  ghost predicate NoInfiniteReductions(T: Tables)
    requires T.Ranges()
  {
    forall states, x: nat | Stack(T, states) && x < T.ntokens :: Ends(T, states, x)
  }

  /** No state reports an error without having seen a token. */
  ghost predicate NoDefaultedError(T: Tables)
    requires T.Ranges()
  {
    forall s: nat {:trigger T.defact[s]} | s < T.States() && s != T.final && Defaulted(T, s) :: T.defact[s] != 0
  }

  // ---------------------------------------------------------------- the variant

  function Max0(x: int): nat { if x < 0 then 0 else x }

  function TokensLeft(env: Env, c: Config): int {
    |env.input| + 1 - c.pos + if c.look.Some? then 1 else 0
  }

  function ErrMode(c: Config): nat { if c.errstatus == 3 then 0 else 1 }

  function Rank(l: Label): nat {
    match l
    case Return(_) => 0
    case ErrLab => 1
    case NewState => 2
    case ErrLab1 => 3
    case Done(_) => 0
    case Crash => 0
  }

  /** The scanner is not asked again after it has answered end of file. */
  ghost predicate EndOk(T: Tables, env: Env, c: Config) {
    && c.pos <= |env.input| + 1
    && (c.lab == ErrLab ==> c.look.Some?)
    && (c.lab == ErrLab1 ==> c.errstatus == 3)
    && (c.pos == |env.input| + 1 ==>
          || (c.look.Some? && c.look.value.raw == 0)
          || c.lab.Return? || c.lab.Done?
          || (c.lab == NewState && c.states != [] && c.Top() == T.final))
  }

  ghost predicate Fit(T: Tables, env: Env, c: Config)
    requires T.Ranges()
  {
    Shape(T, c) && EndOk(T, env, c)
  }

  function X(T: Tables, env: Env, c: Config): nat { Translate(T, Current(env, c).raw) }

  /** c can still do n reductions before it has to do something else. */
  ghost predicate Settled(T: Tables, env: Env, c: Config, n: nat)
    requires T.Ranges()
  {
    c.lab == NewState ==> Settles(T, c.states, X(T, env, c), n)
  }

  /** The variant, a lexicographic tuple, has decreased from (c, n) to (d, m). */
  ghost predicate Less(env: Env, bound: nat, c: Config, n: nat, d: Config, m: nat) {
    var a, a' := Max0(bound - c.nred), Max0(bound - d.nred);
    var b, b' := TokensLeft(env, c), TokensLeft(env, d);
    || a' < a
    || (a' == a && b' < b)
    || (a' == a && b' == b && ErrMode(d) < ErrMode(c))
    || (a' == a && b' == b && ErrMode(d) == ErrMode(c) && Rank(d.lab) < Rank(c.lab))
    || (a' == a && b' == b && ErrMode(d) == ErrMode(c) && Rank(d.lab) == Rank(c.lab)
        && (m < n || (m == n && |d.states| < |c.states|)))
  }

  lemma Settle(T: Tables, env: Env, c: Config) returns (n: nat)
    requires T.Ranges() && NoInfiniteReductions(T) && Shape(T, c)
    ensures Settled(T, env, c, n)
  {
    assert Ends(T, c.states, X(T, env, c));
    n :| Settles(T, c.states, X(T, env, c), n);
  }

  lemma ReadIsNeutral(T: Tables, env: Env, c: Config)
    requires T.Ranges() && EndOk(T, env, c) && c.lab == NewState && c.states != [] && c.Top() != T.final
    ensures var d := ReadToken(env, c);
      && Current(env, d) == Current(env, c) && TokensLeft(env, d) == TokensLeft(env, c)
      && d.look == Some(Current(env, c))
      && d.pos <= |env.input| + 1 && (d.pos == |env.input| + 1 ==> d.look.value.raw == 0)
  {
  }

  lemma ShiftProgress(T: Tables, env: Env, c: Config, n: nat, t: nat, bound: nat, m: nat)
    requires T.Ranges() && c.states != [] && c.Top() != T.final && c.lab == NewState && EndOk(T, env, c)
    requires Translate(T, Current(env, c).raw) == EOF ==> t == T.final
    ensures var d := DoShift(T, ReadToken(env, c), t); EndOk(T, env, d) && Less(env, bound, c, n, d, m)
  {
    ReadIsNeutral(T, env, c);
  }

  lemma ReduceProgress(T: Tables, env: Env, c: Config, n: nat, r: nat, bound: nat, m: nat)
    requires T.Ranges() && c.Sane(T) && c.Top() != T.final && c.lab == NewState && EndOk(T, env, c)
    requires CanReduce(T, c.states, r)
    requires c.nred >= bound ==> env.Plain(c.nred) && (env.act(c.nred).outcome == Normal ==> m < n)
    ensures var d := DoReduce(T, env, c, r); EndOk(T, env, d) && Less(env, bound, c, n, d, m)
  {
    hide Held, Goto, CanReduce;
  }

  /** A reduction uses up one of the n reductions the stack had left. */
  lemma ReduceSettles(T: Tables, env: Env, c: Config, n: nat)
    requires T.Ranges() && c.Sane(T) && c.Top() != T.final && Settles(T, c.states, X(T, env, c), n)
    requires Chosen(T, env, c).Reduce? && CanReduce(T, c.states, Chosen(T, env, c).rule)
    requires env.act(c.nred).outcome == Normal
    ensures n > 0
    ensures var d := DoReduce(T, env, c, Chosen(T, env, c).rule);
            X(T, env, d) == X(T, env, c) && Settles(T, d.states, X(T, env, d), n - 1)
  {
    hide Held, Goto;
    assert Reduces(T, c.states, X(T, env, c));
    var r := Chosen(T, env, c).rule;
    assert DoReduce(T, env, c, r).states == Reduced(T, c.states, X(T, env, c));
  }

  lemma CountsAction(T: Tables, env: Env, c: Config, r: nat)
    requires T.Ranges() && |c.vals| == |c.states| - 1 && CanReduce(T, c.states, r)
    ensures DoReduce(T, env, c, r).nred == c.nred + 1
  {
    hide Held, Goto;
  }

  lemma BackupProgress(T: Tables, env: Env, c: Config, n: nat, bound: nat) returns (m: nat)
    requires ValidTables(T) && NoDefaultedError(T) && NoInfiniteReductions(T)
    requires Fit(T, env, c) && Settled(T, env, c, n) && c.lab == NewState && c.Top() != T.final
    requires c.nred >= bound && Backup(T, env, c).nred > c.nred ==> env.Plain(c.nred)
    ensures var d := Backup(T, env, c);
            Fit(T, env, d) && Settled(T, env, d, m) && Less(env, bound, c, n, d, m)
  {
    hide Path, ActionOk, FinalOk, EdgesOk, Held, Reducible, Settles, DoReduce, DoShift;
    ChosenLegal(T, env, c);
    BackupKeepsShape(T, env, c);
    ReadIsNeutral(T, env, c);
    var d := Backup(T, env, c);
    m := Settle(T, env, d);
    match Chosen(T, env, c) {
      case Shift(t) => ShiftProgress(T, env, c, n, t, bound, m);
      case Reduce(r) =>
        CountsAction(T, env, ReadToken(env, c), r);
        CountsAction(T, env, c, r);
        m := ReduceStep(T, env, c, n, r, bound);
      case Error =>
    }
  }

  lemma ReduceStep(T: Tables, env: Env, c: Config, n: nat, r: nat, bound: nat) returns (m: nat)
    requires T.Ranges() && NoInfiniteReductions(T)
    requires Fit(T, env, c) && Settled(T, env, c, n) && c.lab == NewState && c.Top() != T.final
    requires Chosen(T, env, c) == Reduce(r) && CanReduce(T, c.states, r)
    requires c.nred >= bound ==> env.Plain(c.nred)
    requires Shape(T, Backup(T, env, c))
    ensures var d := Backup(T, env, c);
            EndOk(T, env, d) && Settled(T, env, d, m) && Less(env, bound, c, n, d, m)
  {
    hide Path, Held, Settles, DoReduce, CanReduce;
    ReadIsNeutral(T, env, c);
    var e := if Defaulted(T, c.Top()) then c else ReadToken(env, c);
    assert X(T, env, e) == X(T, env, c) && EndOk(T, env, e);
    if env.act(c.nred).outcome == Normal {
      ReduceSettles(T, env, e, n);
      m := n - 1;
    } else {
      m := Settle(T, env, Backup(T, env, c));
    }
    ReduceProgress(T, env, e, n, r, bound, m);
  }

  lemma EnterProgress(T: Tables, env: Env, c: Config, n: nat, bound: nat) returns (m: nat)
    requires T.Ranges() && ValidTables(T) && NoDefaultedError(T) && NoInfiniteReductions(T)
    requires Fit(T, env, c) && Settled(T, env, c, n) && c.lab == NewState
    requires c.nred >= bound && Next(T, env, c).nred > c.nred ==> env.Plain(c.nred)
    ensures var d := Next(T, env, c);
            Fit(T, env, d) && Settled(T, env, d, m) && Less(env, bound, c, n, d, m)
  {
    hide Path, ValidTables, Held, Settles, Backup, NoInfiniteReductions, NoDefaultedError;
    var e := if c.cap <= |c.states| then c.(cap := Grown(env, c.cap)) else c;
    assert Fit(T, env, e) && Settled(T, env, e, n);
    m := n;
    if e.cap > |e.states| && c.Top() != T.final {
      m := BackupProgress(T, env, e, n, bound);
    }
  }

  lemma ErrorProgress(T: Tables, env: Env, c: Config, n: nat, bound: nat) returns (m: nat)
    requires ValidTables(T) && NoInfiniteReductions(T)
    requires Fit(T, env, c) && (c.lab == ErrLab || c.lab == ErrLab1)
    ensures var d := Next(T, env, c);
            Fit(T, env, d) && Settled(T, env, d, m) && Less(env, bound, c, n, d, m)
  {
    hide Path, Held, Settles, NoInfiniteReductions, Reducible, ActionOk, EdgesOk, FinalOk, Entry;
    NextKeepsShape(T, env, c);
    var d := Next(T, env, c);
    if d.lab == NewState {
      m := Settle(T, env, d);
    } else {
      m := n;
    }
  }

  // ---------------------------------------------------------------- when a parse ends

  ghost predicate Halts(T: Tables, env: Env)
    requires T.Ranges()
  {
    exists k: nat :: Run(T, env, Init(env), k).lab.Done?
  }

  /** The i-th semantic action is executed at some point of the run. */
  ghost predicate Performed(T: Tables, env: Env, i: nat)
    requires T.Ranges()
  {
    exists k: nat :: Run(T, env, Init(env), k).nred > i
  }

  /** From the bound-th on, no action that is executed uses yyerrok or YYERROR. */
  ghost predicate PlainFrom(T: Tables, env: Env, bound: nat)
    requires T.Ranges()
  {
    forall i: nat | i >= bound && Performed(T, env, i) :: env.Plain(i)
  }

  lemma {:induction false} HaltsFrom(T: Tables, env: Env, c: Config, k: nat, n: nat, bound: nat)
    requires T.Ranges() && ValidTables(T) && NoDefaultedError(T) && NoInfiniteReductions(T)
    requires PlainFrom(T, env, bound)
    requires c == Run(T, env, Init(env), k) && Fit(T, env, c) && Settled(T, env, c, n)
    ensures Halts(T, env)
    decreases Max0(bound - c.nred), TokensLeft(env, c), ErrMode(c), Rank(c.lab), n, |c.states|
  {
    hide ValidTables, NoDefaultedError, NoInfiniteReductions, Next, Path, Settles;
    var d := Run(T, env, Init(env), k + 1);
    assert d == Next(T, env, c);
    assert d.nred > c.nred ==> Performed(T, env, c.nred);
    match c.lab {
      case NewState =>
        var m := EnterProgress(T, env, c, n, bound);
        HaltsFrom(T, env, d, k + 1, m, bound);
      case ErrLab =>
        var m := ErrorProgress(T, env, c, n, bound);
        HaltsFrom(T, env, d, k + 1, m, bound);
      case ErrLab1 =>
        var m := ErrorProgress(T, env, c, n, bound);
        HaltsFrom(T, env, d, k + 1, m, bound);
      case Return(_) => ReturnIsLast(T, env, c);
      case Done(_) =>
      case Crash => NeverCrashes(T, env, k);
    }
  }

  lemma ReturnIsLast(T: Tables, env: Env, c: Config)
    requires T.Ranges() && c.Sane(T) && c.lab.Return?
    ensures Next(T, env, c).lab.Done?
  {
    hide Held;
  }

  lemma DoneIsLast(T: Tables, env: Env, c: Config)
    requires T.Ranges() && (c.lab.Done? || c.lab == Crash)
    ensures var d := Next(T, env, c); d.nred == c.nred && (d.lab.Done? || d.lab == Crash)
  {
  }

  lemma {:induction false} RunFixed(T: Tables, env: Env, k: nat, j: nat)
    requires T.Ranges() && Run(T, env, Init(env), k).lab.Done? && j >= k
    ensures Run(T, env, Init(env), j).nred == Run(T, env, Init(env), k).nred
    ensures Run(T, env, Init(env), j).lab.Done? || Run(T, env, Init(env), j).lab == Crash
    decreases j
  {
    hide Next;
    if j > k {
      RunFixed(T, env, k, j - 1);
      DoneIsLast(T, env, Run(T, env, Init(env), j - 1));
    }
  }

  lemma NotPerformed(T: Tables, env: Env, k: nat, i: nat)
    requires T.Ranges() && Run(T, env, Init(env), k).lab.Done?
    requires i >= Run(T, env, Init(env), k).nred
    ensures !Performed(T, env, i)
  {
    forall j: nat
      ensures Run(T, env, Init(env), j).nred <= i
    {
      if j > k {
        RunFixed(T, env, k, j);
      } else {
        NredMonotone(T, env, j, k);
      }
    }
  }

  lemma {:induction false} NredMonotone(T: Tables, env: Env, j: nat, k: nat)
    requires T.Ranges() && j <= k
    ensures Run(T, env, Init(env), j).nred <= Run(T, env, Init(env), k).nred
    decreases k
  {
    hide Next, Limited;
    if j < k {
      NredMonotone(T, env, j, k - 1);
      NextLimited(T, env, Run(T, env, Init(env), k - 1));
    }
  }

  /** With tables that allow no infinite run of reductions and have no defaulted error
      state, a parse of a finite input ends if and only if only finitely many of the
      actions it executes use yyerrok or YYERROR. */
  lemma HaltsExactlyWhen(T: Tables, env: Env)
    requires T.Ranges() && ValidTables(T) && NoDefaultedError(T) && NoInfiniteReductions(T)
    ensures Halts(T, env) <==> exists bound: nat :: PlainFrom(T, env, bound)
  {
    if Halts(T, env) {
      var k: nat :| Run(T, env, Init(env), k).lab.Done?;
      forall i: nat | i >= Run(T, env, Init(env), k).nred
        ensures !Performed(T, env, i)
      {
        NotPerformed(T, env, k, i);
      }
      assert PlainFrom(T, env, Run(T, env, Init(env), k).nred);
    }
    if bound: nat :| PlainFrom(T, env, bound) {
      var c := Init(env);
      assert c == Run(T, env, Init(env), 0);
      NeverCrashes(T, env, 0);
      var n := Settle(T, env, c);
      HaltsFrom(T, env, c, 0, n, bound);
    }
  }

  /** What a caller can check of the actions alone: that from some number on none of them,
      executed or not, uses yyerrok or YYERROR. */
  lemma HaltsWhenPlain(T: Tables, env: Env, bound: nat)
    requires T.Ranges() && ValidTables(T) && NoDefaultedError(T) && NoInfiniteReductions(T)
    requires forall i: nat | i >= bound :: env.Plain(i)
    ensures Halts(T, env)
  {
    assert PlainFrom(T, env, bound);
    HaltsExactlyWhen(T, env);
  }

  // ---------------------------------------------------------------- whatever the actions do

  /** Recovery enters state t by shifting `error`. */
  ghost predicate AfterError(T: Tables, t: nat)
    requires T.Ranges()
  {
    exists s: nat {:trigger ErrorShift(T, s)} | s < T.States() :: ErrorShift(T, s) == Some(t)
  }

  /** What a caller can check of the tables alone: once recovery has shifted `error`, nothing
      is reduced before a token has been shifted. */
  ghost predicate QuietAfterError(T: Tables)
    requires T.Ranges()
  {
    forall t: nat, x: nat {:trigger Act(T, t, x)} | t < T.States() && AfterError(T, t) && x < T.ntokens ::
      !Act(T, t, x).Reduce?
  }

  /** And in particular: no state shifts `error`. */
  ghost predicate NoErrorShift(T: Tables)
    requires T.Ranges()
  {
    forall s: nat | s < T.States() :: ErrorShift(T, s) == None
  }

  /** `error` has just been shifted: the next token is shifted, or discarded. */
  ghost predicate Waiting(T: Tables, c: Config)
    requires T.Ranges()
  {
    c.lab == NewState && c.errstatus == 3 && c.Sane(T) && AfterError(T, c.Top())
  }

  ghost function Phase(T: Tables, c: Config): nat
    requires T.Ranges()
  {
    match c.lab
    case NewState => if Waiting(T, c) then 2 else 5
    case ErrLab => if c.errstatus == 3 then 1 else 4
    case ErrLab1 => 3
    case _ => 0
  }

  /** A variant that does not mention the actions. */
  ghost predicate Nearer(T: Tables, env: Env, c: Config, n: nat, d: Config, m: nat)
    requires T.Ranges()
  {
    || TokensLeft(env, d) < TokensLeft(env, c)
    || (TokensLeft(env, d) == TokensLeft(env, c) && Phase(T, d) < Phase(T, c))
    || (TokensLeft(env, d) == TokensLeft(env, c) && Phase(T, d) == Phase(T, c)
        && (m < n || (m == n && |d.states| < |c.states|)))
  }

  lemma ReduceNearer(T: Tables, env: Env, c: Config, n: nat, r: nat, m: nat)
    requires T.Ranges() && c.Sane(T) && c.lab == NewState && !Waiting(T, c) && CanReduce(T, c.states, r)
    requires env.act(c.nred).outcome == Normal ==> m < n
    ensures Nearer(T, env, c, n, DoReduce(T, env, c, r), m)
  {
    hide Held, Goto, CanReduce, Waiting;
  }

  lemma WaitingIsQuiet(T: Tables, env: Env, c: Config)
    requires ValidTables(T) && QuietAfterError(T) && Waiting(T, c)
    ensures !Chosen(T, env, c).Reduce?
  {
    hide Act, AfterError, EdgesOk, FinalOk, ActionOk;
  }

  lemma BackupNearer(T: Tables, env: Env, c: Config, n: nat) returns (m: nat)
    requires ValidTables(T) && NoInfiniteReductions(T) && QuietAfterError(T)
    requires Fit(T, env, c) && Settled(T, env, c, n) && c.lab == NewState && c.Top() != T.final
    ensures var d := Backup(T, env, c); Settled(T, env, d, m) && Nearer(T, env, c, n, d, m)
  {
    hide Path, ActionOk, FinalOk, EdgesOk, Held, Reducible, Settles, DoReduce, AfterError, QuietAfterError;
    ChosenLegal(T, env, c);
    BackupKeepsShape(T, env, c);
    ReadIsNeutral(T, env, c);
    var d := Backup(T, env, c);
    m := Settle(T, env, d);
    if Chosen(T, env, c).Reduce? {
      if Waiting(T, c) {
        WaitingIsQuiet(T, env, c);
      }
      var r := Chosen(T, env, c).rule;
      var e := if Defaulted(T, c.Top()) then c else ReadToken(env, c);
      if env.act(c.nred).outcome == Normal {
        ReduceSettles(T, env, e, n);
        m := n - 1;
      }
      ReduceNearer(T, env, e, n, r, m);
    }
  }

  lemma RecoveryNearer(T: Tables, env: Env, c: Config, n: nat) returns (m: nat)
    requires ValidTables(T) && NoInfiniteReductions(T)
    requires Fit(T, env, c) && (c.lab == ErrLab || c.lab == ErrLab1)
    ensures var d := Next(T, env, c); Settled(T, env, d, m) && Nearer(T, env, c, n, d, m)
  {
    hide Path, ActionOk, FinalOk, EdgesOk, Held, Reducible, Settles, NoInfiniteReductions, Entry;
    NextKeepsShape(T, env, c);
    var d := Next(T, env, c);
    m := n;
    if d.lab == NewState {
      m := Settle(T, env, d);
      assert ErrorShift(T, c.Top()) == Some(d.Top());
      assert Waiting(T, d);
    }
  }

  lemma NextNearer(T: Tables, env: Env, c: Config, n: nat) returns (m: nat)
    requires T.Ranges() && ValidTables(T) && NoInfiniteReductions(T) && QuietAfterError(T)
    requires Fit(T, env, c) && Settled(T, env, c, n) && (c.lab == NewState || c.lab == ErrLab || c.lab == ErrLab1)
    ensures var d := Next(T, env, c); Settled(T, env, d, m) && Nearer(T, env, c, n, d, m)
  {
    hide Path, ValidTables, Held, Settles, Backup, NoInfiniteReductions, AfterError, QuietAfterError;
    if c.lab == NewState {
      var e := if c.cap <= |c.states| then c.(cap := Grown(env, c.cap)) else c;
      assert Fit(T, env, e) && Settled(T, env, e, n);
      m := n;
      if e.cap > |e.states| && c.Top() != T.final {
        m := BackupNearer(T, env, e, n);
      }
    } else {
      m := RecoveryNearer(T, env, c, n);
    }
  }

  lemma {:induction false} HaltsQuietly(T: Tables, env: Env, c: Config, k: nat, n: nat)
    requires T.Ranges() && ValidTables(T) && NoDefaultedError(T) && NoInfiniteReductions(T) && QuietAfterError(T)
    requires c == Run(T, env, Init(env), k) && Fit(T, env, c) && Settled(T, env, c, n)
    ensures Halts(T, env)
    decreases TokensLeft(env, c), Phase(T, c), n, |c.states|
  {
    hide ValidTables, NoDefaultedError, NoInfiniteReductions, QuietAfterError, Next, Path, Settles, Phase;
    var d := Run(T, env, Init(env), k + 1);
    assert d == Next(T, env, c);
    match c.lab {
      case Return(_) => ReturnIsLast(T, env, c);
      case Done(_) =>
      case Crash => NeverCrashes(T, env, k);
      case NewState =>
        var _ := EnterProgress(T, env, c, n, c.nred + 1);
        var m := NextNearer(T, env, c, n);
        HaltsQuietly(T, env, d, k + 1, m);
      case _ =>
        var _ := ErrorProgress(T, env, c, n, c.nred + 1);
        var m := NextNearer(T, env, c, n);
        HaltsQuietly(T, env, d, k + 1, m);
    }
  }

  /** Where `error`, once shifted, is followed by no reduction before a token is shifted, as in
      rules that have a token right after it, every parse ends, whatever the actions do: each
      recovery shifts a token, discards one, or gives up. */
  lemma HaltsWhenErrorWaits(T: Tables, env: Env)
    requires T.Ranges() && ValidTables(T) && NoDefaultedError(T) && NoInfiniteReductions(T) && QuietAfterError(T)
    ensures Halts(T, env)
  {
    hide ValidTables, NoDefaultedError, NoInfiniteReductions, QuietAfterError, Path, Settles;
    var c := Init(env);
    assert c == Run(T, env, Init(env), 0);
    NeverCrashes(T, env, 0);
    var n := Settle(T, env, c);
    HaltsQuietly(T, env, c, 0, n);
  }

  /** Where no state shifts `error`, recovery can only pop the stack. */
  lemma HaltsWithoutErrorToken(T: Tables, env: Env)
    requires T.Ranges() && ValidTables(T) && NoDefaultedError(T) && NoInfiniteReductions(T) && NoErrorShift(T)
    ensures Halts(T, env)
  {
    hide ValidTables, NoDefaultedError, NoInfiniteReductions, ErrorShift, Act, Halts;
    assert forall t: nat :: !AfterError(T, t);
    HaltsWhenErrorWaits(T, env);
  }
}
