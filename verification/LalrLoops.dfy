/** The recovery loop that never ends: a grammar S -> error, an input token that S does
    not want, and an action that executes yyerrok or YYERROR. */
module LalrLoops {
  import opened LrTables
  import opened ParseTrees
  import opened Lalr
  import opened LalrSoundness
  import opened LalrTermination

  function Stuck(): Tables {
    Tables(
      [0, -9, 2, -9], [0, 2, 0, 1], [-9, -9], [-1, 2],
      [0, 1, 3], [-1, 1, 0],
      [0, 4, 5], [0, 2, 1], [0, 1, 5, 0],
      -9, None, 4, 3, (x: int) => if x <= 0 then 0 else 3,
      [[], [5, 0], [1]], 5, {(0, 1, 1), (0, 5, 2), (2, 0, 3)},
      [Past([], [{0}]), Past([1], [{1}, {0}]), Past([5], [{2}, {0}]), Past([0, 5], [{3}, {2}, {0}])])
  }

  lemma Ranges()
    ensures Stuck().Ranges() && Stuck().States() == 4 && Stuck().final == 3 && Stuck().ntokens == 4
    ensures Stuck().Rules() == 3 && Stuck().rhs[2] == [1] && Stuck().r1[2] == 5 && Stuck().r2[2] == 1
    ensures Stuck().stos == [0, 1, 5, 0] && Stuck().start == 5
  {
  }

  lemma Edges(a: nat, x: nat, b: nat)
    ensures (a, x, b) in Stuck().edges <==> (a, x, b) == (0, 1, 1) || (a, x, b) == (0, 5, 2) || (a, x, b) == (2, 0, 3)
  {
  }

  lemma Actions(s: nat, x: nat)
    requires Stuck().Ranges() && s < 3 && x < 4
    ensures Act(Stuck(), s, x) ==
      if s == 0 then (if x == 1 then Shift(1) else Error)
      else if s == 1 then Reduce(2)
      else if x == 0 then Shift(3) else Error
    ensures Defaulted(Stuck(), s) <==> s == 1
    ensures Goto(Stuck(), 0, 5) == 2
  {
  }

  lemma Pasts()
    ensures Stuck().past == [Past([], [{0}]), Past([1], [{1}, {0}]), Past([5], [{2}, {0}]),
      Past([0, 5], [{3}, {2}, {0}])]
  {
  }

  lemma RuleTwo()
    ensures Stuck().Ranges() && Reducible(Stuck(), 1, 2)
  {
    hide Stuck, Goto;
    Ranges();
    Pasts();
    Actions(0, 0);
    Edges(0, 5, 2);
  }

  lemma Row(s: nat, x: nat)
    requires Stuck().Ranges() && Reducible(Stuck(), 1, 2) && s < 3 && x < 4
    ensures Stuck().States() == 4 && ActionOk(Stuck(), s, x)
  {
    hide Reducible, Stuck, Act;
    Ranges();
    Actions(s, x);
    Edges(0, 1, 1);
    Edges(2, 0, 3);
  }

  lemma EdgesAreOk()
    requires Stuck().Ranges()
    ensures EdgesOk(Stuck()) && FinalOk(Stuck())
  {
    hide Stuck;
    Ranges();
    Pasts();
    var T := Stuck();
    forall e | e in T.edges
      ensures e.0 < T.States() && 0 != e.2 < T.States() && T.stos[e.2] == e.1 && e.0 != 3
      ensures (e.2 == 3 ==> e.0 == 2 && e.1 == EOF) && (e.2 == 2 ==> e.0 == 0 && e.1 == 5)
      ensures Remembers(T.past[e.0], e.1, T.past[e.2])
    {
      Edges(e.0, e.1, e.2);
    }
  }

  lemma BodiesEnd()
    requires Stuck().Ranges()
    ensures EndOnlyLast(Stuck())
  {
    hide Stuck;
    Ranges();
  }

  lemma Valid()
    ensures ValidTables(Stuck())
  {
    hide Reducible, ActionOk, Stuck, EdgesOk, FinalOk, EndOnlyLast;
    Ranges();
    RuleTwo();
    EdgesAreOk();
    BodiesEnd();
    var T := Stuck();
    forall s: nat, x: nat | s < T.States() && s != T.final && x < T.ntokens
      ensures ActionOk(T, s, x)
    {
      Row(s, x);
    }
    assert ValidTables(T);
  }

  lemma StackEnds(states: seq<nat>, x: nat)
    requires Stuck().Ranges() && Stack(Stuck(), states) && x < 4
    ensures Ends(Stuck(), states, x)
  {
    hide Stuck, Act, Goto, Path;
    Ranges();
    var T := Stuck();
    StackTop(T, states);
    var s := states[|states|-1];
    if s < 3 {
      Actions(s, x);
    }
    if Reduces(T, states, x) {
      ReducesOnZero(states);
      var d := Reduced(T, states, x);
      assert d == [0, 2];
      Actions(2, x);
      assert !Reduces(T, d, x);
      assert ReduceN(T, states, x, 1) == ReduceN(T, d, x, 0) == d;
      assert Settles(T, states, x, 1);
    } else {
      assert Settles(T, states, x, 0);
    }
  }

  lemma ReducesOnZero(p: seq<nat>)
    requires Stuck().Ranges() && Stack(Stuck(), p) && p[|p|-1] == 1
    ensures p == [0, 1]
  {
    hide Stuck;
    Ranges();
    var n := |p| - 1;
    if n > 0 {
      Edges(p[n-1], Stuck().stos[p[n]], p[n]);
      assert (p[n-1], Stuck().stos[p[n]], p[n]) in Stuck().edges;
    }
    if n > 1 {
      EdgesAreOk();
      BottomOnce(Stuck(), p, n - 1);
    }
  }

  lemma NoErrorByDefault()
    ensures Stuck().Ranges() && NoDefaultedError(Stuck())
  {
  }

  lemma Tame()
    ensures Stuck().Ranges() && NoDefaultedError(Stuck()) && NoInfiniteReductions(Stuck())
  {
    hide Stuck, Ends, Path;
    Ranges();
    NoErrorByDefault();
    var T := Stuck();
    forall states, x: nat | Stack(T, states) && x < T.ntokens
      ensures Ends(T, states, x)
    {
      StackEnds(states, x);
    }
  }

  /** The configurations the run keeps visiting once the token has been read. */
  ghost predicate Looping(c: Config) {
    && c.look.Some? && c.look.value.raw > 0
    && |c.vals| == |c.states| - 1
    && c.cap == 200
    && (c.lab == ErrLab || (c.lab == NewState && c.states == [0, 2]) ==> c.errstatus == 0)
    && (match c.lab
        case NewState => c.states == [0, 1] || c.states == [0, 2]
        case ErrLab => c.states == [0] || c.states == [0, 2]
        case ErrLab1 => c.states == [0] || c.states == [0, 2]
        case _ => false)
  }

  /** Every action raises an error, or every action executes yyerrok. */
  ghost predicate Unlucky(env: Env) {
    && env.initDepth == 200
    && (forall k :: env.act(k) == ActionResult(YyError, false)
                 || env.act(k) == ActionResult(Normal, true))
  }

  lemma LoopReduces(env: Env, c: Config)
    requires Stuck().Ranges() && Looping(c) && Unlucky(env) && c.lab == NewState && c.states == [0, 1]
    ensures Looping(Next(Stuck(), env, c))
  {
    hide Held, Act, Goto, Chosen, ReadToken;
    ChoosesTwo(env, c);
    assert Next(Stuck(), env, c) == DoReduce(Stuck(), env, c, 2);
    assert c.states[..1] == [0];
  }

  lemma ChoosesTwo(env: Env, c: Config)
    requires Stuck().Ranges() && c.Sane(Stuck()) && c.Top() == 1
    ensures Chosen(Stuck(), env, c) == Reduce(2) && Defaulted(Stuck(), 1) && Goto(Stuck(), 0, 5) == 2
  {
  }

  lemma LoopErrs(env: Env, c: Config)
    requires Stuck().Ranges() && Looping(c) && Unlucky(env) && (c.lab == ErrLab || c.states == [0, 2])
      && c.lab != ErrLab1
    ensures Looping(Next(Stuck(), env, c))
  {
    hide Held, Goto;
    if c.lab == NewState {
      assert Chosen(Stuck(), env, c) == Error;
    }
  }

  lemma LoopPops(env: Env, c: Config)
    requires Stuck().Ranges() && Looping(c) && Unlucky(env) && c.lab == ErrLab1
    ensures Looping(Next(Stuck(), env, c))
  {
    hide Held, Goto, Act;
    assert ErrorShift(Stuck(), 0) == Some(1) && ErrorShift(Stuck(), 2) == None;
    var d := PopForError(Stuck(), c);
    assert Next(Stuck(), env, c) == d;
    if c.states == [0] {
      assert d.states == [0, 1];
    } else {
      assert c.states[..1] == [0];
      assert d.states == [0];
    }
  }

  lemma StaysLooping(env: Env, c: Config)
    requires Stuck().Ranges() && Looping(c) && Unlucky(env)
    ensures Looping(Next(Stuck(), env, c))
  {
    hide Next, Unlucky;
    if c.lab == NewState && c.states == [0, 1] {
      LoopReduces(env, c);
    } else if c.lab == ErrLab1 {
      LoopPops(env, c);
    } else {
      LoopErrs(env, c);
    }
  }

  lemma {:induction false} LoopsForEver(env: Env, n: nat)
    requires Stuck().Ranges() && Unlucky(env) && env.input != [] && env.input[0] > 0 && n > 0
    ensures Looping(Run(Stuck(), env, Init(env), n))
  {
    if n > 1 {
      LoopsForEver(env, n - 1);
      StaysLooping(env, Run(Stuck(), env, Init(env), n - 1));
    } else {
      assert Run(Stuck(), env, Init(env), 1) == Next(Stuck(), env, Init(env));
    }
  }

  /** Error recovery need not end: these tables are valid, allow no infinite run of
      reductions and have no defaulted error, yet on any input that starts with a token
      no parse ends in which every action executes yyerrok or every action raises YYERROR. */
  lemma RecoveryCanLoop(env: Env)
    requires Unlucky(env) && env.input != [] && env.input[0] > 0
    ensures ValidTables(Stuck()) && NoDefaultedError(Stuck()) && NoInfiniteReductions(Stuck())
    ensures !Halts(Stuck(), env)
  {
    Valid();
    Tame();
    forall n: nat
      ensures !Run(Stuck(), env, Init(env), n).lab.Done?
    {
      if n > 0 {
        LoopsForEver(env, n);
      }
    }
  }
}
