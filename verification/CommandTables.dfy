/** The tables of the command parser, and the proof that they are valid. */
module CommandTables {
  import opened LrTables
  import opened ParseTrees
  import opened Lalr
  import opened LalrTermination

  // Grammar: commands -> (empty) | commands command; command -> one of six nonterminals,
  // each of which is one of the six tokens 3 .. 8.
  function Commands(): Tables {
    Tables(
      [-1, 0, -1, -1, -1, -1, -1, -1, -1, -1, -1, -1, -1, -1, -1, -1],
      [2, 0, 1, 10, 11, 12, 13, 14, 15, 3, 4, 5, 6, 7, 8, 9],
      [-1, -1, -1, -1, -1, -1, -1, -1, -1],
      [-1, 1, 9, 10, 11, 12, 13, 14, 15],
      [2, 0, 0, 3, 4, 5, 6, 7, 8],
      [0, -1, -1, 3, 4, 5, 6, 7, 8],
      [0, 9, 10, 10, 11, 11, 11, 11, 11, 11, 12, 13, 14, 15, 16, 17],
      [0, 2, 0, 2, 1, 1, 1, 1, 1, 1, 1, 1, 1, 1, 1, 1],
      [0, 10, 0, 3, 4, 5, 6, 7, 8, 11, 12, 13, 14, 15, 16, 17],
      -1, None, 9, 2, TranslateCommand,
      [[], [10, 0], [], [10, 11], [12], [13], [14], [15], [16], [17], [3], [4], [5], [6], [7], [8]], 10,
      {(0, 10, 1), (1, 0, 2), (1, 11, 9),
       (1, 3, 3), (1, 4, 4), (1, 5, 5), (1, 6, 6), (1, 7, 7), (1, 8, 8),
       (1, 12, 10), (1, 13, 11), (1, 14, 12), (1, 15, 13), (1, 16, 14), (1, 17, 15)},
      seq(16, s requires 0 <= s < 16 => Before(s)))
  }

  /** YYTRANSLATE, with YYMAXUTOK == 263. */
  function TranslateCommand(raw: int): nat {
    if raw == 0 then EOF
    else if raw == 256 then TERROR
    else if 258 <= raw <= 263 then raw - 255
    else UNDEFTOK
  }

  /** What is below state s: nothing; the commands so far; or those and what s stands for. */
  function Before(s: nat): Past
    requires s < 16
  {
    if s == 0 then Past([], [{0}])
    else if s == 1 then Past([10], [{1}, {0}])
    else
      var symbol := if s == 2 then EOF else if s < 9 then s else s + 2;
      Past([symbol, 10], [{s}, {1}, {0}])
  }

  lemma Ranges()
    ensures Commands().Ranges() && Commands().States() == 16 && Commands().Rules() == 16
    ensures Commands().final == 2 && Commands().ntokens == 9 && Commands().start == 10
  {
  }

  lemma TranslateIs(raw: int)
    ensures Translate(Commands(), raw) == if raw <= 0 then EOF else TranslateCommand(raw)
  {
  }

  // ---------------------------------------------------------------- actions and gotos

  /** What the sixteen states do. */
  lemma Actions(s: nat, x: nat)
    requires Commands().Ranges() && s < 16 && x < 9
    ensures Act(Commands(), s, x) ==
      if s == 0 then Reduce(2)
      else if s == 1 then if x == 0 then Shift(2) else if x < 3 then Error else Shift(x)
      else if s == 2 then Reduce(1)
      else if s < 9 then Reduce(s + 7)
      else if s == 9 then Reduce(3)
      else Reduce(s - 6)
    ensures Defaulted(Commands(), s) <==> s != 1
    ensures s == 1 ==> ErrorShift(Commands(), s) == None
    ensures s == 0 ==> ErrorShift(Commands(), s) == None
  {
    hide Commands, Tables.Ranges;
    if s == 1 {
      OnCommand(x);
    } else {
      OnAnything(s, x);
    }
  }

  /** The state after `commands` is the only one that looks at the next token. */
  lemma OnCommand(x: nat)
    requires Commands().Ranges() && x < 9
    ensures Act(Commands(), 1, x) == if x == 0 then Shift(2) else if x < 3 then Error else Shift(x)
    ensures !Defaulted(Commands(), 1) && ErrorShift(Commands(), 1) == None
  {
    hide Tables.Ranges;
  }

  lemma OnAnything(s: nat, x: nat)
    requires Commands().Ranges() && s < 16 && s != 1
    ensures Defaulted(Commands(), s)
    ensures Act(Commands(), s, x) ==
      Reduce(if s == 0 then 2 else if s == 2 then 1 else if s < 9 then s + 7 else if s == 9 then 3 else s - 6)
    ensures s == 0 ==> ErrorShift(Commands(), s) == None
  {
    hide Tables.Ranges;
  }

  /** Where reductions lead. */
  lemma Gotos(s: nat, lhs: nat)
    requires Commands().Ranges() && 9 <= lhs < 18
    ensures s == 0 && lhs == 10 ==> Goto(Commands(), s, lhs) == 1
    ensures s == 1 && lhs == 11 ==> Goto(Commands(), s, lhs) == 9
    ensures s == 1 && lhs > 11 ==> Goto(Commands(), s, lhs) == lhs - 2
  {
  }

  lemma RuleShapes(r: nat)
    requires Commands().Ranges() && 2 <= r < 16
    ensures r < Commands().Rules()
    ensures Commands().r2[r] == if r == 2 then 0 else if r == 3 then 2 else 1
    ensures Commands().r1[r] == if r < 4 then 10 else if r < 10 then 11 else r + 2
  {
  }

  lemma RuleBodies(r: nat)
    requires Commands().Ranges() && 2 <= r < 16
    ensures r < Commands().Rules()
    ensures Commands().rhs[r] == if r == 2 then [] else if r == 3 then [10, 11] else if r < 10 then [r + 8] else [r - 7]
  {
  }

  lemma Accessing(s: nat)
    requires Commands().Ranges() && s < 16
    ensures 3 <= s < 9 ==> Commands().stos[s] == s
    ensures 9 <= s ==> Commands().stos[s] == s + 2
    ensures s == 1 ==> Commands().stos[s] == 10
    ensures s == 2 ==> Commands().stos[s] == 0
  {
  }

  /** The edges of the automaton, as three kinds. */
  lemma Edges(a: nat, x: nat, b: nat)
    ensures (a, x, b) in Commands().edges <==>
      || (a == 0 && x == 10 && b == 1) || (a == 1 && x == 0 && b == 2)
      || (a == 1 && 3 <= x == b < 9) || (a == 1 && 11 <= x < 18 && b == x - 2)
  {
  }

  // ---------------------------------------------------------------- the shapes of stacks

  /** Every path ends 0; 0, 1; or 1 with one more state. */
  lemma PathShape(p: seq<nat>)
    requires Commands().Ranges() && Path(Commands(), p)
    ensures |p| <= 3
    ensures |p| == 3 ==> p[0] == 0 && p[1] == 1 && 2 <= p[2] < 16
    ensures |p| == 2 ==> (p == [0, 1] || (p[0] == 1 && 2 <= p[1] < 16))
  {
    hide Commands;
    var T := Commands();
    if |p| >= 2 {
      assert (p[0], T.stos[p[1]], p[1]) in T.edges;
      Edges(p[0], T.stos[p[1]], p[1]);
    }
    if |p| >= 3 {
      assert (p[1], T.stos[p[2]], p[2]) in T.edges;
      Edges(p[1], T.stos[p[2]], p[2]);
    }
    if |p| >= 4 {
      assert (p[2], T.stos[p[3]], p[3]) in T.edges;
      Edges(p[2], T.stos[p[3]], p[3]);
    }
  }

  /** Stacks start at 0, so there are three shapes of them. */
  lemma StackShape(p: seq<nat>)
    requires Commands().Ranges() && Stack(Commands(), p)
    ensures p == [0] || p == [0, 1] || (|p| == 3 && p == [0, 1, p[2]] && 2 <= p[2] < 16)
  {
    PathShape(p);
  }

  // ---------------------------------------------------------------- validity

  lemma Pasts(s: nat)
    requires Commands().Ranges() && s < 16
    ensures |Commands().past| == 16 && Commands().past[s] == Before(s)
  {
  }

  lemma OneSymbol(s: nat, r: nat)
    requires Commands().Ranges() && ((3 <= s < 9 && r == s + 7) || (10 <= s < 16 && r == s - 6))
    ensures Reducible(Commands(), s, r)
  {
    hide Commands, Goto;
    Ranges();
    RuleShapes(r);
    RuleBodies(r);
    Pasts(s);
    Gotos(1, Commands().r1[r]);
    Edges(1, Commands().r1[r], Goto(Commands(), 1, Commands().r1[r]));
  }

  lemma EmptyCommands()
    requires Commands().Ranges()
    ensures Reducible(Commands(), 0, 2)
  {
    hide Commands, Goto;
    Ranges();
    RuleShapes(2);
    RuleBodies(2);
    Pasts(0);
    Gotos(0, 10);
    Edges(0, 10, 1);
  }

  lemma OneMoreCommand()
    requires Commands().Ranges()
    ensures Reducible(Commands(), 9, 3)
  {
    hide Commands, Goto;
    Ranges();
    RuleShapes(3);
    RuleBodies(3);
    Pasts(9);
    Gotos(0, 10);
    Edges(0, 10, 1);
  }

  lemma Row(s: nat, x: nat)
    requires Commands().Ranges() && s < 16 && s != 2 && x < 9
    ensures ActionOk(Commands(), s, x)
  {
    hide Commands, Reducible;
    Ranges();
    Actions(s, x);
    if s == 0 {
      EmptyCommands();
    } else if s == 1 {
      Edges(s, x, x);
      Edges(s, x, 2);
    } else if s == 9 {
      OneMoreCommand();
    } else {
      OneSymbol(s, if s < 9 then s + 7 else s - 6);
    }
  }

  lemma EdgesAreOk()
    requires Commands().Ranges()
    ensures EdgesOk(Commands())
  {
    hide Commands, Before;
    Ranges();
    var T := Commands();
    Pasts(0);
    forall s {:trigger T.past[s]} | 0 <= s < 16
      ensures |T.past[s].states| == |T.past[s].symbols| + 1 && s in T.past[s].states[0]
    {
      Pasts(s);
      BeforeIs(s);
    }
    forall e | e in T.edges
      ensures e.0 < T.States() && 0 != e.2 < T.States() && T.stos[e.2] == e.1
      ensures Remembers(T.past[e.0], e.1, T.past[e.2])
    {
      Edges(e.0, e.1, e.2);
      Accessing(e.2);
      Pasts(e.0);
      Pasts(e.2);
      EdgeRemembers(e.0, e.1, e.2);
    }
  }

  lemma BeforeIs(s: nat)
    requires s < 16
    ensures |Before(s).states| == |Before(s).symbols| + 1 && s in Before(s).states[0]
  {
  }

  lemma EdgeRemembers(a: nat, x: nat, b: nat)
    requires || (a == 0 && x == 10 && b == 1) || (a == 1 && x == 0 && b == 2)
      || (a == 1 && 3 <= x == b < 9) || (a == 1 && 11 <= x < 18 && b == x - 2)
    ensures Remembers(Before(a), x, Before(b))
  {
  }

  lemma BodiesEnd()
    requires Commands().Ranges()
    ensures EndOnlyLast(Commands())
  {
    hide Commands;
    Ranges();
    forall r, i {:trigger Commands().rhs[r][i]} | 1 < r < 16 && 0 <= i < |Commands().rhs[r]|
      ensures Commands().rhs[r][i] != EOF
    {
      RuleBodies(r);
    }
  }

  lemma FinalIsOk()
    requires Commands().Ranges()
    ensures FinalOk(Commands())
  {
    hide Commands;
    Ranges();
    var T := Commands();
    forall e | e in T.edges
      ensures e.0 != 2 && (e.2 == 2 ==> e.0 == 1 && e.1 == EOF) && (e.2 == 1 ==> e.0 == 0 && e.1 == 10)
    {
      Edges(e.0, e.1, e.2);
    }
  }

  /** The concrete tables satisfy everything that the LALR results assume. */
  lemma Valid()
    ensures ValidTables(Commands())
  {
    hide Commands, ActionOk, EdgesOk, FinalOk, EndOnlyLast;
    Ranges();
    EdgesAreOk();
    FinalIsOk();
    BodiesEnd();
    var T := Commands();
    forall s: nat, x: nat | s < T.States() && s != T.final && x < T.ntokens
      ensures ActionOk(T, s, x)
    {
      Row(s, x);
    }
    assert ValidTables(T);
  }

  /** No state shifts the error token: there is no recovery. */
  lemma NoRecovery()
    ensures Commands().Ranges() && NoErrorShift(Commands())
  {
    hide Commands;
    Ranges();
    forall s: nat | s < Commands().States()
      ensures ErrorShift(Commands(), s) == None
    {
      NothingOnError(s);
    }
  }

  lemma NothingOnError(s: nat)
    requires Commands().Ranges() && s < 16
    ensures ErrorShift(Commands(), s) == None
  {
  }

  // ---------------------------------------------------------------- no endless reductions

  /** One reduction of the stack on which only 1 or 2 states stand on the bottom. */
  lemma ReducedStack(p: seq<nat>, x: nat)
    requires Commands().Ranges() && x < 9
    requires p == [0] || (|p| == 3 && p == [0, 1, p[2]] && 3 <= p[2] < 16)
    ensures Reduces(Commands(), p, x)
    ensures Reduced(Commands(), p, x) ==
      if p == [0] then [0, 1] else if p[2] == 9 then [0, 1] else if p[2] > 9 then [0, 1, 9] else [0, 1, p[2] + 7]
  {
    hide Commands, Goto, Act;
    Ranges();
    var T := Commands();
    var s := p[|p|-1];
    Actions(s, x);
    var r := Act(T, s, x).rule;
    RuleShapes(r);
    var q := p[..|p| - T.r2[r]];
    assert q == if p == [0] then [0] else if p[2] == 9 then [0] else [0, 1];
    Gotos(q[|q|-1], T.r1[r]);
  }

  lemma StopsAt(p: seq<nat>, x: nat)
    requires Commands().Ranges() && x < 9 && (p == [0, 1] || (|p| == 3 && p[2] == 2))
    ensures Settles(Commands(), p, x, 0)
  {
    hide Commands, Act;
    Ranges();
    Actions(p[|p|-1], x);
  }

  lemma OneFurther(p: seq<nat>, x: nat, n: nat)
    requires Commands().Ranges() && Reduces(Commands(), p, x) && Settles(Commands(), Reduced(Commands(), p, x), x, n)
    ensures Settles(Commands(), p, x, n + 1)
  {
    hide Commands, Reduces, Reduced;
  }

  lemma NoErrorByDefault()
    requires Commands().Ranges()
    ensures NoDefaultedError(Commands())
  {
  }

  lemma NoEndlessReductions()
    ensures Commands().Ranges() && NoInfiniteReductions(Commands()) && NoDefaultedError(Commands())
  {
    hide Commands, Reduces, Settles, Stack, Reduced;
    Ranges();
    NoErrorByDefault();
    forall states, x: nat | Stack(Commands(), states) && x < Commands().ntokens
      ensures Ends(Commands(), states, x)
    {
      StackShape(states);
      StopsAt([0, 1], x);
      ReducedStack([0, 1, 9], x);
      OneFurther([0, 1, 9], x, 0);
      if states == [0] {
        ReducedStack(states, x);
        OneFurther(states, x, 0);
      } else if |states| == 3 && states[2] == 2 {
        StopsAt(states, x);
      } else if |states| == 3 && states[2] > 9 {
        ReducedStack(states, x);
        OneFurther(states, x, 1);
      } else if |states| == 3 && states[2] < 9 {
        ReducedStack(states, x);
        var t := [0, 1, states[2] + 7];
        ReducedStack(t, x);
        OneFurther(t, x, 1);
        OneFurther(states, x, 2);
      }
    }
  }
}
