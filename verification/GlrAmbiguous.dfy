/** The GLR parser at work on an ambiguous grammar: S -> A | B, A -> a, B -> a.  After `a`
    both reductions are possible, which is a conflict; both lead to S, which has two
    derivations then. */
module GlrAmbiguous {
  import opened LrTables
  import opened GlrForest
  import opened GlrInvariants
  import opened GlrRounds
  import opened GlrStack
  import opened GlrValues
  import GlrGraph
  import GlrOps
  import GlrLanguage
  import GlrParser
  import GlrReach
  import GlrResolve

  // Tokens: 0 is the end of input, 3 is `a`; S is 5, A is 6, B is 7.
  function Twofold(): Tables {
    Tables(
      [-1, 1, 0, -9, -9, -9], [0, 4, 0, 2, 3, 1], [-9, -9, -9, -9], [-1, 2, 3, 4],
      [5, -4, 1], [0, 0, 3],
      [0, 4, 5, 5, 6, 7], [0, 2, 1, 1, 1, 1], [0, 3, 5, 6, 7, 0],
      -9, None, 4, 5, (x: int) => if x == 97 then 3 else UNDEFTOK,
      [[], [5, 0], [6], [7], [3], [3]], 5,
      {(0, 3, 1), (0, 5, 2), (0, 6, 3), (0, 7, 4), (2, 0, 5)},
      [Past([], [{0}]), Past([3], [{1}, {0}]), Past([5], [{2}, {0}]), Past([6], [{3}, {0}]), Past([7], [{4}, {0}]),
       Past([0, 5], [{5}, {2}, {0}])])
  }

  /** In state 1 before the end of input, `a` may also become B. */
  function Conflicts(s: nat, x: nat): seq<nat> {
    if s == 1 && x == EOF then [5] else []
  }

  function Glr(): GlrTables { GlrTables(Twofold(), Conflicts) }

  // ---------------------------------------------------------------- the tables

  lemma Shapes()
    ensures Twofold().Ranges() && Twofold().States() == 6 && Twofold().Rules() == 6
    ensures Twofold().final == 5 && Twofold().ntokens == 4 && Twofold().start == 5
    ensures Twofold().r1 == [0, 4, 5, 5, 6, 7] && Twofold().rhs == [[], [5, 0], [6], [7], [3], [3]]
    ensures Twofold().stos == [0, 3, 5, 6, 7, 0] && Twofold().r2 == [0, 2, 1, 1, 1, 1]
  {
  }

  lemma Pasts()
    ensures Twofold().past == [Past([], [{0}]), Past([3], [{1}, {0}]), Past([5], [{2}, {0}]), Past([6], [{3}, {0}]),
                               Past([7], [{4}, {0}]), Past([0, 5], [{5}, {2}, {0}])]
  {
  }

  lemma Edges(a: nat, x: nat, b: nat)
    ensures (a, x, b) in Twofold().edges <==>
      || (a == 0 && ((x == 3 && b == 1) || (x == 5 && b == 2) || (x == 6 && b == 3) || (x == 7 && b == 4)))
      || (a == 2 && x == 0 && b == 5)
  {
  }

  lemma Actions(s: nat, x: nat)
    requires Twofold().Ranges() && s < 5 && x < 4
    ensures Act(Twofold(), s, x) ==
      if s == 0 then (if x == 3 then Shift(1) else Error)
      else if s == 1 then Reduce(4)
      else if s == 2 then (if x == 0 then Shift(5) else Error)
      else Reduce(s - 1)
  {
  }

  lemma Gotos(lhs: nat)
    requires Twofold().Ranges() && 5 <= lhs < 8
    ensures Goto(Twofold(), 0, lhs) == lhs - 3
  {
  }

  lemma Reductions(s: nat, r: nat)
    requires (s == 1 && (r == 4 || r == 5)) || (s == 3 && r == 2) || (s == 4 && r == 3)
    ensures Twofold().Ranges() && Reducible(Twofold(), s, r)
  {
    hide Twofold, Goto;
    Shapes();
    Pasts();
    Gotos(Twofold().r1[r]);
    Edges(0, Twofold().r1[r], Twofold().r1[r] - 3);
  }

  lemma EdgeIs(e: (nat, nat, nat))
    requires e in Twofold().edges
    ensures e.0 < 6 && 0 != e.2 < 6 && e.0 != 5 && Twofold().stos == [0, 3, 5, 6, 7, 0] && Twofold().stos[e.2] == e.1
    ensures (e.2 == 5 ==> e.0 == 2 && e.1 == EOF) && (e.2 == 2 ==> e.0 == 0 && e.1 == 5)
    ensures e.0 == 0 ==> e.2 == if e.1 == 3 then 1 else e.1 - 3
    ensures e.0 != 0 ==> e == (2, 0, 5)
  {
    hide Twofold;
    Shapes();
    Edges(e.0, e.1, e.2);
  }

  lemma EdgesAreOk()
    ensures Twofold().Ranges() && EdgesOk(Twofold())
  {
    hide Twofold;
    Shapes();
    Pasts();
    var T := Twofold();
    forall e | e in T.edges
      ensures e.0 < 6 && 0 != e.2 < 6 && T.stos[e.2] == e.1
      ensures Remembers(T.past[e.0], e.1, T.past[e.2])
    {
      EdgeIs(e);
    }
  }

  lemma FinalIsOk()
    ensures Twofold().Ranges() && FinalOk(Twofold()) && EndOnlyLast(Twofold())
  {
    hide Twofold;
    Shapes();
    forall e | e in Twofold().edges
      ensures e.0 != 5 && (e.2 == 5 ==> e.0 == 2 && e.1 == EOF) && (e.2 == 2 ==> e.0 == 0 && e.1 == 5)
    {
      EdgeIs(e);
    }
  }

  lemma OneWay()
    ensures Deterministic(Twofold())
  {
    hide Twofold;
    forall e, f | e in Twofold().edges && f in Twofold().edges && e.0 == f.0 && e.1 == f.1
      ensures e.2 == f.2
    {
      EdgeIs(e);
      EdgeIs(f);
    }
  }

  lemma Row(s: nat, x: nat)
    requires Twofold().Ranges() && s < 5 && x < 4
    ensures Twofold().States() == 6 && ActionOk(Twofold(), s, x)
  {
    hide Twofold, Reducible, Act;
    Shapes();
    Actions(s, x);
    Edges(s, x, if s == 0 then 1 else 5);
    if s == 1 {
      Reductions(1, 4);
    } else if s > 2 {
      Reductions(s, s - 1);
    }
  }

  lemma Valid()
    ensures ValidTables(Twofold())
  {
    hide Twofold, ActionOk, EdgesOk, FinalOk, EndOnlyLast, Deterministic;
    Shapes();
    EdgesAreOk();
    FinalIsOk();
    var T := Twofold();
    forall s: nat, x: nat | s < T.States() && s != T.final && x < T.ntokens
      ensures ActionOk(T, s, x)
    {
      Row(s, x);
    }
  }

  /** The grammar has no cycles: S ranks over A and B, and they over `a`. */
  lemma NoCycles()
    ensures Twofold().Ranges() && Acyclic(Twofold()) && ErrorAcyclic(Twofold())
  {
    hide Twofold;
    Shapes();
    var rk := Ranking((x: nat) => if x == 5 then 2 else if x > 5 then 1 else 0, (x: nat) => x == TERROR);
    var T := Twofold();
    forall r {:trigger T.rhs[r]} | 1 < r < T.Rules()
      ensures !OthersNullable(rk, T.rhs[r], -1)
    {
      assert !rk.nullable(T.rhs[r][0]);
    }
    assert NonCyclic(T, rk) && rk.nullable(TERROR);
  }

  /** The tables are valid GLR tables, and they do have a conflict. */
  lemma ValidWithConflict()
    ensures ValidGlr(Glr()) && Deterministic(Glr().lalr) && ErrorAcyclic(Glr().lalr)
    ensures Glr().conflicts(1, EOF) == [5] && Act(Glr().lalr, 1, EOF) == Reduce(4)
  {
    hide Twofold, ValidTables, Reducible, Acyclic, ErrorAcyclic, Deterministic, EdgesOk, FinalOk, EndOnlyLast;
    Valid();
    NoCycles();
    OneWay();
    Reductions(1, 5);
    Actions(1, EOF);
  }

  // ---------------------------------------------------------------- the parser

  /** The two derivations of S merge. */
  function Rules(): GlrResolve.Grammar {
    GlrResolve.Grammar([0, 0, 0, 0, 0, 0], [0, 0, 1, 1, 0, 0], [0, 2, 1, 1, 1, 1])
  }

  /** With them the grammar is unambiguous to the parser: no resolution fails. */
  lemma NeverAborts(act: (nat, nat, seq<int>) -> Result, merge: (nat, int, int) -> int)
    requires forall n: nat, r: nat, vals :: act(n, r, vals).tag != YyAbort
    ensures Calm(Setting(Twofold(), Rules(), act, merge))
  {
    hide Unambiguous;
    TwofoldIsUnambiguous();
  }

  lemma TwofoldIsUnambiguous()
    ensures Unambiguous(Twofold(), Rules())
  {
    hide Twofold, Tables.Ranges;
    Shapes();
    forall r0, r1 {:trigger Twofold().r1[r0], Twofold().r1[r1]} |
      1 < r0 < 6 && 1 < r1 < 6 && r0 != r1 && Twofold().r1[r0] == Twofold().r1[r1]
      ensures {r0, r1} == {2, 3} && GlrResolve.Prefer(Rules(), r0, r1) != GlrResolve.Ambiguous
    {
      assert r0 == 2 || r0 == 3;
    }
  }

  /** `a` is a sentence: the automaton shifts it, reduces it to A and that to S, and shifts the
      end of input. */
  lemma AcceptsA(input: nat -> int)
    requires input(0) == 97 && input(1) <= 0
    ensures Twofold().Ranges() && !GlrReach.Rejected(Glr(), input)
  {
    hide Twofold, Act, Goto, GlrLanguage.Follows;
    Shapes();
    assert Twofold().translate(97) == 3 by {
      Tokens();
    }
    Actions(0, 3);
    Actions(1, EOF);
    Actions(3, EOF);
    Actions(2, EOF);
    Gotos(6);
    Gotos(5);
    GlrLanguage.FollowsStart(Glr(), input);
    GlrLanguage.FollowsShift(Glr(), input, 0, [0], [0, 1]);
    GlrLanguage.FollowsReduction(Glr(), input, 1, [0, 1], 4);
    assert GlrOps.ReducedChain(Twofold(), [0, 1], 4) == [0, 3];
    GlrLanguage.FollowsReduction(Glr(), input, 1, [0, 3], 2);
    assert GlrOps.ReducedChain(Twofold(), [0, 3], 2) == [0, 2];
    GlrLanguage.FollowsShift(Glr(), input, 1, [0, 2], [0, 2, 5]);
  }

  lemma Tokens()
    ensures Twofold().translate(97) == 3
  {
  }

  lemma AllGoesWell(act: (nat, nat, seq<int>) -> Result, merge: (nat, int, int) -> int)
    requires forall n: nat, r: nat, vals :: act(n, r, vals).tag == YyOk
    ensures Obliging(Setting(Twofold(), Rules(), act, merge))
  {
    hide Unambiguous;
    NeverAborts(act, merge);
  }

  /** A parser for this grammar, whatever the scanner, the actions and the merger do.  If all
      actions end normally, the sentence `a` is accepted as long as there is memory. */
  method Parse(input: nat -> int, lexval: nat -> int, act: (nat, nat, seq<int>) -> Result,
               merge: (nat, int, int) -> int,
               depth: nat, maxDepth: nat, fuel: nat)
    returns (driver: GlrParser.Driver, status: Status)
    requires 2 * HEADROOM <= depth
    ensures driver.E == Setting(Twofold(), Rules(), act, merge) && driver.input == input && driver.lexval == lexval
    ensures status.Accept? && !driver.recovered ==>
      && driver.Valid() && driver.Parsed(driver.S.AsGraph(), driver.posn)
    ensures (forall n: nat, r: nat, vals :: act(n, r, vals).tag == YyOk) && input(0) == 97 && input(1) <= 0 ==>
      !driver.recovered && (status.Accept? || (status.Exhausted? && driver.S.Full()) || status.OutOfFuel?)
  {
    hide Twofold, ValidTables, ValidGlr, Deterministic, GraphInv, Acyclic, ErrorAcyclic, GlrParser.Driver.Parsed,
      GlrLanguage.AllFollow, GlrReach.Rejected, Obliging, SomeAction, Calm;
    Shapes();
    if input(0) == 97 && input(1) <= 0 {
      AcceptsA(input);
    }
    if forall n: nat, r: nat, vals :: act(n, r, vals).tag == YyOk {
      AllGoesWell(act, merge);
    }
    ValidWithConflict();
    var stack := new Stack(Glr(), depth, maxDepth);
    StartsWell(stack);
    driver := new GlrParser.Driver(stack, input, lexval, Setting(Twofold(), Rules(), act, merge));
    status := driver.YyParse(fuel);
  }

  lemma StartsWell(stack: Stack)
    requires stack.G == Glr() && stack.Valid() && stack.nextFree <= stack.items.Length && stack.owner == map[]
    requires stack.AsGraph() == GlrGraph.Graph([], GlrGraph.NULL, [GlrGraph.NULL])
    ensures stack.G.lalr.Ranges() && stack.Inv()
  {
    hide Twofold, GraphInv, ValidTables;
    Shapes();
    GlrParser.EmptyInv(Twofold());
  }
}
