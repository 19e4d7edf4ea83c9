/** What the stacks of the GLR parser stand for: configurations of the nondeterministic LR
    automaton that the tables describe, after the tokens shifted so far. */
module GlrLanguage {
  import opened LrTables
  import opened GlrGraph
  import opened GlrOps
  import opened GlrInvariants
  import opened GlrRanks
  import opened GlrForest
  import opened GlrRounds
  import opened GlrSingle
  import opened GlrCompress
  import GlrStack

  /** The n-th token of the input. */
  function TokenAt(T: Tables, input: nat -> int, n: nat): nat { Translate(T, input(n)) }

  /** In state s with next token x the tables allow a reduction by r: as the action of the
      state, or as one that conflicts with it in a state that looks at the token. */
  ghost predicate MayReduce(G: GlrStack.GlrTables, s: nat, x: nat, r: nat)
    requires G.lalr.Ranges()
  {
    && s < G.lalr.States() && s != G.lalr.final
    && (Act(G.lalr, s, x) == Reduce(r) || (!Defaulted(G.lalr, s) && r in G.conflicts(s, x)))
  }

  ghost predicate ByReduction(G: GlrStack.GlrTables, q: seq<nat>, p: seq<nat>, x: nat)
    requires G.lalr.Ranges()
  {
    q != [] && exists r: nat {:trigger MayReduce(G, q[|q|-1], x, r)} ::
      MayReduce(G, q[|q|-1], x, r) && p == ReducedChain(G.lalr, q, r)
  }

  ghost predicate ByShift(G: GlrStack.GlrTables, q: seq<nat>, p: seq<nat>, x: nat)
    requires G.lalr.Ranges()
  {
    && q != [] && q[|q|-1] < G.lalr.States() && q[|q|-1] != G.lalr.final && Act(G.lalr, q[|q|-1], x).Shift?
    && p == q + [Act(G.lalr, q[|q|-1], x).to]
  }

  /** Some run of k steps of the automaton leads from state 0 to the states p, having
      shifted the first n tokens. */
  ghost predicate FollowsIn(G: GlrStack.GlrTables, input: nat -> int, n: nat, p: seq<nat>, k: nat)
    requires G.lalr.Ranges()
    decreases k
  {
    if k == 0 then n == 0 && p == [0]
    else
      || (exists q {:trigger ByReduction(G, q, p, TokenAt(G.lalr, input, n))} ::
            ByReduction(G, q, p, TokenAt(G.lalr, input, n)) && FollowsIn(G, input, n, q, k - 1))
      || (n > 0 && exists q {:trigger ByShift(G, q, p, TokenAt(G.lalr, input, n - 1))} ::
            ByShift(G, q, p, TokenAt(G.lalr, input, n - 1)) && FollowsIn(G, input, n - 1, q, k - 1))
  }

  ghost predicate Follows(G: GlrStack.GlrTables, input: nat -> int, n: nat, p: seq<nat>)
    requires G.lalr.Ranges()
  {
    exists k: nat :: FollowsIn(G, input, n, p, k)
  }

  lemma FollowsStart(G: GlrStack.GlrTables, input: nat -> int)
    requires G.lalr.Ranges()
    ensures Follows(G, input, 0, [0])
  {
    assert FollowsIn(G, input, 0, [0], 0);
  }

  lemma FollowsReduction(G: GlrStack.GlrTables, input: nat -> int, n: nat, q: seq<nat>, r: nat)
    requires G.lalr.Ranges() && Follows(G, input, n, q) && q != []
    requires MayReduce(G, q[|q|-1], TokenAt(G.lalr, input, n), r)
    ensures Follows(G, input, n, ReducedChain(G.lalr, q, r))
  {
    hide MayReduce, ReducedChain;
    var k: nat :| FollowsIn(G, input, n, q, k);
    var p := ReducedChain(G.lalr, q, r);
    assert ByReduction(G, q, p, TokenAt(G.lalr, input, n));
    assert FollowsIn(G, input, n, p, k + 1);
  }

  lemma FollowsShift(G: GlrStack.GlrTables, input: nat -> int, n: nat, q: seq<nat>, p: seq<nat>)
    requires G.lalr.Ranges() && Follows(G, input, n, q) && ByShift(G, q, p, TokenAt(G.lalr, input, n))
    ensures Follows(G, input, n + 1, p)
  {
    hide ByShift;
    var k: nat :| FollowsIn(G, input, n, q, k);
    assert ByShift(G, q, p, TokenAt(G.lalr, input, n + 1 - 1));
    assert FollowsIn(G, input, n + 1, p, k + 1);
  }

  // ---------------------------------------------------------------- how far a run reads

  lemma ReductionStays(G: GlrStack.GlrTables, q: seq<nat>, p: seq<nat>, x: nat)
    requires GlrStack.ValidGlr(G) && x < G.lalr.ntokens && Stack(G.lalr, q) && ByReduction(G, q, p, x)
    ensures Stack(G.lalr, p) && p[|p|-1] != G.lalr.final && q[|q|-1] != G.lalr.final
  {
    hide Goto, Path, Reducible, Act, Acyclic, EdgesOk, Spell, EndOnlyLast;
    var r: nat :| MayReduce(G, q[|q|-1], x, r) && p == ReducedChain(G.lalr, q, r);
    Legal(G, q[|q|-1], x, r);
    ReduceOnStack(G.lalr, q, r);
  }

  lemma Legal(G: GlrStack.GlrTables, s: nat, x: nat, r: nat)
    requires GlrStack.ValidGlr(G) && x < G.lalr.ntokens && MayReduce(G, s, x, r)
    ensures Reducible(G.lalr, s, r) && s != G.lalr.final
  {
    hide Reducible;
    if Act(G.lalr, s, x) == Reduce(r) {
      assert ActionOk(G.lalr, s, x);
    }
  }

  lemma ShiftGoesOn(G: GlrStack.GlrTables, q: seq<nat>, p: seq<nat>, x: nat)
    requires GlrStack.ValidGlr(G) && x < G.lalr.ntokens && Stack(G.lalr, q) && ByShift(G, q, p, x)
    ensures Stack(G.lalr, p) && q[|q|-1] != G.lalr.final
    ensures p[|p|-1] == G.lalr.final <==> x == EOF
  {
    hide Reducible;
    assert ActionOk(G.lalr, q[|q|-1], x);
    PathPush(G.lalr, q, x, p[|p|-1]);
  }

  lemma TokenInRange(T: Tables, input: nat -> int, n: nat)
    requires T.Ranges()
    ensures TokenAt(T, input, n) < T.ntokens
  {
  }

  /** A run of the automaton keeps to the paths of the tables.  It reads on while there are
      tokens, and is in the final state exactly when it has shifted the end of input. */
  lemma {:induction false} FollowsReads(G: GlrStack.GlrTables, input: nat -> int, n: nat, p: seq<nat>, k: nat)
    requires GlrStack.ValidGlr(G) && FollowsIn(G, input, n, p, k)
    ensures Stack(G.lalr, p)
    ensures p[|p|-1] == G.lalr.final <==> n > 0 && TokenAt(G.lalr, input, n - 1) == EOF
    ensures forall i {:trigger TokenAt(G.lalr, input, i)} | 0 <= i < n - 1 :: TokenAt(G.lalr, input, i) != EOF
    decreases k
  {
    hide GlrStack.ValidGlr, ByReduction, ByShift, Path, Tables.Ranges;
    var T := G.lalr;
    StartIsStack(G);
    TokenInRange(T, input, n);
    if n > 0 {
      TokenInRange(T, input, n - 1);
    }
    if k == 0 {
    } else if q :| ByReduction(G, q, p, TokenAt(T, input, n)) && FollowsIn(G, input, n, q, k - 1) {
      FollowsReads(G, input, n, q, k - 1);
      ReductionStays(G, q, p, TokenAt(T, input, n));
    } else {
      var q :| ByShift(G, q, p, TokenAt(T, input, n - 1)) && FollowsIn(G, input, n - 1, q, k - 1);
      FollowsReads(G, input, n - 1, q, k - 1);
      ShiftGoesOn(G, q, p, TokenAt(T, input, n - 1));
    }
  }

  lemma StartIsStack(G: GlrStack.GlrTables)
    requires GlrStack.ValidGlr(G)
    ensures G.lalr.Ranges() && Stack(G.lalr, [0]) && G.lalr.final != 0
  {
  }

  // ---------------------------------------------------------------- all stacks

  /** Every live stack is a configuration of the automaton. */
  ghost predicate AllFollow(G: GlrStack.GlrTables, input: nat -> int, g: Graph, n: nat)
    requires G.lalr.Ranges()
  {
    forall a {:trigger g.tops[a]} | 0 <= a < |g.tops| && g.tops[a] != NULL ::
      Follows(G, input, n, LrChain(g.items, g.tops[a]))
  }

  ghost predicate TopsBelow(g: Graph) {
    forall a {:trigger g.tops[a]} | 0 <= a < |g.tops| :: g.tops[a] < |g.items|
  }

  /** One stack has changed, the others are kept. */
  lemma KeptFollow(G: GlrStack.GlrTables, input: nat -> int, g: Graph, h: Graph, k: int, n: nat)
    requires G.lalr.Ranges() && AllFollow(G, input, g, n) && Kept(g, h, k) && |h.tops| == |g.tops| && TopsBelow(g)
    requires 0 <= k < |h.tops| && h.tops[k] != NULL ==> Follows(G, input, n, LrChain(h.items, h.tops[k]))
    ensures AllFollow(G, input, h, n)
  {
    hide Follows, Extends;
    forall a {:trigger h.tops[a]} | 0 <= a < |h.tops| && h.tops[a] != NULL
      ensures Follows(G, input, n, LrChain(h.items, h.tops[a]))
    {
      if a != k {
        ChainFrame(g.items, h.items, g.tops[a], 0);
      }
    }
  }

  lemma FewerFollow(G: GlrStack.GlrTables, input: nat -> int, g: Graph, h: Graph, n: nat)
    requires G.lalr.Ranges() && AllFollow(G, input, g, n) && h.items == g.items
    requires forall a {:trigger h.tops[a]} | 0 <= a < |h.tops| && h.tops[a] != NULL ::
      exists b {:trigger g.tops[b]} :: 0 <= b < |g.tops| && g.tops[b] == h.tops[a]
    ensures AllFollow(G, input, h, n)
  {
    hide Follows;
  }

  lemma CopyFollow(G: GlrStack.GlrTables, input: nat -> int, g: Graph, k: nat, n: nat)
    requires G.lalr.Ranges() && AllFollow(G, input, g, n) && k < |g.tops|
    ensures AllFollow(G, input, SplitStack(g, k), n) && AllFollow(G, input, MarkDeleted(g, k), n)
  {
    hide Follows;
  }

  lemma SurvivorsFollow(G: GlrStack.GlrTables, input: nat -> int, g: Graph, n: nat)
    requires G.lalr.Ranges() && AllFollow(G, input, g, n)
    ensures AllFollow(G, input, g.(tops := Survivors(g.tops)), n)
  {
    hide Follows;
    var h := g.(tops := Survivors(g.tops));
    forall a {:trigger h.tops[a]} | 0 <= a < |h.tops| && h.tops[a] != NULL
      ensures exists b {:trigger g.tops[b]} :: 0 <= b < |g.tops| && g.tops[b] == h.tops[a]
    {
      SurvivorIn(g.tops, a);
    }
    FewerFollow(G, input, g, h, n);
  }

  /** After the shift on all stacks. */
  lemma ShiftedFollow(G: GlrStack.GlrTables, input: nat -> int, g0: Graph, g: Graph, n: nat)
    requires G.lalr.Ranges() && AllFollow(G, input, g0, n) && |g.tops| == |g0.tops|
    requires forall a {:trigger g.tops[a]} | 0 <= a < |g.tops| ::
      g0.tops[a] != NULL && ByShift(G, LrChain(g0.items, g0.tops[a]), LrChain(g.items, g.tops[a]),
        TokenAt(G.lalr, input, n))
    ensures AllFollow(G, input, g, n + 1)
  {
    hide Follows, ByShift;
    forall a {:trigger g.tops[a]} | 0 <= a < |g.tops| && g.tops[a] != NULL
      ensures Follows(G, input, n + 1, LrChain(g.items, g.tops[a]))
    {
      FollowsShift(G, input, n, LrChain(g0.items, g0.tops[a]), LrChain(g.items, g.tops[a]));
    }
  }

  lemma SameChainFollow(G: GlrStack.GlrTables, input: nat -> int, g: Graph, h: Graph, n: nat)
    requires G.lalr.Ranges() && AllFollow(G, input, g, n) && |g.tops| == |h.tops| == 1 && g.tops[0] != NULL
    requires LrChain(h.items, h.tops[0]) == LrChain(g.items, g.tops[0])
    ensures AllFollow(G, input, h, n)
  {
    hide Follows;
  }

  /** Stack k has been reduced by r, as the tables allow, or is dead. */
  lemma ReducedFollow(G: GlrStack.GlrTables, input: nat -> int, g: Graph, h: Graph, k: nat, r: nat, n: nat)
    requires G.lalr.Ranges() && AllFollow(G, input, g, n) && Kept(g, h, k) && |h.tops| == |g.tops| && TopsBelow(g)
    requires k < |g.tops| && Step(g.items, g.tops[k])
    requires MayReduce(G, g.items[g.tops[k]].lr, TokenAt(G.lalr, input, n), r)
    requires h.tops[k] != NULL ==> LrChain(h.items, h.tops[k]) == ReducedChain(G.lalr, LrChain(g.items, g.tops[k]), r)
    ensures AllFollow(G, input, h, n)
  {
    hide Follows, ReducedChain, MayReduce, Kept;
    var q := LrChain(g.items, g.tops[k]);
    assert q[|q|-1] == g.items[g.tops[k]].lr;
    FollowsReduction(G, input, n, q, r);
    KeptFollow(G, input, g, h, k, n);
  }

  /** The one stack of deterministic parsing, reduced. */
  lemma OneReducedFollow(G: GlrStack.GlrTables, input: nat -> int, g: Graph, h: Graph, r: nat, n: nat,
    owner: map<int, int>)
    requires G.lalr.Ranges() && AllFollow(G, input, g, n) && GraphInv(G.lalr, g, owner) && Single(g, n)
    requires MayReduce(G, g.items[g.tops[0]].lr, TokenAt(G.lalr, input, n), r) && |h.tops| == 1
    requires LrChain(h.items, h.tops[0]) == ReducedChain(G.lalr, LrChain(g.items, g.tops[0]), r)
    ensures AllFollow(G, input, h, n)
  {
    hide Follows, ReducedChain, MayReduce, Positions, Automaton, Unique, Derivations, LiveOwned, Outgrown, Forest;
    StatesStep(g, g.tops[0]);
    var q := LrChain(g.items, g.tops[0]);
    assert q[|q|-1] == g.items[g.tops[0]].lr;
    FollowsReduction(G, input, n, q, r);
  }

  /** The one stack of deterministic parsing, after a shift. */
  lemma OneShiftedFollow(G: GlrStack.GlrTables, input: nat -> int, g: Graph, h: Graph, to: nat, n: nat,
    owner: map<int, int>)
    requires G.lalr.Ranges() && AllFollow(G, input, g, n) && GraphInv(G.lalr, g, owner) && Single(g, n)
    requires g.items[g.tops[0]].lr < G.lalr.States() && g.items[g.tops[0]].lr != G.lalr.final && |h.tops| == 1
    requires Act(G.lalr, g.items[g.tops[0]].lr, TokenAt(G.lalr, input, n)) == Shift(to)
    requires LrChain(h.items, h.tops[0]) == LrChain(g.items, g.tops[0]) + [to]
    ensures AllFollow(G, input, h, n + 1)
  {
    hide Follows, Act, Positions, Automaton, Unique, Derivations, LiveOwned, Outgrown, Forest;
    StatesStep(g, g.tops[0]);
    var q := LrChain(g.items, g.tops[0]);
    assert q[|q|-1] == g.items[g.tops[0]].lr;
    FollowsShift(G, input, n, q, q + [to]);
  }

  lemma PushChain(T: Tables, g: Graph, lr: nat, posn: nat, val: int, owner: map<int, int>)
    requires T.Ranges() && GraphInv(T, g, owner) && |g.tops| == 1 && 0 <= g.tops[0] < |g.items|
      && g.items[g.tops[0]].State?
    ensures var h := AddState(g, 0, lr, posn, Resolved(val));
            LrChain(h.items, h.tops[0]) == LrChain(g.items, g.tops[0]) + [lr]
  {
    hide Positions, Automaton, Unique, Derivations, LiveOwned, Outgrown, Forest;
    var h := AddState(g, 0, lr, posn, Resolved(val));
    ContentsFrame(g.items, h.items, g.tops[0]);
    assert Step(h.items, h.tops[0]);
  }

  lemma BottomFollows(G: GlrStack.GlrTables, input: nat -> int, g: Graph)
    requires G.lalr.Ranges() && |g.tops| == 1 && g.tops[0] == 0 && |g.items| == 1
    requires g.items[0].State? && g.items[0].lr == 0 && g.items[0].pred == NULL
    ensures AllFollow(G, input, g, 0)
  {
    hide Follows;
    assert LrChain(g.items, 0) == [0];
    FollowsStart(G, input);
  }

  lemma OneByShift(G: GlrStack.GlrTables, g: Graph, h: Graph, a: nat, token: nat, posn: nat)
    requires G.lalr.Ranges() && FinalOk(G.lalr) && Links(g) && ShiftedTop(G.lalr, g, h, a, token, posn)
    requires g.items <= h.items
    ensures g.tops[a] != NULL && ByShift(G, LrChain(g.items, g.tops[a]), LrChain(h.items, h.tops[a]), token)
  {
    hide Act, Links;
    ShiftedChain(G.lalr, g, h, a, token, posn);
    StatesStep(g, g.tops[a]);
  }

  /** The input ends with its n-th token. */
  ghost predicate WholeInput(T: Tables, input: nat -> int, n: nat)
    requires T.Ranges()
  {
    && n > 0 && TokenAt(T, input, n - 1) == EOF
    && forall i {:trigger TokenAt(T, input, i)} | 0 <= i < n - 1 :: TokenAt(T, input, i) != EOF
  }

  lemma FollowsWholeInput(G: GlrStack.GlrTables, input: nat -> int, n: nat, p: seq<nat>)
    requires GlrStack.ValidGlr(G) && Follows(G, input, n, p) && p != [] && p[|p|-1] == G.lalr.final
    ensures WholeInput(G.lalr, input, n)
  {
    hide GlrStack.ValidGlr, FollowsIn, Path;
    StartIsStack(G);
    var k: nat :| FollowsIn(G, input, n, p, k);
    FollowsReads(G, input, n, p, k);
  }
}
