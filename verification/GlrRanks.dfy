/** Why a deferred reduction never ends in a state that has a value already.  A finished
    state, one for a nonterminal that has its value, is outgrown: whatever else stands on
    the same state is unfinished and derives more. */
module GlrRanks {
  import opened LrTables
  import opened GlrGraph
  import opened GlrOps
  import opened GlrForest
  import GlrResolve

  /** p is live and stands for a nonterminal, whose value it has. */
  ghost predicate Finished(T: Tables, g: Graph, p: int) {
    && 0 <= p < |g.items| && Live(g, p) && g.items[p].State? && g.items[p].sem.Resolved?
    && g.items[p].lr < |T.stos| && T.ntokens <= T.stos[g.items[p].lr]
  }

  /** c, which stands on the same state as p, is unfinished, and derives more. */
  ghost predicate GrownPast(T: Tables, items: seq<Item>, p: int, c: int)
    requires T.Ranges() && 0 <= c < |items| && items[c].State?
  {
    items[c].sem.Unresolved? && Less(RankOf(T), KeyOf(T, items, p), KeyOf(T, items, c))
  }

  ghost predicate Outgrown(T: Tables, g: Graph)
    requires T.Ranges()
  {
    && (forall p, c {:trigger Finished(T, g, p), Live(g, c)} |
          Finished(T, g, p) && 0 <= c < |g.items| && Live(g, c) && g.items[c].State? && c != p
          && g.items[c].pred == g.items[p].pred >= 0 :: GrownPast(T, g.items, p, c))
    && (forall p, a {:trigger Finished(T, g, p), g.tops[a]} |
          Finished(T, g, p) && 0 <= a < |g.tops| && g.tops[a] >= 0 :: g.items[p].pred != g.tops[a])
  }

  /** On one chain every state has a predecessor of its own. */
  lemma SingleOutgrown(T: Tables, g: Graph)
    requires T.Ranges() && Links(g) && |g.tops| == 1
    ensures Outgrown(T, g)
  {
    hide Links, GrownPast;
    forall p, c {:trigger Finished(T, g, p), Live(g, c)} |
      Finished(T, g, p) && 0 <= c < |g.items| && Live(g, c) && g.items[c].State? && c != p
      && g.items[c].pred == g.items[p].pred >= 0
      ensures false
    {
      if p < c {
        OneChild(g, p, c);
      } else {
        OneChild(g, c, p);
      }
    }
    forall p, a {:trigger Finished(T, g, p), g.tops[a]} | Finished(T, g, p) && 0 <= a < |g.tops| && g.tops[a] >= 0
      ensures g.items[p].pred != g.tops[a]
    {
      ChainStep(g.items, g.tops[0], p);
      ChainBelow(g.items, g.tops[0], p);
    }
  }

  lemma OneChild(g: Graph, i: int, j: int)
    requires |g.tops| == 1 && Live(g, i) && Live(g, j) && 0 <= i < j < |g.items|
    requires g.items[i].State? && g.items[j].State?
    ensures g.items[i].pred != g.items[j].pred
  {
    var t := g.tops[0];
    ChainSplits(g.items, t, j, i);
    ChainStep(g.items, t, j);
    ChainStep(g.items, t, i);
    ChainBelow(g.items, g.items[j].pred, i);
  }

  /** Every finished state of h is one of g, every live one too but for `last`, and so is
      every top. */
  ghost predicate GrowsFrom(T: Tables, g: Graph, h: Graph, last: int) {
    && Extends(g.items, h.items)
    && (forall j {:trigger Live(h, j)} | 0 <= j < |h.items| && Live(h, j) && h.items[j].State? && j != last ::
          j < |g.items| && Live(g, j))
    && (forall p {:trigger Finished(T, h, p)} | Finished(T, h, p) :: p < |g.items| && h.items[p] == g.items[p])
    && (forall j {:trigger h.items[j]} | 0 <= j < |g.items| && h.items[j].State? && g.items[j].sem.Unresolved? ::
          h.items[j].sem.Unresolved?)
    && (forall a {:trigger h.tops[a]} | 0 <= a < |h.tops| && h.tops[a] >= 0 ::
          h.tops[a] == last || exists b {:trigger g.tops[b]} :: 0 <= b < |g.tops| && g.tops[b] == h.tops[a])
  }

  lemma OutgrownStays(T: Tables, g: Graph, h: Graph, last: int)
    requires T.Ranges() && Skeleton(T, RankOf(T), g.items) && Outgrown(T, g) && GrowsFrom(T, g, h, last)
    requires last < 0 || (last == |g.items| < |h.items| && h.items[last].State?)
    requires forall p {:trigger Finished(T, h, p)} |
      Finished(T, h, p) && last >= 0 && h.items[last].pred == h.items[p].pred >= 0 :: GrownPast(T, h.items, p, last)
    ensures Outgrown(T, h)
  {
    hide Live, KeyOf, Less, Skeleton, Extends;
    forall p | Finished(T, h, p)
      ensures Finished(T, g, p) && h.items[p] == g.items[p] && h.items[p].pred < p
    {
      GroundedStep(T, g.items, p);
    }
    forall p, c {:trigger Finished(T, h, p), Live(h, c)} |
      Finished(T, h, p) && 0 <= c < |h.items| && Live(h, c) && h.items[c].State? && c != p
      && h.items[c].pred == h.items[p].pred >= 0
      ensures GrownPast(T, h.items, p, c)
    {
      if c != last {
        assert Finished(T, g, p) && Live(g, c);
        SameState(g.items, h.items, c);
        assert GrownPast(T, g.items, p, c);
        KeyFrame(T, RankOf(T), g.items, h.items, p);
        KeyFrame(T, RankOf(T), g.items, h.items, c);
      }
    }
    forall p, a {:trigger Finished(T, h, p), h.tops[a]} | Finished(T, h, p) && 0 <= a < |h.tops| && h.tops[a] >= 0
      ensures h.items[p].pred != h.tops[a]
    {
      if h.tops[a] != last {
        var b :| 0 <= b < |g.tops| && g.tops[b] == h.tops[a];
        assert Finished(T, g, p);
      }
    }
  }

  lemma GroundedStep(T: Tables, items: seq<Item>, p: int)
    requires T.Ranges() && Skeleton(T, RankOf(T), items) && 0 <= p < |items| && items[p].State?
    ensures Step(items, p)
  {
    hide Rooted;
    assert Grounded(T, RankOf(T), items, p);
  }

  lemma SameState(items: seq<Item>, items': seq<Item>, c: int)
    requires Extends(items, items') && 0 <= c < |items| && items'[c].State?
    ensures items[c].State? && items[c].pred == items'[c].pred
  {
    assert items'[c] == items'[c];
  }

  /** Fewer stacks, or the same twice. */
  lemma FewerOutgrown(T: Tables, g: Graph, h: Graph)
    requires T.Ranges() && Outgrown(T, g) && h.items == g.items && (forall j | Live(h, j) :: Live(g, j))
    requires forall a {:trigger h.tops[a]} | 0 <= a < |h.tops| && h.tops[a] >= 0 ::
      exists b {:trigger g.tops[b]} :: 0 <= b < |g.tops| && g.tops[b] == h.tops[a]
    ensures Outgrown(T, h)
  {
    hide Live, KeyOf, Less;
    forall p | Finished(T, h, p)
      ensures Finished(T, g, p)
    {
    }
  }

  /** What a reduction by r on stack k derives, it derives from more than any finished state
      that stands where the reduction leads. */
  lemma ReducedGrowsPast(T: Tables, g: Graph, k: nat, r: nat, p: int)
    requires T.Ranges() && EdgesOk(T) && Acyclic(T) && Automaton(T, g.items) && Skeleton(T, RankOf(T), g.items)
    requires Outgrown(T, g) && k < |g.tops| && Step(g.items, g.tops[k]) && Reducible(T, g.items[g.tops[k]].lr, r)
    requires 1 < r < T.Rules() && Step(g.items, Walk(g.items, g.tops[k], T.r2[r]))
    requires Finished(T, g, p) && g.items[p].pred == Walk(g.items, g.tops[k], T.r2[r])
    ensures Less(RankOf(T), KeyOf(T, g.items, p),
                 Key(T.r1[r], PosnAt(g.items, Walk(g.items, g.tops[k], T.r2[r])), g.items[g.tops[k]].posn))
  {
    hide Skeleton, Automaton, EdgesOk, Reducible, KeyOf, Less, PosnAt, Acyclic, Finished;
    var top, n := g.tops[k], T.r2[r];
    if n > 0 {
      var w := WithOption(g.items, top, r);
      var c := Walk(g.items, top, n - 1);
      LastOfRhs(g.items, top, n);
      assert OnChain(g.items, g.tops[k], c) && Live(g, c);
      ReductionDerives(T, g.items, top, r);
      assert w[|g.items|] == Opt(r, top, 0, NULL);
      RankIs(T);
      RhsIsLess(T, RankOf(T), w, |g.items|, n - 1);
      WalkFrame(g.items, w, top, n - 1);
      KeyFrame(T, RankOf(T), g.items, w, c);
      if c != p {
        assert GrownPast(T, g.items, p, c);
        LessTransitive(RankOf(T), KeyOf(T, g.items, p), KeyOf(T, g.items, c), KeyOf(T, w, |g.items|));
      }
    } else {
      assert false;
    }
  }

  lemma LessTransitive(rk: Ranking, a: Key, b: Key, c: Key)
    requires Less(rk, a, b) && Less(rk, b, c)
    ensures Less(rk, a, c)
  {
  }

  /** The state right above where n links lead. */
  lemma {:induction false} LastOfRhs(items: seq<Item>, top: int, n: nat)
    requires n > 0 && Step(items, top) && Step(items, Walk(items, top, n))
    ensures var c := Walk(items, top, n - 1);
      Step(items, c) && items[c].pred == Walk(items, top, n) && OnChain(items, top, c)
    decreases n
  {
    StepBelow(items, top, n - 1, n);
    WalkOnChain(items, top, n - 1);
    GlrResolve.WalkUp(items, top, n - 1);
  }
}
