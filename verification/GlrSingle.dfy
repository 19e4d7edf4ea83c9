/** The GLR stack while there is only one stack: resolved values, reductions that run
    their action at once, popping.  The split point may still be set: an error may have
    ended nondeterministic parsing without a compression. */
module GlrSingle {
  import opened LrTables
  import opened GlrGraph
  import opened GlrOps
  import opened GlrInvariants
  import opened GlrCompress
  import opened GlrForest
  import opened GlrRanks
  import GlrOptions
  import GlrValues

  /** The states from i down to the split point have their values. */
  predicate ResolvedAbove(items: seq<Item>, split: int, i: int)
    decreases i
  {
    i <= split || !Step(items, i) || (items[i].sem.Resolved? && ResolvedAbove(items, split, items[i].pred))
  }

  /** One stack, which has shifted all the tokens and has all its values. */
  ghost predicate Single(g: Graph, posn: nat) {
    && |g.tops| == 1 && g.tops[0] != NULL && Current(g, 0, posn)
    && (g.split != NULL ==> ResolvedAbove(g.items, g.split, g.tops[0]))
  }

  // ---------------------------------------------------------------- uniqueness is free

  /** On one chain every state has a predecessor of its own. */
  lemma SingleUnique(g: Graph)
    requires Links(g) && |g.tops| == 1
    ensures Unique(g)
  {
    forall i, j {:trigger Live(g, i), Live(g, j)} |
      0 <= i && g.split < i < j < |g.items| && g.items[i].State? && g.items[j].State? && Live(g, i) && Live(g, j)
      ensures !SameKey(g.items[i], g.items[j])
    {
      var t := g.tops[0];
      OnOneChain(g, i);
      OnOneChain(g, j);
      ChainSplits(g.items, t, j, i);
      ChainStep(g.items, t, j);
      ChainStep(g.items, t, i);
      ChainBelow(g.items, g.items[j].pred, i);
    }
  }

  lemma OnOneChain(g: Graph, i: int)
    requires |g.tops| == 1 && Live(g, i)
    ensures OnChain(g.items, g.tops[0], i)
  {
  }

  // ---------------------------------------------------------------- resolving

  lemma {:induction false} BonesChain(items: seq<Item>, items': seq<Item>, i: int, j: int)
    requires GlrOptions.SameBones(items, items')
    ensures OnChain(items', i, j) == OnChain(items, i, j) && LrChain(items', i) == LrChain(items, i)
    decreases i
  {
    if Step(items, i) {
      BonesChain(items, items', items[i].pred, j);
    } else {
      assert !Step(items', i);
    }
  }

  lemma BonesLinks(T: Tables, g: Graph, items': seq<Item>)
    requires Links(g) && g.split != NULL && GlrOptions.SameBones(g.items, items')
    requires GlrOptions.Tidy(items', Keys(T, g.items))
    requires forall i {:trigger g.items[i]} | 0 <= i <= g.split :: items'[i].State? && items'[i].sem.Resolved?
    ensures Links(g.(items := items'))
  {
    hide KeyOf;
    BonesLinksAbove(T, g, items');
    var h := g.(items := items');
    forall k {:trigger h.tops[k]} | 0 <= k < |h.tops| && h.tops[k] != NULL
      ensures g.split <= h.tops[k] < |h.items| && h.items[h.tops[k]].State?
    {
      assert g.items[g.tops[k]].State?;
    }
  }

  lemma BonesLinksAbove(T: Tables, g: Graph, items': seq<Item>)
    requires LinksAbove(g.items, g.split) && GlrOptions.SameBones(g.items, items')
    requires GlrOptions.Tidy(items', Keys(T, g.items))
    ensures LinksAbove(items', g.split)
  {
    hide KeyOf;
    forall i {:trigger items'[i]} | g.split < i < |items'|
      ensures match items'[i]
        case State(_, pred, _, sem) =>
          && g.split <= pred < i && items'[pred].State?
          && (sem.Unresolved? && sem.firstVal != NULL ==>
                0 <= sem.firstVal < |items'| && items'[sem.firstVal].Opt?)
        case Opt(_, state, _, next) =>
          && 0 <= g.split <= state < i && items'[state].State?
          && NULL <= next < i && (next != NULL ==> items'[next].Opt?)
    {
      assert g.items[i] == g.items[i];
    }
  }

  lemma BonesPositions(items: seq<Item>, items': seq<Item>)
    requires Positions(items) && GlrOptions.SameBones(items, items')
    ensures Positions(items')
  {
    forall i {:trigger items'[i]} | 0 <= i < |items'| && items'[i].State?
      ensures Step(items', i) && items'[i].pred >= 0 && items'[items'[i].pred].State? ==>
              items'[items'[i].pred].posn <= items'[i].posn
    {
      assert items[i].State?;
    }
  }

  lemma BonesAutomaton(T: Tables, items: seq<Item>, items': seq<Item>)
    requires T.Ranges() && Automaton(T, items) && GlrOptions.SameBones(items, items')
    ensures Automaton(T, items')
  {
    hide Stack;
    forall i {:trigger items'[i]} | 0 <= i < |items'| && items'[i].State?
      ensures Stack(T, LrChain(items', i))
    {
      assert items[i].State?;
      BonesChain(items, items', i, 0);
    }
  }

  lemma BonesKey(T: Tables, items: seq<Item>, items': seq<Item>, x: int)
    requires GlrOptions.SameBones(items, items')
    ensures KeyOf(T, items', x) == KeyOf(T, items, x)
  {
    if 0 <= x < |items| {
      assert items'[x] == items'[x];
      if items[x].Opt? && items[x].rule < |T.r2| {
        GlrOptions.BonesWalk(items, items', items[x].state, T.r2[items[x].rule]);
      }
    }
  }

  lemma BonesSkeleton(T: Tables, rk: Ranking, items: seq<Item>, items': seq<Item>)
    requires T.Ranges() && Skeleton(T, rk, items) && GlrOptions.SameBones(items, items')
    ensures Skeleton(T, rk, items')
  {
    forall o {:trigger items'[o]} | 0 <= o < |items'| && items'[o].Opt?
      ensures Rooted(T, items', o)
    {
      assert items[o].Opt? && Rooted(T, items, o);
      var top, n := items[o].state, T.r2[items[o].rule];
      GlrOptions.BonesWalk(items, items', top, n);
      forall k {:trigger Walk(items', top, k)} | 0 <= k < n
        ensures Step(items', Walk(items', top, k)) && items'[Walk(items', top, k)].lr == items[Walk(items, top, k)].lr
        ensures Walk(items', top, k) == Walk(items, top, k)
      {
        GlrOptions.BonesWalk(items, items', top, k);
      }
    }
    forall i {:trigger items'[i]} | 0 <= i < |items'| && items'[i].State?
      ensures Grounded(T, rk, items', i)
    {
      assert items[i].State? && Grounded(T, rk, items, i);
    }
  }

  lemma BonesForest(T: Tables, items: seq<Item>, items': seq<Item>)
    requires T.Ranges() && Skeleton(T, RankOf(T), items) && Fleshed(T, items, items')
    ensures Forest(T, items')
  {
    hide Skeleton, KeyOf;
    BonesSkeleton(T, RankOf(T), items, items');
    forall x
      ensures Keys(T, items')(x) == Keys(T, items)(x)
    {
      BonesKey(T, items, items', x);
    }
    assert GlrOptions.Tidy(items', Keys(T, items'));
  }

  /** The states that the resolution has gone through are those above the split point. */
  lemma {:induction false} ValuedIsResolved(bones: seq<Item>, items': seq<Item>, split: int, i: int, n: nat)
    requires GlrOptions.SameBones(bones, items') && GlrValues.Valued(bones, items', i, n)
    requires n == |Above(bones, split, i)|
    ensures ResolvedAbove(items', split, i)
    decreases i
  {
    if i > split && Step(items', i) {
      assert Step(bones, i);
      assert Walk(bones, i, 0) == i;
      forall k {:trigger Walk(bones, bones[i].pred, k)} | 0 <= k < n - 1
        ensures Walk(bones, bones[i].pred, k) == Walk(bones, i, k + 1)
      {
      }
      ValuedIsResolved(bones, items', split, bones[i].pred, n - 1);
    }
  }

  /** With all states of the one stack resolved, nobody owns an option any more. */
  lemma {:induction false} ResolvedOnChain(items: seq<Item>, split: int, i: int, j: int)
    requires ResolvedAbove(items, split, i) && OnChain(items, i, j) && j > split
    ensures 0 <= j < |items| && items[j].State? && items[j].sem.Resolved?
    decreases i
  {
    ChainBelow(items, i, j);
    if i != j {
      ResolvedOnChain(items, split, items[i].pred, j);
    }
  }

  lemma ResolvedLiveOwned(g: Graph)
    requires Links(g) && g.split != NULL && |g.tops| == 1 && ResolvedAbove(g.items, g.split, g.tops[0])
    ensures LiveOwned(g, map[])
  {
    hide LinksAbove;
    forall s {:trigger Live(g, s)} | 0 <= s < |g.items| && Live(g, s) && g.items[s].State?
      ensures g.items[s].sem.Resolved?
    {
      OnOneChain(g, s);
      if s > g.split {
        ResolvedOnChain(g.items, g.split, g.tops[0], s);
      }
    }
  }

  /** Resolving the values of the one stack keeps, or restores, the invariants. */
  lemma ResolvedInv(T: Tables, g: Graph, items': seq<Item>, n: nat)
    requires T.Ranges() && GraphLoose(T, g) && |g.tops| == 1 && g.split != NULL
    requires Fleshed(T, g.items, items') && n == |Above(g.items, g.split, g.tops[0])|
    requires GlrValues.Valued(g.items, items', g.tops[0], n)
    requires forall i {:trigger g.items[i]} | 0 <= i < |g.items| && g.items[i].State? && g.items[i].sem.Resolved? ::
      items'[i].State? && items'[i].sem.Resolved?
    ensures GraphInv(T, g.(items := items'), map[])
    ensures ResolvedAbove(items', g.split, g.tops[0]) && LrChain(items', g.tops[0]) == LrChain(g.items, g.tops[0])
    ensures forall i {:trigger items'[i]} | 0 <= i < |g.items| && g.items[i].State? ::
      items'[i].State? && items'[i].lr == g.items[i].lr && items'[i].posn == g.items[i].posn
  {
    hide Positions, Automaton, Unique, Derivations, LiveOwned, Outgrown, Skeleton, LinksAbove, GlrOptions.Tidy, Forest,
      Above, ResolvedAbove, LrChain, GlrOptions.NoneEmpty;
    var h := g.(items := items');
    ForestParts(T, g.items);
    BonesLinks(T, g, items');
    BonesPositions(g.items, items');
    BonesAutomaton(T, g.items, items');
    BonesForest(T, g.items, items');
    BonesChain(g.items, items', g.tops[0], 0);
    ValuedIsResolved(g.items, items', g.split, g.tops[0], n);
    SingleUnique(h);
    SingleOutgrown(T, h);
    ResolvedLiveOwned(h);
    NoOwners(T, items');
  }

  lemma NoOwners(T: Tables, items: seq<Item>)
    requires T.Ranges()
    ensures Derivations(T, items, map[])
  {
  }

  /** How the states above the split point are counted. */
  lemma AboveCount(g: Graph, s: int)
    requires Links(g) && 0 <= g.split <= s < |g.items| && g.items[s].State?
    ensures s == g.split ==> Above(g.items, g.split, s) == []
    ensures s > g.split ==>
      && Step(g.items, s) && g.split <= g.items[s].pred && g.items[g.items[s].pred].State?
      && |Above(g.items, g.split, s)| == |Above(g.items, g.split, g.items[s].pred)| + 1
  {
    StatesStep(g, s);
  }

  /** The split point lies on every chain from a state above it. */
  lemma {:induction false} ResolvedIsAbove(g: Graph, i: int)
    requires Links(g) && 0 <= g.split <= i < |g.items| && g.items[i].State? && ResolvedAbove(g.items, g.split, i)
    ensures var c := Above(g.items, g.split, i);
      && Within(g, c) && forall n {:trigger c[n]} | 0 <= n < |c| :: g.items[c[n]].sem.Resolved?
    decreases i
  {
    StatesStep(g, i);
    if i > g.split {
      ResolvedIsAbove(g, g.items[i].pred);
    }
  }

  lemma SingleCompressible(g: Graph, posn: nat)
    requires Links(g) && Single(g, posn) && g.split != NULL
    ensures Compressible(g, Above(g.items, g.split, g.tops[0]))
  {
    hide Contiguous, LinksAbove, Above, Chain;
    ResolvedIsAbove(g, g.tops[0]);
    AboveIsChain(g, g.tops[0]);
  }

  /** After yycompressStack the one stack is still at the same place of the input. */
  lemma CompressedSingle(g: Graph, posn: nat)
    requires Links(g) && Single(g, posn) && g.split != NULL
    ensures var c := Above(g.items, g.split, g.tops[0]);
            Compressible(g, c) && Single(Compressed(g, c), posn)
            && Compressed(g, c).items[Compressed(g, c).tops[0]].lr == g.items[g.tops[0]].lr
  {
    hide Links, Above, Chain, Compressed;
    SingleCompressible(g, posn);
    var c := Above(g.items, g.split, g.tops[0]);
    CompressedShape(g, c);
    if |c| > 0 {
      CompressedAt(g, c, |c| - 1);
    } else {
      CompressedLow(g, c);
      var h := Compressed(g, c);
      assert h.items[g.split] == h.items[..g.split + 1][g.split] == g.items[g.split];
    }
  }

  // ---------------------------------------------------------------- popping

  /** Cutting a contiguous stack. */
  function Truncated(g: Graph, n: nat): Graph
    requires n <= |g.items|
  {
    Graph(g.items[..n], NULL, [n - 1])
  }

  lemma TruncatedInv(T: Tables, g: Graph, n: nat, owner: map<int, int>)
    requires T.Ranges() && GraphInv(T, g, owner) && g.split == NULL && n <= |g.items|
    ensures GraphInv(T, Truncated(g, n), owner)
    ensures forall i | i < n :: LrChain(Truncated(g, n).items, i) == LrChain(g.items, i)
  {
    hide Unique, Derivations, Stack, Forest, LiveOwned, Outgrown;
    var h := Truncated(g, n);
    assert h.items <= g.items;
    forall i | i < n
      ensures LrChain(h.items, i) == LrChain(g.items, i)
    {
      ContentsFrame(h.items, g.items, i);
    }
    ContiguousRest(T, h);
    NobodyOwns(T, g, h, owner);
    TruncatedForest(T, g, n);
    SingleOutgrown(T, h);
  }

  /** In a contiguous stack there are no options to own. */
  lemma NobodyOwns(T: Tables, g: Graph, h: Graph, owner: map<int, int>)
    requires T.Ranges() && Links(g) && g.split == NULL && Derivations(T, g.items, owner) && Links(h) && h.split == NULL
    ensures Derivations(T, h.items, owner) && LiveOwned(h, owner)
  {
    hide Derives, Live;
  }

  lemma TruncatedForest(T: Tables, g: Graph, n: nat)
    requires T.Ranges() && Links(g) && g.split == NULL && Forest(T, g.items) && n <= |g.items|
    ensures Forest(T, Truncated(g, n).items)
  {
    hide Links, Forest, Grounded;
    var items := Truncated(g, n).items;
    assert |items| == n;
    forall i {:trigger items[i]} {:trigger Grounded(T, RankOf(T), items, i)} | 0 <= i < |items|
      ensures items[i].State? && items[i].sem.Resolved? && Grounded(T, RankOf(T), items, i)
    {
      TruncatedState(T, g, n, i);
    }
    StatesAreForest(T, items);
  }

  lemma TruncatedState(T: Tables, g: Graph, n: nat, i: nat)
    requires T.Ranges() && Links(g) && g.split == NULL && Forest(T, g.items) && i < n <= |g.items|
    ensures var items := Truncated(g, n).items;
      i < |items| && items[i].State? && items[i].sem.Resolved? && Grounded(T, RankOf(T), items, i)
  {
    hide Rooted, KeyOf, GlrOptions.Tidy, GlrOptions.NoneEmpty;
    var items := Truncated(g, n).items;
    assert items[i] == g.items[i] && Grounded(T, RankOf(T), g.items, i);
    if i > 0 {
      assert items[i - 1] == g.items[i - 1];
    }
  }

  /** In a contiguous stack n links lead n items down. */
  lemma {:induction false} WalkContiguous(items: seq<Item>, i: int, n: nat)
    requires Contiguous(items, |items| - 1) && 0 <= i < |items|
    requires Step(items, Walk(items, i, n))
    ensures Walk(items, i, n) == i - n >= 0
    decreases n
  {
    if n > 0 {
      assert Walk(items, NULL, n - 1) == NULL;
      WalkContiguous(items, items[i].pred, n - 1);
    }
  }

  // ---------------------------------------------------------------- pushing and cutting

  lemma {:induction false} ResolvedFrame(items: seq<Item>, items': seq<Item>, split: int, i: int)
    requires items <= items' && i < |items| && ResolvedAbove(items, split, i)
    ensures ResolvedAbove(items', split, i)
    decreases i
  {
    if i > split && Step(items, i) {
      ResolvedFrame(items, items', split, items[i].pred);
    }
  }

  lemma {:induction false} ResolvedBelow(items: seq<Item>, split: int, i: int, j: int)
    requires ResolvedAbove(items, split, i) && OnChain(items, i, j) && (split <= j)
    ensures ResolvedAbove(items, split, j)
    decreases i
  {
    if i != j {
      ChainBelow(items, items[i].pred, j);
      ResolvedBelow(items, split, items[i].pred, j);
    }
  }

  /** One stack whose top may lie back in the input: right after popping. */
  ghost predicate Popped(g: Graph, posn: nat) {
    && |g.tops| == 1 && 0 <= g.tops[0] < |g.items| && g.items[g.tops[0]].State? && g.items[g.tops[0]].posn <= posn
    && (g.split != NULL ==> ResolvedAbove(g.items, g.split, g.tops[0]))
  }

  /** A state with a value can go on top of state `top`: further on in the input, or for a
      nullable symbol. */
  ghost predicate MayFollow(T: Tables, g: Graph, top: int, lr: nat, posn: nat)
    requires T.Ranges()
  {
    && 0 <= top < |g.items| && g.items[top].State? && g.items[top].posn <= posn && lr < T.States()
    && (g.items[top].posn == posn ==> RankOf(T).nullable(T.stos[lr]))
    && (IsToken(T, T.stos[lr]) ==> posn == g.items[top].posn + 1)
  }

  lemma AddStateForest(T: Tables, g: Graph, k: nat, lr: nat, posn: nat, val: int)
    requires T.Ranges() && Forest(T, g.items) && k < |g.tops| && MayFollow(T, g, g.tops[k], lr, posn)
    ensures Forest(T, AddState(g, k, lr, posn, Resolved(val)).items)
  {
    hide Forest, Rooted, KeyOf, Extends, Grounded;
    var items' := AddState(g, k, lr, posn, Resolved(val)).items;
    AddStateExtends(g, k, lr, posn, Resolved(val));
    NewGrounded(T, items', |g.items|, g.tops[k]);
    assert forall i | 0 <= i < |g.items| :: items'[i] == g.items[i];
    ForestGrows(T, g.items, items');
  }

  lemma PushSingle(T: Tables, g: Graph, x: nat, lr: nat, posn: nat, val: int, owner: map<int, int>)
    requires T.Ranges() && EdgesOk(T) && GraphInv(T, g, owner) && Popped(g, posn)
    requires (g.items[g.tops[0]].lr, x, lr) in T.edges && MayFollow(T, g, g.tops[0], lr, posn)
    ensures var h := AddState(g, 0, lr, posn, Resolved(val)); GraphInv(T, h, owner) && Single(h, posn)
  {
    hide Positions, Automaton, Unique, Derivations, LinksAbove, Contiguous, Forest, LiveOwned, MayFollow, Outgrown;
    var h := AddState(g, 0, lr, posn, Resolved(val));
    AddStateLinks(g, 0, lr, posn, Resolved(val));
    AddStatePositions(g, 0, lr, posn, Resolved(val));
    AddStateAutomaton(T, g, 0, lr, posn, Resolved(val));
    AddStateDerivations(T, g, 0, lr, posn, Resolved(val), owner);
    AddStateLiveOwned(g, 0, lr, posn, Resolved(val), owner);
    AddStateForest(T, g, 0, lr, posn, val);
    SingleUnique(h);
    SingleOutgrown(T, h);
    if g.split != NULL {
      ResolvedFrame(g.items, h.items, g.split, g.tops[0]);
    }
  }

  /** Cutting the one stack back to s, which may lower the split point. */
  lemma CutSingle(T: Tables, g: Graph, s: int, posn: nat, owner: map<int, int>)
    requires T.Ranges() && GraphInv(T, g, owner) && Single(g, posn) && g.split != NULL
    requires OnChain(g.items, g.tops[0], s)
    ensures var h := CutTo(UpdateSplit(g, s), 0, s); GraphInv(T, h, owner) && Popped(h, posn)
  {
    hide Positions, Automaton, Unique, Derivations, LinksAbove, Contiguous, Forest, LiveOwned, Outgrown;
    ChainBelow(g.items, g.tops[0], s);
    PositionsDown(g, g.tops[0], s);
    UpdateSplitInv(T, g, owner, s);
    var u := UpdateSplit(g, s);
    CutToLinks(u, 0, s);
    CutToFewer(u, 0, s);
    FewerInv(T, u, CutTo(u, 0, s), owner);
    SingleOutgrown(T, CutTo(u, 0, s));
    if s >= g.split {
      ResolvedBelow(g.items, g.split, g.tops[0], s);
    }
  }

  /** A reduction of the one stack finds its right-hand side with values. */
  lemma RhsIsValued(T: Tables, g: Graph, posn: nat, owner: map<int, int>, r: nat)
    requires T.Ranges() && EdgesOk(T) && GraphInv(T, g, owner) && Single(g, posn)
    requires Step(g.items, g.tops[0]) && Reducible(T, g.items[g.tops[0]].lr, r)
    ensures 1 < r < T.Rules()
    ensures forall k {:trigger Walk(g.items, g.tops[0], k)} | 0 <= k < T.r2[r] ::
      Step(g.items, Walk(g.items, g.tops[0], k)) && g.items[Walk(g.items, g.tops[0], k)].sem.Resolved?
  {
    hide Positions, Automaton, Unique, Derivations, LinksAbove, Forest, LiveOwned, Reducible, EdgesOk, Goto, Walk,
      OnChain, ResolvedAbove;
    var top := g.tops[0];
    ReductionIsLegal(T, g.items, top, r);
    forall k {:trigger Walk(g.items, top, k)} | 0 <= k < T.r2[r]
      ensures Step(g.items, Walk(g.items, top, k)) && g.items[Walk(g.items, top, k)].sem.Resolved?
    {
      StepBelow(g.items, top, k, T.r2[r]);
      WalkOnChain(g.items, top, k);
      var c := Walk(g.items, top, k);
      if g.split != NULL && c > g.split {
        ResolvedOnChain(g.items, g.split, top, c);
      }
    }
  }

  /** What a reduction of the one stack pushes may follow. */
  lemma ReducedFollows(T: Tables, g: Graph, h: Graph, posn: nat, owner: map<int, int>, r: nat, lr: nat)
    requires T.Ranges() && EdgesOk(T) && Acyclic(T) && GraphInv(T, g, owner) && Single(g, posn)
    requires Step(g.items, g.tops[0]) && Reducible(T, g.items[g.tops[0]].lr, r) && 1 < r < T.Rules()
    requires Popped(h, posn) && h.items[h.tops[0]].posn == PosnAt(g.items, Walk(g.items, g.tops[0], T.r2[r]))
    requires lr < T.States() && T.stos[lr] == T.r1[r]
    ensures MayFollow(T, h, h.tops[0], lr, posn)
  {
    hide Links, Positions, Unique, Derivations, GlrOptions.Tidy, LiveOwned, Reducible, EdgesOk, Walk, PosnAt, Acyclic,
      Skeleton, Rooted, KeyOf, Automaton, ResolvedAbove;
    ReductionDerives(T, g.items, g.tops[0], r);
  }

  // ---------------------------------------------------------------- resolving the whole stack

  /** The states above the split point derive less than all of the input so far and one token. */
  lemma {:induction false} StackStretch(E: GlrValues.Setting, rk: Ranking, g: Graph, i: int, n: nat, m: nat)
    requires Links(g) && Positions(g.items) && 0 <= g.split <= i < |g.items| && g.items[i].State?
    requires g.items[i].posn <= m
    requires n <= |Above(g.items, g.split, i)|
    ensures GlrValues.Stretch(E, rk, g.items, i, n, Key(0, 0, m + 1))
    decreases i
  {
    hide Links, Positions, LinksAbove;
    AboveCount(g, i);
    if n > 0 {
      var p := g.items[i].pred;
      OneDown(g, i);
      StackStretch(E, rk, g, p, n - 1, m);
      forall k {:trigger Walk(g.items, i, k)} | 0 <= k < n
        ensures Step(g.items, Walk(g.items, i, k))
        ensures Less(rk, KeyOf(E.T, g.items, Walk(g.items, i, k)), Key(0, 0, m + 1))
      {
        if k > 0 {
          assert Walk(g.items, i, k) == Walk(g.items, p, k - 1);
        }
      }
    }
  }

  lemma OneDown(g: Graph, i: int)
    requires Positions(g.items) && Step(g.items, i) && 0 <= g.items[i].pred && g.items[g.items[i].pred].State?
    ensures g.items[g.items[i].pred].posn <= g.items[i].posn
  {
  }

  /** The values of the one stack can be resolved. */
  lemma CanResolve(E: GlrValues.Setting, g: Graph, n: nat, posn: nat)
    requires E.T.Ranges() && GlrValues.Good(E, RankOf(E.T)) && GraphLoose(E.T, g)
    requires |g.tops| == 1 && g.tops[0] != NULL && g.split != NULL && Current(g, 0, posn)
    requires n == |Above(g.items, g.split, g.tops[0])|
    ensures GlrValues.Ready(E, RankOf(E.T), g.items, g.items)
    ensures GlrValues.Stretch(E, RankOf(E.T), g.items, g.tops[0], n, Key(0, 0, posn + 1))
  {
    hide Positions, Automaton, Skeleton, Above, GlrOptions.Tidy, GlrOptions.NoneEmpty, NonCyclic;
    StackStretch(E, RankOf(E.T), g, g.tops[0], n, posn);
  }

  lemma TopInRange(T: Tables, g: Graph, i: int)
    requires T.Ranges() && Links(g) && Automaton(T, g.items) && 0 <= i < |g.items| && g.items[i].State?
    ensures g.items[i].lr < T.States()
  {
    StatesStep(g, i);
    var p := LrChain(g.items, i);
    assert Stack(T, p) && p[|p|-1] == g.items[i].lr;
  }
}
