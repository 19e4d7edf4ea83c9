/** The invariants of the graph-structured stack together, and the compound operations
    that keep them: a deferred reduction, merged or pushed, and a shift. */
module GlrInvariants {
  import opened LrTables
  import opened GlrGraph
  import opened GlrOps
  import opened GlrForest
  import opened GlrRanks
  import GlrOptions

  /** The invariants of the graph as a set of stacks. */
  ghost predicate GraphCore(T: Tables, g: Graph, owner: map<int, int>)
    requires T.Ranges()
  {
    Links(g) && Positions(g.items) && Automaton(T, g.items) && Unique(g) && Derivations(T, g.items, owner)
    && LiveOwned(g, owner)
  }

  /** All invariants of the graph. */
  ghost predicate GraphInv(T: Tables, g: Graph, owner: map<int, int>)
    requires T.Ranges()
  {
    GraphCore(T, g, owner) && Forest(T, g.items) && Outgrown(T, g)
  }

  /** The invariants but for who owns which option, and for uniqueness. */
  ghost predicate GraphLoose(T: Tables, g: Graph)
    requires T.Ranges()
  {
    Links(g) && Positions(g.items) && Automaton(T, g.items) && Forest(T, g.items)
  }

  /** No state has got a value, or a new one. */
  ghost predicate NoNewValues(items: seq<Item>, items': seq<Item>) {
    forall i {:trigger items'[i]} | 0 <= i < |items'| && items'[i].State? && items'[i].sem.Resolved? ::
      i < |items| && items[i] == items'[i]
  }

  /** Stack k is live, and has shifted as many tokens as the parser. */
  ghost predicate Current(g: Graph, k: int, posn: nat) {
    && 0 <= k < |g.tops|
    && (g.tops[k] != NULL ==>
          0 <= g.tops[k] < |g.items| && g.items[g.tops[k]].State? && g.items[g.tops[k]].posn == posn)
  }

  ghost predicate AllCurrent(g: Graph, posn: nat) {
    forall k {:trigger Current(g, k, posn)} | 0 <= k < |g.tops| :: Current(g, k, posn)
  }

  lemma UpdateSplitCurrent(g: Graph, s: int, posn: nat)
    requires AllCurrent(g, posn)
    ensures AllCurrent(UpdateSplit(g, s), posn)
  {
    var h := UpdateSplit(g, s);
    forall k {:trigger Current(h, k, posn)} | 0 <= k < |h.tops|
      ensures Current(h, k, posn)
    {
      assert Current(g, k, posn);
    }
  }

  lemma UpdateSplitInv(T: Tables, g: Graph, owner: map<int, int>, s: int)
    requires T.Ranges() && GraphInv(T, g, owner) && 0 <= s < |g.items|
    ensures GraphInv(T, UpdateSplit(g, s), owner)
  {
    hide Forest, Live, Positions, Automaton, Derivations, Outgrown;
    UpdateSplitLinks(g, s);
    UpdateSplitUnique(g, s);
    var h := UpdateSplit(g, s);
    forall t
      ensures Live(h, t) == Live(g, t)
    {
      SameLive(g, h, t);
    }
    FewerOutgrown(T, g, h);
  }

  lemma FewerInv(T: Tables, g: Graph, g': Graph, owner: map<int, int>)
    requires T.Ranges() && GraphCore(T, g, owner) && Fewer(g, g') && Links(g')
    ensures GraphCore(T, g', owner)
  {
    hide Links, Live, Positions, Automaton, Derivations, LiveOwned;
    FewerUnique(g, g');
    FewerLiveOwned(g, g', owner);
  }

  // ---------------------------------------------------------------- deferred reductions

  /** The ingredients of a deferred reduction by r on stack k: its top s0, the state s
      below the right-hand side, and the goto lr. */
  ghost predicate Reduction(T: Tables, g: Graph, k: nat, r: nat, s0: int, s: int, lr: nat, posn: nat)
    requires T.Ranges()
  {
    && k < |g.tops| && g.tops[k] == s0 && g.split != NULL
    && Step(g.items, s0) && g.items[s0].posn == posn
    && 1 < r < T.Rules()
    && s == Walk(g.items, s0, T.r2[r]) && Step(g.items, s) && OnChain(g.items, s0, s) && g.split <= s
    && lr == Goto(T, g.items[s].lr, T.r1[r]) && (g.items[s].lr, T.r1[r], lr) in T.edges
  }

  /** yyglrReduce when the state is there already: one more option for it, one stack less. */
  function Merged(g: Graph, k: nat, p: int, r: nat, s0: int, rawchar: int): Graph
    requires k < |g.tops| && 0 <= p < |g.items| && g.items[p].State? && g.items[p].sem.Unresolved?
  {
    MarkDeleted(AddOption(g, p, r, s0, rawchar), k)
  }

  /** yyglrReduce otherwise: a new state on top of s, with one option. */
  function Pushed(g: Graph, k: nat, s: int, lr: nat, posn: nat, r: nat, s0: int, rawchar: int): Graph
    requires k < |g.tops|
  {
    AddOption(AddState(CutTo(g, k, s), k, lr, posn, Unresolved(NULL)), |g.items|, r, s0, rawchar)
  }

  lemma MergedDerives(T: Tables, g: Graph, k: nat, r: nat, s0: int, s: int, lr: nat, posn: nat, p: int, rawchar: int)
    requires T.Ranges() && Links(g) && Positions(g.items) && Reduction(T, g, k, r, s0, s, lr, posn)
    requires Target(g, p, lr, s, posn) && g.items[p].posn == posn
    ensures Derives(T, g.items, Opt(r, s0, rawchar, NULL), p)
  {
    hide Goto;
    StatesStep(g, p);
  }

  lemma MergedCore(T: Tables, g: Graph, posn: nat, owner: map<int, int>,
                   k: nat, r: nat, s0: int, s: int, lr: nat, p: int, rawchar: int)
    requires T.Ranges() && GraphCore(T, g, owner) && Reduction(T, g, k, r, s0, s, lr, posn)
    requires Target(g, p, lr, s, posn) && g.items[p].posn == posn && g.items[p].sem.Unresolved? && Live(g, p)
    ensures GraphCore(T, Merged(g, k, p, r, s0, rawchar), owner[|g.items| := p])
  {
    hide Positions, Automaton, Unique, Derivations, Derives, Walk, OnChain, Goto, LiveOwned, Live;
    MergedDerives(T, g, k, r, s0, s, lr, posn, p, rawchar);
    AddOptionLinks(g, p, r, s0, rawchar);
    AddOptionPositions(g, p, r, s0, rawchar);
    AddOptionAutomaton(T, g, p, r, s0, rawchar);
    AddOptionUnique(g, p, r, s0, rawchar);
    AddOptionDerivations(T, g, p, r, s0, rawchar, owner);
    OwnersBelow(T, g, owner);
    AddOptionLiveOwned(g, p, r, s0, rawchar, owner);
    var h := AddOption(g, p, r, s0, rawchar);
    MarkDeletedFewer(h, k);
    FewerInv(T, h, MarkDeleted(h, k), owner[|g.items| := p]);
  }

  lemma OwnersBelow(T: Tables, g: Graph, owner: map<int, int>)
    requires T.Ranges() && Derivations(T, g.items, owner)
    ensures forall o | o in owner :: o < |g.items|
  {
    hide Derives;
  }

  /** A reduction to an LR state stands for what its derivation does. */
  lemma ReductionKey(T: Tables, g: Graph, k: nat, r: nat, s0: int, s: int, lr: nat, posn: nat)
    requires T.Ranges() && EdgesOk(T) && Reduction(T, g, k, r, s0, s, lr, posn)
    ensures PosnAt(g.items, Walk(g.items, s0, T.r2[r])) == g.items[s].posn && lr < T.States() && T.stos[lr] == T.r1[r]
    ensures !IsToken(T, T.r1[r])
    ensures 0 <= s0 < |g.items| && g.items[s0].State? && g.items[s0].posn == posn && 1 < r < T.Rules()
    ensures 0 <= s < |g.items| && g.items[s].State? && OnChain(g.items, s0, s) && s == Walk(g.items, s0, T.r2[r])
  {
    hide Goto;
  }

  lemma MergedForest(T: Tables, g: Graph, posn: nat, owner: map<int, int>,
                     k: nat, r: nat, s0: int, s: int, lr: nat, p: int, rawchar: int)
    requires T.Ranges() && EdgesOk(T) && GraphInv(T, g, owner) && Reduction(T, g, k, r, s0, s, lr, posn)
    requires Reducible(T, g.items[s0].lr, r) && CanAddOption(g, p, s0)
    requires Target(g, p, lr, s, posn) && g.items[p].posn == posn && g.items[p].sem.Unresolved?
    ensures Forest(T, AddOption(g, p, r, s0, rawchar).items)
  {
    hide Reduction, GraphCore, Reducible, Forest, Skeleton, Goto, EdgesOk, Walk, Rooted, KeyOf, Extends, GrowsWell,
      Automaton, OnChain, Positions, Links;
    var items, items', n := g.items, AddOption(g, p, r, s0, rawchar).items, |g.items|;
    ReductionKey(T, g, k, r, s0, s, lr, posn);
    CoreParts(T, g, owner, k, r, s0, s, lr, posn);
    ForestParts(T, items);
    ReductionDerives(T, items, s0, r);
    AddOptionExtends(g, p, r, s0, rawchar);
    FirstKey(T, items, p);
    OptionAdded(T, items, items', p, r, s0, s, lr, rawchar);
    KeyFrame(T, RankOf(T), items, items', items[p].sem.firstVal);
    KeyFrame(T, RankOf(T), items, items', p);
    MergedGrows(T, items, items', p);
    ForestGrows(T, items, items');
  }

  lemma ForestParts(T: Tables, items: seq<Item>)
    requires T.Ranges() && Forest(T, items)
    ensures Skeleton(T, RankOf(T), items)
  {
  }

  lemma FirstKey(T: Tables, items: seq<Item>, p: int)
    requires T.Ranges() && Forest(T, items) && 0 <= p < |items| && items[p].State? && items[p].sem.Unresolved?
    ensures 0 <= items[p].sem.firstVal < |items| && items[items[p].sem.firstVal].Opt?
    ensures KeyOf(T, items, items[p].sem.firstVal) == KeyOf(T, items, p)
  {
    hide KeyOf, Skeleton;
    assert Keys(T, items)(items[p].sem.firstVal) == Keys(T, items)(p);
  }

  lemma MergedGrows(T: Tables, items: seq<Item>, items': seq<Item>, p: int)
    requires T.Ranges() && Extends(items, items') && |items'| == |items| + 1 && 0 <= p < |items|
    requires items[p].State? && items[p].sem.Unresolved? && items'[p].sem == Unresolved(|items|)
    requires forall i | 0 <= i < |items| && i != p :: items'[i] == items[i]
    requires items'[|items|].Opt? && items'[|items|].next == items[p].sem.firstVal
    requires 0 <= items[p].sem.firstVal < |items| && items[items[p].sem.firstVal].Opt?
    requires Rooted(T, items', |items|) && KeyOf(T, items', |items|) == KeyOf(T, items', p)
    requires KeyOf(T, items', items[p].sem.firstVal) == KeyOf(T, items', p)
    ensures GrowsWell(T, items, items')
  {
    hide KeyOf, Rooted, Grounded, Extends;
    forall i {:trigger items'[i]} | 0 <= i < |items'| && items'[i].State? && items'[i].sem.Unresolved?
      && (i < |items| ==> items[i].sem != items'[i].sem)
      ensures i == p
    {
    }
  }

  lemma CoreParts(T: Tables, g: Graph, owner: map<int, int>, k: nat, r: nat, s0: int, s: int, lr: nat, posn: nat)
    requires T.Ranges() && GraphCore(T, g, owner) && Reduction(T, g, k, r, s0, s, lr, posn)
    ensures Links(g) && Positions(g.items) && Automaton(T, g.items) && Step(g.items, s0) && Step(g.items, s)
  {
  }

  /** The new option and the state that it is for stand for the same. */
  lemma OptionAdded(T: Tables, items: seq<Item>, items': seq<Item>, p: int, r: nat, s0: int, s: int, lr: nat,
                    rawchar: int)
    requires T.Ranges() && Extends(items, items') && |items'| == |items| + 1
    requires 0 <= s0 < |items| && items[s0].State? && 1 < r < T.Rules() && s == Walk(items, s0, T.r2[r])
    requires Rooted(T, WithOption(items, s0, r), |items|)
    requires items'[|items|].Opt? && items'[|items|].rule == r && items'[|items|].state == s0
    requires 0 <= p < |items| && items[p].State? && items[p].pred == s && items[p].lr == lr
    requires items[p].posn == items[s0].posn
    requires 0 <= s < |items| && items[s].State? && lr < T.States() && T.stos[lr] == T.r1[r]
    ensures Rooted(T, items', |items|) && KeyOf(T, items', |items|) == KeyOf(T, items', p)
  {
    SameRooted(T, items, items', r, s0);
    WalkFrame(items, items', s0, T.r2[r]);
    assert items'[s0].posn == items[s0].posn && items'[s].posn == items[s].posn && items'[p].pred == s;
  }

  /** Whether an option is rooted does not depend on where it is, or on what it is linked to. */
  lemma SameRooted(T: Tables, items: seq<Item>, items': seq<Item>, r: nat, s0: int)
    requires T.Ranges() && Extends(items, items') && |items| < |items'|
    requires 0 <= s0 < |items| && items[s0].State? && 1 < r < T.Rules()
    requires Rooted(T, WithOption(items, s0, r), |items|)
    ensures forall o {:trigger Rooted(T, items', o)} | |items| <= o < |items'| && items'[o].Opt? && items'[o].rule == r
      && items'[o].state == s0 :: Rooted(T, items', o)
  {
    var w, n := WithOption(items, s0, r), T.r2[r];
    forall k: nat
      ensures Walk(w, s0, k) == Walk(items', s0, k) == Walk(items, s0, k) < |items|
    {
      WalkFrame(items, w, s0, k);
      WalkFrame(items, items', s0, k);
    }
    forall o {:trigger Rooted(T, items', o)} | |items| <= o < |items'| && items'[o].Opt? && items'[o].rule == r
      && items'[o].state == s0
      ensures Rooted(T, items', o)
    {
      assert w[|items|].state == s0;
      forall k {:trigger Walk(items', s0, k)} | 0 <= k < n
        ensures Step(items', Walk(items', s0, k)) && items'[Walk(items', s0, k)].lr < T.States()
        ensures T.stos[items'[Walk(items', s0, k)].lr] == T.rhs[r][n - 1 - k]
      {
        var c := Walk(w, s0, k);
        assert Step(w, c) && w[c] == items[c];
      }
      var b := Walk(w, s0, n);
      assert Step(w, b) && w[b] == items[b];
    }
  }

  lemma MergedInv(T: Tables, g: Graph, posn: nat, owner: map<int, int>,
                  k: nat, r: nat, s0: int, s: int, lr: nat, p: int, rawchar: int)
    requires T.Ranges() && EdgesOk(T) && GraphInv(T, g, owner) && Reduction(T, g, k, r, s0, s, lr, posn)
    requires Reducible(T, g.items[s0].lr, r) && Live(g, p)
    requires Target(g, p, lr, s, posn) && g.items[p].posn == posn && g.items[p].sem.Unresolved?
    ensures GraphInv(T, Merged(g, k, p, r, s0, rawchar), owner[|g.items| := p])
  {
    hide GraphCore, Forest, Reducible, EdgesOk, Live, Outgrown;
    MergedCore(T, g, posn, owner, k, r, s0, s, lr, p, rawchar);
    CanMerge(T, g, posn, owner, k, r, s0, s, lr, p);
    MergedForest(T, g, posn, owner, k, r, s0, s, lr, p, rawchar);
    ForestParts(T, g.items);
    CoreParts(T, g, owner, k, r, s0, s, lr, posn);
    MergedOutgrown(T, g, k, p, r, s0, rawchar);
  }

  lemma MergedOutgrown(T: Tables, g: Graph, k: nat, p: int, r: nat, s0: int, rawchar: int)
    requires T.Ranges() && Links(g) && Skeleton(T, RankOf(T), g.items) && Outgrown(T, g)
    requires CanAddOption(g, p, s0) && k < |g.tops|
    ensures Outgrown(T, Merged(g, k, p, r, s0, rawchar))
  {
    hide Links, Live, Outgrown, Extends, Skeleton;
    var a, h := AddOption(g, p, r, s0, rawchar), Merged(g, k, p, r, s0, rawchar);
    AddOptionExtends(g, p, r, s0, rawchar);
    MarkDeletedFewer(a, k);
    forall j | Live(h, j)
      ensures Live(g, j) && j < |g.items|
    {
      AddOptionLive(g, p, r, s0, rawchar, j);
      LiveInRange(g, j);
    }
    OutgrownStays(T, g, h, NULL);
  }

  lemma LiveInRange(g: Graph, j: int)
    requires Live(g, j)
    ensures 0 <= j < |g.items| && g.items[j].State?
  {
    var a :| 0 <= a < |g.tops| && OnChain(g.items, g.tops[a], j);
    ChainBelow(g.items, g.tops[a], j);
  }

  /** What is pushed derives more than any finished state beside it. */
  lemma PushedOutgrown(T: Tables, g: Graph, posn: nat, owner: map<int, int>,
                       k: nat, r: nat, s0: int, s: int, lr: nat, rawchar: int)
    requires T.Ranges() && EdgesOk(T) && Acyclic(T) && GraphInv(T, g, owner) && Reduction(T, g, k, r, s0, s, lr, posn)
    requires k < |g.tops| && Reducible(T, g.items[s0].lr, r)
    ensures Outgrown(T, Pushed(g, k, s, lr, posn, r, s0, rawchar))
  {
    hide GraphCore, Forest, Reducible, EdgesOk, Acyclic, Outgrown, Goto, Walk, OnChain, Live, Extends, Skeleton, KeyOf,
      Less, Links, Positions, Automaton, PosnAt;
    var h, n := Pushed(g, k, s, lr, posn, r, s0, rawchar), |g.items|;
    CoreParts(T, g, owner, k, r, s0, s, lr, posn);
    ForestParts(T, g.items);
    ReductionKey(T, g, k, r, s0, s, lr, posn);
    PushedItems(g, k, s, lr, posn, r, s0, rawchar);
    forall j | Live(h, j)
      ensures j == n || (Live(g, j) && j < n)
    {
      PushedLive(T, g, owner, k, r, s0, s, lr, posn, rawchar, j);
      if Live(g, j) {
        LiveInRange(g, j);
      }
    }
    PushedFinished(T, g, h);
    PushedKeyIs(T, g.items, h.items, s, lr, posn);
    forall p {:trigger Finished(T, h, p)} | Finished(T, h, p) && h.items[n].pred == h.items[p].pred >= 0
      ensures GrownPast(T, h.items, p, n)
    {
      FinishedWas(T, g, h, p);
      ReducedGrowsPast(T, g, k, r, p);
      KeyFrame(T, RankOf(T), g.items, h.items, p);
    }
    OutgrownStays(T, g, h, n);
  }

  lemma PushedItems(g: Graph, k: nat, s: int, lr: nat, posn: nat, r: nat, s0: int, rawchar: int)
    requires k < |g.tops|
    ensures var h := Pushed(g, k, s, lr, posn, r, s0, rawchar);
      && h.items == g.items + [State(lr, s, posn, Unresolved(|g.items| + 1)), Opt(r, s0, rawchar, NULL)]
      && h.tops == g.tops[k := |g.items|] && Extends(g.items, h.items)
  {
  }

  lemma PushedLive(T: Tables, g: Graph, owner: map<int, int>, k: nat, r: nat, s0: int, s: int, lr: nat, posn: nat,
                   rawchar: int, j: int)
    requires T.Ranges() && GraphCore(T, g, owner) && Reduction(T, g, k, r, s0, s, lr, posn)
    requires Live(Pushed(g, k, s, lr, posn, r, s0, rawchar), j)
    ensures j == |g.items| || Live(g, j)
  {
    hide Positions, Automaton, Unique, Derivations, LinksAbove, Contiguous, LiveOwned, Live, OnChain, Walk, Goto;
    var c := CutTo(g, k, s);
    CutToLinks(g, k, s);
    CutToFewer(g, k, s);
    var a := AddState(c, k, lr, posn, Unresolved(NULL));
    AddStateLinks(c, k, lr, posn, Unresolved(NULL));
    AddOptionLive(a, |g.items|, r, s0, rawchar, j);
    AddStateLive(c, k, lr, posn, Unresolved(NULL), j);
  }

  /** Only states of g are finished in h. */
  lemma PushedFinished(T: Tables, g: Graph, h: Graph)
    requires |h.items| > |g.items| && h.items[..|g.items|] == g.items && h.items[|g.items|].State?
    requires forall j | Live(h, j) :: j == |g.items| || (Live(g, j) && j < |g.items|)
    requires var c := h.items[|g.items|]; c.sem.Unresolved? || c.lr >= |T.stos| || T.stos[c.lr] < T.ntokens
    ensures forall p {:trigger Finished(T, h, p)} | Finished(T, h, p) ::
      p < |g.items| && h.items[p] == g.items[p] && Finished(T, g, p)
  {
    hide Live;
    forall p {:trigger Finished(T, h, p)} | Finished(T, h, p)
      ensures p < |g.items| && h.items[p] == g.items[p] && Finished(T, g, p)
    {
      if p < |g.items| {
        assert h.items[..|g.items|][p] == h.items[p];
      }
    }
  }

  lemma FinishedWas(T: Tables, g: Graph, h: Graph, p: int)
    requires Finished(T, h, p)
    requires forall q {:trigger Finished(T, h, q)} | Finished(T, h, q) ::
      q < |g.items| && h.items[q] == g.items[q] && Finished(T, g, q)
    ensures 0 <= p < |g.items| && h.items[p] == g.items[p] && Finished(T, g, p)
  {
    hide Live;
  }

  lemma PushedKeyIs(T: Tables, items: seq<Item>, items': seq<Item>, s: int, lr: nat, posn: nat)
    requires Extends(items, items') && |items| < |items'| && items'[|items|].State?
    requires 0 <= s < |items| && items[s].State? && lr < |T.stos|
    requires items'[|items|].lr == lr && items'[|items|].pred == s && items'[|items|].posn == posn
    ensures KeyOf(T, items', |items|) == Key(T.stos[lr], items[s].posn, posn)
  {
    assert items'[s] == items'[s];
  }

  /** A state for a token that is pushed is not finished, and stands beside none that is. */
  lemma ShiftedOutgrown(T: Tables, g: Graph, k: nat, lr: nat, posn: nat, val: int)
    requires T.Ranges() && Links(g) && Skeleton(T, RankOf(T), g.items) && Outgrown(T, g) && TopOk(g, k)
    requires 0 <= g.tops[k] && (lr < T.States() ==> T.stos[lr] < T.ntokens)
    ensures Outgrown(T, AddState(g, k, lr, posn, Resolved(val)))
  {
    hide Links, Live, Extends, Skeleton, KeyOf, Less;
    var h, n := AddState(g, k, lr, posn, Resolved(val)), |g.items|;
    AddStateExtends(g, k, lr, posn, Resolved(val));
    forall j | Live(h, j)
      ensures j == n || (Live(g, j) && j < n)
    {
      AddStateLive(g, k, lr, posn, Resolved(val), j);
      if Live(g, j) {
        LiveInRange(g, j);
      }
    }
    assert h.items[..n] == g.items;
    PushedFinished(T, g, h);
    forall p {:trigger Finished(T, h, p)} | Finished(T, h, p)
      ensures h.items[n].pred != h.items[p].pred
    {
      FinishedWas(T, g, h, p);
      assert g.items[p].pred != g.tops[k];
    }
    OutgrownStays(T, g, h, n);
  }

  /** A merge target is never finished: it would derive more than itself. */
  lemma TargetIsUnresolved(T: Tables, g: Graph, posn: nat, owner: map<int, int>,
                           k: nat, r: nat, s0: int, s: int, lr: nat, p: int)
    requires T.Ranges() && EdgesOk(T) && Acyclic(T) && GraphInv(T, g, owner) && Reduction(T, g, k, r, s0, s, lr, posn)
    requires k < |g.tops| && Reducible(T, g.items[s0].lr, r) && Live(g, p)
    requires Target(g, p, lr, s, posn) && g.items[p].posn == posn
    ensures g.items[p].sem.Unresolved?
  {
    hide GraphCore, Forest, Reducible, EdgesOk, Acyclic, Outgrown, Goto, Walk, OnChain, Live, Skeleton, Less, Links,
      Positions, Automaton;
    CoreParts(T, g, owner, k, r, s0, s, lr, posn);
    ForestParts(T, g.items);
    ReductionKey(T, g, k, r, s0, s, lr, posn);
    if g.items[p].sem.Resolved? {
      assert T.ntokens <= T.r1[r];
      assert Finished(T, g, p);
      ReducedGrowsPast(T, g, k, r, p);
      NotLessItself(RankOf(T), KeyOf(T, g.items, p));
    }
  }

  lemma CanMerge(T: Tables, g: Graph, posn: nat, owner: map<int, int>,
                 k: nat, r: nat, s0: int, s: int, lr: nat, p: int)
    requires T.Ranges() && GraphCore(T, g, owner) && Reduction(T, g, k, r, s0, s, lr, posn)
    requires Target(g, p, lr, s, posn) && g.items[p].sem.Unresolved?
    ensures CanAddOption(g, p, s0)
  {
  }

  lemma CutToLinks(g: Graph, k: nat, s: int)
    requires Links(g) && g.split != NULL && k < |g.tops| && g.split <= s < |g.items| && g.items[s].State?
    ensures Links(CutTo(g, k, s))
  {
  }

  lemma PushedDerives(T: Tables, g: Graph, k: nat, r: nat, s0: int, s: int, lr: nat, posn: nat, rawchar: int)
    requires T.Ranges() && Links(g) && Reduction(T, g, k, r, s0, s, lr, posn)
    ensures var h := AddState(CutTo(g, k, s), k, lr, posn, Unresolved(NULL));
            Derives(T, h.items, Opt(r, s0, rawchar, NULL), |g.items|)
  {
    hide Goto, LinksAbove, Contiguous;
    var h := AddState(CutTo(g, k, s), k, lr, posn, Unresolved(NULL));
    AddStateExtends(CutTo(g, k, s), k, lr, posn, Unresolved(NULL));
    WalkFrame(g.items, h.items, s0, T.r2[r]);
  }

  lemma PushedStateCore(T: Tables, g: Graph, posn: nat, owner: map<int, int>,
                        k: nat, r: nat, s0: int, s: int, lr: nat)
    requires T.Ranges() && EdgesOk(T) && GraphCore(T, g, owner) && Reduction(T, g, k, r, s0, s, lr, posn)
    requires NoSuchState(CutTo(g, k, s), lr, s, posn)
    ensures GraphCore(T, AddState(CutTo(g, k, s), k, lr, posn, Unresolved(NULL)), owner)
  {
    hide Automaton, Unique, Derivations, Walk, Goto, NoSuchState, LinksAbove, Contiguous, OnChain, LiveOwned, Live;
    var c := CutTo(g, k, s);
    CutToLinks(g, k, s);
    CutToFewer(g, k, s);
    FewerInv(T, g, c, owner);
    PositionsDown(g, s0, s);
    AddStateLinks(c, k, lr, posn, Unresolved(NULL));
    AddStatePositions(c, k, lr, posn, Unresolved(NULL));
    AddStateAutomaton(T, c, k, lr, posn, Unresolved(NULL));
    AddStateUnique(c, k, lr, posn, Unresolved(NULL));
    AddStateDerivations(T, c, k, lr, posn, Unresolved(NULL), owner);
    AddStateLiveOwned(c, k, lr, posn, Unresolved(NULL), owner);
  }

  lemma PushedCore(T: Tables, g: Graph, posn: nat, owner: map<int, int>,
                   k: nat, r: nat, s0: int, s: int, lr: nat, rawchar: int)
    requires T.Ranges() && EdgesOk(T) && GraphCore(T, g, owner) && Reduction(T, g, k, r, s0, s, lr, posn)
    requires NoSuchState(CutTo(g, k, s), lr, s, posn)
    ensures GraphCore(T, Pushed(g, k, s, lr, posn, r, s0, rawchar), owner[|g.items| + 1 := |g.items|])
  {
    hide Positions, Automaton, Unique, Derivations, Derives, Walk, OnChain, Goto, NoSuchState, LinksAbove, Contiguous,
      LiveOwned, Live;
    PushedStateCore(T, g, posn, owner, k, r, s0, s, lr);
    PushedDerives(T, g, k, r, s0, s, lr, posn, rawchar);
    var h := AddState(CutTo(g, k, s), k, lr, posn, Unresolved(NULL));
    AddOptionLinks(h, |g.items|, r, s0, rawchar);
    AddOptionPositions(h, |g.items|, r, s0, rawchar);
    AddOptionAutomaton(T, h, |g.items|, r, s0, rawchar);
    AddOptionUnique(h, |g.items|, r, s0, rawchar);
    AddOptionDerivations(T, h, |g.items|, r, s0, rawchar, owner);
    OwnersBelow(T, h, owner);
    AddOptionLiveOwned(h, |g.items|, r, s0, rawchar, owner);
  }

  lemma PushedForest(T: Tables, g: Graph, posn: nat, owner: map<int, int>,
                     k: nat, r: nat, s0: int, s: int, lr: nat, rawchar: int)
    requires T.Ranges() && EdgesOk(T) && Acyclic(T) && GraphInv(T, g, owner) && Reduction(T, g, k, r, s0, s, lr, posn)
    requires Reducible(T, g.items[s0].lr, r) && k < |g.tops|
    ensures Forest(T, Pushed(g, k, s, lr, posn, r, s0, rawchar).items)
  {
    hide Reduction, GraphCore, Reducible, Forest, Skeleton, Goto, EdgesOk, Walk, Rooted, KeyOf, Acyclic, GrowsWell,
      Automaton, OnChain, Positions, Links, Grounded;
    var items, items', n := g.items, Pushed(g, k, s, lr, posn, r, s0, rawchar).items, |g.items|;
    ReductionKey(T, g, k, r, s0, s, lr, posn);
    CoreParts(T, g, owner, k, r, s0, s, lr, posn);
    ForestParts(T, items);
    ReductionDerives(T, items, s0, r);
    PositionsDown(g, s0, s);
    assert items' == items + [State(lr, s, posn, Unresolved(n + 1)), Opt(r, s0, rawchar, NULL)];
    assert Extends(items, items');
    SameRooted(T, items, items', r, s0);
    PushedKey(T, items, items', r, s0, s, lr);
    NewGrounded(T, items', n, s);
    PushedGrows(T, items, items');
    ForestGrows(T, items, items');
  }

  lemma NewGrounded(T: Tables, items: seq<Item>, i: int, s: int)
    requires T.Ranges() && 0 <= s < i < |items| && items[i].State? && items[i].pred == s && items[s].State?
    requires items[i].lr < T.States() && items[s].posn <= items[i].posn
    requires items[s].posn == items[i].posn ==> RankOf(T).nullable(T.stos[items[i].lr])
    requires IsToken(T, T.stos[items[i].lr]) ==> items[i].posn == items[s].posn + 1
    ensures Grounded(T, RankOf(T), items, i)
  {
  }

  lemma PushedKey(T: Tables, items: seq<Item>, items': seq<Item>, r: nat, s0: int, s: int, lr: nat)
    requires T.Ranges() && Extends(items, items') && |items'| == |items| + 2
    requires 0 <= s0 < |items| && items[s0].State? && 1 < r < T.Rules() && s == Walk(items, s0, T.r2[r])
    requires 0 <= s < |items| && items[s].State? && lr < T.States() && T.stos[lr] == T.r1[r]
    requires items'[|items|].State? && items'[|items|].lr == lr && items'[|items|].pred == s
    requires items'[|items|].posn == items[s0].posn
    requires items'[|items| + 1].Opt? && items'[|items| + 1].rule == r && items'[|items| + 1].state == s0
    ensures KeyOf(T, items', |items| + 1) == KeyOf(T, items', |items|)
  {
    WalkFrame(items, items', s0, T.r2[r]);
    assert items'[s].posn == items[s].posn && items'[s0].posn == items[s0].posn;
  }

  lemma PushedGrows(T: Tables, items: seq<Item>, items': seq<Item>)
    requires T.Ranges() && |items'| == |items| + 2 && items == items'[..|items|]
    requires items'[|items|].State? && items'[|items|].sem == Unresolved(|items| + 1)
    requires items'[|items| + 1].Opt? && items'[|items| + 1].next == NULL
    requires Grounded(T, RankOf(T), items', |items|) && Rooted(T, items', |items| + 1)
    requires KeyOf(T, items', |items| + 1) == KeyOf(T, items', |items|)
    ensures GrowsWell(T, items, items')
  {
    hide KeyOf, Rooted, Grounded;
    assert forall i | 0 <= i < |items| :: items'[i] == items[i];
  }

  lemma PushedInv(T: Tables, g: Graph, posn: nat, owner: map<int, int>,
                  k: nat, r: nat, s0: int, s: int, lr: nat, rawchar: int)
    requires T.Ranges() && EdgesOk(T) && Acyclic(T) && GraphInv(T, g, owner) && Reduction(T, g, k, r, s0, s, lr, posn)
    requires k < |g.tops| && Reducible(T, g.items[s0].lr, r) && NoSuchState(CutTo(g, k, s), lr, s, posn)
    ensures GraphInv(T, Pushed(g, k, s, lr, posn, r, s0, rawchar), owner[|g.items| + 1 := |g.items|])
  {
    hide GraphCore, Forest, Reducible, EdgesOk, Acyclic, NoSuchState, Reduction, Outgrown, Goto, Walk, OnChain;
    PushedCore(T, g, posn, owner, k, r, s0, s, lr, rawchar);
    PushedForest(T, g, posn, owner, k, r, s0, s, lr, rawchar);
    PushedOutgrown(T, g, posn, owner, k, r, s0, s, lr, rawchar);
  }

  lemma SplitStackInv(T: Tables, g: Graph, owner: map<int, int>, k: nat)
    requires T.Ranges() && GraphInv(T, g, owner) && k < |g.tops| && g.tops[k] != NULL
    ensures GraphInv(T, SplitStack(g, k), owner)
  {
    hide Forest, Links, Live, Positions, Automaton, Derivations, Outgrown;
    SplitStackLinks(g, k);
    SplitStackUnique(g, k);
    forall j
      ensures Live(SplitStack(g, k), j) == Live(g, j)
    {
      SplitStackLive(g, k, j);
    }
    FewerOutgrown(T, g, SplitStack(g, k));
  }

  lemma SurvivorsInv(T: Tables, g: Graph, owner: map<int, int>)
    requires T.Ranges() && GraphInv(T, g, owner) && g.split != NULL
    ensures GraphInv(T, g.(tops := Survivors(g.tops)), owner)
  {
    hide Forest, Live, Positions, Automaton, Derivations, Unique, LinksAbove, Contiguous, LiveOwned, Outgrown;
    var g' := g.(tops := Survivors(g.tops));
    SurvivorsFewer(g);
    forall k {:trigger g'.tops[k]} | 0 <= k < |g'.tops|
      ensures exists a {:trigger g.tops[a]} | 0 <= a < |g.tops| :: g.tops[a] == g'.tops[k]
    {
      SurvivorIn(g.tops, k);
    }
    FewerInv(T, g, g', owner);
    FewerOutgrown(T, g, g');
  }

  lemma SurvivorIn(tops: seq<int>, k: nat)
    requires k < |Survivors(tops)|
    ensures Survivors(tops)[k] != NULL
    ensures exists a {:trigger tops[a]} | 0 <= a < |tops| :: tops[a] == Survivors(tops)[k]
  {
    SurvivorsAre(tops);
    assert Survivors(tops)[k] in Survivors(tops);
  }

  // ---------------------------------------------------------------- derivation soundness

  lemma {:induction false} ChainOwned(items: seq<Item>, owner: map<int, int>, first: int, o: int)
    requires Owned(items, owner) && first in owner && o in GlrOptions.Chain(items, first)
    ensures o in owner && owner[o] == owner[first]
    decreases first
  {
    if o != first {
      assert 0 <= first < |items| && items[first].next < first;
      if items[first].next == NULL {
        assert GlrOptions.Chain(items, NULL) == [];
      } else {
        ChainOwned(items, owner, items[first].next, o);
      }
    }
  }

  /** Every option in the list of a live state without a value is a derivation of that state:
      from the option's state, as many links down as the rule is long lead to the state's
      predecessor, past states for the symbols of the right-hand side; the state is the goto
      on the left-hand side; and option and state derive the same from the same stretch. */
  lemma LiveDerivations(T: Tables, g: Graph, owner: map<int, int>, s: int, o: int)
    requires T.Ranges() && GraphInv(T, g, owner) && 0 <= s < |g.items| && Live(g, s) && g.items[s].State?
    requires g.items[s].sem.Unresolved? && o in GlrOptions.Chain(g.items, g.items[s].sem.firstVal)
    ensures 0 <= o < |g.items| && Derives(T, g.items, g.items[o], s) && Rooted(T, g.items, o)
    ensures KeyOf(T, g.items, o) == KeyOf(T, g.items, s)
  {
    hide Derives, Rooted, Grounded, KeyOf, Outgrown, Unique, Automaton, Positions, Links, Live;
    var first := g.items[s].sem.firstVal;
    FirstKey(T, g.items, s);
    assert first in owner && owner[first] == s;
    ChainOwned(g.items, owner, first, o);
    GlrOptions.TidyChain(g.items, Keys(T, g.items), first);
    assert Keys(T, g.items)(o) == Keys(T, g.items)(first);
    GlrOptions.ChainDecreases(g.items, first);
    assert Derives(T, g.items, g.items[o], owner[o]);
  }
}
