/** The GLR stack as the source keeps it: one growing array of items with a free pointer
    and a count of the space left, and every operation on it. */
module GlrStack {
  import opened LrTables
  import opened GlrGraph
  import opened GlrOps
  import opened GlrInvariants
  import opened GlrDeferred
  import opened GlrRanks
  import opened GlrForest

  const HEADROOM: nat := 2     // YYHEADROOM

  /** GLR tables: the LALR tables plus, per state and token, the conflicting reductions. */
  datatype GlrTables = GlrTables(lalr: Tables, conflicts: (nat, nat) -> seq<nat>)

  /** The tables are valid, and those of a grammar without cycles. */
  ghost predicate ValidGlr(G: GlrTables)
  {
    && ValidTables(G.lalr) && Acyclic(G.lalr)
    && (forall s: nat, x: nat, r {:trigger r in G.conflicts(s, x)} |
          s < G.lalr.States() && s != G.lalr.final && x < G.lalr.ntokens && r in G.conflicts(s, x) ::
          Reducible(G.lalr, s, r))
  }

  /** How an operation ends. */
  datatype Status = Ok | Exhausted | OutOfFuel | Abort | Accept | ActionAccept | UserError | DeferredError

  /** One step down a chain in the search for a merge target. */
  lemma GoDown(g: GlrGraph.Graph, a: int, p: int, lr: nat, s: int, posn: nat)
    requires Links(g) && 0 <= g.split < p < |g.items| && g.items[p].State? && 0 <= a < |g.tops|
    requires OnChain(g.items, g.tops[a], p) && NoTargetAbove(g, a, p, lr, s, posn)
    requires !Target(g, p, lr, s, posn)
    ensures var q := g.items[p].pred;
      && g.split <= q < p && g.items[q].State?
      && OnChain(g.items, g.tops[a], q) && NoTargetAbove(g, a, q, lr, s, posn)
  {
    var q := g.items[p].pred;
    StatesStep(g, p);
    StatesStep(g, q);
    ChainInChain(g.items, g.tops[a], p, q);
    forall j {:trigger OnChain(g.items, g.tops[a], j)} | q < j && OnChain(g.items, g.tops[a], j)
      ensures !Target(g, j, lr, s, posn)
    {
      if j < p {
        ChainSplits(g.items, g.tops[a], p, j);
        ChainBelow(g.items, q, j);
      }
    }
  }

  lemma WalkStep(items: seq<Item>, s: int, n: nat)
    requires 0 < n && GlrGraph.Step(items, s) && GlrGraph.Step(items, Walk(items, s, n))
    ensures GlrGraph.Step(items, items[s].pred) && Walk(items, items[s].pred, n - 1) == Walk(items, s, n)
  {
    var p := items[s].pred;
    assert Walk(items, s, n) == Walk(items, p, n - 1);
    assert !GlrGraph.Step(items, NULL);
  }

  lemma InvParts(T: Tables, g: GlrGraph.Graph, posn: nat, owner: map<int, int>,
                 k: nat, r: nat, s0: int, s: int, lr: nat)
    requires T.Ranges() && GraphInv(T, g, owner) && Reduction(T, g, k, r, s0, s, lr, posn)
    ensures Links(g) && Positions(g.items) && g.split != NULL
    ensures 0 <= s0 < |g.items| && g.items[s0].State? && g.items[s0].posn == posn
    ensures g.split <= s < |g.items| && g.items[s].State? && OnChain(g.items, g.tops[k], s) && g.tops[k] == s0
      && g.split <= s0
    ensures FinalOk(T) ==> lr != T.final
    ensures forall a {:trigger g.tops[a]} | 0 <= a < |g.tops| :: g.tops[a] < |g.items|
  {
  }

  /** What the search finds has the present position: it is on a live stack. */
  lemma TargetIsCurrent(g: GlrGraph.Graph, on: int, p: int, lr: nat, s: int, posn: nat)
    requires Target(g, p, lr, s, posn) && Positions(g.items) && AllCurrent(g, posn)
    requires 0 <= on < |g.tops| && OnChain(g.items, g.tops[on], p)
    ensures 0 <= p < |g.items| && g.items[p].State? && g.split < p && g.items[p].posn == posn
  {
    assert Current(g, on, posn);
    PositionsDown(g, g.tops[on], p);
  }

  lemma TargetIsLive(g: GlrGraph.Graph, on: int, p: int)
    requires 0 <= on < |g.tops| && OnChain(g.items, g.tops[on], p)
    ensures Live(g, p)
  {
  }

  lemma MergedKept(g: GlrGraph.Graph, k: nat, p: int, r: nat, s0: int, rawchar: int)
    requires k < |g.tops| && TopsDistinct(g.tops, k)
    requires 0 <= p < |g.items| && g.items[p].State? && g.items[p].sem.Unresolved?
    ensures var g' := Merged(g, k, p, r, s0, rawchar);
      && g'.split == g.split && |g'.tops| == |g.tops| && g'.tops[k] == NULL
      && (forall a {:trigger g'.tops[a]} | 0 <= a < |g.tops| && a != k :: g'.tops[a] == g.tops[a])
      && TopsDistinct(g'.tops, -1) && Extends(g.items, g'.items)
  {
  }

  lemma PushedKept(g: GlrGraph.Graph, k: nat, s: int, lr: nat, posn: nat, r: nat, s0: int, rawchar: int)
    requires k < |g.tops| && TopsDistinct(g.tops, k)
    requires forall a {:trigger g.tops[a]} | 0 <= a < |g.tops| :: g.tops[a] < |g.items|
    ensures var g' := Pushed(g, k, s, lr, posn, r, s0, rawchar);
      && g'.split == g.split && |g'.tops| == |g.tops| && g'.tops[k] == |g.items|
      && |g'.items| == |g.items| + 2
      && g'.items[|g.items|].State? && g'.items[|g.items|].posn == posn && g'.items[|g.items|].lr == lr
      && g'.items[|g.items|].pred == s
      && (forall a {:trigger g'.tops[a]} | 0 <= a < |g.tops| && a != k :: g'.tops[a] == g.tops[a])
      && TopsDistinct(g'.tops, -1) && Extends(g.items, g'.items)
  {
  }

  lemma ReductionReduces(T: Tables, g: GlrGraph.Graph, k: nat, r: nat, s0: int, s: int, lr: nat, posn: nat)
    requires T.Ranges() && Reduction(T, g, k, r, s0, s, lr, posn)
    ensures LrChain(g.items, s) + [lr] == ReducedChain(T, LrChain(g.items, s0), r)
  {
    hide Goto;
    PushReduces(T, g.items, s0, r, s, lr);
  }

  lemma PushedChain(g: GlrGraph.Graph, k: nat, s: int, lr: nat, posn: nat, r: nat, s0: int, rawchar: int)
    requires k < |g.tops| && Links(g) && 0 <= s < |g.items| && g.items[s].State?
    ensures LrChain(Pushed(g, k, s, lr, posn, r, s0, rawchar).items, |g.items|) == LrChain(g.items, s) + [lr]
  {
    hide Contiguous, LinksAbove;
    var h := Pushed(g, k, s, lr, posn, r, s0, rawchar);
    ChainFrame(g.items, h.items, s, s);
    assert GlrGraph.Step(h.items, |g.items|);
  }

  lemma SplitPoint(T: Tables, g: GlrGraph.Graph, owner: map<int, int>, k: nat)
    requires T.Ranges() && GraphInv(T, g, owner) && k < |g.tops| && g.tops[k] != NULL
    ensures SplitStack(g, k).split != NULL
  {
  }

  /** Any stack there is or was, on its own. */
  lemma SingleStackLoose(T: Tables, g: GlrGraph.Graph, owner: map<int, int>, t: int)
    requires T.Ranges() && GraphInv(T, g, owner) && g.split != NULL
    requires g.split <= t < |g.items| && g.items[t].State?
    ensures GraphLoose(T, g.(tops := [t]))
  {
    hide Positions, Automaton, Derivations, Forest, Unique, LiveOwned, Outgrown;
  }

  lemma SearchStarts(g: GlrGraph.Graph, a: int, lr: nat, s: int, posn: nat)
    requires Links(g) && 0 <= g.split && 0 <= a < |g.tops| && g.tops[a] != NULL
    ensures g.split <= g.tops[a] < |g.items| && g.items[g.tops[a]].State?
    ensures OnChain(g.items, g.tops[a], g.tops[a]) && NoTargetAbove(g, a, g.tops[a], lr, s, posn)
  {
    var t := g.tops[a];
    StatesStep(g, t);
    forall j {:trigger OnChain(g.items, t, j)} | OnChain(g.items, t, j)
      ensures j <= t
    {
      ChainBelow(g.items, t, j);
    }
  }

  lemma DeadStack(g: GlrGraph.Graph, a: int, lr: nat, s: int, posn: nat)
    requires 0 <= a < |g.tops| && g.tops[a] == NULL
    ensures NoTargetAbove(g, a, NULL, lr, s, posn)
  {
    assert !GlrGraph.Step(g.items, NULL);
  }

  class Stack {
    const G: GlrTables
    const maxDepth: nat
    var items: array<Item>
    var nextFree: nat
    var spaceLeft: nat
    var splitPoint: int
    var tops: seq<int>             // yytops.yystates
    var lookaheadNeeds: seq<bool>  // yytops.yylookaheadNeeds
    var lastDeleted: int
    ghost var owner: map<int, int> // which state an option belongs to
    ghost var dangling: bool       // lastDeleted has not been relocated by an expansion

    /** Used items and free ones make up the array; two are always free. */
    ghost predicate Valid()
      reads this
    {
      && nextFree + spaceLeft == items.Length
      && HEADROOM <= spaceLeft && 2 * HEADROOM <= items.Length
      && |lookaheadNeeds| == |tops|
    }

    /** YYMAXDEPTH does not leave room for two more items. */
    ghost predicate Full()
      reads this`nextFree
    {
      nextFree + HEADROOM > maxDepth
    }

    ghost predicate Counted()
      reads this
    {
      nextFree + spaceLeft == items.Length && |lookaheadNeeds| == |tops| && 2 * HEADROOM <= items.Length
    }

    ghost function AsGraph(): Graph
      requires nextFree <= items.Length
      reads this, items
    {
      GlrGraph.Graph(items[..nextFree], splitPoint, tops)
    }

    /** yyinitGLRStack. */
    constructor (tables: GlrTables, initDepth: nat, maxDepth: nat)
      requires 2 * HEADROOM <= initDepth
      ensures Valid() && fresh(items) && G == tables && this.maxDepth == maxDepth
      ensures AsGraph() == GlrGraph.Graph([], NULL, [NULL]) && owner == map[]
    {
      G, this.maxDepth := tables, maxDepth;
      items := new Item[initDepth](_ => Opt(0, NULL, 0, NULL));
      nextFree, spaceLeft := 0, initDepth;
      splitPoint, lastDeleted, dangling := NULL, NULL, false;
      tops, lookaheadNeeds := [NULL], [false];
      owner := map[];
    }

    /** yynewGLRStackItem, with the item filled in. */
    method NewItem(item: Item) returns (i: nat)
      requires Counted() && spaceLeft > 0
      modifies this`nextFree, this`spaceLeft, items
      ensures Counted() && i == old(nextFree) && nextFree == i + 1 && spaceLeft == old(spaceLeft) - 1
      ensures items[..nextFree] == old(items[..nextFree]) + [item]
    {
      i := nextFree;
      spaceLeft := spaceLeft - 1;
      nextFree := nextFree + 1;
      items[i] := item;
    }

    /** yyexpandGLRStack: twice the space used, up to YYMAXDEPTH. */
    method Expand() returns (ok: bool)
      requires Counted() && spaceLeft < HEADROOM
      modifies this`items, this`spaceLeft, this`dangling
      ensures Counted() && (items == old(items) || fresh(items))
      ensures items[..nextFree] == old(items[..nextFree])
      ensures if ok then Valid() else Full()
    {
      var size := nextFree;
      if maxDepth < HEADROOM || maxDepth - HEADROOM < size {
        return false;
      }
      var newSize := 2 * size;
      if maxDepth < newSize {
        newSize := maxDepth;
      }
      var newItems := new Item[newSize](_ => Opt(0, NULL, 0, NULL));
      var n := 0;
      while n < size
        invariant 0 <= n <= size
        invariant newItems[..n] == items[..n]
        modifies newItems
      {
        newItems[n] := items[n];
        n := n + 1;
      }
      items := newItems;
      spaceLeft := newSize - size;
      dangling := true;
      return true;
    }

    /** YY_RESERVE_GLRSTACK. */
    method Reserve() returns (ok: bool)
      requires Counted()
      modifies this`items, this`spaceLeft, this`dangling
      ensures Counted() && (items == old(items) || fresh(items))
      ensures items[..nextFree] == old(items[..nextFree])
      ensures if ok then Valid() else Full()
    {
      ok := true;
      if spaceLeft < HEADROOM {
        ok := Expand();
      }
    }

    /** yyglrShift. */
    method Shift(k: nat, lr: nat, posn: nat, val: int) returns (status: Status)
      requires Valid() && k < |tops|
      modifies this`items, this`nextFree, this`spaceLeft, this`dangling, this`tops, items
      ensures Counted() && (items == old(items) || fresh(items))
      ensures status == Ok || (status == Exhausted && Full())
      ensures AsGraph() == AddState(old(AsGraph()), k, lr, posn, Resolved(val))
      ensures status == Ok ==> Valid()
    {
      var i := NewItem(State(lr, tops[k], posn, Resolved(val)));
      tops := tops[k := i];
      var ok := Reserve();
      status := if ok then Ok else Exhausted;
    }

    /** yyaddDeferredAction. */
    method AddDeferredAction(k: nat, s: nat, rhs: int, rule: nat, rawchar: int) returns (status: Status)
      requires Counted() && spaceLeft > 0 && s < nextFree && items[s].State? && items[s].sem.Unresolved?
      modifies this`items, this`nextFree, this`spaceLeft, this`dangling, this`owner, items
      ensures Counted() && (items == old(items) || fresh(items))
      ensures status == Ok || (status == Exhausted && Full())
      ensures AsGraph() == AddOption(old(AsGraph()), s, rule, rhs, rawchar)
      ensures owner == old(owner)[old(nextFree) := s]
      ensures status == Ok ==> Valid()
    {
      owner := owner[nextFree := s];
      var o := NewItem(Opt(rule, rhs, rawchar, items[s].sem.firstVal));
      items[s] := items[s].(sem := Unresolved(o));
      var ok := Reserve();
      status := if ok then Ok else Exhausted;
    }

    /** yyglrShiftDefer: two items, for which the headroom of two suffices. */
    method ShiftDefer(k: nat, lr: nat, posn: nat, rhs: int, rule: nat, rawchar: int) returns (status: Status)
      requires Valid() && k < |tops|
      modifies this`items, this`nextFree, this`spaceLeft, this`dangling, this`tops, this`owner, items
      ensures Counted() && (items == old(items) || fresh(items))
      ensures status == Ok || (status == Exhausted && Full())
      ensures var g := AddState(old(AsGraph()), k, lr, posn, Unresolved(NULL));
              AsGraph() == AddOption(g, old(nextFree), rule, rhs, rawchar)
      ensures owner == old(owner)[old(nextFree) + 1 := old(nextFree)]
      ensures status == Ok ==> Valid()
    {
      var i := NewItem(State(lr, tops[k], posn, Unresolved(NULL)));
      tops := tops[k := i];
      status := AddDeferredAction(k, i, rhs, rule, rawchar);
    }
  
    /** The inner loop of the search in yyglrReduce: down the chain of stack a. */
    method SearchChain(a: nat, s: int, lr: nat, posn: nat) returns (p: int, found: bool)
      requires Valid() && GlrGraph.Links(AsGraph()) && splitPoint != NULL
      requires a < |tops| && tops[a] != NULL && Positions(AsGraph().items)
      ensures found ==> Target(AsGraph(), p, lr, s, posn) && OnChain(AsGraph().items, tops[a], p)
      ensures !found ==> NoTargetAbove(AsGraph(), a, NULL, lr, s, posn)
    {
      hide NoTargetAbove, LinksAbove, Contiguous, Positions;
      ghost var g := AsGraph();
      p := tops[a];
      SearchStarts(g, a, lr, s, posn);
      while p != s && p != splitPoint && items[p].posn >= posn
        invariant OnChain(g.items, g.tops[a], p) && splitPoint <= p < nextFree && items[p].State?
        invariant NoTargetAbove(g, a, p, lr, s, posn)
        decreases p
      {
        assert items[p] == g.items[p];
        if items[p].lr == lr && items[p].pred == s {
          return p, true;
        }
        GoDown(g, a, p, lr, s, posn);
        p := items[p].pred;
      }
      SearchStops(g, a, p, lr, s, posn);
      found := false;
    }

    /** The search of yyglrReduce: a state on another stack with the same LR state,
        predecessor and position; NULL if there is none. */
    method FindTarget(k: nat, s: int, lr: nat, posn: nat) returns (p: int, ghost on: int)
      requires Valid() && GlrGraph.Links(AsGraph()) && splitPoint != NULL && k < |tops|
      requires Positions(AsGraph().items)
      ensures p != NULL ==>
        && Target(AsGraph(), p, lr, s, posn)
        && 0 <= on < |tops| && on != k && OnChain(AsGraph().items, tops[on], p)
      ensures p == NULL ==> NoTargetBut(AsGraph(), k, |tops|, lr, s, posn)
    {
      hide NoTargetAbove, NoTargetBut, Links, Positions;
      ghost var g := AsGraph();
      var a := 0;
      on := 0;
      NoTargetStart(g, k, lr, s, posn);
      while a < |tops|
        invariant 0 <= a <= |g.tops| && NoTargetBut(g, k, a, lr, s, posn)
      {
        if a != k {
          if tops[a] == NULL {
            DeadStack(g, a, lr, s, posn);
          } else {
            var found;
            p, found := SearchChain(a, s, lr, posn);
            if found {
              on := a;
              return;
            }
          }
        }
        NoTargetNext(g, k, a, lr, s, posn);
        a := a + 1;
      }
      p := NULL;
    }
  
    /** Follow n links down from state `from`; they do not run out. */
    method WalkDown(from: int, n: nat) returns (s: int)
      requires nextFree <= items.Length && GlrGraph.Step(AsGraph().items, from)
      requires GlrGraph.Step(AsGraph().items, Walk(AsGraph().items, from, n))
      ensures s == Walk(AsGraph().items, from, n)
    {
      s := from;
      var left := n;
      while 0 < left
        invariant 0 <= left <= n && GlrGraph.Step(AsGraph().items, s)
        invariant Walk(AsGraph().items, s, left) == Walk(AsGraph().items, from, n)
      {
        assert items[s] == AsGraph().items[s];
        WalkStep(AsGraph().items, s, left);
        s := items[s].pred;
        left := left - 1;
      }
    }

    /** What holds between the steps of nondeterministic parsing. */
    ghost predicate Inv()
      requires G.lalr.Ranges()
      reads this, items
    {
      Valid() && nextFree <= items.Length && GraphInv(G.lalr, AsGraph(), owner)
    }

    /** What still holds when the stack deleted last has been brought back. */
    ghost predicate Loose()
      requires G.lalr.Ranges()
      reads this, items
    {
      Valid() && nextFree <= items.Length && GraphLoose(G.lalr, AsGraph())
    }

    /** The other stacks, and the links of all items there were, are untouched. */
    twostate predicate OthersKept(k: nat)
      requires old(nextFree <= items.Length) && nextFree <= items.Length
      reads this, items
    {
      && |tops| == |old(tops)|
      && (forall a {:trigger tops[a]} | 0 <= a < |tops| && a != k :: tops[a] == old(tops)[a])
      && Extends(old(AsGraph()).items, AsGraph().items) && NoNewValues(old(AsGraph()).items, AsGraph().items)
      && OptionsKept(old(AsGraph()).items, AsGraph().items)
    }

    /** The first half of a deferred reduction: find out where it leads. */
    method PrepareReduction(k: nat, r: nat, ghost posn: nat) returns (s: int, lr: nat)
      requires ValidGlr(G) && Inv() && splitPoint != NULL
      requires Current(AsGraph(), k, posn) && tops[k] != NULL && Reducible(G.lalr, items[tops[k]].lr, r)
      modifies this`splitPoint
      ensures Inv() && splitPoint != NULL
      ensures AsGraph() == UpdateSplit(old(AsGraph()), s)
      ensures Reduction(G.lalr, AsGraph(), k, r, tops[k], s, lr, posn)
    {
      hide Positions, Automaton, Unique, Derivations, Reducible, Path, ActionOk, FinalOk, Goto, LinksAbove, Contiguous,
        LiveOwned, Outgrown, Forest;
      ghost var g := AsGraph();
      StatesStep(g, tops[k]);
      assert items[tops[k]] == g.items[tops[k]];
      ReductionIsLegal(G.lalr, g.items, tops[k], r);
      s := WalkDown(tops[k], G.lalr.r2[r]);
      if splitPoint > s {
        splitPoint := s;
      }
      ChainBelow(g.items, tops[k], s);
      UpdateSplitInv(G.lalr, g, owner, s);
      assert AsGraph() == UpdateSplit(g, s);
      lr := Goto(G.lalr, items[s].lr, G.lalr.r1[r]);
    }
  
    /** The last stack marked deleted could be brought back: its top is a state of the
        present array, at the present position. */
    ghost predicate Restorable(posn: nat)
      requires nextFree <= items.Length
      reads this, items
    {
      && !dangling && 0 <= splitPoint <= lastDeleted < nextFree
      && items[lastDeleted].State? && items[lastDeleted].posn == posn && items[lastDeleted].lr != G.lalr.final
    }

    /** yymarkStackDeleted. */
    method MarkDeleted(k: nat)
      requires k < |tops| && |lookaheadNeeds| == |tops|
      modifies this`lastDeleted, this`dangling, this`tops
      ensures tops == old(tops)[k := NULL]
      ensures old(tops)[k] != NULL ==> lastDeleted == old(tops)[k] && !dangling
      ensures old(tops)[k] == NULL ==> lastDeleted == old(lastDeleted) && dangling == old(dangling)
    {
      if tops[k] != NULL {
        lastDeleted, dangling := tops[k], false;
      }
      tops := tops[k := NULL];
    }

    /** The end of a deferred reduction that finds its state p on another stack. */
    method MergeStack(k: nat, p: nat, r: nat, rawchar: int, ghost posn: nat, ghost s: int, ghost lr: nat,
                      ghost on: int)
      returns (status: Status)
      requires G.lalr.Ranges() && EdgesOk(G.lalr) && Inv() && TopsDistinct(tops, k) && k < |tops|
      requires Reduction(G.lalr, AsGraph(), k, r, tops[k], s, lr, posn) && AsGraph().items[tops[k]].lr != G.lalr.final
      requires Target(AsGraph(), p, lr, s, posn) && items[p].posn == posn && items[p].sem.Unresolved?
      requires 0 <= on < |tops| && on != k && OnChain(AsGraph().items, tops[on], p)
      requires Live(AsGraph(), p) && Reducible(G.lalr, AsGraph().items[tops[k]].lr, r)
      modifies this, items
      ensures (items == old(items) || fresh(items)) && (status == Ok || (status == Exhausted && Full()))
      ensures status == Ok ==>
        && Inv() && splitPoint == old(splitPoint) && OthersKept(k)
        && tops[k] == NULL && TopsDistinct(tops, -1) && Restorable(posn)
        && Deferred(G.lalr, AsGraph(), old(tops[k]), r)
        && Absorbed(G.lalr, old(AsGraph()), k, r, posn) && NoMoreLive(old(AsGraph()), AsGraph(), k)
    {
      hide GraphInv, Reduction, Goto, Links, Live, Reducible, EdgesOk, Deferred, OptionsKept, OnChain, Positions,
        Absorbed, NoMoreLive;
      ghost var g := AsGraph();
      assert items[p] == g.items[p];
      InvParts(G.lalr, g, posn, owner, k, r, tops[k], s, lr);
      MergedInv(G.lalr, g, posn, owner, k, r, tops[k], s, lr, p, rawchar);
      MergedKept(g, k, p, r, tops[k], rawchar);
      MergedDeferred(G.lalr, g, k, r, tops[k], s, lr, posn, p, rawchar, on);
      MergedNoMore(G.lalr, g, owner, k, r, tops[k], s, lr, posn, p, rawchar);
      MergedAbsorbed(G.lalr, g, k, r, tops[k], s, lr, posn, p);
      status := AddDeferredAction(k, p, tops[k], r, rawchar);
      MarkDeleted(k);
      assert AsGraph() == Merged(g, k, p, r, g.tops[k], rawchar);
    }

    /** The end of a deferred reduction to a new state. */
    method PushReduction(k: nat, s: int, lr: nat, r: nat, rawchar: int, ghost posn: nat, at: nat)
      returns (status: Status)
      requires G.lalr.Ranges() && EdgesOk(G.lalr) && FinalOk(G.lalr)
      requires Inv() && TopsDistinct(tops, k) && k < |tops| && at == posn
      requires Reduction(G.lalr, AsGraph(), k, r, tops[k], s, lr, posn)
      requires NoTargetBut(AsGraph(), k, |tops|, lr, s, posn)
      requires Acyclic(G.lalr) && Reducible(G.lalr, AsGraph().items[tops[k]].lr, r)
      modifies this, items
      ensures (items == old(items) || fresh(items)) && (status == Ok || (status == Exhausted && Full()))
      ensures status == Ok ==>
        && Inv() && splitPoint == old(splitPoint) && OthersKept(k)
        && Current(AsGraph(), k, posn) && TopsDistinct(tops, -1)
        && tops[k] != NULL && AsGraph().items[tops[k]].lr != G.lalr.final
        && LrChain(AsGraph().items, tops[k]) == old(LrChain(AsGraph().items, s)) + [lr]
        && Deferred(G.lalr, AsGraph(), old(tops[k]), r) && NoMoreLive(old(AsGraph()), AsGraph(), k)
    {
      hide GraphInv, Reduction, NoTargetBut, Goto, Links, Reducible, EdgesOk, Acyclic, LrChain, OnChain, NoSuchState,
        Deferred, OptionsKept, Positions, FinalOk, NoMoreLive;
      ghost var g := AsGraph();
      var s0 := tops[k];
      InvParts(G.lalr, g, posn, owner, k, r, s0, s, lr);
      SearchComplete(g, k, s, lr, at);
      PushedInv(G.lalr, g, posn, owner, k, r, s0, s, lr, rawchar);
      PushedKept(g, k, s, lr, at, r, s0, rawchar);
      PushedDeferred(G.lalr, g, k, r, s0, s, lr, at, rawchar);
      PushedNoMore(G.lalr, g, owner, k, r, s0, s, lr, at, rawchar);
      PushedChain(g, k, s, lr, at, r, s0, rawchar);
      tops := tops[k := s];
      assert AsGraph() == CutTo(g, k, s);
      status := ShiftDefer(k, lr, at, s0, r, rawchar);
      assert AsGraph() == Pushed(g, k, s, lr, at, r, s0, rawchar);
    }

    /** yyglrReduce in nondeterministic mode: the action is deferred; if its result is on
        another stack already, stack k ends there. */
    method ReduceDeferred(k: nat, r: nat, rawchar: int, ghost posn: nat) returns (status: Status)
      requires ValidGlr(G) && Inv() && splitPoint != NULL
      requires k < |tops| && AllCurrent(AsGraph(), posn) && Current(AsGraph(), k, posn) && tops[k] != NULL
      requires Reducible(G.lalr, AsGraph().items[tops[k]].lr, r) && AsGraph().items[tops[k]].lr != G.lalr.final
      requires TopsDistinct(tops, k)
      modifies this, items
      ensures items == old(items) || fresh(items)
      ensures status.Ok? || (status.Exhausted? && Full())
      ensures status == Ok ==>
        && Inv() && splitPoint != NULL && OthersKept(k)
        && Current(AsGraph(), k, posn) && TopsDistinct(tops, -1)
        && (tops[k] == NULL ==> Restorable(posn))
        && (tops[k] != NULL ==> AsGraph().items[tops[k]].lr != G.lalr.final)
        && (tops[k] != NULL ==>
              LrChain(AsGraph().items, tops[k]) == ReducedChain(G.lalr, old(LrChain(AsGraph().items, tops[k])), r))
        && Deferred(G.lalr, AsGraph(), old(tops[k]), r)
        && NoMoreLive(old(AsGraph()), AsGraph(), k)
        && (tops[k] == NULL ==> Absorbed(G.lalr, old(AsGraph()), k, r, posn))
    {
      hide GraphInv, Reduction, Reducible, Target, NoTargetBut, Goto, ActionOk, Path, Links, LinksAbove, Contiguous,
        Positions, Extends, TopsDistinct, Unique, Automaton, Derivations, EdgesOk, FinalOk, ReducedChain, LrChain, Walk,
        Acyclic, Live, Deferred, OptionsKept, OnChain, Absorbed, NoMoreLive;
      ghost var g0 := AsGraph();
      var at := items[tops[k]].posn;
      var s, lr := PrepareReduction(k, r, posn);
      ghost var g := AsGraph();
      UpdateSplitCurrent(g0, s, posn);
      InvParts(G.lalr, g, posn, owner, k, r, tops[k], s, lr);
      var p, on := FindTarget(k, s, lr, at);
      if p != NULL {
        TargetIsCurrent(g, on, p, lr, s, posn);
        TargetIsLive(g, on, p);
        TargetIsUnresolved(G.lalr, g, posn, owner, k, r, tops[k], s, lr, p);
        status := MergeStack(k, p, r, rawchar, posn, s, lr, on);
      } else {
        ReductionReduces(G.lalr, g, k, r, tops[k], s, lr, posn);
        status := PushReduction(k, s, lr, r, rawchar, posn, at);
      }
      if status == Ok {
        SplitUnseen(G.lalr, g0, s, AsGraph(), k, r, posn);
      }
    }
  
    /** yysplitStack: a second stack with the same top as stack k. */
    method Split(k: nat) returns (copy: nat)
      requires G.lalr.Ranges() && Inv() && k < |tops| && tops[k] != NULL && TopsDistinct(tops, -1)
      modifies this`splitPoint, this`tops, this`lookaheadNeeds
      ensures Inv() && splitPoint != NULL && TopsDistinct(tops, copy)
      ensures copy == |old(tops)| && AsGraph() == SplitStack(old(AsGraph()), k)
    {
      hide GraphInv;
      SplitStackInv(G.lalr, AsGraph(), owner, k);
      SplitPoint(G.lalr, AsGraph(), owner, k);
      ghost var g := AsGraph();
      if splitPoint == NULL {
        splitPoint := tops[k];
      }
      copy := |tops|;
      tops := tops + [tops[k]];
      lookaheadNeeds := lookaheadNeeds + [lookaheadNeeds[k]];
      assert AsGraph() == SplitStack(g, k);
    }

    /** yyremoveDeletes: close the gaps that dead stacks have left. */
    method RemoveDeletes()
      requires |lookaheadNeeds| == |tops|
      modifies this`tops, this`lookaheadNeeds
      ensures tops == Survivors(old(tops)) && |lookaheadNeeds| == |tops|
    {
      var i, j, size := 0, 0, |tops|;
      assert tops[..0] == [];
      while j < size
        invariant 0 <= j <= i <= |old(tops)| && size == |old(tops)| - (i - j)
        invariant |tops| == |lookaheadNeeds| == |old(tops)|
        invariant tops[..j] == Survivors(old(tops)[..i]) && tops[i..] == old(tops)[i..]
        decreases |old(tops)| - i
      {
        assert old(tops)[..i + 1][..i] == old(tops)[..i];
        assert tops[i] == tops[i..][0];
        if tops[i] == NULL {
          size := size - 1;
        } else {
          tops := tops[j := tops[i]];
          lookaheadNeeds := lookaheadNeeds[j := lookaheadNeeds[i]];
          j := j + 1;
        }
        i := i + 1;
      }
      assert old(tops)[..i] == old(tops);
      tops := tops[..size];
      lookaheadNeeds := lookaheadNeeds[..size];
    }
  
    /** yyundeleteLastStack: bring back the stack deleted last. */
    method UndeleteLastStack(ghost posn: nat)
      requires G.lalr.Ranges() && Inv() && tops == [] && splitPoint != NULL && Restorable(posn)
      modifies this`tops, this`lastDeleted, this`lookaheadNeeds
      ensures Loose() && tops == [old(lastDeleted)] && Current(AsGraph(), 0, posn)
      ensures AsGraph().items[tops[0]].lr != G.lalr.final
    {
      hide GraphInv, GraphLoose;
      ghost var g := AsGraph();
      SingleStackLoose(G.lalr, g, owner, lastDeleted);
      tops := [lastDeleted];
      lookaheadNeeds := [true];
      lastDeleted := NULL;
      assert AsGraph() == g.(tops := tops);
    }
  }
}
