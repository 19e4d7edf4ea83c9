/** The operations on the graph-structured stack, and what each of them keeps. */
module GlrOps {
  import opened LrTables
  import opened GlrGraph

  // ---------------------------------------------------------------- the operations

  /** yyglrShift, and the first half of yyglrShiftDefer: a new state on top of stack k. */
  function AddState(g: Graph, k: nat, lr: nat, posn: nat, sem: Semantics): Graph
    requires k < |g.tops|
  {
    g.(items := g.items + [State(lr, g.tops[k], posn, sem)], tops := g.tops[k := |g.items|])
  }

  /** yyaddDeferredAction: one more option for state s, in front of the others. */
  function AddOption(g: Graph, s: int, rule: nat, rhs: int, rawchar: int): Graph
    requires 0 <= s < |g.items| && g.items[s].State? && g.items[s].sem.Unresolved?
  {
    g.(items := g.items[s := g.items[s].(sem := Unresolved(|g.items|))]
                + [Opt(rule, rhs, rawchar, g.items[s].sem.firstVal)])
  }

  /** yyupdateSplit: the split point goes down to s, if it is above. */
  function UpdateSplit(g: Graph, s: int): Graph {
    if g.split != NULL && g.split > s then g.(split := s) else g
  }

  /** yymarkStackDeleted. */
  function MarkDeleted(g: Graph, k: nat): Graph
    requires k < |g.tops|
  {
    g.(tops := g.tops[k := NULL])
  }

  /** yysplitStack: stack k twice. */
  function SplitStack(g: Graph, k: nat): Graph
    requires k < |g.tops|
  {
    g.(split := if g.split == NULL then g.tops[k] else g.split, tops := g.tops + [g.tops[k]])
  }

  /** yyremoveDeletes: the live tops, in order. */
  function Survivors(tops: seq<int>): seq<int> {
    if tops == [] then []
    else Survivors(tops[..|tops|-1]) + if tops[|tops|-1] == NULL then [] else [tops[|tops|-1]]
  }

  /** Stack k cut back to the state s on its chain. */
  function CutTo(g: Graph, k: nat, s: int): Graph
    requires k < |g.tops|
  {
    g.(tops := g.tops[k := s])
  }

  // ---------------------------------------------------------------- AddState

  predicate TopOk(g: Graph, k: nat) {
    k < |g.tops| && (g.split == NULL || g.tops[k] != NULL)
  }

  lemma AddStateExtends(g: Graph, k: nat, lr: nat, posn: nat, sem: Semantics)
    requires k < |g.tops|
    ensures Extends(g.items, AddState(g, k, lr, posn, sem).items)
  {
  }

  lemma AddStateLinks(g: Graph, k: nat, lr: nat, posn: nat, sem: Semantics)
    requires Links(g) && TopOk(g, k)
    requires sem.Resolved? || (g.split != NULL && sem == Unresolved(NULL))
    ensures Links(AddState(g, k, lr, posn, sem))
    ensures Step(AddState(g, k, lr, posn, sem).items, |g.items|)
  {
  }

  lemma AddStatePositions(g: Graph, k: nat, lr: nat, posn: nat, sem: Semantics)
    requires Links(g) && TopOk(g, k) && Positions(g.items)
    requires g.tops[k] != NULL ==> g.items[g.tops[k]].posn <= posn
    ensures Positions(AddState(g, k, lr, posn, sem).items)
  {
    hide Contiguous;
  }

  lemma AddStateAutomaton(T: Tables, g: Graph, k: nat, lr: nat, posn: nat, sem: Semantics)
    requires T.Ranges() && Links(g) && TopOk(g, k) && Automaton(T, g.items)
    requires lr < T.States()
    requires if g.tops[k] == NULL then lr == 0
             else (g.items[g.tops[k]].lr, T.stos[lr], lr) in T.edges
    ensures Automaton(T, AddState(g, k, lr, posn, sem).items)
  {
    var g' := AddState(g, k, lr, posn, sem);
    AddStateExtends(g, k, lr, posn, sem);
    forall i {:trigger g'.items[i]} | 0 <= i < |g'.items| && g'.items[i].State?
      ensures Stack(T, LrChain(g'.items, i))
    {
      if i < |g.items| {
        ChainFrame(g.items, g'.items, i, 0);
      } else {
        ChainFrame(g.items, g'.items, g.tops[k], 0);
        NewChain(T, g, g.tops[k], lr);
      }
    }
  }

  lemma NewChain(T: Tables, g: Graph, top: int, lr: nat)
    requires T.Ranges() && Links(g) && Automaton(T, g.items) && lr < T.States()
    requires NULL <= top < |g.items| && (top != NULL ==> g.items[top].State?)
    requires if top == NULL then lr == 0 else (g.items[top].lr, T.stos[lr], lr) in T.edges
    ensures Stack(T, LrChain(g.items, top) + [lr])
  {
    if top != NULL {
      var p := LrChain(g.items, top);
      StatesStep(g, top);
      assert p[|p|-1] == g.items[top].lr;
    }
  }

  lemma StatesStep(g: Graph, i: int)
    requires Links(g) && 0 <= i < |g.items| && g.items[i].State?
    ensures Step(g.items, i)
  {
  }

  // ---------------------------------------------------------------- liveness

  /** What is live after pushing a state: the new state, and what was live before. */
  lemma AddStateLive(g: Graph, k: nat, lr: nat, posn: nat, sem: Semantics, j: int)
    requires Links(g) && TopOk(g, k) && Live(AddState(g, k, lr, posn, sem), j)
    ensures j == |g.items| || Live(g, j)
  {
    var g' := AddState(g, k, lr, posn, sem);
    var a :| 0 <= a < |g'.tops| && OnChain(g'.items, g'.tops[a], j);
    AddStateExtends(g, k, lr, posn, sem);
    TopsInRange(g);
    if a == k {
      if j != |g.items| {
        ChainFrame(g.items, g'.items, g.tops[k], j);
        assert OnChain(g.items, g.tops[k], j);
      }
    } else {
      ChainFrame(g.items, g'.items, g.tops[a], j);
      assert OnChain(g.items, g.tops[a], j);
    }
  }

  lemma TopsInRange(g: Graph)
    requires Links(g)
    ensures forall k {:trigger g.tops[k]} | 0 <= k < |g.tops| :: NULL <= g.tops[k] < |g.items|
  {
  }

  /** No live state agrees with (lr, pred, posn). */
  ghost predicate NoSuchState(g: Graph, lr: nat, pred: int, posn: nat) {
    forall j {:trigger g.items[j]} | 0 <= j && g.split < j < |g.items| && g.items[j].State? && Live(g, j) ::
      !(g.items[j].lr == lr && g.items[j].pred == pred && g.items[j].posn == posn)
  }

  lemma AddStateUnique(g: Graph, k: nat, lr: nat, posn: nat, sem: Semantics)
    requires Links(g) && TopOk(g, k) && Unique(g) && NoSuchState(g, lr, g.tops[k], posn)
    ensures Unique(AddState(g, k, lr, posn, sem))
  {
    hide Links, Live;
    var g' := AddState(g, k, lr, posn, sem);
    forall i, j {:trigger Live(g', i), Live(g', j)} |
      0 <= i && g'.split < i < j < |g'.items| && g'.items[i].State? && g'.items[j].State? && Live(g', i) && Live(g', j)
      ensures !SameKey(g'.items[i], g'.items[j])
    {
      AddStateLive(g, k, lr, posn, sem, i);
      AddStateLive(g, k, lr, posn, sem, j);
    }
  }

  lemma DerivesFrame(T: Tables, items: seq<Item>, items': seq<Item>, o: Item, s: int)
    requires T.Ranges() && Extends(items, items') && Derives(T, items, o, s)
    ensures Derives(T, items', o, s)
  {
    hide Goto;
    WalkFrame(items, items', o.state, T.r2[o.rule]);
  }

  lemma AddStateDerivations(T: Tables, g: Graph, k: nat, lr: nat, posn: nat, sem: Semantics, owner: map<int, int>)
    requires T.Ranges() && k < |g.tops| && Derivations(T, g.items, owner)
    ensures Derivations(T, AddState(g, k, lr, posn, sem).items, owner)
  {
    hide Derives;
    var items' := AddState(g, k, lr, posn, sem).items;
    AddStateExtends(g, k, lr, posn, sem);
    forall o {:trigger owner[o]} {:trigger o in owner} | o in owner
      ensures Derives(T, items', items'[o], owner[o])
    {
      assert items'[o] == g.items[o];
      DerivesFrame(T, g.items, items', g.items[o], owner[o]);
    }
  }

  lemma AddStateLiveOwned(g: Graph, k: nat, lr: nat, posn: nat, sem: Semantics, owner: map<int, int>)
    requires Links(g) && TopOk(g, k) && LiveOwned(g, owner)
    requires sem.Resolved? || sem == Unresolved(NULL)
    ensures LiveOwned(AddState(g, k, lr, posn, sem), owner)
  {
    hide Links, Live;
    var h := AddState(g, k, lr, posn, sem);
    forall s {:trigger Live(h, s)} | 0 <= s < |h.items| && Live(h, s) && h.items[s].State?
      && h.items[s].sem.Unresolved? && h.items[s].sem.firstVal != NULL
      ensures h.items[s].sem.firstVal in owner && owner[h.items[s].sem.firstVal] == s
    {
      AddStateLive(g, k, lr, posn, sem, s);
    }
  }

  // ---------------------------------------------------------------- AddOption

  predicate CanAddOption(g: Graph, s: int, rhs: int) {
    && 0 <= g.split < s < |g.items| && g.items[s].State? && g.items[s].sem.Unresolved?
    && g.split <= rhs < |g.items| && g.items[rhs].State?
  }

  lemma AddOptionExtends(g: Graph, s: int, rule: nat, rhs: int, rawchar: int)
    requires CanAddOption(g, s, rhs)
    ensures Extends(g.items, AddOption(g, s, rule, rhs, rawchar).items)
  {
  }

  lemma AddOptionLinks(g: Graph, s: int, rule: nat, rhs: int, rawchar: int)
    requires Links(g) && CanAddOption(g, s, rhs)
    ensures Links(AddOption(g, s, rule, rhs, rawchar))
  {
    var g' := AddOption(g, s, rule, rhs, rawchar);
    forall i {:trigger g'.items[i]} | 0 <= i < |g.items|
      ensures g'.items[i] == if i == s then g.items[s].(sem := Unresolved(|g.items|)) else g.items[i]
    {
    }
    forall k {:trigger g'.tops[k]} | 0 <= k < |g'.tops| && g'.tops[k] != NULL
      ensures g.split <= g'.tops[k] < |g.items| && g.items[g'.tops[k]].State?
    {
      assert g'.tops[k] == g.tops[k];
    }
  }

  lemma AddOptionPositions(g: Graph, s: int, rule: nat, rhs: int, rawchar: int)
    requires CanAddOption(g, s, rhs) && Positions(g.items)
    ensures Positions(AddOption(g, s, rule, rhs, rawchar).items)
  {
    hide Links;
    var g' := AddOption(g, s, rule, rhs, rawchar);
    forall i {:trigger g'.items[i]} | 0 <= i < |g'.items| && g'.items[i].State?
      ensures Step(g'.items, i) && g'.items[i].pred >= 0 && g'.items[g'.items[i].pred].State? ==>
              g'.items[g'.items[i].pred].posn <= g'.items[i].posn
    {
      assert g.items[i].State?;
    }
  }

  lemma AddOptionAutomaton(T: Tables, g: Graph, s: int, rule: nat, rhs: int, rawchar: int)
    requires T.Ranges() && CanAddOption(g, s, rhs) && Automaton(T, g.items)
    ensures Automaton(T, AddOption(g, s, rule, rhs, rawchar).items)
  {
    var g' := AddOption(g, s, rule, rhs, rawchar);
    AddOptionExtends(g, s, rule, rhs, rawchar);
    forall i {:trigger g'.items[i]} | 0 <= i < |g'.items| && g'.items[i].State?
      ensures Stack(T, LrChain(g'.items, i))
    {
      assert g.items[i].State?;
      ChainFrame(g.items, g'.items, i, 0);
    }
  }

  lemma AddOptionLive(g: Graph, s: int, rule: nat, rhs: int, rawchar: int, j: int)
    requires Links(g) && CanAddOption(g, s, rhs)
    ensures Live(AddOption(g, s, rule, rhs, rawchar), j) == Live(g, j)
  {
    var g' := AddOption(g, s, rule, rhs, rawchar);
    AddOptionExtends(g, s, rule, rhs, rawchar);
    TopsInRange(g);
    forall k {:trigger g.tops[k]} | 0 <= k < |g.tops|
      ensures OnChain(g'.items, g'.tops[k], j) == OnChain(g.items, g.tops[k], j)
    {
      ChainFrame(g.items, g'.items, g.tops[k], j);
    }
  }

  lemma AddOptionUnique(g: Graph, s: int, rule: nat, rhs: int, rawchar: int)
    requires Links(g) && CanAddOption(g, s, rhs) && Unique(g)
    ensures Unique(AddOption(g, s, rule, rhs, rawchar))
  {
    hide Links, Live;
    var g' := AddOption(g, s, rule, rhs, rawchar);
    forall i, j {:trigger Live(g', i), Live(g', j)} |
      0 <= i && g'.split < i < j < |g'.items| && g'.items[i].State? && g'.items[j].State? && Live(g', i) && Live(g', j)
      ensures !SameKey(g'.items[i], g'.items[j])
    {
      AddOptionLive(g, s, rule, rhs, rawchar, i);
      AddOptionLive(g, s, rule, rhs, rawchar, j);
      assert g.items[i].State? && g.items[j].State?;
    }
  }

  lemma AddOptionLiveOwned(g: Graph, s: int, rule: nat, rhs: int, rawchar: int, owner: map<int, int>)
    requires Links(g) && CanAddOption(g, s, rhs) && LiveOwned(g, owner) && (forall o | o in owner :: o < |g.items|)
    ensures LiveOwned(AddOption(g, s, rule, rhs, rawchar), owner[|g.items| := s])
  {
    hide Links, Live;
    var h := AddOption(g, s, rule, rhs, rawchar);
    var owner' := owner[|g.items| := s];
    forall t {:trigger Live(h, t)} | 0 <= t < |h.items| && Live(h, t) && h.items[t].State?
      && h.items[t].sem.Unresolved? && h.items[t].sem.firstVal != NULL
      ensures h.items[t].sem.firstVal in owner' && owner'[h.items[t].sem.firstVal] == t
    {
      if t != s {
        AddOptionLive(g, s, rule, rhs, rawchar, t);
        assert h.items[t] == g.items[t];
      }
    }
  }

  /** s has no options yet, or is live. */
  ghost predicate TakesOptions(g: Graph, s: int) {
    0 <= s < |g.items| && g.items[s].State? && (Live(g, s) || g.items[s].sem == Unresolved(NULL))
  }

  lemma AddOptionDerivations(T: Tables, g: Graph, s: int, rule: nat, rhs: int, rawchar: int, owner: map<int, int>)
    requires T.Ranges() && CanAddOption(g, s, rhs) && Derivations(T, g.items, owner) && LiveOwned(g, owner)
    requires TakesOptions(g, s) && Derives(T, g.items, Opt(rule, rhs, rawchar, NULL), s)
    ensures Derivations(T, AddOption(g, s, rule, rhs, rawchar).items, owner[|g.items| := s])
  {
    hide Derives, Live;
    var items' := AddOption(g, s, rule, rhs, rawchar).items;
    var owner' := owner[|g.items| := s];
    AddOptionExtends(g, s, rule, rhs, rawchar);
    forall o {:trigger owner'[o]} {:trigger o in owner'} | o in owner'
      ensures 0 <= o < |items'| && items'[o].Opt? && 0 <= owner'[o] < o
      ensures items'[o].next != NULL ==> items'[o].next in owner' && owner'[items'[o].next] == owner'[o]
      ensures Derives(T, items', items'[o], owner'[o])
    {
      if o != |g.items| {
        assert o in owner && items'[o] == g.items[o];
        DerivesFrame(T, g.items, items', g.items[o], owner[o]);
      } else {
        DerivesFrame(T, g.items, items', Opt(rule, rhs, rawchar, NULL), s);
        DerivesIgnoresNext(T, items', Opt(rule, rhs, rawchar, NULL), items'[o], s);
      }
    }
  }

  lemma DerivesIgnoresNext(T: Tables, items: seq<Item>, o: Item, o': Item, s: int)
    requires T.Ranges() && Derives(T, items, o, s)
    requires o'.Opt? && o'.rule == o.rule && o'.state == o.state
    ensures Derives(T, items, o', s)
  {
  }

  // ---------------------------------------------------------------- split point

  lemma UpdateSplitLinks(g: Graph, s: int)
    requires Links(g) && 0 <= s < |g.items|
    ensures Links(UpdateSplit(g, s))
  {
  }

  /** Lowering the split point uncovers states of the contiguous part, whose
      predecessors are all different and below those of the states above. */
  lemma UpdateSplitUnique(g: Graph, s: int)
    requires Links(g) && Unique(g) && 0 <= s < |g.items|
    ensures Unique(UpdateSplit(g, s))
  {
    hide Live;
    var g' := UpdateSplit(g, s);
    forall i, j {:trigger Live(g', i), Live(g', j)} |
      0 <= i && g'.split < i < j < |g'.items| && g'.items[i].State? && g'.items[j].State? && Live(g', i) && Live(g', j)
      ensures !SameKey(g'.items[i], g'.items[j])
    {
      assert Live(g, i) && Live(g, j) by {
        SameLive(g, g', i);
        SameLive(g, g', j);
      }
      if g.split != NULL && i <= g.split {
        assert g.items[i].pred == i - 1;
        assert g.items[j].pred >= i;
      }
    }
  }

  lemma SameLive(g: Graph, g': Graph, j: int)
    requires g.items == g'.items && g.tops == g'.tops
    ensures Live(g, j) == Live(g', j)
  {
  }

  lemma SplitStackLinks(g: Graph, k: nat)
    requires Links(g) && k < |g.tops| && g.tops[k] != NULL
    ensures Links(SplitStack(g, k))
  {
  }

  /** A copy of a stack makes nothing live that was not. */
  lemma SplitStackLive(g: Graph, k: nat, j: int)
    requires k < |g.tops|
    ensures Live(SplitStack(g, k), j) == Live(g, j)
  {
    var g' := SplitStack(g, k);
    if Live(g', j) {
      var a :| 0 <= a < |g'.tops| && OnChain(g'.items, g'.tops[a], j);
      assert OnChain(g.items, g.tops[if a < |g.tops| then a else k], j);
    }
    if Live(g, j) {
      var a :| 0 <= a < |g.tops| && OnChain(g.items, g.tops[a], j);
      assert g'.tops[a] == g.tops[a];
    }
  }

  lemma SplitStackUnique(g: Graph, k: nat)
    requires Links(g) && Unique(g) && k < |g.tops|
    ensures Unique(SplitStack(g, k))
  {
    hide Links, Live;
    var g' := SplitStack(g, k);
    forall j
      ensures Live(g', j) == Live(g, j)
    {
      SplitStackLive(g, k, j);
    }
  }

  // ---------------------------------------------------------------- fewer stacks

  /** The stacks of g' are stacks of g, or cut back ones. */
  ghost predicate Fewer(g: Graph, g': Graph) {
    && g'.items == g.items && g'.split == g.split
    && (forall j | Live(g', j) :: Live(g, j))
  }

  lemma FewerLiveOwned(g: Graph, g': Graph, owner: map<int, int>)
    requires Fewer(g, g') && LiveOwned(g, owner)
    ensures LiveOwned(g', owner)
  {
    hide Live;
  }

  lemma FewerUnique(g: Graph, g': Graph)
    requires Fewer(g, g') && Unique(g)
    ensures Unique(g')
  {
    hide Live;
  }

  lemma MarkDeletedFewer(g: Graph, k: nat)
    requires k < |g.tops|
    ensures Fewer(g, MarkDeleted(g, k))
  {
    var g' := MarkDeleted(g, k);
    forall j | Live(g', j)
      ensures Live(g, j)
    {
      var a :| 0 <= a < |g'.tops| && OnChain(g'.items, g'.tops[a], j);
      assert a != k;
      assert OnChain(g.items, g.tops[a], j);
    }
  }

  lemma {:induction false} ChainInChain(items: seq<Item>, i: int, s: int, j: int)
    requires OnChain(items, i, s) && OnChain(items, s, j)
    ensures OnChain(items, i, j)
    decreases i
  {
    if i != s {
      ChainInChain(items, items[i].pred, s, j);
    }
  }

  lemma {:induction false} WalkOnChain(items: seq<Item>, i: int, n: nat)
    requires Step(items, i) && Walk(items, i, n) != NULL && Step(items, Walk(items, i, n))
    ensures OnChain(items, i, Walk(items, i, n))
    decreases n
  {
    if n > 0 {
      if Step(items, items[i].pred) {
        WalkOnChain(items, items[i].pred, n - 1);
      }
    }
  }

  lemma CutToFewer(g: Graph, k: nat, s: int)
    requires k < |g.tops| && OnChain(g.items, g.tops[k], s)
    ensures Fewer(g, CutTo(g, k, s))
  {
    var g' := CutTo(g, k, s);
    forall j | Live(g', j)
      ensures Live(g, j)
    {
      var a :| 0 <= a < |g'.tops| && OnChain(g'.items, g'.tops[a], j);
      if a == k {
        ChainInChain(g.items, g.tops[k], s, j);
      }
      assert OnChain(g.items, g.tops[a], j);
    }
  }

  lemma {:induction false} SurvivorsAre(tops: seq<int>)
    ensures NULL !in Survivors(tops)
    ensures forall t {:trigger t in Survivors(tops)} :: t in Survivors(tops) <==> t != NULL && t in tops
  {
    if tops != [] {
      SurvivorsAre(tops[..|tops|-1]);
      assert tops == tops[..|tops|-1] + [tops[|tops|-1]];
    }
  }

  lemma SurvivorsFewer(g: Graph)
    ensures Fewer(g, g.(tops := Survivors(g.tops)))
  {
    var g' := g.(tops := Survivors(g.tops));
    SurvivorsAre(g.tops);
    forall j | Live(g', j)
      ensures Live(g, j)
    {
      var a :| 0 <= a < |g'.tops| && OnChain(g'.items, g'.tops[a], j);
      var t := g'.tops[a];
      assert t in Survivors(g.tops);
      var b :| 0 <= b < |g.tops| && g.tops[b] == g'.tops[a];
      assert OnChain(g.items, g.tops[b], j);
    }
  }

  lemma {:induction false} SurvivorsDistinct(tops: seq<int>)
    requires TopsDistinct(tops, -1)
    ensures TopsDistinct(Survivors(tops), -1)
  {
    if tops != [] {
      var init, last := tops[..|tops|-1], tops[|tops|-1];
      SurvivorsDistinct(init);
      SurvivorsAre(init);
      forall a {:trigger init[a]} | 0 <= a < |init| && last != NULL
        ensures init[a] != last
      {
        assert init[a] == tops[a];
      }
      var kept := Survivors(init);
      forall a {:trigger kept[a]} | 0 <= a < |kept| && last != NULL
        ensures kept[a] != last
      {
        assert kept[a] in kept;
      }
    }
  }

  // ---------------------------------------------------------------- looking for a merge target

  /** p is where a reduction to (lr, pred) at posn belongs. */
  predicate Target(g: Graph, p: int, lr: nat, pred: int, posn: nat) {
    0 <= p < |g.items| && g.items[p].State? && g.split < p
    && g.items[p].lr == lr && g.items[p].pred == pred && g.items[p].posn >= posn
  }

  /** No target on the chain of stack a above its state p. */
  ghost predicate NoTargetAbove(g: Graph, a: int, p: int, lr: nat, pred: int, posn: nat)
    requires 0 <= a < |g.tops|
  {
    forall j {:trigger OnChain(g.items, g.tops[a], j)} | p < j && OnChain(g.items, g.tops[a], j) ::
      !Target(g, j, lr, pred, posn)
  }

  /** No target on the first n stacks, stack k excepted. */
  ghost predicate NoTargetBut(g: Graph, k: nat, n: nat, lr: nat, pred: int, posn: nat) {
    n <= |g.tops| &&
    forall a | 0 <= a < n && a != k :: NoTargetAbove(g, a, NULL, lr, pred, posn)
  }

  lemma NoTargetStart(g: Graph, k: nat, lr: nat, pred: int, posn: nat)
    ensures NoTargetBut(g, k, 0, lr, pred, posn)
  {
  }

  lemma NoTargetNext(g: Graph, k: nat, n: nat, lr: nat, pred: int, posn: nat)
    requires n < |g.tops| && NoTargetBut(g, k, n, lr, pred, posn)
    requires n != k ==> NoTargetAbove(g, n, NULL, lr, pred, posn)
    ensures NoTargetBut(g, k, n + 1, lr, pred, posn)
  {
    hide NoTargetAbove;
  }

  lemma {:induction false} ChainSplits(items: seq<Item>, i: int, p: int, j: int)
    requires OnChain(items, i, p) && OnChain(items, i, j) && j <= p
    ensures OnChain(items, p, j)
    decreases i
  {
    if i != p {
      if i == j {
        ChainBelow(items, i, p);
      } else {
        ChainSplits(items, items[i].pred, p, j);
      }
    }
  }

  lemma {:induction false} PositionsDown(g: Graph, p: int, j: int)
    requires Positions(g.items) && OnChain(g.items, p, j)
    ensures 0 <= j <= p < |g.items| && g.items[p].State? && g.items[j].State?
    ensures g.items[j].posn <= g.items[p].posn
    decreases p
  {
    if p != j {
      ChainBelow(g.items, g.items[p].pred, j);
      PositionsDown(g, g.items[p].pred, j);
    }
  }

  /** Where the search stops, nothing further down can be a target. */
  lemma SearchStops(g: Graph, a: int, p: int, lr: nat, pred: int, posn: nat)
    requires Positions(g.items) && 0 <= a < |g.tops| && OnChain(g.items, g.tops[a], p)
    requires NoTargetAbove(g, a, p, lr, pred, posn)
    requires 0 <= p < |g.items| && g.items[p].State?
    requires p == pred || p == g.split || g.items[p].posn < posn
    ensures NoTargetAbove(g, a, NULL, lr, pred, posn)
  {
    forall j {:trigger OnChain(g.items, g.tops[a], j)} | NULL < j && OnChain(g.items, g.tops[a], j)
      ensures !Target(g, j, lr, pred, posn)
    {
      if j <= p {
        ChainSplits(g.items, g.tops[a], p, j);
        PositionsDown(g, p, j);
        ChainBelow(g.items, p, j);
        ChainStep(g.items, p, j);
      }
    }
  }

  lemma {:induction false} ChainStep(items: seq<Item>, i: int, j: int)
    requires OnChain(items, i, j)
    ensures Step(items, j)
    decreases i
  {
    if i != j {
      ChainStep(items, items[i].pred, j);
    }
  }

  /** A search without result shows that the new state's key is not taken: neither on
      the other stacks, nor below the state that stack k is cut back to. */
  lemma SearchComplete(g: Graph, k: nat, s: int, lr: nat, posn: nat)
    requires k < |g.tops| && OnChain(g.items, g.tops[k], s)
    requires NoTargetBut(g, k, |g.tops|, lr, s, posn)
    ensures NoSuchState(CutTo(g, k, s), lr, s, posn)
  {
    var g' := CutTo(g, k, s);
    forall j {:trigger g'.items[j]} | 0 <= j && g'.split < j < |g'.items| && g'.items[j].State? && Live(g', j)
      ensures !(g'.items[j].lr == lr && g'.items[j].pred == s && g'.items[j].posn == posn)
    {
      var a :| 0 <= a < |g'.tops| && OnChain(g'.items, g'.tops[a], j);
      if a == k {
        ChainBelow(g.items, s, j);
        ChainStep(g.items, s, j);
      } else {
        assert g.tops[a] == g'.tops[a];
        assert NoTargetAbove(g, a, NULL, lr, s, posn);
        assert !Target(g, j, lr, s, posn);
      }
    }
  }

  // ---------------------------------------------------------------- reductions stay on the stack

  lemma {:induction false} WalkChain(items: seq<Item>, i: int, n: nat)
    requires n < |LrChain(items, i)|
    ensures var y := Walk(items, i, n);
      && Step(items, y) && OnChain(items, i, y)
      && LrChain(items, y) == LrChain(items, i)[..|LrChain(items, i)| - n]
    decreases n
  {
    if n > 0 {
      WalkChain(items, items[i].pred, n - 1);
      var c := LrChain(items, items[i].pred);
      assert LrChain(items, i)[..|LrChain(items, i)| - n] == c[..|c| - (n - 1)];
    }
  }

  /** What the stack looks like below the right-hand side of rule r: the predecessors do
      not run out (YYASSERT), and the automaton has a goto there. */
  lemma ReductionIsLegal(T: Tables, items: seq<Item>, top: int, r: nat)
    requires T.Ranges() && EdgesOk(T) && Automaton(T, items) && Step(items, top)
    requires Reducible(T, items[top].lr, r)
    ensures var s := Walk(items, top, T.r2[r]);
      && 1 < r < T.Rules()
      && Step(items, s) && OnChain(items, top, s)
      && Goto(T, items[s].lr, T.r1[r]) >= 0
      && (items[s].lr, T.r1[r], Goto(T, items[s].lr, T.r1[r])) in T.edges
  {
    hide Goto, Reducible, Path, Spell;
    var p := LrChain(items, top);
    assert Stack(T, p) && p[|p|-1] == items[top].lr;
    ReduceOnStack(T, p, r);
    WalkChain(items, top, T.r2[r]);
    var s := Walk(items, top, T.r2[r]);
    assert LrChain(items, s)[|LrChain(items, s)|-1] == items[s].lr;
  }

  /** The LR states p after a reduction by rule r. */
  function ReducedChain(T: Tables, p: seq<nat>, r: nat): seq<nat>
    requires T.Ranges()
  {
    if 0 < r < T.Rules() && T.r2[r] < |p| then
      var q := p[..|p| - T.r2[r]];
      var g := Goto(T, q[|q|-1], T.r1[r]);
      q + [if g < 0 then 0 else g]
    else p
  }

  lemma {:induction false} WalkInChain(items: seq<Item>, i: int, n: nat)
    requires Step(items, Walk(items, i, n))
    ensures n < |LrChain(items, i)|
    decreases n
  {
    if n > 0 {
      assert Walk(items, NULL, n - 1) == NULL;
      if Step(items, i) {
        WalkInChain(items, items[i].pred, n - 1);
      }
    }
  }

  /** Pushing the goto on the state below the right-hand side reduces the LR states. */
  lemma PushReduces(T: Tables, items: seq<Item>, top: int, r: nat, s: int, lr: nat)
    requires T.Ranges() && 1 < r < T.Rules() && s == Walk(items, top, T.r2[r]) && Step(items, s)
    requires lr == Goto(T, items[s].lr, T.r1[r])
    ensures LrChain(items, s) + [lr] == ReducedChain(T, LrChain(items, top), r)
  {
    hide Goto;
    WalkInChain(items, top, T.r2[r]);
    WalkChain(items, top, T.r2[r]);
    var q := LrChain(items, s);
    assert q[|q|-1] == items[s].lr;
  }
}
