/** The graph-structured stack of the GLR parser: states and deferred reductions in one
    item array, linked by indices, and the invariants that make it a set of stacks. */
module GlrGraph {
  import opened LrTables

  const NULL: int := -1

  /** yysemantics of a state: the union of a value and the first of its options. */
  datatype Semantics = Resolved(val: int) | Unresolved(firstVal: int)

  datatype Item =
    | State(lr: nat, pred: int, posn: nat, sem: Semantics)
    | Opt(rule: nat, state: int, rawchar: int, next: int)

  /** What a state or an option stands for: a symbol, and the stretch of the input that has
      been derived from it. */
  datatype Key = Key(sym: nat, from: nat, to: nat)

  /** The used items, yysplitPoint, and the tops of the stacks (NULL for a dead one). */
  datatype Graph = Graph(items: seq<Item>, split: int, tops: seq<int>)

  // ---------------------------------------------------------------- walking down

  /** i is a state whose predecessor comes before it. */
  predicate Step(items: seq<Item>, i: int) {
    0 <= i < |items| && items[i].State? && NULL <= items[i].pred < i
  }

  /** The state n links below i; NULL if there are fewer. */
  function Walk(items: seq<Item>, i: int, n: nat): int {
    if n == 0 then i
    else if Step(items, i) then Walk(items, items[i].pred, n - 1)
    else NULL
  }

  /** j is i or below it. */
  predicate OnChain(items: seq<Item>, i: int, j: int)
    decreases i
  {
    Step(items, i) && (i == j || OnChain(items, items[i].pred, j))
  }

  /** The LR states of the stack whose top is i, bottom first. */
  function LrChain(items: seq<Item>, i: int): seq<nat>
    decreases i
  {
    if Step(items, i) then LrChain(items, items[i].pred) + [items[i].lr] else []
  }

  predicate Live(g: Graph, j: int) {
    exists k | 0 <= k < |g.tops| :: OnChain(g.items, g.tops[k], j)
  }

  // ---------------------------------------------------------------- invariants

  /** Items up to `last` are the states of a stack laid out contiguously. */
  ghost predicate Contiguous(items: seq<Item>, last: int) {
    last < |items| &&
    forall i {:trigger items[i]} | 0 <= i <= last :: items[i].State? && items[i].pred == i - 1 && items[i].sem.Resolved?
  }

  ghost predicate LinksAbove(items: seq<Item>, split: int) {
    0 <= split && forall i {:trigger items[i]} | split < i < |items| :: match items[i]
      case State(_, pred, _, sem) =>
        && split <= pred < i && items[pred].State?
        && (sem.Unresolved? && sem.firstVal != NULL ==>
              0 <= sem.firstVal < |items| && items[sem.firstVal].Opt?)
      case Opt(_, state, _, next) =>
        && 0 <= split <= state < i && items[state].State?
        && NULL <= next < i && (next != NULL ==> items[next].Opt?)
  }

  /** The representation invariant, keyed on whether there is a split point. */
  ghost predicate Links(g: Graph) {
    if g.split == NULL then
      Contiguous(g.items, |g.items| - 1) && g.tops == [|g.items| - 1]
    else
      && 0 <= g.split < |g.items|
      && Contiguous(g.items, g.split)
      && LinksAbove(g.items, g.split)
      && (forall k {:trigger g.tops[k]} | 0 <= k < |g.tops| && g.tops[k] != NULL ::
            g.split <= g.tops[k] < |g.items| && g.items[g.tops[k]].State?)
  }

  /** Positions never decrease going up. */
  ghost predicate Positions(items: seq<Item>) {
    forall i {:trigger items[i]} | 0 <= i < |items| && items[i].State? ::
      Step(items, i) && items[i].pred >= 0 && items[items[i].pred].State? ==>
        items[items[i].pred].posn <= items[i].posn
  }

  /** Every stack there is or was follows the automaton. */
  ghost predicate Automaton(T: Tables, items: seq<Item>)
    requires T.Ranges()
  {
    forall i {:trigger items[i]} | 0 <= i < |items| && items[i].State? ::
      Stack(T, LrChain(items, i))
  }

  /** No two live states above the split point agree in LR state, predecessor and position. */
  ghost predicate Unique(g: Graph) {
    forall i, j {:trigger Live(g, i), Live(g, j)} |
      0 <= i && g.split < i < j < |g.items| && g.items[i].State? && g.items[j].State? && Live(g, i) && Live(g, j) ::
      !SameKey(g.items[i], g.items[j])
  }

  predicate SameKey(a: Item, b: Item)
    requires a.State? && b.State?
  {
    a.lr == b.lr && a.pred == b.pred && a.posn == b.posn
  }

  ghost predicate TopsDistinct(tops: seq<int>, except: int) {
    forall a, b {:trigger tops[a], tops[b]} |
      0 <= a < b < |tops| && a != except && b != except && tops[a] != NULL :: tops[a] != tops[b]
  }

  // ---------------------------------------------------------------- deferred reductions

  /** Option o is a derivation of state s: its rule's right-hand side lies between the
      predecessor of s and o's last state, ends where s ends, and leads to s. */
  ghost predicate Derives(T: Tables, items: seq<Item>, o: Item, s: int)
    requires T.Ranges()
  {
    && o.Opt? && Step(items, s) && 0 <= items[s].pred && items[items[s].pred].State?
    && 1 < o.rule < T.Rules()
    && 0 <= o.state < |items| && items[o.state].State?
    && Walk(items, o.state, T.r2[o.rule]) == items[s].pred
    && items[s].lr == Goto(T, items[items[s].pred].lr, T.r1[o.rule])
    && items[o.state].posn == items[s].posn
  }

  /** The options in `owner` belong to one state each; chains do not mix owners. */
  ghost predicate Owned(items: seq<Item>, owner: map<int, int>) {
    forall o {:trigger owner[o]} {:trigger o in owner} | o in owner ::
      && 0 <= o < |items| && items[o].Opt? && 0 <= owner[o] < o
      && (items[o].next != NULL ==> items[o].next in owner && owner[items[o].next] == owner[o])
  }

  /** And so do all options of live states. */
  ghost predicate LiveOwned(g: Graph, owner: map<int, int>) {
    forall s {:trigger Live(g, s)} | 0 <= s < |g.items| && Live(g, s) && g.items[s].State?
      && g.items[s].sem.Unresolved? && g.items[s].sem.firstVal != NULL ::
      g.items[s].sem.firstVal in owner && owner[g.items[s].sem.firstVal] == s
  }

  /** Every option in `owner` derives the state it belongs to. */
  ghost predicate Derivations(T: Tables, items: seq<Item>, owner: map<int, int>)
    requires T.Ranges()
  {
    && Owned(items, owner)
    && (forall o {:trigger owner[o]} {:trigger o in owner} | o in owner :: Derives(T, items, items[o], owner[o]))
  }

  // ---------------------------------------------------------------- frames

  /** items' only adds items and changes the semantics of states. */
  ghost predicate Extends(items: seq<Item>, items': seq<Item>) {
    && |items| <= |items'|
    && (forall i {:trigger items'[i]} {:trigger items[i]} | 0 <= i < |items| ::
          if items[i].State? then
            items'[i] == items[i].(sem := if items'[i].State? then items'[i].sem else items[i].sem)
          else items'[i] == items[i])
  }

  lemma {:induction false} WalkFrame(items: seq<Item>, items': seq<Item>, i: int, n: nat)
    requires Extends(items, items') && i < |items|
    ensures Walk(items', i, n) == Walk(items, i, n) && Walk(items, i, n) < |items|
  {
    if n > 0 && Step(items, i) {
      WalkFrame(items, items', items[i].pred, n - 1);
    }
  }

  lemma {:induction false} ChainFrame(items: seq<Item>, items': seq<Item>, i: int, j: int)
    requires Extends(items, items') && i < |items|
    ensures OnChain(items', i, j) == OnChain(items, i, j)
    ensures LrChain(items', i) == LrChain(items, i)
    decreases i
  {
    if Step(items, i) {
      ChainFrame(items, items', items[i].pred, j);
    }
  }

  lemma {:induction false} ChainBelow(items: seq<Item>, i: int, j: int)
    requires OnChain(items, i, j)
    ensures 0 <= j <= i < |items| && items[j].State?
    decreases i
  {
    if i != j {
      ChainBelow(items, items[i].pred, j);
    }
  }
}
