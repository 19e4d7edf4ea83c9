/** Whether the GLR parser misses anything: the configurations that the nondeterministic LR
    automaton reaches by reductions before the next shift, and how processing the stacks
    goes through all of them. */
module GlrReach {
  import opened LrTables
  import opened GlrGraph
  import opened GlrOps
  import opened GlrInvariants
  import opened GlrDeferred
  import opened GlrRounds
  import opened GlrLanguage
  import opened GlrSingle
  import opened GlrForest
  import opened GlrRanks
  import opened GlrStack

  // ---------------------------------------------------------------- reductions on one token

  /** In the last of the states q the token x is shifted. */
  predicate CanShift(T: Tables, q: seq<nat>, x: nat)
    requires T.Ranges()
  {
    q != [] && q[|q|-1] < T.States() && q[|q|-1] != T.final && Act(T, q[|q|-1], x).Shift?
  }

  /** And this is the configuration that it is shifted to. */
  function ShiftedTo(T: Tables, q: seq<nat>, x: nat): seq<nat>
    requires T.Ranges() && CanShift(T, q, x)
  {
    q + [Act(T, q[|q|-1], x).to]
  }

  /** n reductions, with x as the next token, lead from q to p. */
  ghost predicate Reaches(G: GlrTables, q: seq<nat>, p: seq<nat>, x: nat, n: nat)
    requires G.lalr.Ranges()
    decreases n
  {
    if n == 0 then p == q
    else exists m {:trigger ByReduction(G, q, m, x)} :: ByReduction(G, q, m, x) && Reaches(G, m, p, x, n - 1)
  }

  /** Reductions lead to p from one of the configurations `from`. */
  ghost predicate FromSome(G: GlrTables, from: iset<seq<nat>>, p: seq<nat>, x: nat)
    requires G.lalr.Ranges()
  {
    exists q, n: nat {:trigger Reaches(G, q, p, x, n)} :: q in from && Reaches(G, q, p, x, n)
  }

  lemma {:induction false} ReachesMore(G: GlrTables, q: seq<nat>, p: seq<nat>, m: seq<nat>, x: nat, n: nat)
    requires G.lalr.Ranges() && Reaches(G, q, p, x, n) && ByReduction(G, p, m, x)
    ensures Reaches(G, q, m, x, n + 1)
    decreases n
  {
    hide ByReduction;
    if n == 0 {
      assert Reaches(G, m, m, x, 0);
    } else {
      var q' :| ByReduction(G, q, q', x) && Reaches(G, q', p, x, n - 1);
      ReachesMore(G, q', p, m, x, n - 1);
    }
  }

  lemma FromItself(G: GlrTables, from: iset<seq<nat>>, q: seq<nat>, x: nat)
    requires G.lalr.Ranges() && q in from
    ensures FromSome(G, from, q, x)
  {
    assert Reaches(G, q, q, x, 0);
  }

  lemma FromSomeMore(G: GlrTables, from: iset<seq<nat>>, q: seq<nat>, x: nat, r: nat)
    requires G.lalr.Ranges() && FromSome(G, from, q, x) && q != [] && MayReduce(G, q[|q|-1], x, r)
    ensures FromSome(G, from, ReducedChain(G.lalr, q, r), x)
  {
    hide Reaches, MayReduce, ReducedChain;
    var s, n: nat :| s in from && Reaches(G, s, q, x, n);
    ReachesMore(G, s, q, ReducedChain(G.lalr, q, r), x, n);
  }

  // ---------------------------------------------------------------- what has been found so far

  /** The search for what can be reached `from` some configurations with `token` next: those
      `seen`, and the stacks still to be processed. */
  datatype Search = Search(from: iset<seq<nat>>, seen: iset<seq<nat>>, pending: set<nat>, token: nat)

  /** q is what a live stack consists of. */
  ghost predicate OnTop(g: Graph, q: seq<nat>) {
    exists a {:trigger g.tops[a]} :: 0 <= a < |g.tops| && g.tops[a] != NULL && LrChain(g.items, g.tops[a]) == q
  }

  ghost function Chains(g: Graph): iset<seq<nat>> {
    iset q | OnTop(g, q)
  }

  /** q is what a live stack consists of that is still to be processed. */
  ghost predicate Waiting(g: Graph, pending: set<nat>, q: seq<nat>) {
    exists a {:trigger g.tops[a]} :: a in pending && 0 <= a < |g.tops| && g.tops[a] != NULL
      && LrChain(g.items, g.tops[a]) == q
  }

  /** All reductions of q have been seen; and if it can shift, there is a live stack to do so. */
  ghost predicate Expanded(G: GlrTables, g: Graph, seen: iset<seq<nat>>, x: nat, q: seq<nat>)
    requires G.lalr.Ranges()
  {
    && q != []
    && (forall r: nat {:trigger MayReduce(G, q[|q|-1], x, r)} | MayReduce(G, q[|q|-1], x, r) ::
          ReducedChain(G.lalr, q, r) in seen)
    && (CanShift(G.lalr, q, x) ==> OnTop(g, q))
  }

  /** Every live stack has been seen, every state too that a reduction could end in, and what
      has been seen is waiting or has been dealt with. */
  ghost predicate Covers(G: GlrTables, g: Graph, posn: nat, c: Search)
    requires G.lalr.Ranges()
  {
    && c.from <= c.seen
    && (forall q | q in c.seen :: FromSome(G, c.from, q, c.token))
    && (forall a | a in c.pending :: a < |g.tops|)
    && (forall a {:trigger g.tops[a]} | 0 <= a < |g.tops| && g.tops[a] != NULL ::
          LrChain(g.items, g.tops[a]) in c.seen)
    && (forall p {:trigger Young(g, p, posn)} | Young(g, p, posn) :: LrChain(g.items, p) in c.seen)
    && (forall q | q in c.seen :: Waiting(g, c.pending, q) || Expanded(G, g, c.seen, c.token, q))
  }

  /** The stacks from k on. */
  function Rest(g: Graph, k: nat): (r: set<nat>)
  {
    set a: nat {:trigger g.tops[a]} | k <= a < |g.tops|
  }

  /** The search c' goes on from c, with the stacks `pending` left. */
  predicate GoesOn(c: Search, c': Search, pending: set<nat>) {
    c'.from == c.from && c.seen <= c'.seen && c'.pending == pending && c'.token == c.token
  }

  // ---------------------------------------------------------------- before a round

  /** No reduction has been put off at this place in the input. */
  ghost predicate NoneYoung(g: Graph, posn: nat) {
    forall p {:trigger Young(g, p, posn)} :: !Young(g, p, posn)
  }

  lemma {:induction false} ChainResolved(g: Graph, i: int, j: int)
    requires Links(g) && OnChain(g.items, i, j) && (g.split != NULL ==> ResolvedAbove(g.items, g.split, i))
    ensures 0 <= j < |g.items| && g.items[j].State? && g.items[j].sem.Resolved?
    decreases i
  {
    ChainBelow(g.items, i, j);
    if g.split != NULL && i <= g.split {
      assert g.items[j].sem.Resolved?;
    } else if i != j {
      ChainResolved(g, g.items[i].pred, j);
    }
  }

  /** Deterministic parsing puts nothing off ... */
  lemma SingleNotYoung(T: Tables, g: Graph, posn: nat, owner: map<int, int>)
    requires T.Ranges() && GraphInv(T, g, owner) && Single(g, posn)
    ensures NoneYoung(g, posn)
  {
    hide Positions, Automaton, Unique, Derivations, LiveOwned, ResolvedAbove, OnChain, Links, Forest, Outgrown;
    forall p {:trigger Live(g, p)} | Live(g, p)
      ensures 0 <= p < |g.items| && g.items[p].State? && g.items[p].sem.Resolved?
    {
      var a :| 0 <= a < |g.tops| && OnChain(g.items, g.tops[a], p);
      ChainResolved(g, g.tops[0], p);
    }
  }

  /** ... and after a shift on all stacks everything at the new place is a token. */
  lemma ShiftedNotYoung(T: Tables, g0: Graph, g: Graph, token: nat, posn: nat)
    requires T.Ranges() && Shifted(T, g0, g, |g.tops|, token, posn + 1) && Positions(g.items) && AllCurrent(g0, posn)
    ensures NoneYoung(g, posn + 1)
  {
    hide Positions, Live, Act;
    forall p {:trigger g.items[p]} | |g0.items| <= p < |g.items|
      ensures g.items[p].State? && g.items[p].sem.Resolved?
    {
      assert ShiftedTop(T, g0, g, p - |g0.items|, token, posn + 1);
    }
    forall p {:trigger Live(g, p)} | 0 <= p < |g0.items| && Live(g, p)
      ensures g.items[p].State? ==> g.items[p].posn <= posn
    {
      OldIsCurrent(T, g0, g, |g.tops|, token, posn, p);
    }
  }

  // ---------------------------------------------------------------- what each operation does to the search

  /** At the start everything waits; the parser has put nothing off at this place yet. */
  lemma SearchStart(G: GlrTables, g: Graph, posn: nat, x: nat)
    requires G.lalr.Ranges() && NoneYoung(g, posn)
    ensures Covers(G, g, posn, Search(Chains(g), Chains(g), Rest(g, 0), x))
  {
    hide FromSome, MayReduce, LrChain, Young;
    var c := Search(Chains(g), Chains(g), Rest(g, 0), x);
    forall q | q in c.seen
      ensures FromSome(G, c.from, q, x) && Waiting(g, c.pending, q)
    {
      FromItself(G, c.from, q, x);
      assert OnTop(g, q);
      var a :| 0 <= a < |g.tops| && g.tops[a] != NULL && LrChain(g.items, g.tops[a]) == q;
      var b: nat := a;
      assert b in c.pending && g.tops[b] == g.tops[a];
    }
    forall a {:trigger g.tops[a]} | 0 <= a < |g.tops| && g.tops[a] != NULL
      ensures LrChain(g.items, g.tops[a]) in c.seen
    {
      assert OnTop(g, LrChain(g.items, g.tops[a]));
    }
  }

  /** More may wait. */
  lemma WaitMore(G: GlrTables, g: Graph, posn: nat, c: Search, more: set<nat>)
    requires G.lalr.Ranges() && Covers(G, g, posn, c) && c.pending <= more && forall a | a in more :: a < |g.tops|
    ensures Covers(G, g, posn, c.(pending := more))
  {
    hide FromSome, MayReduce, LrChain, Young, Expanded;
    forall q | q in c.seen && Waiting(g, c.pending, q)
      ensures Waiting(g, more, q)
    {
    }
  }

  /** A dead stack has nothing to wait for. */
  lemma DropDead(G: GlrTables, g: Graph, posn: nat, c: Search, k: nat)
    requires G.lalr.Ranges() && Covers(G, g, posn, c) && k < |g.tops| && g.tops[k] == NULL
    ensures Covers(G, g, posn, c.(pending := c.pending - {k}))
  {
    hide FromSome, MayReduce, LrChain, Young, Expanded;
    forall q | q in c.seen && Waiting(g, c.pending, q)
      ensures Waiting(g, c.pending - {k}, q)
    {
      var a :| a in c.pending && 0 <= a < |g.tops| && g.tops[a] != NULL && LrChain(g.items, g.tops[a]) == q;
      assert a in c.pending - {k};
    }
  }

  lemma Dropped(G: GlrTables, g: Graph, posn: nat, c: Search, d: Search, k: nat) returns (c': Search)
    requires G.lalr.Ranges() && Covers(G, g, posn, d) && GoesOn(c, d, c.pending) && k < |g.tops| && g.tops[k] == NULL
    ensures Covers(G, g, posn, c') && GoesOn(c, c', c.pending - {k})
  {
    hide Covers;
    c' := d.(pending := d.pending - {k});
    DropDead(G, g, posn, d, k);
  }

  /** The first k stacks wait no more. */
  ghost predicate DoneTo(G: GlrTables, g: Graph, posn: nat, from: iset<seq<nat>>, x: nat, k: nat, c: Search)
    requires G.lalr.Ranges()
  {
    Covers(G, g, posn, c) && c.from == from && c.token == x && c.pending == Rest(g, k)
  }

  lemma NoneDone(G: GlrTables, g: Graph, posn: nat, x: nat) returns (c: Search)
    requires G.lalr.Ranges() && NoneYoung(g, posn)
    ensures DoneTo(G, g, posn, Chains(g), x, 0, c)
  {
    hide Covers, NoneYoung;
    c := Search(Chains(g), Chains(g), Rest(g, 0), x);
    SearchStart(G, g, posn, x);
  }

  lemma DoneIs(G: GlrTables, g: Graph, posn: nat, from: iset<seq<nat>>, x: nat, k: nat, c: Search)
    requires G.lalr.Ranges() && DoneTo(G, g, posn, from, x, k, c)
    ensures Covers(G, g, posn, c) && c.token == x && (k < |g.tops| ==> k in c.pending)
  {
    hide Covers;
    if k < |g.tops| {
      assert g.tops[k] == g.tops[k];
    }
  }

  /** Stack k has been dealt with. */
  lemma OneMoreDone(G: GlrTables, g: Graph, h: Graph, posn: nat, from: iset<seq<nat>>, x: nat, k: nat, c: Search,
                    d: Search)
    returns (c': Search)
    requires G.lalr.Ranges() && DoneTo(G, g, posn, from, x, k, c) && |g.tops| <= |h.tops|
    requires Covers(G, h, posn, d) && GoesOn(c, d, c.pending - {k})
    ensures DoneTo(G, h, posn, from, x, k + 1, c')
  {
    hide Covers;
    c' := d.(pending := Rest(h, k + 1));
    forall a | a in d.pending
      ensures a in Rest(h, k + 1)
    {
      assert h.tops[a] == h.tops[a];
    }
    WaitMore(G, h, posn, d, Rest(h, k + 1));
  }

  lemma AllDone(G: GlrTables, g: Graph, posn: nat, from: iset<seq<nat>>, x: nat, c: Search)
    requires G.lalr.Ranges() && DoneTo(G, g, posn, from, x, |g.tops|, c)
    ensures Reached(G, from, g, x)
  {
    hide Covers;
    SearchEnds(G, g, posn, c);
  }

  /** Stack k waits no more, when all that its states q allow has been seen. */
  lemma Settle(G: GlrTables, g: Graph, posn: nat, c: Search, k: nat)
    requires G.lalr.Ranges() && Covers(G, g, posn, c) && k < |g.tops| && g.tops[k] != NULL
    requires Expanded(G, g, c.seen, c.token, LrChain(g.items, g.tops[k]))
    ensures Covers(G, g, posn, c.(pending := c.pending - {k}))
  {
    hide FromSome, MayReduce, LrChain, Young, Expanded;
    var q0 := LrChain(g.items, g.tops[k]);
    forall q | q in c.seen && q != q0 && Waiting(g, c.pending, q)
      ensures Waiting(g, c.pending - {k}, q)
    {
      var a :| a in c.pending && 0 <= a < |g.tops| && g.tops[a] != NULL && LrChain(g.items, g.tops[a]) == q;
      assert a in c.pending - {k};
    }
  }

  /** A copy of a stack adds nothing. */
  lemma CopyCovers(G: GlrTables, g: Graph, posn: nat, c: Search, k: nat)
    requires G.lalr.Ranges() && Covers(G, g, posn, c) && k < |g.tops| && g.tops[k] != NULL
    ensures Covers(G, SplitStack(g, k), posn, c)
  {
    hide FromSome, MayReduce, LrChain, CanShift;
    var h := SplitStack(g, k);
    forall p
      ensures Young(h, p, posn) == Young(g, p, posn)
    {
      SplitStackLive(g, k, p);
    }
    forall q
      ensures OnTop(g, q) ==> OnTop(h, q)
      ensures Waiting(g, c.pending, q) ==> Waiting(h, c.pending, q)
    {
      TopsStay(g, h, c.pending, q);
    }
  }

  lemma TopsStay(g: Graph, h: Graph, pending: set<nat>, q: seq<nat>)
    requires h.items == g.items && g.tops <= h.tops
    ensures OnTop(g, q) ==> OnTop(h, q)
    ensures Waiting(g, pending, q) ==> Waiting(h, pending, q)
  {
    hide LrChain;
    if OnTop(g, q) {
      var a :| 0 <= a < |g.tops| && g.tops[a] != NULL && LrChain(g.items, g.tops[a]) == q;
      assert h.tops[a] == g.tops[a];
    }
    if Waiting(g, pending, q) {
      var a :| a in pending && 0 <= a < |g.tops| && g.tops[a] != NULL && LrChain(g.items, g.tops[a]) == q;
      assert h.tops[a] == g.tops[a];
    }
  }

  /** What the other stacks consist of is what it was. */
  lemma OthersStay(g: Graph, h: Graph, k: int, pending: set<nat>, q: seq<nat>)
    requires Kept(g, h, k) && TopsBelow(g)
    requires 0 <= k < |g.tops| ==> g.tops[k] == NULL || LrChain(g.items, g.tops[k]) != q
    ensures OnTop(g, q) ==> OnTop(h, q)
    ensures Waiting(g, pending, q) ==> Waiting(h, pending, q)
  {
    hide LrChain, OptionsKept, Extends;
    forall a {:trigger g.tops[a]} | 0 <= a < |g.tops| && g.tops[a] != NULL && LrChain(g.items, g.tops[a]) == q
      ensures h.tops[a] == g.tops[a] && LrChain(h.items, h.tops[a]) == q
    {
      ChainFrame(g.items, h.items, g.tops[a], 0);
    }
    if OnTop(g, q) {
      var a :| 0 <= a < |g.tops| && g.tops[a] != NULL && LrChain(g.items, g.tops[a]) == q;
      assert h.tops[a] == g.tops[a];
    }
    if Waiting(g, pending, q) {
      var a :| a in pending && 0 <= a < |g.tops| && g.tops[a] != NULL && LrChain(g.items, g.tops[a]) == q;
      assert h.tops[a] == g.tops[a];
    }
  }

  /** Every reduction of q has been seen, except perhaps that by rule `but`; q does not shift. */
  ghost predicate Spent(G: GlrTables, seen: iset<seq<nat>>, x: nat, q: seq<nat>, but: int)
    requires G.lalr.Ranges()
  {
    && q != [] && !CanShift(G.lalr, q, x)
    && (forall r: nat {:trigger MayReduce(G, q[|q|-1], x, r)} | MayReduce(G, q[|q|-1], x, r) && r != but ::
          ReducedChain(G.lalr, q, r) in seen)
  }

  /** What was a reason to be covered still is one, unless it was stack k. */
  lemma ReasonStays(G: GlrTables, g: Graph, h: Graph, k: int, c: Search, c': Search, q: seq<nat>)
    requires G.lalr.Ranges() && Kept(g, h, k) && TopsBelow(g) && c.seen <= c'.seen && c.pending - {k} <= c'.pending
    requires c'.token == c.token && 0 <= k < |g.tops| && (g.tops[k] == NULL || LrChain(g.items, g.tops[k]) != q)
    requires Waiting(g, c.pending, q) || Expanded(G, g, c.seen, c.token, q)
    ensures Waiting(h, c'.pending, q) || Expanded(G, h, c'.seen, c'.token, q)
  {
    hide LrChain, MayReduce, CanShift, ReducedChain, Kept;
    if Waiting(g, c.pending, q) {
      var a :| a in c.pending && 0 <= a < |g.tops| && g.tops[a] != NULL && LrChain(g.items, g.tops[a]) == q;
      assert a in c'.pending;
      WaitsStill(g, h, k, a, c'.pending, q);
    } else {
      OthersStay(g, h, k, c.pending, q);
    }
  }

  lemma WaitsStill(g: Graph, h: Graph, k: int, a: nat, pending: set<nat>, q: seq<nat>)
    requires Kept(g, h, k) && TopsBelow(g) && a in pending && a < |g.tops| && a != k && g.tops[a] != NULL
    requires LrChain(g.items, g.tops[a]) == q
    ensures Waiting(h, pending, q)
  {
    hide LrChain, OptionsKept, Extends;
    ChainFrame(g.items, h.items, g.tops[a], 0);
    assert h.tops[a] == g.tops[a];
  }

  lemma YoungStays(g: Graph, h: Graph, k: int, p: int, posn: nat)
    requires Kept(g, h, k) && NoMoreLive(g, h, k) && Young(h, p, posn) && TopsBelow(g)
    ensures (0 <= k < |h.tops| && p == h.tops[k]) || (Young(g, p, posn) && LrChain(h.items, p) == LrChain(g.items, p))
  {
    hide LrChain, OptionsKept, Live;
    if !(0 <= k < |h.tops| && p == h.tops[k]) {
      ChainFrame(g.items, h.items, p, 0);
      assert h.items[p] == h.items[p];
    }
  }

  /** The reduction by r of stack k may be put off: the tables ask for it, and either another
      stack of the same states waits, or all other reductions have been seen. */
  ghost predicate Deferrable(G: GlrTables, g: Graph, c: Search, k: nat, r: nat)
    requires G.lalr.Ranges()
  {
    && k < |g.tops| && Step(g.items, g.tops[k]) && MayReduce(G, g.items[g.tops[k]].lr, c.token, r)
    && var q := LrChain(g.items, g.tops[k]);
       Waiting(g, c.pending - {k}, q) || Spent(G, c.seen, c.token, q, r)
  }

  lemma TopOfChain(items: seq<Item>, i: int)
    requires Step(items, i)
    ensures var q := LrChain(items, i); q != [] && q[|q|-1] == items[i].lr
  {
  }

  /** The reduction by r of stack k, whose states are q, has been put off: the result has been
      seen now, and waits if it is not there already. */
  lemma DeferCovers(G: GlrTables, g: Graph, h: Graph, posn: nat, c: Search, k: nat, r: nat)
    requires G.lalr.Ranges() && Covers(G, g, posn, c) && Deferrable(G, g, c, k, r) && |h.tops| == |g.tops|
    requires Kept(g, h, k) && NoMoreLive(g, h, k) && TopsBelow(g)
    requires h.tops[k] != NULL ==>
      LrChain(h.items, h.tops[k]) == ReducedChain(G.lalr, LrChain(g.items, g.tops[k]), r)
    requires h.tops[k] == NULL ==> Absorbed(G.lalr, g, k, r, posn)
    ensures Covers(G, h, posn, Deferring(G.lalr, g, c, k, r))
  {
    hide FromSome, MayReduce, LrChain, Young, ReducedChain, Waiting, Expanded, Kept, NoMoreLive, CanShift;
    var q := LrChain(g.items, g.tops[k]);
    var c' := Deferring(G.lalr, g, c, k, r);
    TopOfChain(g.items, g.tops[k]);
    FromSomeMore(G, c.from, q, c.token, r);
    DeferSeen(G, g, h, posn, c, k, r);
    forall q' | q' in c'.seen
      ensures Waiting(h, c'.pending, q') || Expanded(G, h, c'.seen, c'.token, q')
    {
      if q' == q {
        StillCovered(G, g, h, c, k, r);
      } else if q' in c.seen {
        ReasonStays(G, g, h, k, c, c', q');
      } else {
        ResultWaits(G, g, h, posn, c, k, r);
      }
    }
  }

  function Deferring(T: Tables, g: Graph, c: Search, k: nat, r: nat): (c': Search)
    requires T.Ranges() && k < |g.tops|
    ensures GoesOn(c, c', c.pending + {k})
  {
    c.(seen := c.seen + iset{ReducedChain(T, LrChain(g.items, g.tops[k]), r)}, pending := c.pending + {k})
  }

  lemma DeferSeen(G: GlrTables, g: Graph, h: Graph, posn: nat, c: Search, k: nat, r: nat)
    requires G.lalr.Ranges() && Covers(G, g, posn, c) && k < |g.tops| == |h.tops|
    requires Kept(g, h, k) && NoMoreLive(g, h, k) && TopsBelow(g)
    requires h.tops[k] != NULL ==>
      LrChain(h.items, h.tops[k]) == ReducedChain(G.lalr, LrChain(g.items, g.tops[k]), r)
    ensures var c' := Deferring(G.lalr, g, c, k, r);
      && (forall a {:trigger h.tops[a]} | 0 <= a < |h.tops| && h.tops[a] != NULL ::
            LrChain(h.items, h.tops[a]) in c'.seen)
      && (forall p {:trigger Young(h, p, posn)} | Young(h, p, posn) :: LrChain(h.items, p) in c'.seen)
  {
    hide FromSome, MayReduce, LrChain, ReducedChain, Waiting, Expanded, Extends, OptionsKept, NoMoreLive, Live;
    forall a {:trigger h.tops[a]} | 0 <= a < |h.tops| && h.tops[a] != NULL && a != k
      ensures LrChain(h.items, h.tops[a]) in c.seen
    {
      ChainFrame(g.items, h.items, g.tops[a], 0);
    }
    forall p {:trigger Young(h, p, posn)} | Young(h, p, posn)
      ensures p == h.tops[k] || LrChain(h.items, p) in c.seen
    {
      YoungStays(g, h, k, p, posn);
    }
  }

  /** The states that have been reduced. */
  lemma StillCovered(G: GlrTables, g: Graph, h: Graph, c: Search, k: nat, r: nat)
    requires G.lalr.Ranges() && k < |g.tops| && Kept(g, h, k) && TopsBelow(g)
    requires var q := LrChain(g.items, g.tops[k]);
      Waiting(g, c.pending - {k}, q) || Spent(G, c.seen, c.token, q, r)
    ensures var q, c' := LrChain(g.items, g.tops[k]), Deferring(G.lalr, g, c, k, r);
      Waiting(h, c'.pending, q) || Expanded(G, h, c'.seen, c'.token, q)
  {
    hide FromSome, MayReduce, LrChain, ReducedChain, CanShift, Kept, OnTop, Spent, Expanded;
    var q, c' := LrChain(g.items, g.tops[k]), Deferring(G.lalr, g, c, k, r);
    if Waiting(g, c.pending - {k}, q) {
      var a :| a in c.pending - {k} && 0 <= a < |g.tops| && g.tops[a] != NULL && LrChain(g.items, g.tops[a]) == q;
      WaitsStill(g, h, k, a, c'.pending, q);
    } else {
      SpentExpands(G, h, c.seen, c.token, q, r);
    }
  }

  lemma SpentExpands(G: GlrTables, g: Graph, seen: iset<seq<nat>>, x: nat, q: seq<nat>, r: nat)
    requires G.lalr.Ranges() && Spent(G, seen, x, q, r)
    ensures Expanded(G, g, seen + iset{ReducedChain(G.lalr, q, r)}, x, q)
  {
    hide MayReduce, CanShift, ReducedChain, OnTop;
    forall r': nat {:trigger MayReduce(G, q[|q|-1], x, r')} | MayReduce(G, q[|q|-1], x, r')
      ensures ReducedChain(G.lalr, q, r') in seen + iset{ReducedChain(G.lalr, q, r)}
    {
    }
  }

  /** The result of the reduction, when it is new. */
  lemma ResultWaits(G: GlrTables, g: Graph, h: Graph, posn: nat, c: Search, k: nat, r: nat)
    requires G.lalr.Ranges() && Covers(G, g, posn, c) && k < |g.tops| == |h.tops|
    requires h.tops[k] != NULL ==>
      LrChain(h.items, h.tops[k]) == ReducedChain(G.lalr, LrChain(g.items, g.tops[k]), r)
    requires h.tops[k] == NULL ==> Absorbed(G.lalr, g, k, r, posn)
    ensures var q' := ReducedChain(G.lalr, LrChain(g.items, g.tops[k]), r);
      q' in c.seen || Waiting(h, c.pending + {k}, q')
  {
    hide FromSome, MayReduce, LrChain, ReducedChain, Expanded, Young;
    if h.tops[k] != NULL {
      assert k in c.pending + {k} && h.tops[k] == h.tops[k];
    }
  }

  /** Stack k dies of an error, its conflicts having been seen. */
  lemma DieCovers(G: GlrTables, g: Graph, posn: nat, c: Search, k: nat)
    requires G.lalr.Ranges() && Covers(G, g, posn, c) && k < |g.tops| && g.tops[k] != NULL && TopsBelow(g)
    requires Spent(G, c.seen, c.token, LrChain(g.items, g.tops[k]), -1)
    ensures Covers(G, MarkDeleted(g, k), posn, c.(pending := c.pending - {k}))
  {
    hide FromSome, MayReduce, LrChain, ReducedChain, Waiting, CanShift, Expanded, Young, Kept;
    var h, c' := MarkDeleted(g, k), c.(pending := c.pending - {k});
    DeletedKeeps(g, k);
    forall p {:trigger Young(h, p, posn)} | Young(h, p, posn)
      ensures LrChain(h.items, p) in c.seen
    {
      YoungStays(g, h, k, p, posn);
      YoungIs(h, p, posn);
    }
    var q := LrChain(g.items, g.tops[k]);
    forall q' | q' in c'.seen
      ensures Waiting(h, c'.pending, q') || Expanded(G, h, c'.seen, c'.token, q')
    {
      if q' == q {
        SpentIsExpanded(G, h, c.seen, c.token, q);
      } else {
        ReasonStays(G, g, h, k, c, c', q');
      }
    }
  }

  lemma YoungIs(g: Graph, p: int, posn: nat)
    requires Young(g, p, posn)
    ensures 0 <= p < |g.items|
  {
    hide Live;
  }

  lemma DeletedKeeps(g: Graph, k: nat)
    requires k < |g.tops|
    ensures Kept(g, MarkDeleted(g, k), k) && NoMoreLive(g, MarkDeleted(g, k), k)
  {
    hide OptionOf, Live;
    MarkDeletedFewer(g, k);
    var h := MarkDeleted(g, k);
    forall j {:trigger Live(h, j)} | Live(h, j)
      ensures Live(g, j) && 0 <= j < |g.items| && g.items[j].State?
    {
      LiveInRange(g, j);
    }
  }

  lemma SpentIsExpanded(G: GlrTables, g: Graph, seen: iset<seq<nat>>, x: nat, q: seq<nat>)
    requires G.lalr.Ranges() && Spent(G, seen, x, q, -1)
    ensures Expanded(G, g, seen, x, q)
  {
    hide MayReduce, CanShift, ReducedChain;
  }

  /** On a copy of a waiting stack every reduction may be put off. */
  lemma CopyDeferrable(G: GlrTables, g: Graph, posn: nat, c: Search, k: nat, r: nat)
    requires G.lalr.Ranges() && Covers(G, g, posn, c) && k in c.pending && k < |g.tops| && Step(g.items, g.tops[k])
    requires MayReduce(G, g.items[g.tops[k]].lr, c.token, r)
    ensures Deferrable(G, SplitStack(g, k), c, |g.tops|, r)
  {
    hide FromSome, MayReduce, LrChain, ReducedChain, Expanded, Young, Spent;
    var h, q := SplitStack(g, k), LrChain(g.items, g.tops[k]);
    assert |g.tops| !in c.pending;
    assert h.tops[k] == g.tops[k] == h.tops[|g.tops|];
    assert Waiting(h, c.pending - {|g.tops|}, q);
  }

  /** When the copy has been processed, what waits is what waited before. */
  lemma CopySearched(G: GlrTables, g: Graph, posn: nat, c: Search, c': Search, k: nat, r: nat)
    requires G.lalr.Ranges() && Covers(G, g, posn, c) && k < |g.tops|
    requires var d := Deferring(G.lalr, SplitStack(g, k), c, |g.tops|, r); GoesOn(d, c', d.pending - {|g.tops|})
    ensures GoesOn(c, c', c.pending) && ReducedChain(G.lalr, LrChain(g.items, g.tops[k]), r) in c'.seen
  {
    hide FromSome, MayReduce, LrChain, ReducedChain, Expanded, Young, Waiting;
    assert |g.tops| !in c.pending;
    assert SplitStack(g, k).tops[|g.tops|] == g.tops[k];
  }

  /** The reductions of q by all the rules have been seen. */
  ghost predicate AllOf(T: Tables, q: seq<nat>, rules: seq<nat>, seen: iset<seq<nat>>)
    requires T.Ranges()
  {
    forall r | r in rules :: ReducedChain(T, q, r) in seen
  }

  lemma SearchStays(T: Tables, c: Search, q: seq<nat>, rules: seq<nat>)
    requires T.Ranges()
    ensures GoesOn(c, c, c.pending) && AllOf(T, q, [], c.seen)
  {
  }

  lemma SearchIs(c: Search, c': Search, pending: set<nat>)
    requires GoesOn(c, c', pending)
    ensures c'.pending == pending && c'.token == c.token && c'.from == c.from
  {
  }

  lemma OneMoreSeen(T: Tables, c: Search, d: Search, c': Search, q: seq<nat>, rules: seq<nat>, i: nat)
    requires T.Ranges() && i < |rules| && GoesOn(c, d, c.pending) && GoesOn(d, c', d.pending)
    requires AllOf(T, q, rules[..i], d.seen) && ReducedChain(T, q, rules[i]) in c'.seen
    ensures GoesOn(c, c', c.pending) && AllOf(T, q, rules[..i + 1], c'.seen)
  {
    hide ReducedChain;
    assert rules[..i + 1] == rules[..i] + [rules[i]];
  }

  /** What waits after stack k has been looked at. */
  function Left(c: Search, k: nat, done: bool): set<nat> { if done then c.pending - {k} else c.pending }

  lemma PendingStays(c: Search, k: nat)
    requires k in c.pending
    ensures c.pending + {k} == c.pending
  {
  }

  lemma SearchThrough(c: Search, d: Search, c': Search, pending: set<nat>)
    requires GoesOn(c, d, d.pending) && GoesOn(d, c', pending)
    ensures GoesOn(c, c', pending)
  {
  }

  lemma LeftIs(c: Search, d: Search, k: nat, done: bool)
    requires GoesOn(c, d, Left(c, k, done)) && k in c.pending
    ensures if done then d.pending == c.pending - {k} else k in d.pending && d.pending == c.pending
    ensures d.token == c.token
  {
  }

  lemma LeftThrough(c: Search, d: Search, c': Search, k: nat, done: bool)
    requires GoesOn(c, d, Left(c, k, false)) && GoesOn(d, c', Left(d, k, done))
    ensures GoesOn(c, c', Left(c, k, done))
  {
  }

  /** The action of the state on top of stack k; all other reductions that the tables ask for
      there have been seen. */
  ghost predicate ConflictsSeen(G: GlrTables, g: Graph, c: Search, k: nat, action: Action)
    requires G.lalr.Ranges()
  {
    && k < |g.tops| && Step(g.items, g.tops[k])
    && var lr := g.items[g.tops[k]].lr;
       && lr < G.lalr.States() && lr != G.lalr.final && action == Act(G.lalr, lr, c.token)
       && forall r: nat {:trigger MayReduce(G, lr, c.token, r)} | MayReduce(G, lr, c.token, r) && action != Reduce(r) ::
            ReducedChain(G.lalr, LrChain(g.items, g.tops[k]), r) in c.seen
  }

  lemma SeenConflicts(G: GlrTables, g: Graph, c: Search, k: nat, lr: nat)
    requires G.lalr.Ranges() && k < |g.tops| && Step(g.items, g.tops[k]) && g.items[g.tops[k]].lr == lr
    requires lr < G.lalr.States() && lr != G.lalr.final
    requires Defaulted(G.lalr, lr) || AllOf(G.lalr, LrChain(g.items, g.tops[k]), G.conflicts(lr, c.token), c.seen)
    ensures ConflictsSeen(G, g, c, k, Act(G.lalr, lr, c.token))
  {
    hide Act, LrChain, ReducedChain, Defaulted;
  }

  /** A stack that is about to shift need not wait. */
  lemma ShiftSettles(G: GlrTables, g: Graph, posn: nat, c: Search, k: nat, action: Action)
    requires G.lalr.Ranges() && Covers(G, g, posn, c) && ConflictsSeen(G, g, c, k, action) && action.Shift?
    ensures Covers(G, g, posn, c.(pending := c.pending - {k}))
  {
    hide FromSome, MayReduce, LrChain, ReducedChain, Waiting, Young, Act;
    TopOfChain(g.items, g.tops[k]);
    assert OnTop(g, LrChain(g.items, g.tops[k]));
    Settle(G, g, posn, c, k);
  }

  lemma ErrorIsSpent(G: GlrTables, g: Graph, c: Search, k: nat, action: Action)
    requires G.lalr.Ranges() && ConflictsSeen(G, g, c, k, action) && action == Error
    ensures Spent(G, c.seen, c.token, LrChain(g.items, g.tops[k]), -1)
  {
    hide MayReduce, LrChain, ReducedChain, Act;
    TopOfChain(g.items, g.tops[k]);
  }

  lemma ReduceDeferrable(G: GlrTables, g: Graph, c: Search, k: nat, r: nat)
    requires G.lalr.Ranges() && ConflictsSeen(G, g, c, k, Reduce(r))
    ensures Deferrable(G, g, c, k, r)
  {
    hide LrChain, ReducedChain, Act, Waiting, Defaulted;
    TopOfChain(g.items, g.tops[k]);
    assert MayReduce(G, g.items[g.tops[k]].lr, c.token, r);
  }

  // ---------------------------------------------------------------- when nothing waits any more

  /** The live stacks are configurations that reductions lead to from those in `from`, and all
      that can shift x are among them. */
  ghost predicate Reached(G: GlrTables, from: iset<seq<nat>>, g: Graph, x: nat)
    requires G.lalr.Ranges()
  {
    && (forall p | OnTop(g, p) :: FromSome(G, from, p, x))
    && (forall p {:trigger FromSome(G, from, p, x)} | FromSome(G, from, p, x) && CanShift(G.lalr, p, x) :: OnTop(g, p))
  }

  lemma {:induction false} AllSeen(G: GlrTables, seen: iset<seq<nat>>, x: nat, q: seq<nat>, p: seq<nat>, n: nat)
    requires G.lalr.Ranges() && q in seen && Reaches(G, q, p, x, n)
    requires forall q', r: nat {:trigger MayReduce(G, q'[|q'|-1], x, r)} |
      q' in seen && q' != [] && MayReduce(G, q'[|q'|-1], x, r) :: ReducedChain(G.lalr, q', r) in seen
    ensures p in seen
    decreases n
  {
    hide MayReduce, ReducedChain;
    if n > 0 {
      var m :| ByReduction(G, q, m, x) && Reaches(G, m, p, x, n - 1);
      var r: nat :| MayReduce(G, q[|q|-1], x, r) && m == ReducedChain(G.lalr, q, r);
      AllSeen(G, seen, x, m, p, n - 1);
    }
  }

  /** Whatever has become of a stack that has been seen, say with the states q: a stack p that its
      reductions lead to and that can shift is alive, or a live stack that waits leads to it. */
  lemma {:induction false} NothingLost(G: GlrTables, g: Graph, posn: nat, c: Search, q: seq<nat>, p: seq<nat>, n: nat)
    requires G.lalr.Ranges() && Covers(G, g, posn, c) && q in c.seen
    requires Reaches(G, q, p, c.token, n) && CanShift(G.lalr, p, c.token)
    ensures OnTop(g, p) || exists m, k: nat {:trigger Reaches(G, m, p, c.token, k)} ::
      Waiting(g, c.pending, m) && Reaches(G, m, p, c.token, k)
    decreases n
  {
    hide MayReduce, ReducedChain, LrChain, CanShift, Young, FromSome;
    if !Waiting(g, c.pending, q) && n > 0 {
      var m :| ByReduction(G, q, m, c.token) && Reaches(G, m, p, c.token, n - 1);
      var r: nat :| MayReduce(G, q[|q|-1], c.token, r) && m == ReducedChain(G.lalr, q, r);
      NothingLost(G, g, posn, c, m, p, n - 1);
    }
  }

  /** Then the search has found all there is. */
  lemma SearchEnds(G: GlrTables, g: Graph, posn: nat, c: Search)
    requires G.lalr.Ranges() && Covers(G, g, posn, c) && c.pending == {}
    ensures Reached(G, c.from, g, c.token)
  {
    hide MayReduce, ReducedChain, LrChain, CanShift, Young, Reaches;
    forall q | q in c.seen
      ensures Expanded(G, g, c.seen, c.token, q)
    {
    }
    forall p {:trigger FromSome(G, c.from, p, c.token)} | FromSome(G, c.from, p, c.token)
      ensures p in c.seen
    {
      var q, n: nat :| q in c.from && Reaches(G, q, p, c.token, n);
      AllSeen(G, c.seen, c.token, q, p, n);
    }
    forall p | OnTop(g, p)
      ensures FromSome(G, c.from, p, c.token)
    {
      var a :| 0 <= a < |g.tops| && g.tops[a] != NULL && LrChain(g.items, g.tops[a]) == p;
    }
  }

  /** The configurations after the next shift: the step of the nondeterministic automaton from
      one token to the next, on sets. */
  ghost function Moved(G: GlrTables, from: iset<seq<nat>>, x: nat): iset<seq<nat>>
    requires G.lalr.Ranges()
  {
    iset p | MovesTo(G, from, x, p)
  }

  ghost predicate MovesTo(G: GlrTables, from: iset<seq<nat>>, x: nat, p: seq<nat>)
    requires G.lalr.Ranges()
  {
    exists q {:trigger FromSome(G, from, q, x)} ::
      FromSome(G, from, q, x) && CanShift(G.lalr, q, x) && p == ShiftedTo(G.lalr, q, x)
  }

  /** No state is left that can shift. */
  lemma NothingMoves(G: GlrTables, from: iset<seq<nat>>, g: Graph, x: nat)
    requires G.lalr.Ranges() && Reached(G, from, g, x) && forall p | OnTop(g, p) :: !CanShift(G.lalr, p, x)
    ensures Moved(G, from, x) == iset{}
  {
    hide FromSome, CanShift, OnTop, ShiftedTo;
    forall p
      ensures !MovesTo(G, from, x, p)
    {
    }
  }

  lemma NoneMoves(G: GlrTables, from: iset<seq<nat>>, g: Graph, x: nat)
    requires G.lalr.Ranges() && Reached(G, from, g, x) && g.tops == []
    ensures Moved(G, from, x) == iset{}
  {
    hide Reached, LrChain;
    NothingMoves(G, from, g, x);
  }

  /** All stacks have shifted: they are where the automaton moves to. */
  lemma AllMoved(G: GlrTables, from: iset<seq<nat>>, g: Graph, h: Graph, x: nat)
    requires G.lalr.Ranges() && Reached(G, from, g, x) && |h.tops| == |g.tops|
    requires forall a {:trigger g.tops[a]} {:trigger h.tops[a]} | 0 <= a < |g.tops| ::
      && g.tops[a] != NULL && h.tops[a] != NULL
      && ByShift(G, LrChain(g.items, g.tops[a]), LrChain(h.items, h.tops[a]), x)
    ensures Chains(h) == Moved(G, from, x)
  {
    hide FromSome, LrChain;
    forall p | OnTop(h, p)
      ensures MovesTo(G, from, x, p)
    {
      var a :| 0 <= a < |h.tops| && h.tops[a] != NULL && LrChain(h.items, h.tops[a]) == p;
      assert OnTop(g, LrChain(g.items, g.tops[a]));
    }
    forall p | MovesTo(G, from, x, p)
      ensures OnTop(h, p)
    {
      var q :| FromSome(G, from, q, x) && CanShift(G.lalr, q, x) && p == ShiftedTo(G.lalr, q, x);
      var a :| 0 <= a < |g.tops| && g.tops[a] != NULL && LrChain(g.items, g.tops[a]) == q;
      assert h.tops[a] != NULL;
    }
  }

  lemma OneChain(g: Graph)
    requires |g.tops| == 1 && g.tops[0] != NULL
    ensures Chains(g) == iset{LrChain(g.items, g.tops[0])}
  {
    hide LrChain;
    assert OnTop(g, LrChain(g.items, g.tops[0]));
  }

  lemma SurvivorsReached(G: GlrTables, from: iset<seq<nat>>, g: Graph, x: nat)
    requires G.lalr.Ranges() && Reached(G, from, g, x)
    ensures Reached(G, from, g.(tops := Survivors(g.tops)), x)
  {
    hide FromSome, CanShift, LrChain, Survivors;
    var h := g.(tops := Survivors(g.tops));
    SurvivorsAre(g.tops);
    forall p
      ensures OnTop(h, p) == OnTop(g, p)
    {
      if OnTop(g, p) {
        var a :| 0 <= a < |g.tops| && g.tops[a] != NULL && LrChain(g.items, g.tops[a]) == p;
        assert g.tops[a] in h.tops;
        var b :| 0 <= b < |h.tops| && h.tops[b] == g.tops[a];
      }
      if OnTop(h, p) {
        var a :| 0 <= a < |h.tops| && h.tops[a] != NULL && LrChain(h.items, h.tops[a]) == p;
        assert h.tops[a] in Survivors(g.tops);
        var b :| 0 <= b < |g.tops| && g.tops[b] == h.tops[a];
      }
    }
  }

  // ---------------------------------------------------------------- one configuration that has no choice

  /** The tables ask for no reduction of q. */
  ghost predicate NoReduction(G: GlrTables, q: seq<nat>, x: nat)
    requires G.lalr.Ranges()
  {
    q != [] && forall r: nat {:trigger MayReduce(G, q[|q|-1], x, r)} :: !MayReduce(G, q[|q|-1], x, r)
  }

  /** They ask for none but that by r. */
  ghost predicate OneReduction(G: GlrTables, q: seq<nat>, x: nat, r: nat)
    requires G.lalr.Ranges()
  {
    q != [] && forall r': nat {:trigger MayReduce(G, q[|q|-1], x, r')} | MayReduce(G, q[|q|-1], x, r') :: r' == r
  }

  lemma OnlyItself(G: GlrTables, q: seq<nat>, p: seq<nat>, x: nat)
    requires G.lalr.Ranges() && NoReduction(G, q, x) && FromSome(G, iset{q}, p, x)
    ensures p == q
  {
    hide MayReduce;
    var q', n: nat :| q' in iset{q} && Reaches(G, q', p, x, n);
    forall m
      ensures !ByReduction(G, q, m, x)
    {
    }
  }

  /** Where one configuration without a reduction moves to. */
  lemma OneMoves(G: GlrTables, q: seq<nat>, x: nat)
    requires G.lalr.Ranges() && NoReduction(G, q, x)
    ensures Moved(G, iset{q}, x) == if CanShift(G.lalr, q, x) then iset{ShiftedTo(G.lalr, q, x)} else iset{}
  {
    hide FromSome, CanShift, NoReduction, ShiftedTo;
    FromItself(G, iset{q}, q, x);
    forall p | FromSome(G, iset{q}, p, x)
      ensures p == q
    {
      OnlyItself(G, q, p, x);
    }
  }

  /** A configuration with one reduction moves as its result does. */
  lemma OneReduces(G: GlrTables, q: seq<nat>, r: nat, p: seq<nat>, x: nat)
    requires G.lalr.Ranges() && q != [] && !CanShift(G.lalr, q, x)
    requires OneReduction(G, q, x, r)
    requires FromSome(G, iset{q}, p, x) && CanShift(G.lalr, p, x)
    ensures FromSome(G, iset{ReducedChain(G.lalr, q, r)}, p, x)
  {
    hide MayReduce, CanShift, ReducedChain;
    var q', n: nat :| q' in iset{q} && Reaches(G, q', p, x, n);
    if n > 0 {
      var m :| ByReduction(G, q, m, x) && Reaches(G, m, p, x, n - 1);
      assert m in iset{ReducedChain(G.lalr, q, r)};
    }
  }

  // ---------------------------------------------------------------- the whole input

  /** The runs of the automaton that can shift the next token all go through `live`. */
  ghost predicate Covering(G: GlrTables, input: nat -> int, live: iset<seq<nat>>, n: nat)
    requires G.lalr.Ranges()
  {
    forall p {:trigger Follows(G, input, n, p)} |
      Follows(G, input, n, p) && CanShift(G.lalr, p, TokenAt(G.lalr, input, n)) ::
      FromSome(G, live, p, TokenAt(G.lalr, input, n))
  }

  /** No configuration after n tokens can shift the next. */
  ghost predicate NoWayOn(G: GlrTables, input: nat -> int, n: nat)
    requires G.lalr.Ranges()
  {
    forall p {:trigger Follows(G, input, n, p)} | Follows(G, input, n, p) ::
      !CanShift(G.lalr, p, TokenAt(G.lalr, input, n))
  }

  /** No run of the automaton on this input is accepting. */
  ghost predicate Rejected(G: GlrTables, input: nat -> int)
    requires G.lalr.Ranges()
  {
    forall n: nat, p {:trigger Follows(G, input, n, p)} | Follows(G, input, n, p) && p != [] :: p[|p|-1] != G.lalr.final
  }

  lemma {:induction false} CoveringStart(G: GlrTables, input: nat -> int)
    requires G.lalr.Ranges()
    ensures Covering(G, input, iset{[0]}, 0)
  {
    hide CanShift, FromSome, FollowsIn;
    forall p | Follows(G, input, 0, p)
      ensures FromSome(G, iset{[0]}, p, TokenAt(G.lalr, input, 0))
    {
      var k: nat :| FollowsIn(G, input, 0, p, k);
      StartFollows(G, input, p, k);
    }
  }

  lemma BottomCovers(G: GlrTables, input: nat -> int, g: Graph)
    requires G.lalr.Ranges() && |g.tops| == 1 && g.tops[0] == 0 && |g.items| == 1
    requires g.items[0].State? && g.items[0].lr == 0 && g.items[0].pred == NULL
    ensures Covering(G, input, Chains(g), 0)
  {
    hide Covering, Chains;
    assert LrChain(g.items, 0) == [0];
    OneChain(g);
    CoveringStart(G, input);
  }

  lemma {:induction false} StartFollows(G: GlrTables, input: nat -> int, p: seq<nat>, k: nat)
    requires G.lalr.Ranges() && FollowsIn(G, input, 0, p, k)
    ensures FromSome(G, iset{[0]}, p, TokenAt(G.lalr, input, 0))
    decreases k
  {
    hide ByReduction, ByShift, FromSome, TokenAt;
    var x := TokenAt(G.lalr, input, 0);
    if k == 0 {
      FromItself(G, iset{[0]}, [0], x);
    } else {
      var q :| ByReduction(G, q, p, x) && FollowsIn(G, input, 0, q, k - 1);
      StartFollows(G, input, q, k - 1);
      FromSomeStep(G, iset{[0]}, q, p, x);
    }
  }

  /** A configuration after n + 1 tokens comes from one after n that shifts, by reductions. */
  lemma {:induction false} ShiftBefore(G: GlrTables, input: nat -> int, n: nat, p: seq<nat>, k: nat)
    returns (q: seq<nat>)
    requires G.lalr.Ranges() && FollowsIn(G, input, n + 1, p, k)
    ensures var x := TokenAt(G.lalr, input, n);
      Follows(G, input, n, q) && CanShift(G.lalr, q, x)
      && FromSome(G, iset{ShiftedTo(G.lalr, q, x)}, p, TokenAt(G.lalr, input, n + 1))
    decreases k
  {
    hide MayReduce, FromSome, TokenAt, ByShift, Follows, ByReduction, ShiftedTo, CanShift;
    var x, y := TokenAt(G.lalr, input, n), TokenAt(G.lalr, input, n + 1);
    if q' :| ByReduction(G, q', p, y) && FollowsIn(G, input, n + 1, q', k - 1) {
      q := ShiftBefore(G, input, n, q', k - 1);
      FromSomeStep(G, iset{ShiftedTo(G.lalr, q, x)}, q', p, y);
    } else {
      q :| ByShift(G, q, p, TokenAt(G.lalr, input, n + 1 - 1)) && FollowsIn(G, input, n + 1 - 1, q, k - 1);
      ByShiftIs(G, q, p, x);
      FollowsSome(G, input, n, q, k - 1);
      FromItself(G, iset{p}, p, y);
    }
  }

  lemma FromSomeStep(G: GlrTables, from: iset<seq<nat>>, q: seq<nat>, p: seq<nat>, x: nat)
    requires G.lalr.Ranges() && FromSome(G, from, q, x) && ByReduction(G, q, p, x)
    ensures FromSome(G, from, p, x)
  {
    hide MayReduce, FromSome, ReducedChain;
    var r: nat :| MayReduce(G, q[|q|-1], x, r) && p == ReducedChain(G.lalr, q, r);
    FromSomeMore(G, from, q, x, r);
  }

  lemma FollowsSome(G: GlrTables, input: nat -> int, n: nat, q: seq<nat>, k: nat)
    requires G.lalr.Ranges() && FollowsIn(G, input, n, q, k)
    ensures Follows(G, input, n, q)
  {
    hide FollowsIn;
  }

  lemma ByShiftIs(G: GlrTables, q: seq<nat>, p: seq<nat>, x: nat)
    requires G.lalr.Ranges()
    ensures ByShift(G, q, p, x) <==> CanShift(G.lalr, q, x) && p == ShiftedTo(G.lalr, q, x)
  {
    hide Act;
  }

  lemma FromMore(G: GlrTables, from: iset<seq<nat>>, more: iset<seq<nat>>, p: seq<nat>, x: nat)
    requires G.lalr.Ranges() && FromSome(G, from, p, x) && from <= more
    ensures FromSome(G, more, p, x)
  {
    hide Reaches;
  }

  /** The live stacks move on with the automaton. */
  lemma CoveringMoved(G: GlrTables, input: nat -> int, live: iset<seq<nat>>, n: nat)
    requires G.lalr.Ranges() && Covering(G, input, live, n)
    ensures Covering(G, input, Moved(G, live, TokenAt(G.lalr, input, n)), n + 1)
  {
    hide FromSome, FollowsIn, TokenAt, ShiftedTo, CanShift;
    var x, y := TokenAt(G.lalr, input, n), TokenAt(G.lalr, input, n + 1);
    forall p | Follows(G, input, n + 1, p)
      ensures FromSome(G, Moved(G, live, x), p, y)
    {
      var k: nat :| FollowsIn(G, input, n + 1, p, k);
      var q := ShiftBefore(G, input, n, p, k);
      assert MovesTo(G, live, x, ShiftedTo(G.lalr, q, x));
      FromMore(G, iset{ShiftedTo(G.lalr, q, x)}, Moved(G, live, x), p, y);
    }
  }

  lemma CoveringReduced(G: GlrTables, input: nat -> int, q: seq<nat>, r: nat, n: nat)
    requires G.lalr.Ranges() && Covering(G, input, iset{q}, n) && q != []
    requires var x := TokenAt(G.lalr, input, n);
      !CanShift(G.lalr, q, x) && OneReduction(G, q, x, r)
    ensures Covering(G, input, iset{ReducedChain(G.lalr, q, r)}, n)
  {
    hide FromSome, Follows, TokenAt, CanShift, MayReduce, ReducedChain;
    var x := TokenAt(G.lalr, input, n);
    forall p | Follows(G, input, n, p) && CanShift(G.lalr, p, x)
      ensures FromSome(G, iset{ReducedChain(G.lalr, q, r)}, p, x)
    {
      OneReduces(G, q, r, p, x);
    }
  }

  lemma MovesSomewhere(G: GlrTables, from: iset<seq<nat>>, x: nat, p: seq<nat>)
    requires G.lalr.Ranges() && FromSome(G, from, p, x) && CanShift(G.lalr, p, x)
    ensures Moved(G, from, x) != iset{}
  {
    hide FromSome, CanShift, ShiftedTo;
    assert MovesTo(G, from, x, ShiftedTo(G.lalr, p, x));
    assert ShiftedTo(G.lalr, p, x) in Moved(G, from, x);
  }

  /** When the live stacks move nowhere, no run of the automaton goes on ... */
  lemma NothingGoesOn(G: GlrTables, input: nat -> int, live: iset<seq<nat>>, n: nat)
    requires G.lalr.Ranges() && Covering(G, input, live, n)
    requires Moved(G, live, TokenAt(G.lalr, input, n)) == iset{}
    ensures NoWayOn(G, input, n)
  {
    hide FromSome, Follows, TokenAt, CanShift, Moved;
    var x := TokenAt(G.lalr, input, n);
    forall p | Follows(G, input, n, p)
      ensures !CanShift(G.lalr, p, x)
    {
      if CanShift(G.lalr, p, x) {
        MovesSomewhere(G, live, x, p);
        assert false;
      }
    }
  }

  /** ... and none is accepting, if there is a run that has not come to the end so far. */
  lemma NoWayOnRejects(G: GlrTables, input: nat -> int, n: nat, q: seq<nat>)
    requires ValidGlr(G) && NoWayOn(G, input, n)
    requires Follows(G, input, n, q) && q != [] && q[|q|-1] != G.lalr.final
    ensures Rejected(G, input)
  {
    hide ValidGlr, FollowsIn, TokenAt, CanShift, LrTables.Stack, Tables.Ranges;
    StartIsStack(G);
    var k: nat :| FollowsIn(G, input, n, q, k);
    FollowsReads(G, input, n, q, k);
    forall m: nat, p | Follows(G, input, m, p) && p != []
      ensures p[|p|-1] != G.lalr.final
    {
      var l: nat :| FollowsIn(G, input, m, p, l);
      EndIsLater(G, input, n, m, p, l);
      if p[|p|-1] == G.lalr.final {
        var s := ShiftsOnTheWay(G, input, n, m, p, l);
        assert false;
      }
    }
  }

  lemma EndIsLater(G: GlrTables, input: nat -> int, n: nat, m: nat, p: seq<nat>, l: nat)
    requires ValidGlr(G) && FollowsIn(G, input, m, p, l)
    requires forall i {:trigger TokenAt(G.lalr, input, i)} | 0 <= i < n :: TokenAt(G.lalr, input, i) != EOF
    ensures p != [] && (p[|p|-1] == G.lalr.final ==> m > n)
  {
    hide ValidGlr, FollowsIn, TokenAt, Tables.Ranges;
    StartIsStack(G);
    FollowsReads(G, input, m, p, l);
  }

  /** A run that shifts more than n tokens shifts the n-th one. */
  lemma {:induction false} ShiftsOnTheWay(G: GlrTables, input: nat -> int, n: nat, m: nat, p: seq<nat>, k: nat)
    returns (q: seq<nat>)
    requires G.lalr.Ranges() && FollowsIn(G, input, m, p, k) && n < m
    ensures Follows(G, input, n, q) && CanShift(G.lalr, q, TokenAt(G.lalr, input, n))
    decreases m
  {
    hide FromSome, TokenAt, CanShift, FollowsIn, ShiftedTo;
    q := ShiftBefore(G, input, m - 1, p, k);
    if n < m - 1 {
      var l: nat :| FollowsIn(G, input, m - 1, q, l);
      q := ShiftsOnTheWay(G, input, n, m - 1, q, l);
    }
  }

  // ---------------------------------------------------------------- deterministic parsing

  /** The deterministic LR automaton: its states, and the tokens it has shifted. */
  datatype Det = Det(states: seq<nat>, posn: nat)

  /** Whether it goes on, and how it ends if it does not. */
  datatype Verdict = GoOn | Accepting | Conflicting | Erring

  function VerdictOn(G: GlrTables, q: seq<nat>, x: nat): Verdict
    requires G.lalr.Ranges()
  {
    if q == [] || q[|q|-1] >= G.lalr.States() then Erring
    else if q[|q|-1] == G.lalr.final then Accepting
    else if !Defaulted(G.lalr, q[|q|-1]) && G.conflicts(q[|q|-1], x) != [] then Conflicting
    else if Act(G.lalr, q[|q|-1], x) == Error then Erring
    else GoOn
  }

  function DetVerdict(G: GlrTables, input: nat -> int, d: Det): Verdict
    requires G.lalr.Ranges()
  {
    VerdictOn(G, d.states, TokenAt(G.lalr, input, d.posn))
  }

  /** The step that its action makes on the token x. */
  function StepOn(G: GlrTables, d: Det, x: nat): Det
    requires G.lalr.Ranges() && VerdictOn(G, d.states, x) == GoOn
  {
    match Act(G.lalr, d.states[|d.states|-1], x)
    case Shift(to) => Det(d.states + [to], d.posn + 1)
    case Reduce(r) => Det(ReducedChain(G.lalr, d.states, r), d.posn)
  }

  function DetNext(G: GlrTables, input: nat -> int, d: Det): Det
    requires G.lalr.Ranges()
  {
    if DetVerdict(G, input, d) == GoOn then StepOn(G, d, TokenAt(G.lalr, input, d.posn)) else d
  }

  /** n steps of it. */
  function DetRun(G: GlrTables, input: nat -> int, d: Det, n: nat): Det
    requires G.lalr.Ranges()
    decreases n
  {
    if n == 0 then d else DetNext(G, input, DetRun(G, input, d, n - 1))
  }

  lemma {:induction false} DetStays(G: GlrTables, input: nat -> int, d: Det, m: nat, n: nat)
    requires G.lalr.Ranges() && m <= n && DetVerdict(G, input, DetRun(G, input, d, m)) != GoOn
    ensures DetRun(G, input, d, n) == DetRun(G, input, d, m)
    decreases n
  {
    hide DetVerdict;
    if m < n {
      DetStays(G, input, d, m, n - 1);
    }
  }

  /** A run of the automaton ends in one way only. */
  lemma DetEndsOnce(G: GlrTables, input: nat -> int, d: Det, m: nat, n: nat)
    requires G.lalr.Ranges()
    requires DetVerdict(G, input, DetRun(G, input, d, m)) != GoOn
    requires DetVerdict(G, input, DetRun(G, input, d, n)) != GoOn
    ensures DetRun(G, input, d, m) == DetRun(G, input, d, n)
  {
    hide DetVerdict, DetRun;
    if m <= n {
      DetStays(G, input, d, m, n);
    } else {
      DetStays(G, input, d, n, m);
    }
  }

  /** Without a conflict, the action is all there is to do. */
  lemma NoChoice(G: GlrTables, q: seq<nat>, x: nat)
    requires G.lalr.Ranges() && (VerdictOn(G, q, x) == GoOn || VerdictOn(G, q, x) == Erring)
    requires q != [] && q[|q|-1] < G.lalr.States()
    ensures CanShift(G.lalr, q, x) <==> Act(G.lalr, q[|q|-1], x).Shift?
    ensures if Act(G.lalr, q[|q|-1], x).Reduce? then OneReduction(G, q, x, Act(G.lalr, q[|q|-1], x).rule)
            else NoReduction(G, q, x)
  {
    hide Act, Defaulted;
  }

  /** So the one stack goes where all runs of the nondeterministic automaton go through ... */
  lemma StepCovers(G: GlrTables, input: nat -> int, d: Det)
    requires G.lalr.Ranges() && Covering(G, input, iset{d.states}, d.posn) && DetVerdict(G, input, d) == GoOn
    ensures var d' := DetNext(G, input, d);
      Covering(G, input, iset{d'.states}, d'.posn)
  {
    hide Act, Covering, OneReduction, NoReduction, TokenAt, ReducedChain, CanShift;
    var q, x := d.states, TokenAt(G.lalr, input, d.posn);
    NoChoice(G, q, x);
    match Act(G.lalr, q[|q|-1], x) {
      case Shift(to) =>
        OneMoves(G, q, x);
        ShiftedIs(G, q, x);
        CoveringMoved(G, input, iset{q}, d.posn);
      case Reduce(r) => CoveringReduced(G, input, q, r, d.posn);
      case Error =>
    }
  }

  lemma ShiftedIs(G: GlrTables, q: seq<nat>, x: nat)
    requires G.lalr.Ranges() && CanShift(G.lalr, q, x)
    ensures ShiftedTo(G.lalr, q, x) == q + [Act(G.lalr, q[|q|-1], x).to]
  {
  }

  /** ... and errs only if none of them is accepting. */
  lemma ErringRejects(G: GlrTables, input: nat -> int, d: Det)
    requires ValidGlr(G) && Covering(G, input, iset{d.states}, d.posn) && DetVerdict(G, input, d) == Erring
    requires d.states != [] && d.states[|d.states|-1] < G.lalr.States() && Follows(G, input, d.posn, d.states)
    ensures Rejected(G, input)
  {
    hide Act, Covering, OneReduction, NoReduction, TokenAt, ReducedChain, Follows, ValidGlr, Tables.Ranges, NoWayOn,
      Rejected, Moved;
    StartIsStack(G);
    var q, x := d.states, TokenAt(G.lalr, input, d.posn);
    NoChoice(G, q, x);
    OneMoves(G, q, x);
    NothingGoesOn(G, input, iset{q}, d.posn);
    NoWayOnRejects(G, input, d.posn, q);
  }
}
