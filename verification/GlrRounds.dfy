/** One round of nondeterministic parsing, as a matter of graphs: what processing leaves
    behind for the shift, and what the shift on all stacks keeps. */
module GlrRounds {
  import opened LrTables
  import opened GlrGraph
  import opened GlrOps
  import opened GlrInvariants
  import opened GlrDeferred
  import opened GlrForest
  import opened GlrRanks
  import GlrSingle

  const EMPTY: int := -2     // YYEMPTY

  /** From one state, a symbol leads to one state. */
  ghost predicate Deterministic(T: Tables) {
    forall e, f | e in T.edges && f in T.edges && e.0 == f.0 && e.1 == f.1 :: e.2 == f.2
  }

  // ---------------------------------------------------------------- stacks in progress

  /** Stack a is dead, or has shifted as many tokens as the parser and is not final. */
  ghost predicate Going(T: Tables, g: Graph, a: int, posn: nat) {
    && 0 <= a < |g.tops| && Current(g, a, posn)
    && (g.tops[a] != NULL ==> g.items[g.tops[a]].lr < T.States() && g.items[g.tops[a]].lr != T.final)
  }

  ghost predicate AllGoing(T: Tables, g: Graph, posn: nat) {
    forall a {:trigger Going(T, g, a, posn)} | 0 <= a < |g.tops| :: Going(T, g, a, posn)
  }

  /** Stack a is dead, or about to shift the lookahead. */
  ghost predicate Ready(T: Tables, g: Graph, a: int, yychar: int)
    requires T.Ranges()
  {
    && 0 <= a < |g.tops|
    && (g.tops[a] != NULL ==>
          && 0 <= g.tops[a] < |g.items| && g.items[g.tops[a]].State? && g.items[g.tops[a]].lr < T.States()
          && yychar != EMPTY
          && Act(T, g.items[g.tops[a]].lr, Translate(T, yychar)).Shift?)
  }

  ghost predicate AllReady(T: Tables, g: Graph, from: int, to: int, yychar: int)
    requires T.Ranges()
  {
    forall a {:trigger Ready(T, g, a, yychar)} | from <= a < to :: Ready(T, g, a, yychar)
  }

  /** The stacks of g other than k are as they were, its items still there, and so are the
      options of their states. */
  ghost predicate Kept(g: Graph, h: Graph, k: int) {
    && |g.tops| <= |h.tops|
    && (forall a {:trigger h.tops[a]} | 0 <= a < |g.tops| && a != k :: h.tops[a] == g.tops[a])
    && Extends(g.items, h.items) && OptionsKept(g.items, h.items)
  }

  lemma ExtendsTrans(a: seq<Item>, b: seq<Item>, c: seq<Item>)
    requires Extends(a, b) && Extends(b, c)
    ensures Extends(a, c)
  {
    forall i {:trigger c[i]} {:trigger a[i]} | 0 <= i < |a|
      ensures if a[i].State? then c[i] == a[i].(sem := if c[i].State? then c[i].sem else a[i].sem)
              else c[i] == a[i]
    {
      assert b[i] == b[i];
    }
  }

  lemma KeptTrans(g: Graph, h: Graph, h': Graph, k: int, j: int)
    requires Kept(g, h, k) && Kept(h, h', j) && (j == k || |g.tops| <= j)
    ensures Kept(g, h', k)
  {
    hide Extends, OptionsKept;
    ExtendsTrans(g.items, h.items, h'.items);
    KeptTwice(g.items, h.items, h'.items);
  }

  /** What is said about a kept stack stays true. */
  lemma KeptGoing(T: Tables, g: Graph, h: Graph, k: int, a: int, posn: nat)
    requires Kept(g, h, k) && a != k && Going(T, g, a, posn)
    ensures Going(T, h, a, posn)
  {
    if g.tops[a] != NULL {
      assert h.items[g.tops[a]] == h.items[h.tops[a]];
    }
  }

  lemma KeptReady(T: Tables, g: Graph, h: Graph, k: int, a: int, yychar: int, yychar': int)
    requires T.Ranges() && Kept(g, h, k) && a != k && Ready(T, g, a, yychar)
    requires yychar == yychar' || yychar == EMPTY
    ensures Ready(T, h, a, yychar')
  {
    hide Act;
    if g.tops[a] != NULL {
      assert h.items[g.tops[a]] == h.items[h.tops[a]];
    }
  }

  /** The stacks in [from, to) stay ready; stack k is not among them. */
  lemma KeptAllReady(T: Tables, g: Graph, h: Graph, k: int, from: nat, to: nat, yychar: int, yychar': int)
    requires T.Ranges() && Kept(g, h, k) && AllReady(T, g, from, to, yychar) && !(from <= k < to)
    requires yychar == yychar' || yychar == EMPTY
    ensures AllReady(T, h, from, to, yychar')
  {
    hide Ready, Kept;
    forall a {:trigger Ready(T, h, a, yychar')} | from <= a < to
      ensures Ready(T, h, a, yychar')
    {
      KeptReady(T, g, h, k, a, yychar, yychar');
    }
  }

  lemma JoinReady(T: Tables, g: Graph, from: int, mid: int, to: int, yychar: int)
    requires T.Ranges() && AllReady(T, g, from, mid, yychar) && AllReady(T, g, mid, to, yychar)
    ensures AllReady(T, g, from, to, yychar)
  {
    hide Ready;
  }

  /** All stacks are in progress again, once stack k and the new ones are. */
  lemma KeptAllGoing(T: Tables, g: Graph, h: Graph, k: int, posn: nat)
    requires Kept(g, h, k) && AllGoing(T, g, posn) && (0 <= k < |h.tops| ==> Going(T, h, k, posn))
    requires forall a {:trigger Going(T, h, a, posn)} | |g.tops| <= a < |h.tops| && a != k :: Going(T, h, a, posn)
    ensures AllGoing(T, h, posn)
  {
    hide Going;
    forall a {:trigger Going(T, h, a, posn)} | 0 <= a < |h.tops|
      ensures Going(T, h, a, posn)
    {
      if a < |g.tops| && a != k {
        assert Going(T, g, a, posn);
        KeptGoing(T, g, h, k, a, posn);
      }
    }
  }

  ghost predicate AnyLive(g: Graph, n: int) {
    exists a {:trigger g.tops[a]} | 0 <= a < n && a < |g.tops| :: g.tops[a] != NULL
  }

  /** The first k + 1 stacks are ready once stack k is. */
  lemma MoreReady(T: Tables, g: Graph, h: Graph, k: nat, was: int, now: int)
    requires T.Ranges() && Kept(g, h, k) && AllReady(T, g, 0, k, was) && Ready(T, h, k, now)
    requires was == now || was == EMPTY
    ensures AllReady(T, h, 0, k + 1, now)
  {
    hide Ready, Kept;
    KeptAllReady(T, g, h, k, 0, k, was, now);
  }

  lemma MoreLive(g: Graph, h: Graph, k: nat)
    requires Kept(g, h, k) && k < |g.tops| && (AnyLive(g, k) || h.tops[k] != NULL)
    ensures AnyLive(h, k + 1)
  {
    if h.tops[k] == NULL {
      var a :| 0 <= a < k && g.tops[a] != NULL;
      assert h.tops[a] == g.tops[a];
    }
  }

  lemma NoneLive(g: Graph, n: int)
    requires Survivors(g.tops) == []
    ensures !AnyLive(g, n)
  {
    NoSurvivors(g.tops);
  }

  // ---------------------------------------------------------------- after processing

  /** yyremoveDeletes leaves stacks that are all alive and all about to shift. */
  lemma SurvivorsReady(T: Tables, g: Graph, posn: nat, yychar: int)
    requires T.Ranges() && AllReady(T, g, 0, |g.tops|, yychar) && AllGoing(T, g, posn)
    ensures var h := g.(tops := Survivors(g.tops));
      && AllReady(T, h, 0, |h.tops|, yychar) && AllGoing(T, h, posn)
      && (forall a {:trigger h.tops[a]} | 0 <= a < |h.tops| :: h.tops[a] != NULL)
  {
    hide Act;
    var h := g.(tops := Survivors(g.tops));
    forall a {:trigger h.tops[a]} | 0 <= a < |h.tops|
      ensures h.tops[a] != NULL && Ready(T, h, a, yychar) && Going(T, h, a, posn)
    {
      SurvivorIn(g.tops, a);
      var b :| 0 <= b < |g.tops| && g.tops[b] == h.tops[a];
      assert Ready(T, g, b, yychar) && Going(T, g, b, posn);
    }
  }

  lemma {:induction false} NoSurvivors(tops: seq<int>)
    requires Survivors(tops) == []
    ensures forall a {:trigger tops[a]} | 0 <= a < |tops| :: tops[a] == NULL
  {
    if tops != [] {
      NoSurvivors(tops[..|tops|-1]);
      forall a {:trigger tops[a]} | 0 <= a < |tops|
        ensures tops[a] == NULL
      {
        if a < |tops| - 1 {
          assert tops[..|tops|-1][a] == tops[a];
        }
      }
    }
  }

  // ---------------------------------------------------------------- the synchronised shift

  /** The first k stacks of g have shifted the token; the others are those of g0. */
  ghost predicate Shifted(T: Tables, g0: Graph, g: Graph, k: int, token: nat, posn: nat)
    requires T.Ranges()
  {
    && 0 <= k <= |g.tops| == |g0.tops| && |g.items| == |g0.items| + k && g0.items <= g.items && g.split == g0.split
    && (forall a {:trigger ShiftedTop(T, g0, g, a, token, posn)} | 0 <= a < k :: ShiftedTop(T, g0, g, a, token, posn))
    && (forall a {:trigger g.tops[a]} | k <= a < |g.tops| :: g.tops[a] == g0.tops[a])
  }

  ghost predicate ShiftedTop(T: Tables, g0: Graph, g: Graph, a: int, token: nat, posn: nat)
    requires T.Ranges()
  {
    && 0 <= a < |g.tops| && a < |g0.tops| && 0 <= g0.tops[a] < |g0.items| && g0.items[g0.tops[a]].State?
    && g.tops[a] == |g0.items| + a < |g.items| && g.items[g.tops[a]].State?
    && g.items[g.tops[a]].pred == g0.tops[a] && g.items[g.tops[a]].posn == posn && g.items[g.tops[a]].sem.Resolved?
    && (g0.items[g0.tops[a]].lr, token, g.items[g.tops[a]].lr) in T.edges
    && (token == EOF ==> g.items[g.tops[a]].lr == T.final)
    && g0.items[g0.tops[a]].lr < T.States()
    && Act(T, g0.items[g0.tops[a]].lr, token) == Shift(g.items[g.tops[a]].lr)
  }

  lemma ShiftStart(T: Tables, g: Graph, token: nat, posn: nat)
    requires T.Ranges()
    ensures Shifted(T, g, g, 0, token, posn)
  {
  }

  /** The next shift makes a state that is not there yet: of the live states only those
      just pushed have its position, and they stand on the tops of other stacks. */
  lemma ShiftIsNew(T: Tables, g0: Graph, g: Graph, k: nat, token: nat, posn: nat, lr: nat)
    requires T.Ranges() && Shifted(T, g0, g, k, token, posn + 1) && k < |g.tops| && Positions(g.items)
    requires TopsDistinct(g0.tops, -1) && g0.tops[k] != NULL && AllCurrent(g0, posn)
    ensures NoSuchState(g, lr, g.tops[k], posn + 1)
  {
    hide Live;
    forall j {:trigger g.items[j]} | 0 <= j && g.split < j < |g.items| && g.items[j].State? && Live(g, j)
      ensures !(g.items[j].lr == lr && g.items[j].pred == g.tops[k] && g.items[j].posn == posn + 1)
    {
      if j < |g0.items| {
        OldIsCurrent(T, g0, g, k, token, posn, j);
      } else {
        var a := j - |g0.items|;
        assert ShiftedTop(T, g0, g, a, token, posn + 1);
        assert g0.tops[a] != g0.tops[k];
      }
    }
  }

  /** A live state that was there before the shifts has at most the old position. */
  lemma OldIsCurrent(T: Tables, g0: Graph, g: Graph, k: nat, token: nat, posn: nat, j: int)
    requires T.Ranges() && Shifted(T, g0, g, k, token, posn + 1) && Positions(g.items) && AllCurrent(g0, posn)
    requires 0 <= j < |g0.items| && Live(g, j)
    ensures g.items[j].State? ==> g.items[j].posn <= posn
  {
    var a :| 0 <= a < |g.tops| && OnChain(g.items, g.tops[a], j);
    assert Current(g0, a, posn);
    if a < k {
      assert ShiftedTop(T, g0, g, a, token, posn + 1);
      assert OnChain(g.items, g0.tops[a], j);
    }
    PositionsDown(g, g0.tops[a], j);
  }

  lemma ShiftOne(T: Tables, g0: Graph, g: Graph, k: nat, token: nat, posn: nat, lr: nat, val: int)
    requires T.Ranges() && Shifted(T, g0, g, k, token, posn) && k < |g.tops|
    requires 0 <= g.tops[k] < |g0.items| && g0.items[g.tops[k]].State? && (g0.items[g.tops[k]].lr, token, lr) in T.edges
    requires token == EOF ==> lr == T.final
    requires g0.items[g.tops[k]].lr < T.States() && Act(T, g0.items[g.tops[k]].lr, token) == Shift(lr)
    ensures Shifted(T, g0, AddState(g, k, lr, posn, Resolved(val)), k + 1, token, posn)
  {
    var h := AddState(g, k, lr, posn, Resolved(val));
    forall a {:trigger ShiftedTop(T, g0, h, a, token, posn)} | 0 <= a < k + 1
      ensures ShiftedTop(T, g0, h, a, token, posn)
    {
      if a < k {
        assert ShiftedTop(T, g0, g, a, token, posn);
      }
    }
  }

  /** Pushing a state on a live stack by a legal edge, when no such state is there. */
  lemma PushInv(T: Tables, g: Graph, k: nat, x: nat, lr: nat, posn: nat, val: int, owner: map<int, int>)
    requires T.Ranges() && EdgesOk(T) && GraphInv(T, g, owner)
    requires k < |g.tops| && 0 <= g.tops[k] < |g.items| && g.items[g.tops[k]].State?
    requires g.items[g.tops[k]].posn + 1 == posn
    requires (g.items[g.tops[k]].lr, x, lr) in T.edges && x < T.ntokens
    requires NoSuchState(g, lr, g.tops[k], posn)
    ensures GraphInv(T, AddState(g, k, lr, posn, Resolved(val)), owner)
  {
    hide Links, Positions, Automaton, Unique, Derivations, NoSuchState, Forest, LiveOwned, Outgrown;
    GlrSingle.AddStateForest(T, g, k, lr, posn, val);
    ForestParts(T, g.items);
    ShiftedOutgrown(T, g, k, lr, posn, val);
    AddStateLiveOwned(g, k, lr, posn, Resolved(val), owner);
    AddStateLinks(g, k, lr, posn, Resolved(val));
    AddStatePositions(g, k, lr, posn, Resolved(val));
    AddStateAutomaton(T, g, k, lr, posn, Resolved(val));
    AddStateUnique(g, k, lr, posn, Resolved(val));
    AddStateDerivations(T, g, k, lr, posn, Resolved(val), owner);
  }

  /** Two stacks are never both about to shift the end of input: both would consist of
      the bottom and the start symbol, and so be the same. */
  lemma FinalAlone(T: Tables, g: Graph, posn: nat, owner: map<int, int>, a: nat, b: nat)
    requires ValidTables(T) && Deterministic(T) && GraphInv(T, g, owner)
    requires a < b < |g.tops| && g.tops[a] != NULL && g.tops[a] != g.tops[b]
    requires Current(g, a, posn) && Current(g, b, posn) && g.tops[b] != NULL
    requires (g.items[g.tops[a]].lr, EOF, T.final) in T.edges
    ensures (g.items[g.tops[b]].lr, EOF, T.final) !in T.edges
  {
    hide Positions, Automaton, Derivations, ActionOk, LiveOwned, Outgrown, Forest;
    if (g.items[g.tops[b]].lr, EOF, T.final) in T.edges {
      BelowEnd(T, g, posn, owner, a);
      BelowEnd(T, g, posn, owner, b);
      SameTop(g, a, b);
    }
  }

  /** Two tops that stand on the bottom, agree in LR state and position are the same. */
  lemma SameTop(g: Graph, a: nat, b: nat)
    requires Links(g) && Unique(g) && a < b < |g.tops|
    requires Step(g.items, g.tops[a]) && Step(g.items, g.tops[b])
    requires g.items[g.tops[a]].pred == g.items[g.tops[b]].pred == 0
    requires g.items[g.tops[a]].lr == g.items[g.tops[b]].lr && g.items[g.tops[a]].posn == g.items[g.tops[b]].posn
    ensures g.tops[a] == g.tops[b]
  {
    var i, j := g.tops[a], g.tops[b];
    assert OnChain(g.items, g.tops[a], i) && OnChain(g.items, g.tops[b], j);
    assert Live(g, i) && Live(g, j);
  }

  /** A stack about to shift the end of input is the bottom with the start symbol on it. */
  lemma BelowEnd(T: Tables, g: Graph, posn: nat, owner: map<int, int>, a: nat)
    requires ValidTables(T) && GraphInv(T, g, owner)
    requires a < |g.tops| && g.tops[a] != NULL && Current(g, a, posn)
    requires (g.items[g.tops[a]].lr, EOF, T.final) in T.edges
    ensures Step(g.items, g.tops[a]) && g.items[g.tops[a]].pred == 0
    ensures (0, T.start, g.items[g.tops[a]].lr) in T.edges
  {
    hide Positions, Derivations, ActionOk, Unique, LiveOwned, Outgrown, Forest;
    var i := g.tops[a];
    StatesStep(g, i);
    var p := LrChain(g.items, i);
    assert Stack(T, p);
    PathPush(T, p, EOF, T.final);
    FinalStack(T, p + [T.final]);
    assert (p + [T.final])[1] == p[1] == g.items[i].lr;
    var q := g.items[i].pred;
    assert LrChain(g.items, q) == p[..1];
    assert Step(g.items, q);
    assert LrChain(g.items, g.items[q].pred) == [];
    BottomItem(g, q);
    assert (p[0], T.stos[p[1]], p[1]) in T.edges;
  }

  lemma BottomItem(g: Graph, q: int)
    requires Links(g) && Step(g.items, q) && LrChain(g.items, g.items[q].pred) == []
    ensures q == 0
  {
    var r := g.items[q].pred;
    if r != NULL {
      assert g.items[r].State?;
      StatesStep(g, r);
    }
  }

  /** After a shift on several stacks, none of them is final. */
  lemma ShiftedGoing(T: Tables, g0: Graph, g: Graph, posn: nat, owner: map<int, int>, token: nat)
    requires ValidTables(T) && Deterministic(T) && GraphInv(T, g0, owner) && TopsDistinct(g0.tops, -1)
    requires Shifted(T, g0, g, |g.tops|, token, posn + 1) && |g.tops| > 1
    requires forall a {:trigger g0.tops[a]} | 0 <= a < |g0.tops| :: g0.tops[a] != NULL && Current(g0, a, posn)
    ensures AllGoing(T, g, posn + 1)
  {
    hide GraphInv, ActionOk;
    forall a {:trigger Going(T, g, a, posn + 1)} | 0 <= a < |g.tops|
      ensures Going(T, g, a, posn + 1)
    {
      assert ShiftedTop(T, g0, g, a, token, posn + 1);
      if g.items[g.tops[a]].lr == T.final {
        var b := if a == 0 then 1 else 0;
        assert ShiftedTop(T, g0, g, b, token, posn + 1);
        assert token == EOF;
        assert g0.tops[a] != NULL && g0.tops[b] != NULL && g0.tops[a] != g0.tops[b];
        FinalAlone(T, g0, posn, owner, if a == 0 then 0 else b, if a == 0 then b else a);
      }
    }
  }

  lemma ShiftedChain(T: Tables, g0: Graph, g: Graph, a: int, token: nat, posn: nat)
    requires T.Ranges() && ShiftedTop(T, g0, g, a, token, posn) && g0.items <= g.items
    ensures LrChain(g.items, g.tops[a]) == LrChain(g0.items, g0.tops[a]) + [g.items[g.tops[a]].lr]
  {
    hide Act;
    ChainFrame(g0.items, g.items, g0.tops[a], 0);
    assert Step(g.items, g.tops[a]);
  }

  lemma ShiftedDistinct(T: Tables, g0: Graph, g: Graph, token: nat, posn: nat)
    requires T.Ranges() && Shifted(T, g0, g, |g.tops|, token, posn)
    ensures TopsDistinct(g.tops, -1)
  {
    forall a, b {:trigger g.tops[a], g.tops[b]} | 0 <= a < b < |g.tops|
      ensures g.tops[a] != g.tops[b]
    {
      assert ShiftedTop(T, g0, g, a, token, posn) && ShiftedTop(T, g0, g, b, token, posn);
    }
  }
}
