/** What becomes of a reduction that is put off: an option of a state on top of which the
    reduced stack goes on, and which later operations keep. */
module GlrDeferred {
  import opened LrTables
  import opened GlrGraph
  import opened GlrOps
  import opened GlrInvariants
  import opened GlrForest
  import opened GlrRanks
  import GlrOptions

  /** o is one of the options of state s, which has no value yet. */
  predicate OptionOf(items: seq<Item>, s: int, o: int) {
    && 0 <= s < |items| && items[s].State? && items[s].sem.Unresolved?
    && o in GlrOptions.Chain(items, items[s].sem.firstVal)
  }

  /** No state has lost an option, or got a value in its stead. */
  ghost predicate OptionsKept(items: seq<Item>, items': seq<Item>) {
    forall s, o {:trigger OptionOf(items, s, o)} {:trigger OptionOf(items', s, o)} | OptionOf(items, s, o) ::
      OptionOf(items', s, o)
  }

  /** Option o of state s is the reduction by r of the stack with top `top`, and s ends the
      stack that this reduction leads to. */
  ghost predicate PutOff(T: Tables, items: seq<Item>, top: int, r: nat, s: int, o: int)
    requires T.Ranges()
  {
    && OptionOf(items, s, o)
    && 0 <= o < |items| && items[o].Opt? && items[o].rule == r && items[o].state == top
    && Derives(T, items, items[o], s)
    && LrChain(items, s) == ReducedChain(T, LrChain(items, top), r)
  }

  /** The reduction by r of the stack with top `top` has been put off. */
  ghost predicate Recorded(T: Tables, items: seq<Item>, top: int, r: nat)
    requires T.Ranges()
  {
    exists s, o {:trigger PutOff(T, items, top, r, s, o)} :: PutOff(T, items, top, r, s, o)
  }

  /** And so have those by all the rules. */
  ghost predicate AllRecorded(T: Tables, items: seq<Item>, top: int, rules: seq<nat>)
    requires T.Ranges()
  {
    forall r | r in rules :: Recorded(T, items, top, r)
  }

  /** And the stack that it leads to is, or is part of, a live one. */
  ghost predicate Deferred(T: Tables, g: Graph, top: int, r: nat)
    requires T.Ranges()
  {
    exists s, o {:trigger PutOff(T, g.items, top, r, s, o)} :: PutOff(T, g.items, top, r, s, o) && Live(g, s)
  }

  /** What is live in h is the top of stack k, or was live in g, and has no value only if it had
      none then. */
  ghost predicate NoMoreLive(g: Graph, h: Graph, k: int) {
    forall s {:trigger Live(h, s)} | Live(h, s) ::
      || (0 <= k < |h.tops| && s == h.tops[k])
      || (0 <= s < |g.items| && s < |h.items| && g.items[s].State? && h.items[s].State? && Live(g, s)
          && (h.items[s].sem.Unresolved? ==> g.items[s].sem.Unresolved?))
  }

  /** State p is live, ends where the parser is, and has no value yet. */
  ghost predicate Young(g: Graph, p: int, posn: nat) {
    && Live(g, p) && 0 <= p < |g.items| && g.items[p].State? && g.items[p].sem.Unresolved?
    && g.items[p].posn == posn
  }

  /** The stack that the reduction by r of stack k leads to is there already. */
  ghost predicate Absorbed(T: Tables, g: Graph, k: nat, r: nat, posn: nat)
    requires T.Ranges() && k < |g.tops|
  {
    exists p {:trigger Young(g, p, posn)} ::
      Young(g, p, posn) && LrChain(g.items, p) == ReducedChain(T, LrChain(g.items, g.tops[k]), r)
  }

  lemma {:induction false} OptionsStay(items: seq<Item>, items': seq<Item>, f: int)
    requires Extends(items, items') && f < |items|
    ensures GlrOptions.Chain(items', f) == GlrOptions.Chain(items, f)
    decreases f
  {
    if 0 <= f && items[f].Opt? {
      assert items'[f] == items[f];
      if items[f].next < f {
        OptionsStay(items, items', items[f].next);
      }
    } else if 0 <= f {
      assert items'[f].State?;
    }
  }

  /** Options stay as long as items are only added and no state but p changes, and the
      options of p are still behind those it has now. */
  lemma OptionsStayBut(items: seq<Item>, items': seq<Item>, p: int)
    requires Extends(items, items')
    requires forall s {:trigger items[s]} | 0 <= s < |items| && s != p :: items'[s] == items[s]
    requires forall o | OptionOf(items, p, o) :: OptionOf(items', p, o)
    ensures OptionsKept(items, items')
  {
    hide GlrOptions.Chain;
    forall s, o {:trigger OptionOf(items, s, o)} | OptionOf(items, s, o)
      ensures OptionOf(items', s, o)
    {
      if s != p {
        GlrOptions.ChainDecreases(items, items[s].sem.firstVal);
        FirstInside(items, items[s].sem.firstVal, o);
        OptionsStay(items, items', items[s].sem.firstVal);
      }
    }
  }

  lemma FirstInside(items: seq<Item>, f: int, o: int)
    requires o in GlrOptions.Chain(items, f)
    ensures 0 <= f < |items|
  {
  }

  lemma AddStateKeepsOptions(g: Graph, k: nat, lr: nat, posn: nat, sem: Semantics)
    requires k < |g.tops|
    ensures OptionsKept(g.items, AddState(g, k, lr, posn, sem).items)
  {
    AddStateExtends(g, k, lr, posn, sem);
    OptionsStayBut(g.items, AddState(g, k, lr, posn, sem).items, NULL);
  }

  /** A new option comes first, and the others are still there. */
  lemma AddOptionKeepsOptions(g: Graph, p: int, rule: nat, rhs: int, rawchar: int)
    requires 0 <= p < |g.items| && g.items[p].State? && g.items[p].sem.Unresolved?
    requires g.items[p].sem.firstVal < |g.items|
    ensures var items' := AddOption(g, p, rule, rhs, rawchar).items;
      OptionsKept(g.items, items') && OptionOf(items', p, |g.items|)
  {
    hide OptionsKept;
    var items' := AddOption(g, p, rule, rhs, rawchar).items;
    var n, f := |g.items|, g.items[p].sem.firstVal;
    assert Extends(g.items, items');
    OptionsStay(g.items, items', f);
    assert GlrOptions.Chain(items', n) == [n] + GlrOptions.Chain(items', f);
    OptionsStayBut(g.items, items', p);
  }

  /** What has been put off stays so. */
  lemma RecordedStays(T: Tables, items: seq<Item>, items': seq<Item>, top: int, r: nat)
    requires T.Ranges() && Extends(items, items') && OptionsKept(items, items') && Recorded(T, items, top, r)
    ensures Recorded(T, items', top, r)
  {
    hide Extends, OptionOf, LrChain, ReducedChain, Derives, Recorded;
    var s, o := RecordedIn(T, items, top, r);
    DerivesFrame(T, items, items', items[o], s);
    DerivesInside(T, items, items[o], s);
    ChainFrame(items, items', s, s);
    ChainFrame(items, items', top, top);
    OptionIsFixed(items, items', o);
    assert OptionOf(items', s, o);
    assert PutOff(T, items', top, r, s, o);
    IsRecorded(T, items', top, r, s, o);
  }

  lemma RecordedIn(T: Tables, items: seq<Item>, top: int, r: nat) returns (s: int, o: int)
    requires T.Ranges() && Recorded(T, items, top, r)
    ensures PutOff(T, items, top, r, s, o)
  {
    hide PutOff;
    s, o :| PutOff(T, items, top, r, s, o);
  }

  lemma IsRecorded(T: Tables, items: seq<Item>, top: int, r: nat, s: int, o: int)
    requires T.Ranges() && PutOff(T, items, top, r, s, o)
    ensures Recorded(T, items, top, r)
  {
    hide PutOff;
  }

  lemma DerivesInside(T: Tables, items: seq<Item>, o: Item, s: int)
    requires T.Ranges() && Derives(T, items, o, s)
    ensures 0 <= s < |items| && o.Opt? && 0 <= o.state < |items|
  {
  }

  lemma OptionIsFixed(items: seq<Item>, items': seq<Item>, o: int)
    requires Extends(items, items') && 0 <= o < |items| && items[o].Opt?
    ensures o < |items'| && items'[o] == items[o]
  {
  }

  lemma ManyRecordedStay(T: Tables, items: seq<Item>, items': seq<Item>, top: int, rules: seq<nat>)
    requires T.Ranges() && Extends(items, items') && OptionsKept(items, items') && AllRecorded(T, items, top, rules)
    ensures AllRecorded(T, items', top, rules)
  {
    hide Extends, OptionsKept, Recorded;
    forall r | r in rules
      ensures Recorded(T, items', top, r)
    {
      RecordedStays(T, items, items', top, r);
    }
  }

  lemma OneMoreRecorded(T: Tables, items: seq<Item>, top: int, rules: seq<nat>, i: nat)
    requires T.Ranges() && i < |rules| && AllRecorded(T, items, top, rules[..i]) && Recorded(T, items, top, rules[i])
    ensures AllRecorded(T, items, top, rules[..i + 1])
  {
    hide Recorded;
    assert rules[..i + 1] == rules[..i] + [rules[i]];
  }

  lemma DeferredIsRecorded(T: Tables, g: Graph, top: int, r: nat)
    requires T.Ranges() && Deferred(T, g, top, r)
    ensures Recorded(T, g.items, top, r)
  {
    hide PutOff, Live;
  }

  // ---------------------------------------------------------------- deferred reductions are recorded

  lemma FirstBelow(g: Graph, p: int)
    requires Links(g) && 0 <= p < |g.items| && g.items[p].State? && g.items[p].sem.Unresolved?
    ensures g.items[p].sem.firstVal < |g.items|
  {
  }

  /** A derivation does not depend on the links of options. */
  lemma DerivesAlike(T: Tables, items: seq<Item>, o: Item, o': Item, s: int)
    requires T.Ranges() && Derives(T, items, o, s) && o'.Opt? && o'.rule == o.rule && o'.state == o.state
    ensures Derives(T, items, o', s)
  {
    hide Goto, Walk;
  }

  /** The state a merge ends in is on another stack, has the reduction among its options, and
      ends the reduced stack. */
  lemma MergedDeferred(T: Tables, g: Graph, k: nat, r: nat, s0: int, s: int, lr: nat, posn: nat, p: int, rawchar: int,
                       on: int)
    requires T.Ranges() && Links(g) && Positions(g.items) && Reduction(T, g, k, r, s0, s, lr, posn)
    requires Target(g, p, lr, s, posn) && g.items[p].posn == posn && g.items[p].sem.Unresolved?
    requires k < |g.tops| && 0 <= on < |g.tops| && on != k && OnChain(g.items, g.tops[on], p)
    ensures var h := Merged(g, k, p, r, s0, rawchar);
      Deferred(T, h, s0, r) && OptionsKept(g.items, h.items)
  {
    hide Links, Positions, Reduction, Goto, Walk, OptionOf, OptionsKept, Derives, ReducedChain;
    var h, n := Merged(g, k, p, r, s0, rawchar), |g.items|;
    FirstBelow(g, p);
    AddOptionKeepsOptions(g, p, r, s0, rawchar);
    assert Extends(g.items, h.items);
    MergedDerives(T, g, k, r, s0, s, lr, posn, p, rawchar);
    DerivesFrame(T, g.items, h.items, Opt(r, s0, rawchar, NULL), p);
    DerivesAlike(T, h.items, Opt(r, s0, rawchar, NULL), h.items[n], p);
    ReductionChain(T, g, k, r, s0, s, lr, posn, p);
    ChainFrame(g.items, h.items, p, p);
    ChainFrame(g.items, h.items, s0, s0);
    ChainBelow(g.items, g.tops[on], p);
    ChainFrame(g.items, h.items, g.tops[on], p);
    assert PutOff(T, h.items, s0, r, p, n);
    assert h.tops[on] == g.tops[on] && Live(h, p);
  }

  /** On top of the state that a reduction leads to, the goto state ends the reduced stack. */
  lemma ReductionChain(T: Tables, g: Graph, k: nat, r: nat, s0: int, s: int, lr: nat, posn: nat, p: int)
    requires T.Ranges() && Links(g) && Reduction(T, g, k, r, s0, s, lr, posn) && Target(g, p, lr, s, posn)
    ensures LrChain(g.items, p) == ReducedChain(T, LrChain(g.items, s0), r) && 0 <= s0 < |g.items|
  {
    hide Goto, ReducedChain, Walk, OnChain;
    StatesStep(g, p);
    PushReduces(T, g.items, s0, r, s, lr);
  }

  /** And so it is for a new state. */
  lemma PushedDeferred(T: Tables, g: Graph, k: nat, r: nat, s0: int, s: int, lr: nat, posn: nat, rawchar: int)
    requires T.Ranges() && Links(g) && k < |g.tops| && Reduction(T, g, k, r, s0, s, lr, posn)
    ensures var h := Pushed(g, k, s, lr, posn, r, s0, rawchar);
      Deferred(T, h, s0, r) && OptionsKept(g.items, h.items)
  {
    hide Links, Reduction, Goto, Walk, OptionOf, OptionsKept, Derives, ReducedChain;
    var m, n := AddState(CutTo(g, k, s), k, lr, posn, Unresolved(NULL)), |g.items|;
    var h := Pushed(g, k, s, lr, posn, r, s0, rawchar);
    AddStateKeepsOptions(CutTo(g, k, s), k, lr, posn, Unresolved(NULL));
    AddOptionKeepsOptions(m, n, r, s0, rawchar);
    KeptTwice(g.items, m.items, h.items);
    PushedDerives(T, g, k, r, s0, s, lr, posn, rawchar);
    assert Extends(m.items, h.items) && Extends(g.items, h.items);
    DerivesFrame(T, m.items, h.items, Opt(r, s0, rawchar, NULL), n);
    DerivesAlike(T, h.items, Opt(r, s0, rawchar, NULL), h.items[n + 1], n);
    PushedAt(T, g, k, r, s0, s, lr, posn);
    ChainFrame(g.items, h.items, s, s);
    ChainFrame(g.items, h.items, s0, s0);
    assert Step(h.items, n) && LrChain(h.items, n) == LrChain(g.items, s) + [lr];
    assert PutOff(T, h.items, s0, r, n, n + 1);
    assert h.tops[k] == n && OnChain(h.items, h.tops[k], n);
  }

  lemma KeptTwice(a: seq<Item>, b: seq<Item>, c: seq<Item>)
    requires OptionsKept(a, b) && OptionsKept(b, c)
    ensures OptionsKept(a, c)
  {
    hide OptionOf;
  }

  lemma PushedAt(T: Tables, g: Graph, k: nat, r: nat, s0: int, s: int, lr: nat, posn: nat)
    requires T.Ranges() && Reduction(T, g, k, r, s0, s, lr, posn)
    ensures 0 <= s < |g.items| && 0 <= s0 < |g.items|
    ensures LrChain(g.items, s) + [lr] == ReducedChain(T, LrChain(g.items, s0), r)
  {
    hide Goto, ReducedChain;
    PushReduces(T, g.items, s0, r, s, lr);
  }

  // ---------------------------------------------------------------- what is live afterwards

  /** A merge makes nothing live ... */
  lemma MergedNoMore(T: Tables, g: Graph, owner: map<int, int>, k: nat, r: nat, s0: int, s: int, lr: nat, posn: nat,
                     p: int, rawchar: int)
    requires T.Ranges() && GraphInv(T, g, owner) && Reduction(T, g, k, r, s0, s, lr, posn)
    requires Target(g, p, lr, s, posn) && g.items[p].sem.Unresolved?
    ensures k < |g.tops| && NoMoreLive(g, Merged(g, k, p, r, s0, rawchar), k)
  {
    hide Links, Live, Positions, Automaton, Unique, Derivations, LiveOwned, Forest, Outgrown, Walk, OnChain, Goto;
    CanMerge(T, g, posn, owner, k, r, s0, s, lr, p);
    var a, h := AddOption(g, p, r, s0, rawchar), Merged(g, k, p, r, s0, rawchar);
    MarkDeletedFewer(a, k);
    forall j {:trigger Live(h, j)} | Live(h, j)
      ensures Live(g, j) && 0 <= j < |g.items| && g.items[j].State? && h.items[j].State?
      ensures h.items[j].sem.Unresolved? ==> g.items[j].sem.Unresolved?
    {
      AddOptionLive(g, p, r, s0, rawchar, j);
      LiveInRange(g, j);
      assert h.items[j] == if j == p then g.items[p].(sem := Unresolved(|g.items|)) else g.items[j];
    }
  }

  /** ... what it ends in was there ... */
  lemma MergedAbsorbed(T: Tables, g: Graph, k: nat, r: nat, s0: int, s: int, lr: nat, posn: nat, p: int)
    requires T.Ranges() && Links(g) && Reduction(T, g, k, r, s0, s, lr, posn) && Target(g, p, lr, s, posn)
    requires g.items[p].posn == posn && g.items[p].sem.Unresolved? && Live(g, p)
    ensures Absorbed(T, g, k, r, posn)
  {
    hide Live, LrChain, ReducedChain, Links;
    ReductionChain(T, g, k, r, s0, s, lr, posn, p);
    TopIs(T, g, k, r, s0, s, lr, posn);
    assert Young(g, p, posn);
  }

  lemma TopIs(T: Tables, g: Graph, k: nat, r: nat, s0: int, s: int, lr: nat, posn: nat)
    requires T.Ranges() && Reduction(T, g, k, r, s0, s, lr, posn)
    ensures k < |g.tops| && g.tops[k] == s0
  {
  }

  /** ... and a push makes only the new state live. */
  lemma PushedNoMore(T: Tables, g: Graph, owner: map<int, int>, k: nat, r: nat, s0: int, s: int, lr: nat, posn: nat,
                     rawchar: int)
    requires T.Ranges() && GraphInv(T, g, owner) && k < |g.tops| && Reduction(T, g, k, r, s0, s, lr, posn)
    ensures NoMoreLive(g, Pushed(g, k, s, lr, posn, r, s0, rawchar), k)
  {
    hide Live, GraphCore, Forest, Outgrown, Reduction;
    var h := Pushed(g, k, s, lr, posn, r, s0, rawchar);
    PushedItems(g, k, s, lr, posn, r, s0, rawchar);
    forall j {:trigger Live(h, j)} | Live(h, j)
      ensures j == h.tops[k] || (Live(g, j) && 0 <= j < |g.items| && g.items[j].State? && h.items[j] == g.items[j])
    {
      PushedLive(T, g, owner, k, r, s0, s, lr, posn, rawchar, j);
      if Live(g, j) {
        LiveInRange(g, j);
      }
    }
  }

  /** Neither depends on the split point. */
  lemma SplitUnseen(T: Tables, g: Graph, s: int, h: Graph, k: nat, r: nat, posn: nat)
    requires T.Ranges() && k < |g.tops|
    ensures NoMoreLive(UpdateSplit(g, s), h, k) ==> NoMoreLive(g, h, k)
    ensures Absorbed(T, UpdateSplit(g, s), k, r, posn) ==> Absorbed(T, g, k, r, posn)
  {
    hide ReducedChain, LrChain;
    var g' := UpdateSplit(g, s);
    forall j
      ensures Live(g', j) == Live(g, j)
    {
      SameLive(g, g', j);
    }
    if Absorbed(T, g', k, r, posn) {
      var p :| Young(g', p, posn) && LrChain(g'.items, p) == ReducedChain(T, LrChain(g'.items, g'.tops[k]), r);
      assert Young(g, p, posn);
    }
  }
}
