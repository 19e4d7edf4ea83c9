/** The GLR driver: deterministic parsing on one stack, rounds of nondeterministic parsing
    on many, and error recovery, all on one graph-structured stack. */
module GlrParser {
  import opened LrTables
  import opened GlrGraph
  import opened GlrOps
  import opened GlrInvariants
  import opened GlrDeferred
  import opened GlrCompress
  import opened GlrRounds
  import opened GlrSingle
  import opened GlrLanguage
  import opened GlrReach
  import opened GlrForest
  import opened GlrRanks
  import opened GlrMeaning
  import opened GlrTrees
  import GlrOptions
  import GlrValues
  import opened GlrStack

  lemma GoingCurrent(T: Tables, g: GlrGraph.Graph, posn: nat)
    requires AllGoing(T, g, posn)
    ensures AllCurrent(g, posn)
  {
    forall k {:trigger Current(g, k, posn)} | 0 <= k < |g.tops|
      ensures Current(g, k, posn)
    {
      assert Going(T, g, k, posn);
    }
  }

  lemma TopGoing(T: Tables, g: GlrGraph.Graph, k: int, posn: nat, owner: map<int, int>)
    requires T.Ranges() && GraphInv(T, g, owner) && Current(g, k, posn)
    requires g.tops[k] != NULL ==> g.items[g.tops[k]].lr != T.final
    ensures Going(T, g, k, posn)
  {
    if g.tops[k] != NULL {
      TopInRange(T, g, g.tops[k]);
    }
  }

  lemma DefaultIsAct(T: Tables, s: nat)
    requires T.Ranges() && ValidTables(T) && s < T.States() && s != T.final && Defaulted(T, s)
    ensures DefaultAction(T, s).Reduce? ==> Reducible(T, s, DefaultAction(T, s).rule)
    ensures !DefaultAction(T, s).Shift?
  {
    assert Act(T, s, EOF) == DefaultAction(T, s);
    assert ActionOk(T, s, EOF);
  }

  lemma ActIsOk(T: Tables, s: nat, x: nat)
    requires ValidTables(T) && s < T.States() && s != T.final && x < T.ntokens
    ensures Act(T, s, x).Reduce? ==> Reducible(T, s, Act(T, s, x).rule)
    ensures Act(T, s, x).Shift? ==> (s, x, Act(T, s, x).to) in T.edges && (x == EOF ==> Act(T, s, x).to == T.final)
  {
    assert ActionOk(T, s, x);
  }

  /** What the invariants say about the top of a stack in progress. */
  lemma TopFacts(T: Tables, g: GlrGraph.Graph, k: nat, posn: nat, owner: map<int, int>)
    requires T.Ranges() && GraphInv(T, g, owner) && AllGoing(T, g, posn) && k < |g.tops| && g.tops[k] != NULL
    ensures 0 <= g.tops[k] < |g.items| && g.items[g.tops[k]].State? && g.items[g.tops[k]].posn == posn
    ensures g.items[g.tops[k]].lr < T.States() && g.items[g.tops[k]].lr != T.final
    ensures g.split <= g.tops[k] && (g.split != NULL ==> 0 <= g.split)
    ensures GlrGraph.Step(g.items, g.tops[k]) && TopsBelow(g)
  {
    hide Positions, Automaton, Unique, Derivations, LiveOwned, Outgrown, Forest;
    assert Going(T, g, k, posn);
    StatesStep(g, g.tops[k]);
  }

  lemma DeadGoing(T: Tables, g: GlrGraph.Graph, k: nat, posn: nat, owner: map<int, int>)
    requires T.Ranges() && GraphInv(T, g, owner) && AllGoing(T, g, posn) && TopsDistinct(g.tops, NULL) && k < |g.tops|
    requires g.split != NULL
    ensures var h := MarkDeleted(g, k);
      GraphInv(T, h, owner) && AllGoing(T, h, posn) && TopsDistinct(h.tops, NULL) && Kept(g, h, k)
  {
    hide Positions, Automaton, Unique, Derivations, Outgrown, Forest, LiveOwned;
    var h := MarkDeleted(g, k);
    MarkDeletedFewer(g, k);
    FewerOutgrown(T, g, h);
    assert Links(h);
    FewerInv(T, g, h, owner);
    KeptAllGoing(T, g, h, k, posn);
  }

  lemma CopyGoing(T: Tables, g: GlrGraph.Graph, k: nat, posn: nat, owner: map<int, int>)
    requires T.Ranges() && GraphInv(T, g, owner) && AllGoing(T, g, posn) && k < |g.tops| && g.tops[k] != NULL
    ensures AllGoing(T, SplitStack(g, k), posn) && Kept(g, SplitStack(g, k), NULL)
  {
    hide GraphInv;
    var h := SplitStack(g, k);
    assert Going(T, g, k, posn);
    assert Going(T, h, |g.tops|, posn);
    KeptAllGoing(T, g, h, NULL, posn);
  }

  lemma DeadReady(T: Tables, g: GlrGraph.Graph, k: nat, yychar: int)
    requires T.Ranges() && k < |g.tops| && g.tops[k] == NULL
    ensures Ready(T, g, k, yychar)
  {
  }

  /** A live stack that is ready is about to shift the lookahead. */
  lemma ReadyToShift(T: Tables, g: GlrGraph.Graph, a: nat, posn: nat, yychar: int)
    requires T.Ranges() && AllGoing(T, g, posn) && AllReady(T, g, 0, |g.tops|, yychar)
    requires a < |g.tops| && g.tops[a] != NULL
    ensures 0 <= g.tops[a] < |g.items| && g.items[g.tops[a]].State? && g.items[g.tops[a]].lr < T.States()
    ensures g.items[g.tops[a]].lr != T.final && yychar != EMPTY
    ensures Act(T, g.items[g.tops[a]].lr, Translate(T, yychar)).Shift?
  {
    hide Act, Translate;
    assert Ready(T, g, a, yychar) && GlrRounds.Going(T, g, a, posn);
  }

  lemma NoneReady(T: Tables, g: GlrGraph.Graph, yychar: int)
    requires T.Ranges()
    ensures AllReady(T, g, 0, 0, yychar)
  {
  }

  lemma OneReady(T: Tables, g: GlrGraph.Graph, k: nat, yychar: int)
    requires T.Ranges() && Ready(T, g, k, yychar)
    ensures AllReady(T, g, k, k + 1, yychar)
  {
    hide Ready;
  }

  /** A kept stack has the state on top that it had. */
  lemma KeptTop(g: GlrGraph.Graph, h: GlrGraph.Graph, j: int, k: nat)
    requires Kept(g, h, j) && k < |g.tops| && k != j && 0 <= g.tops[k] < |g.items| && g.items[g.tops[k]].State?
    ensures k < |h.tops| && h.tops[k] == g.tops[k] < |h.items|
    ensures h.items[h.tops[k]].State? && h.items[h.tops[k]].lr == g.items[g.tops[k]].lr
  {
    assert h.items[h.tops[k]] == h.items[g.tops[k]];
  }

  lemma ShiftReady(T: Tables, g: GlrGraph.Graph, k: nat, lr: nat, yychar: int)
    requires T.Ranges() && k < |g.tops| && 0 <= g.tops[k] < |g.items| && g.items[g.tops[k]].State?
    requires g.items[g.tops[k]].lr == lr < T.States() && yychar != EMPTY && Act(T, lr, Translate(T, yychar)).Shift?
    ensures Ready(T, g, k, yychar)
  {
  }

  lemma ConflictsAreOk(G: GlrTables, s: nat, x: nat)
    requires G.lalr.Ranges() && ValidGlr(G) && s < G.lalr.States() && s != G.lalr.final && x < G.lalr.ntokens
    ensures forall r | r in G.conflicts(s, x) :: Reducible(G.lalr, s, r)
  {
  }

  /** The LR state on top of stack k. */
  function TopLr(g: GlrGraph.Graph, k: int): nat {
    if 0 <= k < |g.tops| && 0 <= g.tops[k] < |g.items| && g.items[g.tops[k]].State? then g.items[g.tops[k]].lr else 0
  }

  /** Every reduction that the tables ask for in state lr on the token yychar, conflicts
      included, has been put off for the stack with top `top`. */
  ghost predicate Tried(G: GlrTables, items: seq<Item>, top: int, lr: nat, yychar: int)
    requires G.lalr.Ranges()
  {
    && lr < G.lalr.States()
    && (Act(G.lalr, lr, Translate(G.lalr, yychar)).Reduce? ==>
          Recorded(G.lalr, items, top, Act(G.lalr, lr, Translate(G.lalr, yychar)).rule))
    && (!Defaulted(G.lalr, lr) ==>
          forall r | r in G.conflicts(lr, Translate(G.lalr, yychar)) :: Recorded(G.lalr, items, top, r))
  }

  /** The conflict that makes the parser split stack k. */
  ghost predicate FacesConflict(G: GlrTables, g: GlrGraph.Graph, k: int, yychar: int)
    requires G.lalr.Ranges()
  {
    && 0 <= k < |g.tops| && 0 <= g.tops[k] < |g.items| && g.items[g.tops[k]].State?
    && g.items[g.tops[k]].lr < G.lalr.States() && !Defaulted(G.lalr, g.items[g.tops[k]].lr)
    && yychar != EMPTY && G.conflicts(g.items[g.tops[k]].lr, Translate(G.lalr, yychar)) != []
  }

  /** Processing has only touched stack k; new stacks are ready; the lookahead, once
      read, is still the same. */
  ghost predicate Advanced(T: Tables, g: GlrGraph.Graph, h: GlrGraph.Graph, k: int, was: int, now: int)
    requires T.Ranges()
  {
    Kept(g, h, k) && AllReady(T, h, |g.tops|, |h.tops|, now) && (was != EMPTY ==> now == was)
  }

  lemma AdvancedStart(T: Tables, g: GlrGraph.Graph, k: int, was: int, now: int)
    requires T.Ranges() && (was != EMPTY ==> now == was)
    ensures Advanced(T, g, g, k, was, now)
  {
  }

  lemma AdvancedKept(T: Tables, g: GlrGraph.Graph, h: GlrGraph.Graph, k: int, was: int, now: int)
    requires T.Ranges() && Advanced(T, g, h, k, was, now)
    ensures Kept(g, h, k) && |g.tops| <= |h.tops| && (was != EMPTY ==> now == was)
  {
  }

  lemma AdvancedByKept(T: Tables, g: GlrGraph.Graph, h: GlrGraph.Graph, k: int, now: int)
    requires T.Ranges() && Kept(g, h, k) && |g.tops| == |h.tops|
    ensures Advanced(T, g, h, k, now, now)
  {
  }

  lemma AdvancedAny(T: Tables, g: GlrGraph.Graph, h: GlrGraph.Graph, k: int, was: int, now: int)
    requires T.Ranges() && Advanced(T, g, h, NULL, was, now)
    ensures Advanced(T, g, h, k, was, now)
  {
    hide AllReady;
  }

  lemma AdvancedTop(T: Tables, g: GlrGraph.Graph, h: GlrGraph.Graph, k: nat, was: int, now: int)
    requires T.Ranges() && Advanced(T, g, h, NULL, was, now)
    requires k < |g.tops| && 0 <= g.tops[k] < |g.items| && g.items[g.tops[k]].State?
    ensures k < |h.tops| && h.tops[k] == g.tops[k] < |h.items|
    ensures h.items[h.tops[k]].State? && h.items[h.tops[k]].lr == g.items[g.tops[k]].lr
    ensures was != EMPTY ==> now == was
  {
    hide AllReady;
    KeptTop(g, h, NULL, k);
  }

  /** And so is what the stack consists of. */
  lemma AdvancedChain(T: Tables, g: GlrGraph.Graph, h: GlrGraph.Graph, k: nat, was: int, now: int)
    requires T.Ranges() && Advanced(T, g, h, NULL, was, now) && k < |g.tops| && g.tops[k] < |g.items|
    ensures k < |h.tops| && LrChain(h.items, h.tops[k]) == LrChain(g.items, g.tops[k])
  {
    hide AllReady, LrChain;
    ChainFrame(g.items, h.items, g.tops[k], 0);
  }

  lemma AdvancedTrans(T: Tables, g: GlrGraph.Graph, h: GlrGraph.Graph, h': GlrGraph.Graph, k: int, was: int, y: int,
    now: int)
    requires T.Ranges() && Advanced(T, g, h, k, was, y) && Advanced(T, h, h', k, y, now) && k < |g.tops|
    ensures Advanced(T, g, h', k, was, now) && |g.tops| <= |h.tops| <= |h'.tops|
  {
    hide AllReady;
    KeptTrans(g, h, h', k, k);
    KeptAllReady(T, h, h', k, |g.tops|, |h.tops|, y, now);
    JoinReady(T, h', |g.tops|, |h.tops|, |h'.tops|, now);
  }

  /** A copy of a stack is made, reduces, and is processed. */
  lemma AdvancedBySplit(T: Tables, g: GlrGraph.Graph, h: GlrGraph.Graph, h1: GlrGraph.Graph, h2: GlrGraph.Graph,
    was: int, now: int)
    requires T.Ranges() && Kept(g, h, NULL) && |h.tops| == |g.tops| + 1
    requires Kept(h, h1, |g.tops|) && |h1.tops| == |h.tops|
    requires Advanced(T, h1, h2, |g.tops|, was, now) && Ready(T, h2, |g.tops|, now)
    ensures Advanced(T, g, h2, NULL, was, now)
  {
    hide AllReady;
    KeptTrans(g, h, h1, NULL, |g.tops|);
    KeptTrans(g, h1, h2, NULL, |g.tops|);
    OneReady(T, h2, |g.tops|, now);
    JoinReady(T, h2, |g.tops|, |g.tops| + 1, |h2.tops|, now);
  }

  /** What has been put off stays so. */
  lemma StaysRecorded(T: Tables, g: GlrGraph.Graph, h: GlrGraph.Graph, k: int, was: int, now: int, top: int, r: nat)
    requires T.Ranges() && Advanced(T, g, h, k, was, now) && Deferred(T, g, top, r)
    ensures Recorded(T, h.items, top, r)
  {
    hide AllReady, Deferred, Recorded, Extends, OptionsKept;
    DeferredIsRecorded(T, g, top, r);
    RecordedStays(T, g.items, h.items, top, r);
  }

  lemma ManyStayRecorded(T: Tables, g: GlrGraph.Graph, h: GlrGraph.Graph, k: int, was: int, now: int, top: int,
    rules: seq<nat>)
    requires T.Ranges() && Advanced(T, g, h, k, was, now) && AllRecorded(T, g.items, top, rules)
    ensures AllRecorded(T, h.items, top, rules)
  {
    hide AllReady, AllRecorded, Extends, OptionsKept;
    ManyRecordedStay(T, g.items, h.items, top, rules);
  }

  /** The conflicts have been put off before, and now the action of the state too. */
  lemma AllTried(G: GlrTables, g: GlrGraph.Graph, h: GlrGraph.Graph, k: int, yychar: int, top: int, lr: nat)
    requires G.lalr.Ranges() && Advanced(G.lalr, g, h, k, yychar, yychar) && lr < G.lalr.States()
    requires AllRecorded(G.lalr, g.items, top, G.conflicts(lr, Translate(G.lalr, yychar)))
    requires Act(G.lalr, lr, Translate(G.lalr, yychar)).Reduce? ==>
      Deferred(G.lalr, h, top, Act(G.lalr, lr, Translate(G.lalr, yychar)).rule)
    ensures Tried(G, h.items, top, lr, yychar)
  {
    hide Advanced, Act, Translate, Recorded, Deferred;
    ManyStayRecorded(G.lalr, g, h, k, yychar, yychar, top, G.conflicts(lr, Translate(G.lalr, yychar)));
    if Act(G.lalr, lr, Translate(G.lalr, yychar)).Reduce? {
      DeferredIsRecorded(G.lalr, h, top, Act(G.lalr, lr, Translate(G.lalr, yychar)).rule);
    }
  }

  /** A defaulted state acts on every token alike. */
  lemma DefaultTried(G: GlrTables, g: GlrGraph.Graph, yychar: int, top: int, lr: nat)
    requires G.lalr.Ranges() && lr < G.lalr.States() && Defaulted(G.lalr, lr)
    requires DefaultAction(G.lalr, lr).Reduce? ==> Deferred(G.lalr, g, top, DefaultAction(G.lalr, lr).rule)
    ensures Tried(G, g.items, top, lr, yychar)
  {
    hide Translate, Recorded, Deferred;
    if DefaultAction(G.lalr, lr).Reduce? {
      DeferredIsRecorded(G.lalr, g, top, DefaultAction(G.lalr, lr).rule);
    }
  }

  lemma DefaultActs(T: Tables, lr: nat, x: nat)
    requires T.Ranges() && lr < T.States() && Defaulted(T, lr)
    ensures Act(T, lr, x) == DefaultAction(T, lr)
  {
  }

  lemma FacesNot(G: GlrTables, g: GlrGraph.Graph, k: nat, yychar: int)
    requires G.lalr.Ranges() && k < |g.tops| && 0 <= g.tops[k] < |g.items| && g.items[g.tops[k]].State?
    requires g.items[g.tops[k]].lr < G.lalr.States() && Defaulted(G.lalr, g.items[g.tops[k]].lr)
    ensures !FacesConflict(G, g, k, yychar)
  {
  }

  lemma ReducibleRule(T: Tables, s: nat, r: nat)
    requires T.Ranges() && Reducible(T, s, r)
    ensures 1 < r < T.Rules()
  {
  }

  lemma EdgesLeaveNonFinal(T: Tables, s: nat, x: nat, t: nat)
    requires T.Ranges() && ValidTables(T) && (s, x, t) in T.edges
    ensures s != T.final
  {
  }

  /** The one stack is not at the final state. */
  predicate NotFinalIn(T: Tables, g: GlrGraph.Graph) {
    |g.tops| == 1 && (0 <= g.tops[0] < |g.items| && g.items[g.tops[0]].State? ==> g.items[g.tops[0]].lr != T.final)
  }

  lemma OneGoing(T: Tables, g: GlrGraph.Graph, posn: nat, owner: map<int, int>)
    requires T.Ranges() && GraphInv(T, g, owner) && Single(g, posn) && NotFinalIn(T, g)
    ensures AllGoing(T, g, posn) && TopsDistinct(g.tops, NULL)
    ensures g.items[g.tops[0]].lr < T.States()
  {
    TopInRange(T, g, g.tops[0]);
    assert Going(T, g, 0, posn);
  }

  /** A stack that was popped is a stack of its own place in the input. */
  lemma PoppedSingle(g: GlrGraph.Graph, posn: nat)
    requires Popped(g, posn)
    ensures Single(g, g.items[g.tops[0]].posn)
  {
  }

  /** One state less of a contiguous stack. */
  lemma OneLess(T: Tables, g: GlrGraph.Graph, owner: map<int, int>)
    requires T.Ranges() && ValidTables(T) && GraphInv(T, g, owner) && g.split == NULL && |g.items| > 0
    ensures g.items[|g.items|-1].State? && g.tops == [|g.items|-1] && g.items[|g.items|-1].pred == |g.items| - 2
    ensures var h := Truncated(g, |g.items| - 1); GraphInv(T, h, owner) && NotFinalIn(T, h)
    ensures |g.items| > 1 ==> g.items[|g.items|-2].State?
  {
    hide Unique, Derivations, Positions, Path, ActionOk, LiveOwned, Outgrown, Forest;
    var n := |g.items| - 1;
    assert g.items[n].State?;
    TruncatedInv(T, g, n, owner);
    if n > 0 {
      assert g.items[n-1].State?;
      StatesStep(g, n);
      StatesStep(g, n - 1);
      var p := LrChain(g.items, n);
      assert LrChain(g.items, n - 1) + [g.items[n].lr] == p;
      assert LrTables.Stack(T, p);
      FinalOnTop(T, p, |p| - 2);
    }
  }

  /** Before the first state. */
  lemma EmptyInv(T: Tables)
    requires T.Ranges()
    ensures GraphInv(T, GlrGraph.Graph([], NULL, [NULL]), map[])
  {
    hide Unique, Outgrown, Forest, Derives;
    var g := GlrGraph.Graph([], NULL, [NULL]);
    SingleUnique(g);
    SingleOutgrown(T, g);
    StatesAreForest(T, []);
  }

  lemma OneGrounded(T: Tables, items: seq<Item>)
    requires T.Ranges() && |items| == 1 && items[0].State? && items[0].sem.Resolved?
    requires Grounded(T, RankOf(T), items, 0)
    ensures AllGrounded(T, items)
  {
    hide Grounded;
  }

  /** The first state: the bottom of the one stack. */
  lemma BottomInv(T: Tables, val: int, owner: map<int, int>)
    requires T.Ranges() && GraphInv(T, GlrGraph.Graph([], NULL, [NULL]), owner)
    ensures var h := AddState(GlrGraph.Graph([], NULL, [NULL]), 0, 0, 0, Resolved(val));
            GraphInv(T, h, owner) && Single(h, 0)
  {
    hide Automaton, Unique, Derivations, LiveOwned, Outgrown, Forest, Skeleton, GlrOptions.Tidy, GlrOptions.NoneEmpty,
      AllGrounded;
    var g := GlrGraph.Graph([], NULL, [NULL]);
    var h := AddState(g, 0, 0, 0, Resolved(val));
    AddStateAutomaton(T, g, 0, 0, 0, Resolved(val));
    SingleUnique(h);
    SingleOutgrown(T, h);
    NobodyOwns(T, g, h, owner);
    assert Grounded(T, RankOf(T), h.items, 0);
    OneGrounded(T, h.items);
    StatesAreForest(T, h.items);
  }

  lemma SingleTop(T: Tables, g: GlrGraph.Graph, posn: nat, owner: map<int, int>)
    requires T.Ranges() && GraphInv(T, g, owner) && Popped(g, posn)
    ensures 0 <= g.tops[0] < |g.items| && g.items[g.tops[0]].State? && g.items[g.tops[0]].lr < T.States()
  {
    TopInRange(T, g, g.tops[0]);
  }

  lemma InvIs(T: Tables, g: GlrGraph.Graph, owner: map<int, int>)
    requires T.Ranges() && GraphInv(T, g, owner)
    ensures Links(g) && Positions(g.items) && Automaton(T, g.items)
  {
  }

  /** A goto leads to a state of its symbol. */
  lemma GotoIs(T: Tables, s: nat, rule: nat)
    requires T.Ranges() && EdgesOk(T) && 1 < rule < T.Rules()
    requires (s, T.r1[rule], Goto(T, s, T.r1[rule])) in T.edges
    ensures 0 <= Goto(T, s, T.r1[rule]) < T.States() && T.stos[Goto(T, s, T.r1[rule])] == T.r1[rule]
  {
    hide Goto;
  }

  /** A token may be shifted. */
  lemma TokenFollows(T: Tables, g: GlrGraph.Graph, posn: nat, token: nat, to: nat)
    requires T.Ranges() && EdgesOk(T) && |g.tops| == 1 && 0 <= g.tops[0] < |g.items| && g.items[g.tops[0]].State?
    requires (g.items[g.tops[0]].lr, token, to) in T.edges && g.items[g.tops[0]].posn == posn
    ensures MayFollow(T, g, g.tops[0], to, posn + 1)
  {
  }

  lemma TablesEnd(T: Tables)
    requires ValidTables(T)
    ensures T.Ranges() && EndOnlyLast(T)
  {
  }

  lemma AcyclicIs(G: GlrTables)
    requires ValidGlr(G)
    ensures G.lalr.Ranges() && Acyclic(G.lalr)
  {
    hide Acyclic;
  }

  /** And so may the error token, without taking anything from the input. */
  lemma ErrorFollows(T: Tables, g: GlrGraph.Graph, to: nat)
    requires T.Ranges() && EdgesOk(T) && Acyclic(T) && ErrorAcyclic(T)
    requires |g.tops| == 1 && 0 <= g.tops[0] < |g.items| && g.items[g.tops[0]].State?
    requires (g.items[g.tops[0]].lr, TERROR, to) in T.edges
    ensures MayFollow(T, g, g.tops[0], to, g.items[g.tops[0]].posn)
  {
    RankIs(T);
  }

  lemma InvIsLoose(T: Tables, g: GlrGraph.Graph, owner: map<int, int>)
    requires T.Ranges() && GraphInv(T, g, owner)
    ensures GraphLoose(T, g)
  {
    hide Links, Positions, Automaton, Unique, Derivations, LiveOwned, Forest, Outgrown;
  }

  class Driver {
    const S: GlrStack.Stack
    const input: nat -> int       // YYLEX
    const lexval: nat -> int      // the yylval that comes with the n-th token
    const E: GlrValues.Setting    // the grammar's rules, and the user's actions and mergers
    var yychar: int
    var yylval: int
    var pos: nat                  // tokens read
    var log: seq<nat>             // the rules whose actions have been executed
    var posn: nat                 // yyposn
    var errState: nat
    var nerrs: nat
    ghost var recovered: bool     // error recovery has started

    constructor (stack: GlrStack.Stack, input: nat -> int, lexval: nat -> int, E: GlrValues.Setting)
      requires ValidGlr(stack.G) && Deterministic(stack.G.lalr) && stack.Inv()
      requires E.T == stack.G.lalr && E.G.r2 == E.T.r2 && |E.G.dprec| == |E.G.merger| == |E.T.r2|
      ensures S == stack && this.input == input && this.lexval == lexval && this.E == E && Valid()
      ensures yychar == EMPTY && pos == posn == errState == nerrs == 0 && log == [] && !recovered
    {
      hide NonCyclic, GraphInv, Deterministic, Acyclic, ErrorAcyclic, ActionOk, EdgesOk, FinalOk, EndOnlyLast;
      RankIs(stack.G.lalr);
      S, this.input, this.lexval, this.E := stack, input, lexval, E;
      yychar, yylval, pos, log, posn, errState, nerrs := EMPTY, 0, 0, [], 0, 0, 0;
      recovered := false;
    }

    /** The tables are valid, and go with the grammar that the user's code is for. */
    ghost predicate Configured()
      reads this
    {
      && S.G.lalr.Ranges() && ValidTables(S.G.lalr) && EdgesOk(S.G.lalr) && ValidGlr(S.G) && Deterministic(S.G.lalr)
      && E.T == S.G.lalr && GlrValues.Good(E, RankOf(E.T))
    }

    lemma ConfiguredIs()
      requires Configured()
      ensures S.G.lalr.Ranges()
    {
      hide ValidTables, EdgesOk, ValidGlr, Deterministic, GlrValues.Good, Tables.Ranges;
    }

    ghost predicate Valid()
      reads this, S, S.items
    {
      Configured() && S.Inv() && (yychar == EMPTY || yychar >= 0)
    }

    /** Valid but for the bookkeeping of options: right after a stack has been brought back. */
    ghost predicate LooselyValid()
      reads this, S, S.items
    {
      Configured() && S.Loose() && (yychar == EMPTY || yychar >= 0)
    }

    /** Without error recovery every token read is shifted or the lookahead. */
    ghost predicate Reads()
      reads this`yychar, this`yylval, this`pos, this`posn
    {
      if yychar == EMPTY then pos == posn
      else pos == posn + 1 && yylval == lexval(posn) && yychar == if input(posn) <= 0 then 0 else input(posn)
    }

    /** The values of all states are sound: they are what `fits` wants for what the states
        stand for, if the user's code goes with `fits` and so do the values of the tokens. */
    ghost predicate Sound(items: seq<Item>)
      requires E.T.Ranges()
    {
      SoundValues(E, input, lexval, items)
    }

    /** Soundness: as long as there has been no error, every live stack is one that the
        nondeterministic LR automaton can have after the tokens shifted, and values are
        sound. */
    ghost predicate Faithful()
      requires S.G.lalr.Ranges() && E.T == S.G.lalr && S.nextFree <= S.items.Length
      reads this, S, S.items
    {
      !recovered ==> Reads() && AllFollow(S.G, input, S.AsGraph(), posn) && Sound(S.AsGraph().items)
    }

    /** A reduction by r is legal in state lr, and one that the tables ask for. */
    ghost predicate Allowed(lr: nat, r: nat)
      requires S.G.lalr.Ranges()
      reads this`recovered, this`posn
    {
      Reducible(S.G.lalr, lr, r) && (!recovered ==> MayReduce(S.G, lr, TokenAt(S.G.lalr, input, posn), r))
    }

    /** The next token: the lookahead, or what the scanner is about to answer. */
    ghost function NextToken(): nat
      requires S.G.lalr.Ranges()
      reads this`yychar, this`pos
    {
      Translate(S.G.lalr, if yychar == EMPTY then input(pos) else yychar)
    }

    /** The lookahead, read if there is none. */
    method ReadToken() returns (token: nat)
      requires S.G.lalr.Ranges() && (yychar == EMPTY || yychar >= 0)
      modifies this`yychar, this`yylval, this`pos
      ensures yychar >= 0 && token == Translate(S.G.lalr, yychar) < S.G.lalr.ntokens
      ensures token == NextToken() == old(NextToken())
      ensures old(yychar) != EMPTY ==> yychar == old(yychar) && pos == old(pos) && yylval == old(yylval)
      ensures old(yychar) == EMPTY ==>
        pos == old(pos) + 1 && yylval == lexval(old(pos))
        && yychar == if input(old(pos)) <= 0 then 0 else input(old(pos))
    {
      if yychar == EMPTY {
        yychar := input(pos);
        yylval := lexval(pos);
        pos := pos + 1;
      }
      if yychar <= 0 {
        yychar := 0;
        token := EOF;
      } else {
        token := S.G.lalr.translate(yychar);
      }
    }

    // -------------------------------------------------------------- nondeterministic parsing

    ghost predicate NotFinal(g: GlrGraph.Graph)
    {
      NotFinalIn(S.G.lalr, g)
    }

    /** All stacks are in progress; no two of them, k excepted, have the same top. */
    ghost predicate InProgress(k: int)
      reads this, S, S.items
    {
      Valid() && Faithful() && AllGoing(S.G.lalr, S.AsGraph(), posn) && TopsDistinct(S.tops, k)
    }

    /** yyglrReduce with the action deferred. */
    method Defer(k: nat, r: nat, ghost c: Search) returns (status: Status)
      requires InProgress(k) && S.splitPoint != NULL && k < |S.tops| && S.tops[k] != NULL
      requires Allowed(TopLr(S.AsGraph(), k), r)
      requires Covers(S.G, S.AsGraph(), posn, c) && Deferrable(S.G, S.AsGraph(), c, k, r)
      modifies S, S.items
      ensures S.items == old(S.items) || fresh(S.items)
      ensures status.Ok? || (status.Exhausted? && S.Full())
      ensures status == Ok ==>
        && InProgress(NULL) && S.splitPoint != NULL && Kept(old(S.AsGraph()), S.AsGraph(), k)
        && |S.tops| == |old(S.tops)| && (S.tops[k] == NULL ==> S.Restorable(posn))
        && (S.tops[k] != NULL ==>
              LrChain(S.AsGraph().items, S.tops[k])
              == ReducedChain(S.G.lalr, old(LrChain(S.AsGraph().items, S.tops[k])), r))
        && Deferred(S.G.lalr, S.AsGraph(), old(S.tops[k]), r)
        && Covers(S.G, S.AsGraph(), posn, Deferring(S.G.lalr, old(S.AsGraph()), c, k, r))
    {
      hide GraphInv, Reducible, ValidTables, ValidGlr, Deterministic, MayReduce, AllFollow, ReducedChain, TokenAt,
        SoundValues, GlrValues.Good, Extends, NoNewValues, Deferred, OptionsKept, Covers, Deferrable, Deferring,
        Absorbed, NoMoreLive;
      ghost var g, owner := S.AsGraph(), S.owner;
      GoingCurrent(S.G.lalr, g, posn);
      TopFacts(S.G.lalr, g, k, posn, S.owner);
      assert S.items[S.tops[k]] == g.items[g.tops[k]];
      status := S.ReduceDeferred(k, r, if S.lookaheadNeeds[k] then yychar else EMPTY, posn);
      if status == Ok {
        ghost var h := S.AsGraph();
        assert Kept(g, h, k);
        assert S.tops[k] != NULL ==> h.items[S.tops[k]] == S.items[S.tops[k]];
        TopGoing(S.G.lalr, h, k, posn, S.owner);
        KeptAllGoing(S.G.lalr, g, h, k, posn);
        DeferCovers(S.G, g, h, posn, c, k, r);
        if !recovered {
          ReducedFollow(S.G, input, g, h, k, r, posn);
          StillSound(E, input, lexval, g, h, owner);
        }
      }
    }

    /** yymarkStackDeleted on a stack that is stuck. */
    method Die(k: nat, ghost c: Search)
      requires InProgress(NULL) && S.splitPoint != NULL && k < |S.tops| && S.tops[k] != NULL
      requires Covers(S.G, S.AsGraph(), posn, c)
      requires Spent(S.G, c.seen, c.token, LrChain(S.AsGraph().items, S.tops[k]), -1)
      modifies S`lastDeleted, S`dangling, S`tops
      ensures InProgress(NULL) && S.splitPoint != NULL && Kept(old(S.AsGraph()), S.AsGraph(), k)
      ensures |S.tops| == |old(S.tops)| && S.tops[k] == NULL && S.Restorable(posn)
      ensures Covers(S.G, S.AsGraph(), posn, c.(pending := c.pending - {k}))
    {
      hide GraphInv, ValidTables, ValidGlr, Deterministic, AllFollow, Covers, Spent;
      ghost var g := S.AsGraph();
      TopFacts(S.G.lalr, g, k, posn, S.owner);
      DieCovers(S.G, g, posn, c, k);
      assert S.items[S.tops[k]] == g.items[g.tops[k]];
      DeadGoing(S.G.lalr, g, k, posn, S.owner);
      if !recovered {
        CopyFollow(S.G, input, g, k, posn);
      }
      S.MarkDeleted(k);
      assert S.AsGraph() == MarkDeleted(g, k);
    }

    /** One of the conflicting reductions: on a copy of stack k, which then is processed. */
    method SplitOne(k: nat, r: nat, fuel: nat, ghost c: Search) returns (status: Status, ghost c': Search)
      requires InProgress(NULL) && k < |S.tops| && S.tops[k] != NULL && yychar != EMPTY
      requires Allowed(TopLr(S.AsGraph(), k), r)
      requires Covers(S.G, S.AsGraph(), posn, c) && k in c.pending && c.token == NextToken()
      requires MayReduce(S.G, TopLr(S.AsGraph(), k), c.token, r)
      modifies this`yychar, this`yylval, this`pos, S, S.items
      ensures S.items == old(S.items) || fresh(S.items)
      ensures status.Ok? || (status.Exhausted? && S.Full()) || status.OutOfFuel?
      ensures status == Ok ==>
        && InProgress(NULL) && S.splitPoint != NULL
        && Advanced(S.G.lalr, old(S.AsGraph()), S.AsGraph(), NULL, old(yychar), yychar)
        && Recorded(S.G.lalr, S.AsGraph().items, old(S.tops[k]), r)
        && Covers(S.G, S.AsGraph(), posn, c') && GoesOn(c, c', c.pending) && NextToken() == old(NextToken())
        && ReducedChain(S.G.lalr, old(LrChain(S.AsGraph().items, S.tops[k])), r) in c'.seen
      decreases fuel, 1
    {
      hide GraphInv, AllFollow, Allowed, ValidTables, ValidGlr, Deterministic, Ready, Kept, AllGoing, Advanced,
        Recorded, Deferred, Covers, Deferrable, MayReduce, ReducedChain, LrChain, GoesOn, SoundValues, GlrValues.Good,
        TopsDistinct, Deferring, Extends, OptionsKept;
      ghost var g := S.AsGraph();
      TopFacts(S.G.lalr, g, k, posn, S.owner);
      CopyDeferrable(S.G, g, posn, c, k, r);
      CopyCovers(S.G, g, posn, c, k);
      CopyGoing(S.G.lalr, g, k, posn, S.owner);
      if !recovered {
        CopyFollow(S.G, input, g, k, posn);
      }
      var copy := S.Split(k);
      ghost var h := S.AsGraph();
      assert h.items == g.items && h.tops[copy] == g.tops[k];
      c' := Deferring(S.G.lalr, h, c, copy, r);
      SearchIs(c, c', c.pending + {copy});
      status := Defer(copy, r, c);
      if status == Ok {
        ghost var h1 := S.AsGraph();
        status, c' := ProcessOneStack(copy, fuel, c');
        if status == Ok {
          CopySearched(S.G, g, posn, c, c', k, r);
          AdvancedBySplit(S.G.lalr, g, h, h1, S.AsGraph(), old(yychar), yychar);
          StaysRecorded(S.G.lalr, h1, S.AsGraph(), copy, old(yychar), yychar, g.tops[k], r);
        }
      }
    }

    /** The tables ask for reductions by all the rules in state lr. */
    ghost predicate AllAllowed(lr: nat, rules: seq<nat>, x: nat)
      requires S.G.lalr.Ranges()
      reads this`recovered, this`posn
    {
      forall r | r in rules :: Allowed(lr, r) && MayReduce(S.G, lr, x, r)
    }

    lemma OneAllowed(lr: nat, rules: seq<nat>, x: nat, i: nat)
      requires S.G.lalr.Ranges() && AllAllowed(lr, rules, x) && i < |rules|
      ensures Allowed(lr, rules[i]) && MayReduce(S.G, lr, x, rules[i])
    {
      hide Driver.Allowed, MayReduce;
    }

    /** All the conflicting reductions, each on a copy of stack k. */
    method SplitConflicts(k: nat, conflicts: seq<nat>, fuel: nat, ghost c: Search)
      returns (status: Status, ghost c': Search)
      requires InProgress(NULL) && k < |S.tops| && S.tops[k] != NULL && yychar != EMPTY
      requires AllAllowed(TopLr(S.AsGraph(), k), conflicts, c.token)
      requires Covers(S.G, S.AsGraph(), posn, c) && k in c.pending && c.token == NextToken()
      modifies this`yychar, this`yylval, this`pos, S, S.items
      ensures S.items == old(S.items) || fresh(S.items)
      ensures status.Ok? || (status.Exhausted? && S.Full()) || status.OutOfFuel?
      ensures status == Ok ==>
        && InProgress(NULL) && (old(S.splitPoint) != NULL || conflicts != [] ==> S.splitPoint != NULL)
        && Advanced(S.G.lalr, old(S.AsGraph()), S.AsGraph(), NULL, old(yychar), yychar)
        && AllRecorded(S.G.lalr, S.AsGraph().items, old(S.tops[k]), conflicts)
        && Covers(S.G, S.AsGraph(), posn, c') && GoesOn(c, c', c.pending) && NextToken() == old(NextToken())
        && AllOf(S.G.lalr, old(LrChain(S.AsGraph().items, S.tops[k])), conflicts, c'.seen)
      decreases fuel, 2
    {
      hide GraphInv, AllFollow, Allowed, ValidTables, ValidGlr, Deterministic, AllGoing, Advanced, Recorded, Covers,
        MayReduce, ReducedChain, LrChain, GoesOn, AllOf, AllRecorded, Driver.AllAllowed, SoundValues, GlrValues.Good,
        TopsDistinct;
      ghost var g, q := S.AsGraph(), LrChain(S.AsGraph().items, S.tops[k]);
      c' := c;
      SplitStart(g, k, c, q);
      var i := 0;
      while i < |conflicts|
        invariant 0 <= i <= |conflicts| && (S.items == old(S.items) || fresh(S.items))
        invariant InProgress(NULL) && Advanced(S.G.lalr, g, S.AsGraph(), NULL, old(yychar), yychar)
        invariant old(S.splitPoint) != NULL || i > 0 ==> S.splitPoint != NULL
        invariant AllRecorded(S.G.lalr, S.AsGraph().items, g.tops[k], conflicts[..i])
        invariant Covers(S.G, S.AsGraph(), posn, c') && GoesOn(c, c', c.pending) && NextToken() == old(NextToken())
        invariant AllOf(S.G.lalr, q, conflicts[..i], c'.seen)
      {
        ghost var h, y, d := S.AsGraph(), yychar, c';
        SplitReady(g, h, k, old(yychar), yychar, c, d);
        OneAllowed(TopLr(g, k), conflicts, c.token, i);
        status, c' := SplitOne(k, conflicts[i], fuel, d);
        if status != Ok {
          return;
        }
        SplitMore(g, h, S.AsGraph(), k, old(yychar), y, yychar, conflicts, i);
        OneMoreSeen(S.G.lalr, c, d, c', q, conflicts, i);
        i := i + 1;
      }
      assert conflicts[..i] == conflicts;
      status := Ok;
    }

    lemma SplitStart(g: GlrGraph.Graph, k: nat, c: Search, q: seq<nat>)
      requires InProgress(NULL) && g == S.AsGraph() && k < |g.tops| && g.tops[k] != NULL
      ensures 0 <= g.tops[k] < |g.items| && g.items[g.tops[k]].State?
      ensures Advanced(S.G.lalr, g, g, NULL, yychar, yychar) && AllRecorded(S.G.lalr, g.items, g.tops[k], [])
      ensures GoesOn(c, c, c.pending) && AllOf(S.G.lalr, q, [], c.seen)
    {
      hide GraphInv, AllFollow, ValidTables, ValidGlr, Deterministic, AllGoing, Advanced, SoundValues, GlrValues.Good;
      TopFacts(S.G.lalr, g, k, posn, S.owner);
      AdvancedStart(S.G.lalr, g, NULL, yychar, yychar);
      SearchStays(S.G.lalr, c, q, []);
    }

    /** Stack k is still there. */
    lemma SplitReady(g: GlrGraph.Graph, h: GlrGraph.Graph, k: nat, was: int, now: int, c: Search, d: Search)
      requires S.G.lalr.Ranges() && Advanced(S.G.lalr, g, h, NULL, was, now) && GoesOn(c, d, c.pending)
      requires k < |g.tops| && 0 <= g.tops[k] < |g.items| && g.items[g.tops[k]].State?
      ensures k < |h.tops| && h.tops[k] == g.tops[k] && TopLr(h, k) == TopLr(g, k) && (was != EMPTY ==> now == was)
      ensures LrChain(h.items, h.tops[k]) == LrChain(g.items, g.tops[k])
      ensures d.pending == c.pending && d.token == c.token
    {
      hide Advanced, LrChain;
      AdvancedTop(S.G.lalr, g, h, k, was, now);
      AdvancedChain(S.G.lalr, g, h, k, was, now);
      SearchIs(c, d, c.pending);
    }

    /** One more reduction has been put off. */
    lemma SplitMore(g: GlrGraph.Graph, h: GlrGraph.Graph, h': GlrGraph.Graph, k: nat, was: int, y: int, now: int,
                    rules: seq<nat>, i: nat)
      requires S.G.lalr.Ranges() && k < |g.tops| && i < |rules|
      requires Advanced(S.G.lalr, g, h, NULL, was, y) && Advanced(S.G.lalr, h, h', NULL, y, now)
      requires AllRecorded(S.G.lalr, h.items, g.tops[k], rules[..i])
      requires Recorded(S.G.lalr, h'.items, g.tops[k], rules[i])
      ensures Advanced(S.G.lalr, g, h', NULL, was, now) && AllRecorded(S.G.lalr, h'.items, g.tops[k], rules[..i + 1])
    {
      hide Advanced, AllRecorded, Recorded;
      AdvancedTrans(S.G.lalr, g, h, h', NULL, was, y, now);
      ManyStayRecorded(S.G.lalr, h, h', NULL, y, now, g.tops[k], rules[..i]);
      OneMoreRecorded(S.G.lalr, h'.items, g.tops[k], rules, i);
    }

    /** The lookahead is the token that comes next. */
    lemma LookaheadIs()
      requires S.G.lalr.Ranges() && Reads()
      ensures NextToken() == TokenAt(S.G.lalr, input, posn)
    {
    }

    lemma AllowsConflicts(lr: nat, token: nat)
      requires S.G.lalr.Ranges() && ValidGlr(S.G) && lr < S.G.lalr.States() && lr != S.G.lalr.final
        && token < S.G.lalr.ntokens
      requires (!recovered ==> token == TokenAt(S.G.lalr, input, posn)) && !Defaulted(S.G.lalr, lr)
      ensures AllAllowed(lr, S.G.conflicts(lr, token), token)
    {
      hide Reducible, Act, TokenAt;
      ConflictsAreOk(S.G, lr, token);
    }

    lemma AllowsAction(lr: nat, token: nat)
      requires S.G.lalr.Ranges() && ValidTables(S.G.lalr) && lr < S.G.lalr.States() && lr != S.G.lalr.final
      requires token < S.G.lalr.ntokens && (!recovered ==> token == TokenAt(S.G.lalr, input, posn))
      ensures Act(S.G.lalr, lr, token).Reduce? ==> Allowed(lr, Act(S.G.lalr, lr, token).rule)
    {
      hide Reducible, Act, TokenAt, ValidTables;
      ActIsOk(S.G.lalr, lr, token);
    }

    /** A defaulted state does the same on every token. */
    lemma AllowsDefault(lr: nat)
      requires S.G.lalr.Ranges() && ValidTables(S.G.lalr) && lr < S.G.lalr.States() && lr != S.G.lalr.final
        && Defaulted(S.G.lalr, lr)
      ensures DefaultAction(S.G.lalr, lr).Reduce? ==> Allowed(lr, DefaultAction(S.G.lalr, lr).rule)
      ensures !DefaultAction(S.G.lalr, lr).Shift?
    {
      hide Reducible, TokenAt, ValidTables;
      DefaultIsAct(S.G.lalr, lr);
      assert Act(S.G.lalr, lr, TokenAt(S.G.lalr, input, posn)) == DefaultAction(S.G.lalr, lr);
    }

    /** The action of the state on top of stack k, its conflicts settled. */
    method ActOn(k: nat, action: Action, ghost c: Search) returns (status: Status, done: bool, ghost c': Search)
      requires InProgress(NULL) && S.splitPoint != NULL && k < |S.tops| && S.tops[k] != NULL
      requires Covers(S.G, S.AsGraph(), posn, c) && k in c.pending
      requires ConflictsSeen(S.G, S.AsGraph(), c, k, action)
      requires action.Reduce? ==> Allowed(TopLr(S.AsGraph(), k), action.rule)
      requires action.Shift? ==> Ready(S.G.lalr, S.AsGraph(), k, yychar)
      modifies S, S.items
      ensures S.items == old(S.items) || fresh(S.items)
      ensures status.Ok? || (status.Exhausted? && S.Full())
      ensures status == Ok ==>
        && InProgress(NULL) && S.splitPoint != NULL
        && Advanced(S.G.lalr, old(S.AsGraph()), S.AsGraph(), k, yychar, yychar)
        && Settled(k, done)
        && Covers(S.G, S.AsGraph(), posn, c') && GoesOn(c, c', Left(c, k, done))
        && match action
           case Shift(_) => done && S.AsGraph() == old(S.AsGraph())
           case Error => done && S.tops[k] == NULL
           case Reduce(r) =>
             && !done
             && (S.tops[k] != NULL ==>
                   LrChain(S.AsGraph().items, S.tops[k])
                   == ReducedChain(S.G.lalr, old(LrChain(S.AsGraph().items, S.tops[k])), r))
             && Deferred(S.G.lalr, S.AsGraph(), old(S.tops[k]), r)
    {
      hide GraphInv, AllFollow, Allowed, ValidTables, ValidGlr, Deterministic, Kept, AllGoing, Act, Advanced,
        ReducedChain, Deferred, Covers, ConflictsSeen, Deferrable, Deferring, Spent;
      ghost var g := S.AsGraph();
      match action
      case Shift(_) =>
        status, done, c' := Ok, true, c.(pending := c.pending - {k});
        ShiftSettles(S.G, g, posn, c, k, action);
        AdvancedStart(S.G.lalr, g, k, yychar, yychar);
      case Error =>
        ErrorIsSpent(S.G, g, c, k, action);
        Die(k, c);
        status, done, c' := Ok, true, c.(pending := c.pending - {k});
        AdvancedByKept(S.G.lalr, g, S.AsGraph(), k, yychar);
      case Reduce(r) =>
        ReduceDeferrable(S.G, g, c, k, r);
        c' := Deferring(S.G.lalr, g, c, k, r);
        PendingStays(c, k);
        status := Defer(k, r, c);
        done := false;
        if status == Ok {
          AdvancedByKept(S.G.lalr, g, S.AsGraph(), k, yychar);
        }
    }

    /** Stack k can be brought back should it be dead, and is ready if it is done. */
    ghost predicate Settled(k: int, done: bool)
      requires S.G.lalr.Ranges() && S.nextFree <= S.items.Length
      reads this, S, S.items
    {
      && 0 <= k < |S.tops|
      && (S.tops[k] == NULL ==> S.Restorable(posn)) && (done ==> Ready(S.G.lalr, S.AsGraph(), k, yychar))
    }

    /** What yyprocessOneStack does in a state that looks at the next token, once it is there:
        first the conflicting reductions, on copies; then the action. */
    method OnToken(k: nat, lr: nat, token: nat, fuel: nat, ghost c: Search)
      returns (status: Status, done: bool, ghost c': Search)
      requires InProgress(NULL) && k < |S.tops| && S.tops[k] != NULL && TopLr(S.AsGraph(), k) == lr
      requires yychar != EMPTY && token == Translate(S.G.lalr, yychar) < S.G.lalr.ntokens
      requires Covers(S.G, S.AsGraph(), posn, c) && k in c.pending && c.token == NextToken() == token
      requires lr < S.G.lalr.States() && !Defaulted(S.G.lalr, lr)
      requires S.splitPoint != NULL || FacesConflict(S.G, S.AsGraph(), k, yychar)
      modifies this`yychar, this`yylval, this`pos, S, S.items
      ensures S.items == old(S.items) || fresh(S.items)
      ensures status.Ok? || (status.Exhausted? && S.Full()) || status.OutOfFuel?
      ensures status == Ok ==>
        && InProgress(NULL) && S.splitPoint != NULL
        && Advanced(S.G.lalr, old(S.AsGraph()), S.AsGraph(), k, old(yychar), yychar)
        && Settled(k, done) && Tried(S.G, S.AsGraph().items, old(S.tops[k]), lr, yychar)
        && Covers(S.G, S.AsGraph(), posn, c') && GoesOn(c, c', Left(c, k, done)) && NextToken() == old(NextToken())
      decreases fuel, 3
    {
      hide GraphInv, AllFollow, Allowed, ValidTables, ValidGlr, Deterministic, AllGoing, Act, Translate, TopsDistinct,
        Advanced, Settled, ReducedChain, LrChain, Deferred, Recorded, Tried, SoundValues, GlrValues.Good, Covers,
        ConflictsSeen, GoesOn, MayReduce, AllOf, Defaulted, AllRecorded, Driver.AllAllowed;
      ghost var g, was := S.AsGraph(), yychar;
      TopFacts(S.G.lalr, g, k, posn, S.owner);
      done := false;
      if !recovered {
        LookaheadIs();
      }
      AllowsConflicts(lr, token);
      AllowsAction(lr, token);
      status, c' := SplitConflicts(k, S.G.conflicts(lr, token), fuel, c);
      if status == Ok {
        ghost var h, d := S.AsGraph(), c';
        AdvancedTop(S.G.lalr, g, h, k, was, yychar);
        SearchIs(c, d, c.pending);
        TopFacts(S.G.lalr, h, k, posn, S.owner);
        AdvancedChain(S.G.lalr, g, h, k, was, yychar);
        SeenConflicts(S.G, h, d, k, lr);
        if Act(S.G.lalr, lr, token).Shift? {
          ShiftReady(S.G.lalr, h, k, lr, yychar);
        }
        assert TopLr(h, k) == lr;
        status, done, c' := ActOn(k, Act(S.G.lalr, lr, token), d);
        if status == Ok {
          SearchThrough(c, d, c', Left(d, k, done));
          AdvancedAny(S.G.lalr, g, h, k, was, yychar);
          AdvancedTrans(S.G.lalr, g, h, S.AsGraph(), k, was, yychar, yychar);
          AllTried(S.G, h, S.AsGraph(), k, yychar, g.tops[k], lr);
        }
      }
    }

    /** The same, from before the token is read. */
    method LookAhead(k: nat, lr: nat, fuel: nat, ghost c: Search)
      returns (status: Status, done: bool, ghost c': Search)
      requires InProgress(NULL) && k < |S.tops| && S.tops[k] != NULL && TopLr(S.AsGraph(), k) == lr
      requires Covers(S.G, S.AsGraph(), posn, c) && k in c.pending && c.token == NextToken()
      requires lr < S.G.lalr.States() && !Defaulted(S.G.lalr, lr)
      requires S.splitPoint != NULL || FacesConflict(S.G, S.AsGraph(), k, yychar)
      modifies this`yychar, this`yylval, this`pos, S, S.items
      ensures S.items == old(S.items) || fresh(S.items)
      ensures status.Ok? || (status.Exhausted? && S.Full()) || status.OutOfFuel?
      ensures status == Ok ==>
        && InProgress(NULL) && S.splitPoint != NULL
        && Advanced(S.G.lalr, old(S.AsGraph()), S.AsGraph(), k, old(yychar), yychar)
        && Settled(k, done) && Tried(S.G, S.AsGraph().items, old(S.tops[k]), lr, yychar)
        && Covers(S.G, S.AsGraph(), posn, c') && GoesOn(c, c', Left(c, k, done)) && NextToken() == old(NextToken())
      decreases fuel, 4
    {
      hide GraphInv, AllFollow, Allowed, ValidTables, ValidGlr, Deterministic, AllGoing, Act, Translate, TopsDistinct,
        Advanced, Settled, Tried, Covers, GoesOn, Defaulted;
      ghost var g, was := S.AsGraph(), yychar;
      TopFacts(S.G.lalr, g, k, posn, S.owner);
      S.lookaheadNeeds := S.lookaheadNeeds[k := true];
      var token := ReadToken();
      AdvancedStart(S.G.lalr, g, k, was, yychar);
      ghost var y := yychar;
      status, done, c' := OnToken(k, lr, token, fuel, c);
      if status == Ok {
        AdvancedTrans(S.G.lalr, g, g, S.AsGraph(), k, was, y, yychar);
      }
    }

    lemma InProgressTop(k: nat)
      requires InProgress(NULL) && k < |S.tops| && S.tops[k] != NULL
      ensures S.G.lalr.Ranges() && ValidTables(S.G.lalr) && S.nextFree <= S.items.Length
      ensures 0 <= S.tops[k] < S.nextFree && S.items[S.tops[k]] == S.AsGraph().items[S.tops[k]]
      ensures S.items[S.tops[k]].State? && S.items[S.tops[k]].lr < S.G.lalr.States()
      ensures S.items[S.tops[k]].lr != S.G.lalr.final
    {
      hide GraphInv, ValidTables, Deterministic, AllGoing;
      TopFacts(S.G.lalr, S.AsGraph(), k, posn, S.owner);
    }

    /** What yyprocessOneStack does for one state on top of stack k. */
    method ProcessTop(k: nat, fuel: nat, ghost c: Search) returns (status: Status, done: bool, ghost c': Search)
      requires InProgress(NULL) && k < |S.tops| && S.tops[k] != NULL
      requires Covers(S.G, S.AsGraph(), posn, c) && k in c.pending && c.token == NextToken()
      requires S.splitPoint != NULL || FacesConflict(S.G, S.AsGraph(), k, yychar)
      modifies this`yychar, this`yylval, this`pos, S, S.items
      ensures S.items == old(S.items) || fresh(S.items)
      ensures status.Ok? || (status.Exhausted? && S.Full()) || status.OutOfFuel?
      ensures status == Ok ==>
        && InProgress(NULL) && S.splitPoint != NULL
        && Advanced(S.G.lalr, old(S.AsGraph()), S.AsGraph(), k, old(yychar), yychar)
        && Settled(k, done) && Tried(S.G, S.AsGraph().items, old(S.tops[k]), old(TopLr(S.AsGraph(), k)), yychar)
        && Covers(S.G, S.AsGraph(), posn, c') && GoesOn(c, c', Left(c, k, done)) && NextToken() == old(NextToken())
      decreases fuel, 5
    {
      hide GraphInv, AllFollow, Allowed, ValidTables, ValidGlr, Deterministic, AllGoing, TopsDistinct, Advanced,
        Settled, FacesConflict, Defaulted, DefaultAction, Act, Deferred, Tried, Covers, ConflictsSeen, GoesOn,
        ReducedChain, LrChain;
      InProgressTop(k);
      var lr := S.items[S.tops[k]].lr;
      if !Defaulted(S.G.lalr, lr) {
        status, done, c' := LookAhead(k, lr, fuel, c);
        return;
      }
      AllowsDefault(lr);
      FacesNot(S.G, S.AsGraph(), k, yychar);
      var action := DefaultAction(S.G.lalr, lr);
      TopFacts(S.G.lalr, S.AsGraph(), k, posn, S.owner);
      SeenConflicts(S.G, S.AsGraph(), c, k, lr);
      DefaultActs(S.G.lalr, lr, c.token);
      status, done, c' := ActOn(k, action, c);
      if status == Ok {
        DefaultTried(S.G, S.AsGraph(), yychar, old(S.tops[k]), lr);
      }
    }

    /** yyprocessOneStack. */
    method ProcessOneStack(k: nat, fuel: nat, ghost c: Search) returns (status: Status, ghost c': Search)
      requires InProgress(NULL) && k < |S.tops|
      requires Covers(S.G, S.AsGraph(), posn, c) && k in c.pending && c.token == NextToken()
      requires S.splitPoint != NULL || FacesConflict(S.G, S.AsGraph(), k, yychar)
      modifies this`yychar, this`yylval, this`pos, S, S.items
      ensures S.items == old(S.items) || fresh(S.items)
      ensures status.Ok? || (status.Exhausted? && S.Full()) || status.OutOfFuel?
      ensures status == Ok ==>
        && InProgress(NULL) && S.splitPoint != NULL
        && Advanced(S.G.lalr, old(S.AsGraph()), S.AsGraph(), k, old(yychar), yychar)
        && Ready(S.G.lalr, S.AsGraph(), k, yychar)
        && (if old(S.tops)[k] == NULL then unchanged(S) && unchanged(this) && unchanged(S.items) else Settled(k, true))
        && Covers(S.G, S.AsGraph(), posn, c') && GoesOn(c, c', c.pending - {k}) && NextToken() == old(NextToken())
      decreases fuel, 0
    {
      hide GraphInv, AllFollow, Allowed, ValidTables, ValidGlr, Deterministic, Ready, AllGoing, Advanced, Covers,
        GoesOn;
      ghost var g, was := S.AsGraph(), yychar;
      AdvancedStart(S.G.lalr, g, k, yychar, yychar);
      SearchStays(S.G.lalr, c, [], []);
      if S.tops[k] == NULL {
        DeadReady(S.G.lalr, g, k, yychar);
        c' := Dropped(S.G, g, posn, c, c, k);
        return Ok, c';
      }
      c' := c;
      var left, done := fuel, false;
      while !done && S.tops[k] != NULL
        invariant S.items == old(S.items) || fresh(S.items)
        invariant InProgress(NULL) && Advanced(S.G.lalr, g, S.AsGraph(), k, was, yychar)
        invariant S.splitPoint != NULL || FacesConflict(S.G, S.AsGraph(), k, yychar)
        invariant k < |S.tops| && (S.splitPoint == NULL ==> S.tops[k] != NULL && !done)
        invariant S.splitPoint != NULL ==> S.tops[k] != NULL || S.Restorable(posn)
        invariant done ==> Ready(S.G.lalr, S.AsGraph(), k, yychar)
        invariant Covers(S.G, S.AsGraph(), posn, c') && GoesOn(c, c', Left(c, k, done))
        invariant NextToken() == old(NextToken())
        decreases left
      {
        if left == 0 {
          return OutOfFuel, c';
        }
        left := left - 1;
        ghost var h, y, d := S.AsGraph(), yychar, c';
        LeftIs(c, d, k, false);
        status, done, c' := ProcessTop(k, left, d);
        if status != Ok {
          return;
        }
        LeftThrough(c, d, c', k, done);
        AdvancedTrans(S.G.lalr, g, h, S.AsGraph(), k, was, y, yychar);
      }
      if S.tops[k] == NULL {
        DeadReady(S.G.lalr, S.AsGraph(), k, yychar);
        if !done {
          c' := Dropped(S.G, S.AsGraph(), posn, c, c', k);
        }
      }
      status := Ok;
    }

    /** yyprocessOneStack on every stack, the new ones included. */
    method ProcessAll(fuel: nat) returns (status: Status)
      requires InProgress(NULL) && |S.tops| > 0 && S.tops[0] != NULL && NoneYoung(S.AsGraph(), posn)
      requires S.splitPoint != NULL || FacesConflict(S.G, S.AsGraph(), 0, yychar)
      modifies this`yychar, this`yylval, this`pos, S, S.items
      ensures S.items == old(S.items) || fresh(S.items)
      ensures status.Ok? || (status.Exhausted? && S.Full()) || status.OutOfFuel?
      ensures status == Ok ==>
        && InProgress(NULL) && S.splitPoint != NULL && AllReady(S.G.lalr, S.AsGraph(), 0, |S.tops|, yychar)
        && (AnyLive(S.AsGraph(), |S.tops|) || S.Restorable(posn))
        && Reached(S.G, old(Chains(S.AsGraph())), S.AsGraph(), NextToken()) && NextToken() == old(NextToken())
    {
      hide GraphInv, AllFollow, ValidTables, ValidGlr, Deterministic, AllReady, FacesConflict, AllGoing, AnyLive,
        TopsDistinct, SoundValues, GlrValues.Good, DoneTo, Reached, Chains, NoneYoung;
      ghost var from := Chains(S.AsGraph());
      ghost var c := NoneDone(S.G, S.AsGraph(), posn, NextToken());
      NoneReady(S.G.lalr, S.AsGraph(), yychar);
      var yys, left := 0, fuel;
      while yys < |S.tops|
        invariant 0 <= yys <= |S.tops| && |S.tops| > 0 && (S.items == old(S.items) || fresh(S.items))
        invariant InProgress(NULL) && AllReady(S.G.lalr, S.AsGraph(), 0, yys, yychar)
        invariant yys == 0 ==>
          S.tops[0] != NULL && (S.splitPoint != NULL || FacesConflict(S.G, S.AsGraph(), 0, yychar))
        invariant yys > 0 ==> S.splitPoint != NULL && (AnyLive(S.AsGraph(), yys) || S.Restorable(posn))
        invariant DoneTo(S.G, S.AsGraph(), posn, from, NextToken(), yys, c) && NextToken() == old(NextToken())
        decreases left
      {
        if left == 0 {
          return OutOfFuel;
        }
        left := left - 1;
        status, c := ProcessNext(yys, left, from, c);
        if status != Ok {
          return;
        }
        yys := yys + 1;
      }
      AllDone(S.G, S.AsGraph(), posn, from, NextToken(), c);
      status := Ok;
    }

    /** One step of ProcessAll. */
    method ProcessNext(k: nat, fuel: nat, ghost from: iset<seq<nat>>, ghost c: Search)
      returns (status: Status, ghost c': Search)
      requires InProgress(NULL) && k < |S.tops| && AllReady(S.G.lalr, S.AsGraph(), 0, k, yychar)
      requires DoneTo(S.G, S.AsGraph(), posn, from, NextToken(), k, c)
      requires S.splitPoint != NULL || FacesConflict(S.G, S.AsGraph(), k, yychar)
      requires if k == 0 then S.tops[0] != NULL else AnyLive(S.AsGraph(), k) || S.Restorable(posn)
      modifies this`yychar, this`yylval, this`pos, S, S.items
      ensures S.items == old(S.items) || fresh(S.items)
      ensures status.Ok? || (status.Exhausted? && S.Full()) || status.OutOfFuel?
      ensures status == Ok ==>
        && InProgress(NULL) && S.splitPoint != NULL && k < |S.tops|
        && AllReady(S.G.lalr, S.AsGraph(), 0, k + 1, yychar)
        && (AnyLive(S.AsGraph(), k + 1) || S.Restorable(posn))
        && DoneTo(S.G, S.AsGraph(), posn, from, NextToken(), k + 1, c') && NextToken() == old(NextToken())
    {
      hide GraphInv, AllFollow, Allowed, ValidTables, ValidGlr, Deterministic, Ready, AllReady, AllGoing, AnyLive,
        TopsDistinct, FacesConflict, DoneTo, Covers, GoesOn;
      ghost var g, was, live := S.AsGraph(), yychar, S.tops[k] != NULL;
      DoneIs(S.G, g, posn, from, NextToken(), k, c);
      status, c' := ProcessOneStack(k, fuel, c);
      if status == Ok {
        ghost var h := S.AsGraph();
        c' := OneMoreDone(S.G, g, h, posn, from, NextToken(), k, c, c');
        AdvancedKept(S.G.lalr, g, h, k, was, yychar);
        MoreReady(S.G.lalr, g, h, k, was, yychar);
        if S.tops[k] != NULL || AnyLive(g, k) {
          MoreLive(g, h, k);
        }
      }
    }

    /** Every stack is alive and about to shift `token`. */
    ghost predicate ShiftNext(g: GlrGraph.Graph, token: nat, at: nat)
      requires S.G.lalr.Ranges()
    {
      && AllCurrent(g, at) && TopsDistinct(g.tops, NULL)
      && (forall a {:trigger g.tops[a]} | 0 <= a < |g.tops| ::
            && 0 <= g.tops[a] < |g.items| && g.items[g.tops[a]].State? && g.items[g.tops[a]].lr < S.G.lalr.States()
            && g.items[g.tops[a]].lr != S.G.lalr.final && Act(S.G.lalr, g.items[g.tops[a]].lr, token).Shift?)
    }

    /** The shift loop of yyparse: every action is a shift, and no state made is there already. */
    method ShiftAll(token: nat, ghost at: nat) returns (status: Status)
      requires Valid() && token < S.G.lalr.ntokens && posn == at + 1 && ShiftNext(S.AsGraph(), token, at)
      requires !recovered ==> Sound(S.AsGraph().items) && TakesNext(token, at)
      modifies S, S.items
      ensures S.items == old(S.items) || fresh(S.items)
      ensures status.Ok? || (status.Exhausted? && S.Full())
      ensures status == Ok ==>
        Valid() && Shifted(S.G.lalr, old(S.AsGraph()), S.AsGraph(), |S.tops|, token, posn)
        && (!recovered ==> Sound(S.AsGraph().items))
    {
      hide GraphInv, ValidTables, ValidGlr, Deterministic, ShiftNext, Shifted, SoundValues, TakesNext;
      ghost var g0 := S.AsGraph();
      ShiftStart(S.G.lalr, g0, token, posn);
      var k := 0;
      while k < |S.tops|
        invariant 0 <= k <= |S.tops| == |g0.tops| && (S.items == old(S.items) || fresh(S.items))
        invariant Valid() && Shifted(S.G.lalr, g0, S.AsGraph(), k, token, posn)
        invariant !recovered ==> Sound(S.AsGraph().items)
      {
        status := ShiftOn(k, token, at, g0);
        if status != Ok {
          return;
        }
        k := k + 1;
      }
      status := Ok;
    }

    /** The token, and its value, are the next of the input. */
    ghost predicate TakesNext(token: nat, at: nat)
      requires S.G.lalr.Ranges()
      reads this`yylval
    {
      token == TokenAt(S.G.lalr, input, at) && yylval == lexval(at)
    }

    /** The shift on stack k. */
    method ShiftOn(k: nat, token: nat, ghost at: nat, ghost g0: GlrGraph.Graph) returns (status: Status)
      requires Valid() && token < S.G.lalr.ntokens && posn == at + 1 && ShiftNext(g0, token, at)
      requires k < |S.tops| && Shifted(S.G.lalr, g0, S.AsGraph(), k, token, posn)
      requires !recovered ==> Sound(S.AsGraph().items) && TakesNext(token, at)
      modifies S, S.items
      ensures S.items == old(S.items) || fresh(S.items)
      ensures status.Ok? || (status.Exhausted? && S.Full())
      ensures status == Ok ==>
        Valid() && |S.tops| == |old(S.tops)| && Shifted(S.G.lalr, g0, S.AsGraph(), k + 1, token, posn)
        && (!recovered ==> Sound(S.AsGraph().items))
    {
      hide GraphInv, ValidTables, ValidGlr, Deterministic, ShiftNext, Shifted, EdgesOk, NoSuchState, Act, SoundValues,
        TokenAt, GlrValues.Good;
      ghost var g := S.AsGraph();
      NextToShift(g0, g, k, token, at);
      assert S.items[S.tops[k]] == g.items[g.tops[k]];
      var lr := S.items[S.tops[k]].lr;
      var to := Act(S.G.lalr, lr, token).to;
      ActIsOk(S.G.lalr, lr, token);
      ShiftIsNew(S.G.lalr, g0, g, k, token, at, to);
      PushInv(S.G.lalr, g, k, token, to, posn, yylval, S.owner);
      ShiftOne(S.G.lalr, g0, g, k, token, posn, to, yylval);
      if !recovered {
        SoundShift(E, input, lexval, g, k, to, at, S.owner);
      }
      status := S.Shift(k, to, posn, yylval);
    }

    lemma NextToShift(g0: GlrGraph.Graph, g: GlrGraph.Graph, k: nat, token: nat, at: nat)
      requires S.G.lalr.Ranges() && ShiftNext(g0, token, at) && k < |g.tops|
      requires Shifted(S.G.lalr, g0, g, k, token, at + 1) && GraphInv(S.G.lalr, g, S.owner)
      ensures g.tops[k] == g0.tops[k] && 0 <= g.tops[k] < |g0.items| <= |g.items| && g0.items[g.tops[k]].State?
      ensures g.items[g.tops[k]] == g0.items[g.tops[k]] && g.items[g.tops[k]].posn == at
      ensures g.items[g.tops[k]].lr < S.G.lalr.States() && g.items[g.tops[k]].lr != S.G.lalr.final
      ensures Act(S.G.lalr, g.items[g.tops[k]].lr, token).Shift?
      ensures Positions(g.items) && TopsDistinct(g0.tops, NULL) && AllCurrent(g0, at) && g0.tops[k] != NULL
    {
      hide Links, Positions, Automaton, Unique, Derivations, Act, LiveOwned, Outgrown, Forest;
      assert Current(g0, k, at);
    }

    // -------------------------------------------------------------- resolving values

    /** The n-th action, that of the rule, ends the parse or raises an error, for some values of
        the right-hand side. */
    ghost predicate ActionSays(n: nat, rule: nat, status: Status)
    {
      exists vals {:trigger E.act(n, rule, vals)} :: match E.act(n, rule, vals).tag
        case YyOk => false
        case YyAbort => status == Abort
        case YyAccept => status == ActionAccept
        case YyErr => status == UserError
    }

    /** Why the parser stops, but for errors in the input: the user's actions say so, the values of
        an ambiguous stretch cannot be resolved, or there is no memory left. */
    ghost predicate Reasoned(status: Status)
      reads S`nextFree
    {
      match status
      case Exhausted => S.Full()
      case Abort => !GlrValues.Calm(E)
      case ActionAccept => GlrValues.SomeAction(E, GlrValues.YyAccept)
      case DeferredError => GlrValues.SomeAction(E, GlrValues.YyErr)
      case _ => true
    }

    lemma SaidIsReasoned(n: nat, rule: nat, status: Status)
      requires ActionSays(n, rule, status)
      ensures Reasoned(status)
      ensures status == UserError ==> GlrValues.SomeAction(E, GlrValues.YyErr)
    {
      hide GlrValues.Unambiguous;
    }

    /** yyuserAction, and what its result means to the parser. */
    method RunAction(rule: nat, vals: seq<int>) returns (status: Status, val: int)
      modifies this`log
      ensures status.Ok? || status.Abort? || status.ActionAccept? || status.UserError?
      ensures log == old(log) + [rule]
      ensures status == Ok ==> E.act(|old(log)|, rule, vals).tag == GlrValues.YyOk
      ensures status == Ok ==> val == E.act(|old(log)|, rule, vals).val
      ensures status != Ok ==> ActionSays(|old(log)|, rule, status)
    {
      var result := E.act(|log|, rule, vals);
      log, val := log + [rule], result.val;
      match result.tag
      case YyOk => status := Ok;
      case YyAbort => status := Abort;
      case YyAccept => status := ActionAccept;
      case YyErr => status := UserError;
    }

    lemma CountAbove(g: GlrGraph.Graph, s: int)
      requires Links(g) && g.split != NULL && g.split <= s < |g.items| && g.items[s].State?
      ensures 0 <= g.split && (s == g.split ==> Above(g.items, g.split, s) == [])
      ensures s > g.split ==>
        && GlrGraph.Step(g.items, s) && g.split <= g.items[s].pred && g.items[g.items[s].pred].State?
        && |Above(g.items, g.split, s)| == |Above(g.items, g.split, g.items[s].pred)| + 1
    {
      AboveCount(g, s);
    }

    lemma LooseTop(g: GlrGraph.Graph)
      requires S.G.lalr.Ranges() && GraphLoose(S.G.lalr, g)
      requires g.split != NULL && |g.tops| == 1 && g.tops[0] != NULL
      ensures 0 <= g.split <= g.tops[0] < |g.items| && g.items[g.tops[0]].State? && Links(g)
    {
      hide Positions, Automaton, Forest;
    }

    /** yyresolveStack: every state of the one stack gets its value. */
    method ResolveStack() returns (status: Status)
      requires LooselyValid() && |S.tops| == 1 && S.tops[0] != NULL && S.splitPoint != NULL
      requires Current(S.AsGraph(), 0, posn)
      modifies this`log, S`owner, S.items
      ensures status.Ok? || status.Abort? || status.ActionAccept? || status.DeferredError?
      ensures old(log) <= log && Reasoned(status)
      ensures status == Ok ==>
        && Valid() && Single(S.AsGraph(), posn)
        && LrChain(S.AsGraph().items, S.tops[0]) == old(LrChain(S.AsGraph().items, S.tops[0]))
        && TopLr(S.AsGraph(), 0) == old(S.AsGraph()).items[S.tops[0]].lr
        && (old(Sound(S.AsGraph().items)) ==> Sound(S.AsGraph().items))
    {
      hide GraphInv, GraphLoose, ValidTables, ValidGlr, Deterministic, GlrValues.Good, GlrValues.Ready,
        GlrValues.Stretch, GlrValues.Valued, GlrValues.Progress, GlrValues.Calm, GlrValues.SomeAction, SoundValues,
        LrChain, Above, Links, GlrOptions.SameBones, ResolvedAbove;
      ghost var g := S.AsGraph();
      LooseTop(g);
      var n, s := 0, S.tops[0];
      while s != S.splitPoint
        invariant S.splitPoint <= s < S.nextFree && g.items[s].State?
        invariant n + |Above(g.items, g.split, s)| == |Above(g.items, g.split, g.tops[0])|
        modifies {}
        decreases s
      {
        CountAbove(g, s);
        assert S.items[s] == g.items[s];
        n, s := n + 1, S.items[s].pred;
      }
      CountAbove(g, s);
      CanResolve(E, g, n, posn);
      assert S.items[..S.nextFree] == g.items;
      var tag;
      tag, log := GlrValues.ResolveStates(E, RankOf(E.T), S.items, S.nextFree, g.items, S.tops[0], n, log,
        Key(0, 0, posn + 1));
      S.owner := map[];
      match tag
      case YyOk =>
        status := Ok;
        assert S.AsGraph() == g.(items := S.AsGraph().items);
        StackResolved(g, S.AsGraph().items, n, posn);
      case YyAbort => status := Abort;
      case YyAccept => status := ActionAccept;
      case YyErr => status := DeferredError;
    }

    lemma StackResolved(g: GlrGraph.Graph, items': seq<Item>, n: nat, at: nat)
      requires Configured() && GraphLoose(E.T, g) && Current(g, 0, at)
      requires |g.tops| == 1 && g.split != NULL && g.tops[0] != NULL && n == |Above(g.items, g.split, g.tops[0])|
      requires GlrValues.Ready(E, RankOf(E.T), g.items, items') && GlrValues.Valued(g.items, items', g.tops[0], n)
      requires GlrValues.Progress(E, g.items, Below(RankOf(E.T), Key(0, 0, at + 1)), g.items, items')
      ensures GraphInv(E.T, g.(items := items'), map[]) && Single(g.(items := items'), at)
      ensures LrChain(items', g.tops[0]) == LrChain(g.items, g.tops[0])
      ensures items'[g.tops[0]].lr == g.items[g.tops[0]].lr
      ensures Sound(g.items) ==> Sound(items')
    {
      hide GraphInv, GraphLoose, ValidTables, ValidGlr, Deterministic, GlrValues.Good, GlrValues.Valued, Skeleton,
        SoundValues, LrChain, Above, GlrOptions.AllFit, GlrOptions.Tidy, GlrOptions.NoneEmpty, GlrValues.Compatible,
        Less, KeyOf, ResolvedAbove;
      ResolvedInv(E.T, g, items', n);
      if Sound(g.items) {
        SoundResolved(E, input, lexval, Below(RankOf(E.T), Key(0, 0, at + 1)), g.items, items');
      }
    }

    // -------------------------------------------------------------- a round

    /** yyremoveDeletes after processing: what is left can shift the lookahead; if nothing
        is left, the stack deleted last can be brought back. */
    method Prune()
      requires InProgress(NULL) && S.splitPoint != NULL && AllReady(S.G.lalr, S.AsGraph(), 0, |S.tops|, yychar)
      requires AnyLive(S.AsGraph(), |S.tops|) || S.Restorable(posn)
      modifies S`tops, S`lookaheadNeeds
      ensures Valid() && Faithful() && S.tops == Survivors(old(S.tops))
      ensures S.AsGraph() == old(S.AsGraph()).(tops := Survivors(old(S.tops)))
      ensures S.tops == [] ==> S.Restorable(posn)
      ensures S.tops != [] ==> yychar != EMPTY && ShiftNext(S.AsGraph(), Translate(S.G.lalr, yychar), posn)
    {
      hide GraphInv, ValidTables, ValidGlr, Deterministic, AllReady, AllGoing, TopsDistinct, AnyLive, ShiftNext,
        AllFollow, SoundValues, GlrValues.Good, Survivors;
      ghost var g := S.AsGraph();
      SurvivorsInv(S.G.lalr, g, S.owner);
      if !recovered {
        SurvivorsFollow(S.G, input, g, posn);
      }
      PruneLemma(g);
      if Survivors(g.tops) == [] {
        NoneLive(g, |g.tops|);
      }
      S.RemoveDeletes();
      assert S.AsGraph() == g.(tops := Survivors(g.tops));
    }

    lemma PruneLemma(g: GlrGraph.Graph)
      requires S.G.lalr.Ranges() && AllGoing(S.G.lalr, g, posn) && AllReady(S.G.lalr, g, 0, |g.tops|, yychar)
      requires TopsDistinct(g.tops, NULL)
      ensures var h := g.(tops := Survivors(g.tops));
        h.tops != [] ==> yychar != EMPTY && ShiftNext(h, Translate(S.G.lalr, yychar), posn)
    {
      hide Act, Translate, Ready, AllReady, AllGoing, Survivors;
      var h := g.(tops := Survivors(g.tops));
      SurvivorsReady(S.G.lalr, g, posn, yychar);
      SurvivorsDistinct(g.tops);
      GoingCurrent(S.G.lalr, h, posn);
      forall a {:trigger h.tops[a]} | 0 <= a < |h.tops|
        ensures 0 <= h.tops[a] < |h.items| && h.items[h.tops[a]].State? && h.items[h.tops[a]].lr < S.G.lalr.States()
        ensures h.items[h.tops[a]].lr != S.G.lalr.final && yychar != EMPTY
        ensures Act(S.G.lalr, h.items[h.tops[a]].lr, Translate(S.G.lalr, yychar)).Shift?
      {
        ReadyToShift(S.G.lalr, h, a, posn, yychar);
      }
      if h.tops != [] {
        ReadyToShift(S.G.lalr, h, 0, posn, yychar);
      }
    }

    /** yyreportSyntaxError. */
    method Report()
      modifies this`nerrs
      ensures nerrs == old(nerrs) + if errState == 0 then 1 else 0
    {
      if errState == 0 {
        nerrs := nerrs + 1;
      }
    }

    /** All stacks have died: go on with the last of them, on which the error is reported. */
    method GiveUp() returns (status: Status)
      requires Valid() && S.tops == [] && S.splitPoint != NULL && S.Restorable(posn)
      modifies this`log, this`nerrs, S`tops, S`lastDeleted, S`lookaheadNeeds, S`owner, S.items
      ensures status.UserError? || status.Abort? || status.ActionAccept? || status.DeferredError?
      ensures status == UserError ==> Valid() && Single(S.AsGraph(), posn) && NotFinal(S.AsGraph())
      ensures Reasoned(status)
      ensures nerrs == old(nerrs) + if status == UserError && errState == 0 then 1 else 0
      ensures status == UserError ==> TopLr(S.AsGraph(), 0) == old(S.items[S.lastDeleted].lr)
    {
      hide GlrValues.Calm, GlrValues.SomeAction, GraphInv, GraphLoose, ValidTables, ValidGlr, Deterministic,
        GlrValues.Good, ResolvedAbove, SoundValues, LrChain;
      S.UndeleteLastStack(posn);
      status := ResolveStack();
      if status == Ok {
        Report();
        status := UserError;
      }
    }

    /** Shift the lookahead on all stacks; when there is one only, return to deterministic
        parsing. */
    method ShiftRound(ghost from: iset<seq<nat>>) returns (status: Status, alone: bool)
      requires Valid() && Faithful() && S.splitPoint != NULL && S.tops != [] && yychar != EMPTY
      requires Reached(S.G, from, S.AsGraph(), Translate(S.G.lalr, yychar))
      requires ShiftNext(S.AsGraph(), Translate(S.G.lalr, yychar), posn)
      modifies this`yychar, this`posn, this`log, S, S.items
      ensures S.items == old(S.items) || fresh(S.items)
      ensures !status.Accept? && !status.UserError?
      ensures status == Ok && alone ==> Valid() && Faithful() && Single(S.AsGraph(), posn) && S.splitPoint == NULL
      ensures status == Ok && !alone ==> InProgress(NULL) && |S.tops| > 1 && S.tops[0] != NULL && S.splitPoint != NULL
      ensures status == Ok && !alone ==> NoneYoung(S.AsGraph(), posn)
      ensures status == Ok ==>
        posn == old(posn) + 1 && Chains(S.AsGraph()) == Moved(S.G, from, old(Translate(S.G.lalr, yychar)))
      ensures Reasoned(status)
    {
      hide GlrValues.Calm, GlrValues.SomeAction, GraphInv, ValidTables, ValidGlr, Deterministic, ShiftNext, Shifted,
        AllFollow, TokenAt, SoundValues, GlrValues.Good, AllGoing, EdgesOk, Reached, Chains, Moved, NoneYoung, LrChain,
        TopsDistinct, ResolvedAbove, AddState, OnTop, Positions, Links;
      ghost var g, at, owner := S.AsGraph(), posn, S.owner;
      var token := Translate(S.G.lalr, yychar);
      if !recovered {
        LookaheadIs();
      }
      yychar := EMPTY;
      posn := posn + 1;
      alone := false;
      status := ShiftAll(token, at);
      if status == Ok {
        AfterShift(g, S.AsGraph(), token, at, owner);
        ShiftedOn(g, S.AsGraph(), from, token, at, owner);
        alone := |S.tops| == 1;
        if alone {
          status := ReturnToOne();
        }
      }
    }

    lemma StacksByShift(g: GlrGraph.Graph, h: GlrGraph.Graph, token: nat, at: nat, owner: map<int, int>)
      requires ValidTables(S.G.lalr) && GraphInv(S.G.lalr, g, owner)
      requires Shifted(S.G.lalr, g, h, |h.tops|, token, at + 1)
      ensures |h.tops| == |g.tops|
      ensures forall a {:trigger h.tops[a]} {:trigger g.tops[a]} | 0 <= a < |h.tops| ::
        && g.tops[a] != NULL && h.tops[a] != NULL
        && ByShift(S.G, LrChain(g.items, g.tops[a]), LrChain(h.items, h.tops[a]), token)
    {
      hide Act, GraphInv, ByShift, ActionOk, EdgesOk, FinalOk;
      InvIs(S.G.lalr, g, owner);
      forall a {:trigger h.tops[a]} {:trigger g.tops[a]} | 0 <= a < |h.tops|
        ensures g.tops[a] != NULL && h.tops[a] != NULL
        ensures ByShift(S.G, LrChain(g.items, g.tops[a]), LrChain(h.items, h.tops[a]), token)
      {
        assert ShiftedTop(S.G.lalr, g, h, a, token, at + 1);
        OneByShift(S.G, g, h, a, token, at + 1);
      }
    }

    /** The stacks are where the automaton moves to. */
    lemma ShiftedOn(g: GlrGraph.Graph, h: GlrGraph.Graph, from: iset<seq<nat>>, token: nat, at: nat,
                    owner: map<int, int>)
      requires ValidTables(S.G.lalr) && GraphInv(S.G.lalr, g, owner) && GraphInv(S.G.lalr, h, S.owner)
      requires ShiftNext(g, token, at) && Shifted(S.G.lalr, g, h, |h.tops|, token, at + 1)
      requires Reached(S.G, from, g, token)
      ensures NoneYoung(h, at + 1) && Chains(h) == Moved(S.G, from, token)
      ensures AllFollow(S.G, input, g, at) && token == TokenAt(S.G.lalr, input, at) ==> AllFollow(S.G, input, h, at + 1)
    {
      hide Act, GraphInv, ActionOk, EdgesOk, FinalOk, Shifted, AllFollow, TokenAt, Reached, Chains, Moved, NoneYoung,
        LrChain, Positions, Links, Automaton, ByShift, AllCurrent;
      InvIs(S.G.lalr, h, S.owner);
      ShiftedNotYoung(S.G.lalr, g, h, token, at);
      StacksByShift(g, h, token, at, owner);
      AllMoved(S.G, from, g, h, token);
      if AllFollow(S.G, input, g, at) && token == TokenAt(S.G.lalr, input, at) {
        ShiftedFollow(S.G, input, g, h, at);
      }
    }

    lemma AfterShift(g: GlrGraph.Graph, h: GlrGraph.Graph, token: nat, at: nat, owner: map<int, int>)
      requires S.G.lalr.Ranges() && ValidTables(S.G.lalr) && Deterministic(S.G.lalr)
      requires GraphInv(S.G.lalr, g, owner)
      requires ShiftNext(g, token, at) && Shifted(S.G.lalr, g, h, |h.tops|, token, at + 1)
      ensures |h.tops| == |g.tops| && h.split == g.split && TopsDistinct(h.tops, NULL)
      ensures forall a {:trigger h.tops[a]} | 0 <= a < |h.tops| :: h.tops[a] != NULL && Current(h, a, at + 1)
      ensures |h.tops| > 1 ==> AllGoing(S.G.lalr, h, at + 1)
    {
      hide GraphInv, ValidTables, Deterministic, Act;
      ShiftedDistinct(S.G.lalr, g, h, token, at + 1);
      forall a {:trigger h.tops[a]} | 0 <= a < |h.tops|
        ensures h.tops[a] != NULL && Current(h, a, at + 1)
      {
        assert ShiftedTop(S.G.lalr, g, h, a, token, at + 1);
      }
      if |h.tops| > 1 {
        forall a {:trigger g.tops[a]} | 0 <= a < |g.tops|
          ensures g.tops[a] != NULL && Current(g, a, at)
        {
          assert Current(g, a, at);
        }
        ShiftedGoing(S.G.lalr, g, h, at, owner, token);
      }
    }

    /** One stack is left: its values are resolved, and it is compressed. */
    method ReturnToOne() returns (status: Status)
      requires Valid() && Faithful() && |S.tops| == 1 && S.tops[0] != NULL && S.splitPoint != NULL
        && Current(S.AsGraph(), 0, posn)
      modifies this`log, S, S.items
      ensures S.items == old(S.items)
      ensures status.Ok? || status.Abort? || status.ActionAccept? || status.DeferredError?
      ensures status == Ok ==> Valid() && Faithful() && Single(S.AsGraph(), posn) && S.splitPoint == NULL
      ensures status == Ok ==> Chains(S.AsGraph()) == old(Chains(S.AsGraph()))
      ensures Reasoned(status)
    {
      hide GlrValues.Calm, GlrValues.SomeAction, GraphInv, GraphLoose, ValidTables, ValidGlr, Deterministic, AllFollow,
        SoundValues, GlrValues.Good, LrChain, Chains;
      ghost var g := S.AsGraph();
      OneChain(g);
      InvIsLoose(S.G.lalr, g, S.owner);
      status := ResolveStack();
      if status == Ok {
        ghost var h := S.AsGraph();
        CompressOne(posn);
        OneChain(S.AsGraph());
        if !recovered {
          SameChainFollow(S.G, input, g, S.AsGraph(), posn);
        }
      }
    }

    /** yycompressStack on a stack with all its values. */
    method CompressOne(ghost at: nat)
      requires Valid() && Single(S.AsGraph(), at)
      modifies S, S.items
      ensures S.items == old(S.items) && Valid() && Single(S.AsGraph(), at) && S.splitPoint == NULL
      ensures TopLr(S.AsGraph(), 0) == old(TopLr(S.AsGraph(), 0))
      ensures old(S.splitPoint) != NULL ==>
        var g := old(S.AsGraph());
        Contents(S.AsGraph().items, S.tops[0]) == Contents(g.items, g.tops[0])
      ensures LrChain(S.AsGraph().items, S.tops[0]) == old(LrChain(S.AsGraph().items, S.tops[0]))
      ensures old(Sound(S.AsGraph().items)) ==> Sound(S.AsGraph().items)
    {
      hide GraphInv, ValidTables, ValidGlr, Deterministic, Above, Compressible, Contents, ResolvedAbove, LrChain,
        SoundValues, GlrValues.Good;
      ghost var g := S.AsGraph();
      if S.splitPoint != NULL {
        OneCompresses(g, at);
      }
      Compress(S);
    }

    lemma OneCompresses(g: GlrGraph.Graph, at: nat)
      requires Configured() && GraphInv(S.G.lalr, g, S.owner) && Single(g, at) && g.split != NULL
      ensures var c := Above(g.items, g.split, g.tops[0]);
        && Compressible(g, c) && GraphInv(S.G.lalr, Compressed(g, c), map[]) && Single(Compressed(g, c), at)
        && Compressed(g, c).split == NULL
        && Compressed(g, c).items[Compressed(g, c).tops[0]].lr == g.items[g.tops[0]].lr
        && Contents(Compressed(g, c).items, Compressed(g, c).tops[0]) == Contents(g.items, g.tops[0])
        && LrChain(Compressed(g, c).items, Compressed(g, c).tops[0]) == LrChain(g.items, g.tops[0])
        && (Sound(g.items) ==> Sound(Compressed(g, c).items))
    {
      hide Links, Positions, Automaton, Unique, Derivations, Above, Compressed, Contents, ResolvedAbove, Chain, Forest,
        LiveOwned, SoundValues, ValidTables, ValidGlr, Deterministic, GlrValues.Good, Outgrown;
      var c := Above(g.items, g.split, g.tops[0]);
      SingleCompressible(g, at);
      CompressedSingle(g, at);
      CompressedInv(S.G.lalr, g, c, S.owner);
      CompressKeepsStack(g, c);
      if Sound(g.items) {
        SoundCompressed(E, input, lexval, g, c);
      }
    }

    /** yytops.yylookaheadNeeds: every stack takes the lookahead to be needed, if there is one. */
    method NoteLookahead()
      requires InProgress(NULL)
      modifies S`lookaheadNeeds
      ensures InProgress(NULL) && S.AsGraph() == old(S.AsGraph())
    {
      hide GraphInv, ValidTables, ValidGlr, Deterministic, AllGoing, AllFollow, SoundValues, GlrValues.Good,
        TopsDistinct;
      var known := yychar != EMPTY;
      S.lookaheadNeeds := seq(|S.tops|, _ => known);
    }

    /** One round of nondeterministic parsing. */
    method Round(fuel: nat) returns (status: Status, alone: bool)
      requires InProgress(NULL) && |S.tops| > 0 && S.tops[0] != NULL && NoneYoung(S.AsGraph(), posn)
      requires S.splitPoint != NULL || FacesConflict(S.G, S.AsGraph(), 0, yychar)
      modifies this`yychar, this`yylval, this`pos, this`log, this`posn, this`errState, this`nerrs, S, S.items
      ensures S.items == old(S.items) || fresh(S.items)
      ensures !status.Accept? && errState == old(errState)
      ensures status == Ok && alone ==> Valid() && Faithful() && Single(S.AsGraph(), posn) && S.splitPoint == NULL
      ensures status == Ok && !alone ==> InProgress(NULL) && |S.tops| > 1 && S.tops[0] != NULL && S.splitPoint != NULL
      ensures status == UserError ==> Valid() && Single(S.AsGraph(), posn) && NotFinal(S.AsGraph())
      ensures status == Ok && !alone ==> NoneYoung(S.AsGraph(), posn)
      ensures status == Ok ==>
        posn == old(posn) + 1 && Chains(S.AsGraph()) == Moved(S.G, old(Chains(S.AsGraph())), old(NextToken()))
      ensures status == UserError ==> Moved(S.G, old(Chains(S.AsGraph())), old(NextToken())) == iset{}
      ensures Reasoned(status)
      ensures nerrs == old(nerrs) + if status == UserError && errState == 0 then 1 else 0
    {
      hide GlrValues.Calm, GlrValues.SomeAction, GraphInv, ValidTables, ValidGlr, Deterministic, AllReady, AnyLive,
        ShiftNext, AllGoing, AllFollow, SoundValues, GlrValues.Good, FacesConflict, ResolvedAbove, Configured,
        TopsDistinct, Survivors, Single, NotFinalIn, Reads, Reached, Chains, Moved, NoneYoung;
      ConfiguredIs();
      ghost var from := Chains(S.AsGraph());
      alone := false;
      NoteLookahead();
      status := ProcessAll(fuel);
      if status != Ok {
        return;
      }
      SurvivorsReached(S.G, from, S.AsGraph(), NextToken());
      Prune();
      if |S.tops| == 0 {
        NoneMoves(S.G, from, S.AsGraph(), NextToken());
        status := GiveUp();
      } else {
        status, alone := ShiftRound(from);
      }
    }

    // -------------------------------------------------------------- deterministic parsing

    /** The legality of what a reduction by `rule` pushes on the popped stack g. */
    ghost predicate Gotoable(g: GlrGraph.Graph, rule: nat, lr: int)
      requires S.G.lalr.Ranges()
    {
      && |g.tops| == 1 && 0 <= g.tops[0] < |g.items| && g.items[g.tops[0]].State?
      && g.items[g.tops[0]].lr < S.G.lalr.States() && 1 < rule < S.G.lalr.Rules()
      && lr == Goto(S.G.lalr, g.items[g.tops[0]].lr, S.G.lalr.r1[rule]) && lr >= 0
      && lr < S.G.lalr.States() && S.G.lalr.stos[lr] == S.G.lalr.r1[rule]
      && (g.items[g.tops[0]].lr, S.G.lalr.r1[rule], lr) in S.G.lalr.edges
    }

    /** h is g without the right-hand side of the rule on its one stack. */
    ghost predicate BelowRhs(g: GlrGraph.Graph, h: GlrGraph.Graph, rule: nat)
    {
      && |g.tops| == 1 && rule < |S.G.lalr.r2|
      && |h.tops| == 1 && 0 <= h.tops[0] < |h.items| && h.items[h.tops[0]].State?
      && h.items[h.tops[0]].posn == PosnAt(g.items, Walk(g.items, g.tops[0], S.G.lalr.r2[rule]))
    }

    /** yydoAction on a contiguous stack: the right-hand side comes off the end. */
    method PopEnd(rule: nat) returns (lr: nat)
      requires Valid() && Single(S.AsGraph(), posn) && S.splitPoint == NULL
      requires Reducible(S.G.lalr, TopLr(S.AsGraph(), 0), rule)
      modifies S`nextFree, S`spaceLeft, S`tops
      ensures Valid() && Popped(S.AsGraph(), posn) && Gotoable(S.AsGraph(), rule, lr)
      ensures BelowRhs(old(S.AsGraph()), S.AsGraph(), rule)
      ensures old(Sound(S.AsGraph().items)) ==> Sound(S.AsGraph().items)
      ensures LrChain(S.AsGraph().items, S.tops[0]) + [lr]
           == ReducedChain(S.G.lalr, old(LrChain(S.AsGraph().items, S.tops[0])), rule)
    {
      hide GraphInv, ValidTables, ValidGlr, Deterministic, Reducible, Goto, Walk, LrChain, ReducedChain, SoundValues,
        GlrValues.Good, BelowRhs, Gotoable, Popped, NotFinalIn, ResolvedAbove, EdgesOk;
      ghost var g := S.AsGraph();
      EndLegal(g, rule);
      var n := S.G.lalr.r2[rule];
      if Sound(g.items) {
        SoundTruncated(E, input, lexval, g, |g.items| - n, S.owner);
      }
      S.nextFree := S.nextFree - n;
      S.spaceLeft := S.spaceLeft + n;
      S.tops := [S.nextFree - 1];
      assert S.AsGraph() == Truncated(g, |g.items| - n);
      assert S.items[S.tops[0]] == S.AsGraph().items[S.tops[0]];
      lr := Goto(S.G.lalr, S.items[S.tops[0]].lr, S.G.lalr.r1[rule]);
    }

    lemma EndLegal(g: GlrGraph.Graph, rule: nat)
      requires Configured() && GraphInv(S.G.lalr, g, S.owner)
      requires Single(g, posn) && g.split == NULL && Reducible(S.G.lalr, g.items[g.tops[0]].lr, rule)
      ensures 1 < rule < S.G.lalr.Rules() && S.G.lalr.r2[rule] < |g.items|
      ensures var h := Truncated(g, |g.items| - S.G.lalr.r2[rule]);
        && GraphInv(S.G.lalr, h, S.owner) && Popped(h, posn) && h.items[h.tops[0]].State?
        && h.items[h.tops[0]].lr < S.G.lalr.States() && BelowRhs(g, h, rule)
        && Goto(S.G.lalr, h.items[h.tops[0]].lr, S.G.lalr.r1[rule]) >= 0
        && Gotoable(h, rule, Goto(S.G.lalr, h.items[h.tops[0]].lr, S.G.lalr.r1[rule]))
        && LrChain(h.items, h.tops[0]) + [Goto(S.G.lalr, h.items[h.tops[0]].lr, S.G.lalr.r1[rule])]
           == ReducedChain(S.G.lalr, LrChain(g.items, g.tops[0]), rule)
    {
      hide Goto, Reducible, Walk, LrChain, ResolvedAbove, EdgesOk, GraphInv, ReducedChain, ValidTables, ValidGlr,
        Deterministic, GlrValues.Good, Links;
      EndBelow(g, rule);
      var n := S.G.lalr.r2[rule];
      var s := |g.items| - 1 - n;
      TruncatedInv(S.G.lalr, g, |g.items| - n, S.owner);
      assert Truncated(g, |g.items| - n).items[s] == g.items[s];
      GotoIs(S.G.lalr, g.items[s].lr, rule);
    }

    /** The state below the right-hand side, on a contiguous stack. */
    lemma EndBelow(g: GlrGraph.Graph, rule: nat)
      requires Configured() && GraphInv(S.G.lalr, g, S.owner)
      requires Single(g, posn) && g.split == NULL && Reducible(S.G.lalr, g.items[g.tops[0]].lr, rule)
      ensures 1 < rule < S.G.lalr.Rules() && S.G.lalr.r2[rule] < |g.items| && g.tops == [|g.items| - 1]
      ensures var s := |g.items| - 1 - S.G.lalr.r2[rule];
        && s == Walk(g.items, g.tops[0], S.G.lalr.r2[rule])
        && g.items[s].State? && g.items[s].lr < S.G.lalr.States() && g.items[s].posn <= posn
        && var to := Goto(S.G.lalr, g.items[s].lr, S.G.lalr.r1[rule]);
           && to >= 0 && (g.items[s].lr, S.G.lalr.r1[rule], to) in S.G.lalr.edges
           && LrChain(g.items, s) + [to] == ReducedChain(S.G.lalr, LrChain(g.items, g.tops[0]), rule)
    {
      hide Goto, Reducible, Walk, OnChain, LrChain, ResolvedAbove, EdgesOk, Automaton, Positions, GraphInv,
        ReducedChain, ValidTables, ValidGlr, Deterministic, GlrValues.Good, LinksAbove;
      ReducibleRule(S.G.lalr, g.items[g.tops[0]].lr, rule);
      var n, top := S.G.lalr.r2[rule], |g.items| - 1;
      InvIs(S.G.lalr, g, S.owner);
      StatesStep(g, top);
      ReductionIsLegal(S.G.lalr, g.items, top, rule);
      WalkContiguous(g.items, top, n);
      PositionsDown(g, top, top - n);
      TopInRange(S.G.lalr, g, top - n);
      PushReduces(S.G.lalr, g.items, top, rule, top - n, Goto(S.G.lalr, g.items[top - n].lr, S.G.lalr.r1[rule]));
    }

    /** yydoAction while the split point is set: the stack is cut back along its links. */
    method PopChain(rule: nat) returns (lr: nat)
      requires Valid() && Single(S.AsGraph(), posn) && S.splitPoint != NULL
      requires Reducible(S.G.lalr, TopLr(S.AsGraph(), 0), rule)
      modifies S`splitPoint, S`tops
      ensures Valid() && Popped(S.AsGraph(), posn) && Gotoable(S.AsGraph(), rule, lr)
      ensures BelowRhs(old(S.AsGraph()), S.AsGraph(), rule) && S.AsGraph().items == old(S.AsGraph().items)
      ensures LrChain(S.AsGraph().items, S.tops[0]) + [lr]
           == ReducedChain(S.G.lalr, old(LrChain(S.AsGraph().items, S.tops[0])), rule)
    {
      hide GraphInv, ValidTables, Deterministic, Reducible, Goto, Walk, LrChain, ResolvedAbove, ReducedChain,
        GlrValues.Good, BelowRhs, ValidGlr;
      ghost var g := S.AsGraph();
      ChainLegal(g, rule);
      assert S.items[S.tops[0]] == g.items[g.tops[0]];
      var s;
      s, lr := S.PrepareReduction(0, rule, posn);
      S.tops := [s];
      assert S.AsGraph() == CutTo(UpdateSplit(g, s), 0, s);
    }

    lemma ChainLegal(g: GlrGraph.Graph, rule: nat)
      requires Configured() && GraphInv(S.G.lalr, g, S.owner)
      requires Single(g, posn) && g.split != NULL && Reducible(S.G.lalr, g.items[g.tops[0]].lr, rule)
      ensures 1 < rule < S.G.lalr.Rules()
      ensures var s := Walk(g.items, g.tops[0], S.G.lalr.r2[rule]);
        var h := CutTo(UpdateSplit(g, s), 0, s);
        && GraphInv(S.G.lalr, h, S.owner) && Popped(h, posn) && h.items[h.tops[0]].lr < S.G.lalr.States()
        && BelowRhs(g, h, rule)
        && Gotoable(h, rule, Goto(S.G.lalr, h.items[h.tops[0]].lr, S.G.lalr.r1[rule]))
        && LrChain(h.items, h.tops[0]) + [Goto(S.G.lalr, h.items[h.tops[0]].lr, S.G.lalr.r1[rule])]
           == ReducedChain(S.G.lalr, LrChain(g.items, g.tops[0]), rule)
    {
      hide Goto, Reducible, Unique, Derivations, Walk, OnChain, LrChain, ResolvedAbove, EdgesOk, Automaton, Positions,
        GraphInv, ReducedChain, ValidTables, ValidGlr, Deterministic, GlrValues.Good;
      ReducibleRule(S.G.lalr, g.items[g.tops[0]].lr, rule);
      InvIs(S.G.lalr, g, S.owner);
      StatesStep(g, g.tops[0]);
      ReductionIsLegal(S.G.lalr, g.items, g.tops[0], rule);
      var s := Walk(g.items, g.tops[0], S.G.lalr.r2[rule]);
      CutSingle(S.G.lalr, g, s, posn, S.owner);
      TopInRange(S.G.lalr, g, s);
      PushReduces(S.G.lalr, g.items, g.tops[0], rule, s, Goto(S.G.lalr, g.items[s].lr, S.G.lalr.r1[rule]));
      GotoIs(S.G.lalr, g.items[s].lr, rule);
    }

    /** yydoAction's two ways of popping the right-hand side. */
    method PopRhs(rule: nat) returns (lr: nat)
      requires Valid() && Single(S.AsGraph(), posn) && Reducible(S.G.lalr, TopLr(S.AsGraph(), 0), rule)
      modifies S`nextFree, S`spaceLeft, S`splitPoint, S`tops
      ensures Valid() && Popped(S.AsGraph(), posn) && Gotoable(S.AsGraph(), rule, lr) && NotFinal(S.AsGraph())
      ensures BelowRhs(old(S.AsGraph()), S.AsGraph(), rule)
      ensures old(Sound(S.AsGraph().items)) ==> Sound(S.AsGraph().items)
      ensures LrChain(S.AsGraph().items, S.tops[0]) + [lr]
           == ReducedChain(S.G.lalr, old(LrChain(S.AsGraph().items, S.tops[0])), rule)
    {
      hide GraphInv, ValidTables, ValidGlr, Deterministic, Reducible, Goto, Walk, LrChain, ResolvedAbove, EdgesOk,
        ReducedChain, SoundValues, GlrValues.Good, BelowRhs;
      if S.splitPoint == NULL {
        lr := PopEnd(rule);
      } else {
        lr := PopChain(rule);
      }
      EdgesLeaveNonFinal(S.G.lalr, S.AsGraph().items[S.tops[0]].lr, S.G.lalr.r1[rule], lr);
    }

    /** yyglrReduce with the action run at once. */
    method ReduceNow(rule: nat) returns (status: Status)
      requires Valid() && Faithful() && Single(S.AsGraph(), posn) && Allowed(TopLr(S.AsGraph(), 0), rule)
      modifies this`log, S, S.items
      ensures S.items == old(S.items) || fresh(S.items)
      ensures status.Ok? || status.Exhausted? || status.Abort? || status.ActionAccept? || status.UserError?
      ensures status == Ok ==> Valid() && Faithful() && Single(S.AsGraph(), posn)
      ensures status == Ok ==>
        LrChain(S.AsGraph().items, S.tops[0])
        == ReducedChain(S.G.lalr, old(LrChain(S.AsGraph().items, S.tops[0])), rule)
      ensures status == UserError ==> Valid() && Popped(S.AsGraph(), posn) && NotFinal(S.AsGraph())
      ensures log == old(log) + [rule]
      ensures !status.Ok? && !status.Exhausted? ==> ActionSays(|old(log)|, rule, status)
      ensures Reasoned(status)
    {
      hide GlrValues.Calm, GlrValues.SomeAction, GraphInv, ValidTables, ValidGlr, Deterministic, Reducible, Goto, Walk,
        LrChain, ResolvedAbove, EdgesOk, ReducedChain, AllFollow, MayReduce, TokenAt, SoundValues, GlrValues.Good,
        BelowRhs, GlrValues.HasValues, MayFollow, Gotoable, Driver.Reads, NotFinalIn, Driver.ActionSays;
      ghost var g, owner := S.AsGraph(), S.owner;
      RhsReady(g, rule);
      var vals := GlrValues.RhsValues(S.items, S.nextFree, S.tops[0], S.G.lalr.r2[rule]);
      var lr, val;
      lr := PopRhs(rule);
      ghost var count := |log|;
      status, val := RunAction(rule, vals);
      if status != Ok {
        SaidIsReasoned(count, rule, status);
      } else {
        ghost var h := S.AsGraph();
        ResultPushed(g, h, rule, lr, vals, count, val, owner);
        status := S.Shift(0, lr, posn, val);
      }
    }

    /** What has been popped, and the goto state with the result on top of it. */
    lemma ResultPushed(g: GlrGraph.Graph, h: GlrGraph.Graph, rule: nat, lr: nat, vals: seq<int>, count: nat, val: int,
                       owner: map<int, int>)
      requires Configured() && GraphInv(S.G.lalr, g, owner) && Single(g, posn) && GlrGraph.Step(g.items, g.tops[0])
      requires Reducible(S.G.lalr, TopLr(g, 0), rule) && 1 < rule < S.G.lalr.Rules()
      requires GraphInv(S.G.lalr, h, S.owner) && Popped(h, posn) && BelowRhs(g, h, rule) && Gotoable(h, rule, lr)
      requires GlrValues.HasValues(g.items, g.tops[0], E.T.r2[rule], vals)
      requires E.act(count, rule, vals).tag == GlrValues.YyOk && val == E.act(count, rule, vals).val
      requires LrChain(h.items, h.tops[0]) + [lr] == ReducedChain(S.G.lalr, LrChain(g.items, g.tops[0]), rule)
      ensures var h' := AddState(h, 0, lr, posn, Resolved(val));
        && GraphInv(S.G.lalr, h', S.owner) && Single(h', posn)
        && LrChain(h'.items, h'.tops[0]) == ReducedChain(S.G.lalr, LrChain(g.items, g.tops[0]), rule)
        && (AllFollow(S.G, input, g, posn) && MayReduce(S.G, TopLr(g, 0), TokenAt(S.G.lalr, input, posn), rule) ==>
              AllFollow(S.G, input, h', posn))
        && (Sound(g.items) && Sound(h.items) ==> Sound(h'.items))
    {
      hide GraphInv, ValidTables, ValidGlr, Deterministic, Reducible, Goto, Walk, LrChain, ResolvedAbove, EdgesOk,
        ReducedChain, AllFollow, MayReduce, TokenAt, SoundValues, GlrValues.Good, BelowRhs, GlrValues.HasValues,
        MayFollow;
      var h' := AddState(h, 0, lr, posn, Resolved(val));
      RhsReduced(g, h, rule, lr, vals, count, val, owner);
      PushSingle(S.G.lalr, h, S.G.lalr.r1[rule], lr, posn, val, S.owner);
      PushChain(S.G.lalr, h, lr, posn, val, S.owner);
      if AllFollow(S.G, input, g, posn) && MayReduce(S.G, TopLr(g, 0), TokenAt(S.G.lalr, input, posn), rule) {
        OneReducedFollow(S.G, input, g, h', rule, posn, owner);
      }
    }

    lemma RhsReady(g: GlrGraph.Graph, rule: nat)
      requires Configured() && GraphInv(S.G.lalr, g, S.owner) && Single(g, posn)
      requires Reducible(S.G.lalr, g.items[g.tops[0]].lr, rule)
      ensures 1 < rule < S.G.lalr.Rules() && GlrGraph.Step(g.items, g.tops[0])
      ensures forall k {:trigger Walk(g.items, g.tops[0], k)} | 0 <= k < S.G.lalr.r2[rule] ::
        && GlrGraph.Step(g.items, Walk(g.items, g.tops[0], k)) && g.items[Walk(g.items, g.tops[0], k)].sem.Resolved?
    {
      hide GraphInv, ValidTables, ValidGlr, Deterministic, Reducible, GlrValues.Good, EdgesOk, Walk, ResolvedAbove;
      InvIs(S.G.lalr, g, S.owner);
      StatesStep(g, g.tops[0]);
      RhsIsValued(S.G.lalr, g, posn, S.owner, rule);
    }

    /** What the reduction has come to may be pushed, and is sound. */
    lemma RhsReduced(g: GlrGraph.Graph, h: GlrGraph.Graph, rule: nat, lr: nat, vals: seq<int>, count: nat, val: int,
                     owner: map<int, int>)
      requires Configured() && GraphInv(S.G.lalr, g, owner) && Single(g, posn) && GlrGraph.Step(g.items, g.tops[0])
      requires Reducible(S.G.lalr, g.items[g.tops[0]].lr, rule)
      requires GraphInv(S.G.lalr, h, S.owner) && Popped(h, posn) && BelowRhs(g, h, rule) && Gotoable(h, rule, lr)
      requires GlrValues.HasValues(g.items, g.tops[0], E.T.r2[rule], vals)
      requires E.act(count, rule, vals).tag == GlrValues.YyOk && val == E.act(count, rule, vals).val
      ensures MayFollow(S.G.lalr, h, h.tops[0], lr, posn)
      ensures Sound(g.items) && Sound(h.items) ==> Sound(AddState(h, 0, lr, posn, Resolved(val)).items)
    {
      hide GraphInv, ValidTables, Deterministic, Reducible, GlrValues.Good, EdgesOk, Walk, ResolvedAbove, Goto,
        MayFollow, GlrValues.HasValues, SoundValues, PosnAt, Acyclic;
      ReducedFollows(S.G.lalr, g, h, posn, owner, rule, lr);
      if Sound(g.items) && Sound(h.items) {
        SoundReduced(E, input, lexval, g, h, rule, lr, posn, vals, count, owner, S.owner);
      }
    }

    /** In state lr the next token is shifted, to state `to`. */
    ghost predicate Shifts(lr: nat, to: nat)
      requires S.G.lalr.Ranges()
      reads this`posn
    {
      lr < S.G.lalr.States() && Act(S.G.lalr, lr, TokenAt(S.G.lalr, input, posn)) == Action.Shift(to)
    }

    /** The shift of the lookahead in deterministic parsing. */
    method ShiftNow(to: nat, token: nat) returns (status: Status)
      requires Valid() && Faithful() && Single(S.AsGraph(), posn) && yychar != EMPTY
      requires (TopLr(S.AsGraph(), 0), token, to) in S.G.lalr.edges
      requires !recovered ==> Shifts(TopLr(S.AsGraph(), 0), to)
      modifies this`yychar, this`posn, this`errState, S, S.items
      ensures S.items == old(S.items) || fresh(S.items)
      ensures status.Ok? || (status.Exhausted? && S.Full())
      ensures status == Ok ==> Valid() && Faithful() && Single(S.AsGraph(), posn) && posn == old(posn) + 1
      ensures status == Ok ==>
        LrChain(S.AsGraph().items, S.tops[0]) == old(LrChain(S.AsGraph().items, S.tops[0])) + [to]
      ensures errState == if old(errState) > 0 && status == Ok then old(errState) - 1 else old(errState)
    {
      hide GraphInv, ValidTables, ValidGlr, Deterministic, ResolvedAbove, EdgesOk, LrChain, AllFollow, TokenAt, Act,
        SoundValues, GlrValues.Good, MayFollow, AddState;
      ghost var g := S.AsGraph();
      ShiftIsSound(g, to, token);
      yychar := EMPTY;
      posn := posn + 1;
      PushSingle(S.G.lalr, g, token, to, posn, yylval, S.owner);
      PushChain(S.G.lalr, g, to, posn, yylval, S.owner);
      status := S.Shift(0, to, posn, yylval);
      if !recovered {
        OneShiftedFollow(S.G, input, g, S.AsGraph(), to, posn - 1, old(S.owner));
      }
      if status == Ok && errState > 0 {
        errState := errState - 1;
      }
    }

    lemma ShiftIsSound(g: GlrGraph.Graph, to: nat, token: nat)
      requires Configured() && GraphInv(S.G.lalr, g, S.owner) && Single(g, posn)
      requires (g.items[g.tops[0]].lr, token, to) in S.G.lalr.edges
      requires !recovered ==> Shifts(g.items[g.tops[0]].lr, to) && Sound(g.items)
      ensures MayFollow(S.G.lalr, g, g.tops[0], to, posn + 1)
      ensures g.items[g.tops[0]].lr != S.G.lalr.final
      ensures !recovered ==> Sound(AddState(g, 0, to, posn + 1, Resolved(lexval(posn))).items)
    {
      hide GraphInv, ValidTables, ValidGlr, Deterministic, ResolvedAbove, EdgesOk, TokenAt, Act, SoundValues,
        GlrValues.Good, MayFollow;
      EdgesLeaveNonFinal(S.G.lalr, g.items[g.tops[0]].lr, token, to);
      TokenFollows(S.G.lalr, g, posn, token, to);
      if !recovered {
        TokenInRange(S.G.lalr, input, posn);
        ActIsOk(S.G.lalr, g.items[g.tops[0]].lr, TokenAt(S.G.lalr, input, posn));
        SoundShift(E, input, lexval, g, 0, to, posn, S.owner);
      }
    }

    /** The LR states of the one stack, and the tokens shifted. */
    ghost function Now(): Det
      requires S.nextFree <= S.items.Length && |S.tops| == 1
      reads this`posn, S, S.items
    {
      Det(LrChain(S.AsGraph().items, S.tops[0]), posn)
    }

    /** What a deterministic step does, `before` it being the one stack, x the next token and n
        actions having been run: what the deterministic automaton does, unless memory is
        exhausted, or the action of the rule reduced by says otherwise. */
    ghost predicate Stepped(before: Det, x: nat, was: seq<nat>, status: Status, conflict: bool)
      requires S.G.lalr.Ranges()
      reads this`posn, this`log, S, S.items
    {
      match VerdictOn(S.G, before.states, x)
      case Accepting => status == Accept && log == was && Is(before)
      case Conflicting => status == Ok && conflict && log == was && Is(before)
      case Erring => status == UserError && log == was && Is(before)
      case GoOn =>
        && !conflict && !status.Accept?
        && (status == Ok ==> Is(StepOn(S.G, before, x)))
        && match Act(S.G.lalr, before.states[|before.states|-1], x)
           case Shift(_) => log == was && (status.Ok? || (status.Exhausted? && S.Full()))
           case Reduce(r) =>
             log == was + [r] && (status.Ok? || (status.Exhausted? && S.Full()) || ActionSays(|was|, r, status))
    }

    ghost predicate Is(d: Det)
      reads this`posn, S, S.items
    {
      S.nextFree <= S.items.Length && |S.tops| == 1 && Now() == d
    }

    /** One step of deterministic parsing: a reduction or a shift; or a conflict is met. */
    method StandardStep() returns (status: Status, conflict: bool)
      requires Valid() && Faithful() && Single(S.AsGraph(), posn)
      modifies this`yychar, this`yylval, this`pos, this`log, this`posn, this`errState, this`nerrs, S, S.items
      ensures S.items == old(S.items) || fresh(S.items)
      ensures status.Ok? && !conflict ==> Valid() && Faithful() && Single(S.AsGraph(), posn)
      ensures status.Ok? && conflict ==>
        InProgress(NULL) && |S.tops| == 1 && S.tops[0] != NULL && FacesConflict(S.G, S.AsGraph(), 0, yychar)
        && Single(S.AsGraph(), posn)
      ensures status.UserError? ==> Valid() && Popped(S.AsGraph(), posn) && NotFinal(S.AsGraph())
      ensures status.Accept? ==>
        Valid() && Faithful() && Single(S.AsGraph(), posn) && TopLr(S.AsGraph(), 0) == S.G.lalr.final
      ensures Stepped(old(Now()), old(NextToken()), old(log), status, conflict) && !status.OutOfFuel?
      ensures nerrs == old(nerrs) +
        if VerdictOn(S.G, old(Now()).states, old(NextToken())) == Erring && old(errState) == 0 then 1 else 0
      ensures errState == old(errState) - if status == Ok && posn > old(posn) && old(errState) > 0 then 1 else 0
      ensures Reasoned(status)
    {
      hide GlrValues.Calm, GlrValues.SomeAction, GraphInv, ValidTables, ValidGlr, Deterministic, ResolvedAbove, EdgesOk,
        Allowed, Act, Translate, DefaultAction, AllFollow, TokenAt, LrChain, Driver.Stepped, Driver.Performed,
        SoundValues, GlrValues.Good, Defaulted;
      ghost var g, before, was := S.AsGraph(), Now(), log;
      SingleTop(S.G.lalr, g, posn, S.owner);
      OneTop(g);
      NotPerformed(before, NextToken());
      assert S.items[S.tops[0]] == g.items[g.tops[0]];
      var lr := S.items[S.tops[0]].lr;
      if lr == S.G.lalr.final {
        return Accept, false;
      }
      if !Defaulted(S.G.lalr, lr) {
        status, conflict := StepOnToken(lr);
        return;
      }
      conflict := false;
      AllowsDefault(lr);
      DefaultActs(S.G.lalr, lr, NextToken());
      ghost var x := NextToken();
      status := Perform(lr, 0, DefaultAction(S.G.lalr, lr));
      PerformedIsStep(before, x, was, status);
    }

    /** The step in a state that looks at the next token. */
    method StepOnToken(lr: nat) returns (status: Status, conflict: bool)
      requires Valid() && Faithful() && Single(S.AsGraph(), posn)
        && TopLr(S.AsGraph(), 0) == lr != S.G.lalr.final && lr < S.G.lalr.States() && !Defaulted(S.G.lalr, lr)
      modifies this`yychar, this`yylval, this`pos, this`log, this`posn, this`errState, this`nerrs, S, S.items
      ensures S.items == old(S.items) || fresh(S.items)
      ensures status.Ok? && !conflict ==> Valid() && Faithful() && Single(S.AsGraph(), posn)
      ensures status.Ok? && conflict ==>
        InProgress(NULL) && |S.tops| == 1 && S.tops[0] != NULL && FacesConflict(S.G, S.AsGraph(), 0, yychar)
        && Single(S.AsGraph(), posn)
      ensures status.UserError? ==> Valid() && Popped(S.AsGraph(), posn) && NotFinal(S.AsGraph())
      ensures !status.Accept?
      ensures Stepped(old(Now()), old(NextToken()), old(log), status, conflict) && !status.OutOfFuel?
      ensures nerrs == old(nerrs) +
        if VerdictOn(S.G, old(Now()).states, old(NextToken())) == Erring && old(errState) == 0 then 1 else 0
      ensures errState == old(errState) - if status == Ok && posn > old(posn) && old(errState) > 0 then 1 else 0
      ensures Reasoned(status)
    {
      hide GlrValues.Calm, GlrValues.SomeAction, GraphInv, ValidTables, ValidGlr, Deterministic, ResolvedAbove, EdgesOk,
        Allowed, Act, Translate, DefaultAction, AllFollow, TokenAt, LrChain, Driver.Stepped, Driver.Performed,
        SoundValues, GlrValues.Good, Defaulted, Driver.Faithful, AllGoing, TopsDistinct, VerdictOn, Positions,
        MayReduce;
      ghost var g, before, was := S.AsGraph(), Now(), log;
      OneTop(g);
      SingleTop(S.G.lalr, g, posn, S.owner);
      NotPerformed(before, NextToken());
      var token := LookNext();
      conflict := S.G.conflicts(lr, token) != [];
      if conflict {
        OneInProgress();
        return Ok, true;
      }
      ActIsOk(S.G.lalr, lr, token);
      AllowsAction(lr, token);
      status := Perform(lr, token, Act(S.G.lalr, lr, token));
      PerformedIsStep(before, token, was, status);
    }

    /** One stack that is not at the final state is in progress. */
    lemma OneInProgress()
      requires Valid() && Faithful() && Single(S.AsGraph(), posn) && NotFinal(S.AsGraph())
      ensures InProgress(NULL)
    {
      hide GraphInv, ValidTables, ValidGlr, Deterministic, EdgesOk, SoundValues, GlrValues.Good, AllGoing, TopsDistinct,
        ResolvedAbove, Driver.Faithful;
      OneGoing(S.G.lalr, S.AsGraph(), posn, S.owner);
    }

    /** The next token is read, if it has not been. */
    method LookNext() returns (token: nat)
      requires Valid() && Faithful()
      modifies this`yychar, this`yylval, this`pos
      ensures Valid() && Faithful() && yychar >= 0 && token == Translate(S.G.lalr, yychar) < S.G.lalr.ntokens
      ensures token == NextToken() == old(NextToken()) && (!recovered ==> token == TokenAt(S.G.lalr, input, posn))
    {
      hide GraphInv, ValidTables, ValidGlr, Deterministic, EdgesOk, SoundValues, GlrValues.Good, TokenAt, AllFollow;
      if !recovered {
        LookaheadIs();
      }
      token := ReadToken();
    }

    lemma OneTop(g: GlrGraph.Graph)
      requires S.G.lalr.Ranges() && GraphInv(S.G.lalr, g, S.owner) && Single(g, posn)
      ensures var q := LrChain(g.items, g.tops[0]); q != [] && q[|q|-1] == g.items[g.tops[0]].lr
    {
      hide Positions, Automaton, Unique, Derivations, LiveOwned, Outgrown, Forest, ResolvedAbove;
      StatesStep(g, g.tops[0]);
    }

    /** A shift and a reduction give the stack that the automaton gives, and errors come from the
        tables or from the user. */
    ghost predicate Performed(before: Det, action: Action, was: seq<nat>, status: Status)
      requires S.G.lalr.Ranges()
      reads this`posn, this`log, S, S.items
    {
      match action
      case Shift(to) =>
        && (status.Ok? || (status.Exhausted? && S.Full())) && log == was
        && (status == Ok ==> Is(Det(before.states + [to], before.posn + 1)))
      case Reduce(r) =>
        && log == was + [r] && (status.Ok? || (status.Exhausted? && S.Full()) || ActionSays(|was|, r, status))
        && (status == Ok ==> Is(Det(ReducedChain(S.G.lalr, before.states, r), before.posn)))
      case Error => status == UserError && log == was && Is(before)
    }

    /** The action that the tables ask for is the step of the automaton. */
    lemma PerformedIsStep(before: Det, x: nat, was: seq<nat>, status: Status)
      requires S.G.lalr.Ranges() && before.states != [] && !status.Accept?
      requires var lr := before.states[|before.states|-1];
        && lr < S.G.lalr.States() && lr != S.G.lalr.final && (Defaulted(S.G.lalr, lr) || S.G.conflicts(lr, x) == [])
        && Performed(before, Act(S.G.lalr, lr, x), was, status)
      ensures Stepped(before, x, was, status, false)
      ensures VerdictOn(S.G, before.states, x) == Erring <==>
        Act(S.G.lalr, before.states[|before.states|-1], x) == Error
    {
      hide Act, Defaulted, Driver.ActionSays, LrChain, ReducedChain;
    }

    /** No action is performed in the final state, or on a conflict. */
    lemma NotPerformed(before: Det, x: nat)
      requires S.G.lalr.Ranges() && before.states != [] && Is(before)
      requires before.states[|before.states|-1] < S.G.lalr.States()
      ensures var lr := before.states[|before.states|-1];
        && (lr == S.G.lalr.final ==>
              Stepped(before, x, log, Accept, false) && VerdictOn(S.G, before.states, x) != Erring)
        && (lr != S.G.lalr.final && !Defaulted(S.G.lalr, lr) && S.G.conflicts(lr, x) != [] ==>
              Stepped(before, x, log, Ok, true) && VerdictOn(S.G, before.states, x) != Erring)
    {
      hide Act, Defaulted, Driver.ActionSays, LrChain, ReducedChain;
    }

    /** The action of the state lr on top of the one stack. */
    method Perform(lr: nat, token: nat, action: Action) returns (status: Status)
      requires Valid() && Faithful() && Single(S.AsGraph(), posn)
        && TopLr(S.AsGraph(), 0) == lr != S.G.lalr.final
      requires action.Shift? ==> yychar != EMPTY && (lr, token, action.to) in S.G.lalr.edges
      requires action.Shift? && !recovered ==> Shifts(lr, action.to)
      requires action.Reduce? ==> Allowed(lr, action.rule)
      modifies this`yychar, this`yylval, this`pos, this`log, this`posn, this`errState, this`nerrs, S, S.items
      ensures S.items == old(S.items) || fresh(S.items)
      ensures status.Ok? ==> Valid() && Faithful() && Single(S.AsGraph(), posn)
      ensures status.UserError? ==> Valid() && Popped(S.AsGraph(), posn) && NotFinal(S.AsGraph())
      ensures !status.Accept? && !status.OutOfFuel?
      ensures nerrs == old(nerrs) + if action == Error && old(errState) == 0 then 1 else 0
      ensures errState == old(errState) - if action.Shift? && status == Ok && old(errState) > 0 then 1 else 0
      ensures status == Ok ==> posn == old(posn) + if action.Shift? then 1 else 0
      ensures Performed(old(Now()), action, old(log), status)
      ensures Reasoned(status)
    {
      hide GlrValues.Calm, GlrValues.SomeAction, GraphInv, ValidTables, ValidGlr, Deterministic, ResolvedAbove, EdgesOk,
        Allowed, AllFollow, LrChain, ReducedChain, Driver.ActionSays;
      match action
      case Shift(to) => status := ShiftNow(to, token);
      case Reduce(r) => status := ReduceNow(r);
      case Error =>
        Report();
        status := UserError;
    }

    /** The runs of the nondeterministic automaton that can go on all go through the live stacks. */
    ghost predicate Complete()
      requires S.G.lalr.Ranges() && S.nextFree <= S.items.Length
      reads this, S, S.items
    {
      !recovered ==> Covering(S.G, input, Chains(S.AsGraph()), posn)
    }

    /** From d the deterministic automaton comes to the stack that there is, and ends there. */
    ghost predicate EndsHere(d: Det, verdict: Verdict)
      requires S.G.lalr.Ranges()
      reads this`posn, S, S.items
    {
      exists n: nat {:trigger DetRun(S.G, input, d, n)} ::
        Is(DetRun(S.G, input, d, n)) && DetVerdict(S.G, input, DetRun(S.G, input, d, n)) == verdict
    }

    /** No run of the automaton accepts the input; or the last action run has raised an error. */
    ghost predicate Blamed()
      requires S.G.lalr.Ranges()
      reads this`log
    {
      Rejected(S.G, input) || (log != [] && ActionSays(|log| - 1, log[|log|-1], UserError))
    }

    /** What the first loop has come to, as long as there has been no error: where the
        deterministic automaton that starts from d ends. */
    ghost predicate Ended(d: Det, status: Status)
      requires S.G.lalr.Ranges()
      reads this`posn, this`log, this`recovered, S, S.items
    {
      !recovered ==> match status
        case Ok => EndsHere(d, Conflicting)
        case Accept => EndsHere(d, Accepting)
        case UserError =>
          Blamed() && (EndsHere(d, Erring) || (log != [] && ActionSays(|log| - 1, log[|log|-1], UserError)))
        case _ => true
    }

    /** The first loop of yyparse.  As long as there has been no error it is a run of the
        deterministic automaton, and ends as that does. */
    method Standard(fuel: nat) returns (status: Status)
      requires Valid() && Faithful() && Single(S.AsGraph(), posn) && Complete()
      modifies this`yychar, this`yylval, this`pos, this`log, this`posn, this`errState, this`nerrs, S, S.items
      ensures S.items == old(S.items) || fresh(S.items)
      ensures status.Ok? ==>
        InProgress(NULL) && |S.tops| == 1 && S.tops[0] != NULL && FacesConflict(S.G, S.AsGraph(), 0, yychar)
        && NoneYoung(S.AsGraph(), posn) && Complete()
      ensures status.UserError? ==> Valid() && Popped(S.AsGraph(), posn) && NotFinal(S.AsGraph())
      ensures status.Accept? ==>
        Valid() && Faithful() && Single(S.AsGraph(), posn) && TopLr(S.AsGraph(), 0) == S.G.lalr.final
      ensures Ended(old(Now()), status)
      ensures status.OutOfFuel? && !recovered ==>
        Valid() && Single(S.AsGraph(), posn) && Goes(old(Now()), fuel, Now())
      ensures Reasoned(status)
    {
      hide GlrValues.Calm, GlrValues.SomeAction, GraphInv, ValidTables, ValidGlr, Deterministic, ResolvedAbove, EdgesOk,
        AllFollow, LrChain, Driver.Ended, NoneYoung, Driver.Complete, Driver.Goes, SoundValues, GlrValues.Good,
        Driver.Reads, TopsDistinct, AllGoing, Driver.Faithful, Current, FacesConflict, Popped, NotFinalIn;
      ghost var d, n: nat := Now(), 0;
      RunStarts(d);
      var left := fuel;
      while left > 0
        invariant (S.items == old(S.items) || fresh(S.items)) && Valid() && Faithful() && Single(S.AsGraph(), posn)
        invariant n == fuel - left && (!recovered ==> Goes(d, n, Now()))
        decreases left
      {
        left := left - 1;
        var conflict;
        status, conflict := StandardTurn(d, n);
        if status != Ok || conflict {
          return;
        }
        n := n + 1;
      }
      status := OutOfFuel;
      NotEnded(d);
    }

    lemma NotEnded(d: Det)
      requires S.G.lalr.Ranges()
      ensures Ended(d, OutOfFuel)
    {
    }

    /** One turn of the loop, after n turns that began with d. */
    method StandardTurn(ghost d: Det, ghost n: nat) returns (status: Status, conflict: bool)
      requires Valid() && Faithful() && Single(S.AsGraph(), posn) && (!recovered ==> Goes(d, n, Now()))
      modifies this`yychar, this`yylval, this`pos, this`log, this`posn, this`errState, this`nerrs, S, S.items
      ensures S.items == old(S.items) || fresh(S.items)
      ensures status.Ok? && !conflict ==>
        Valid() && Faithful() && Single(S.AsGraph(), posn) && (!recovered ==> Goes(d, n + 1, Now()))
      ensures status.Ok? && conflict ==>
        InProgress(NULL) && |S.tops| == 1 && S.tops[0] != NULL && FacesConflict(S.G, S.AsGraph(), 0, yychar)
        && NoneYoung(S.AsGraph(), posn) && Complete()
      ensures status.UserError? ==> Valid() && Popped(S.AsGraph(), posn) && NotFinal(S.AsGraph())
      ensures status.Accept? ==>
        Valid() && Faithful() && Single(S.AsGraph(), posn) && TopLr(S.AsGraph(), 0) == S.G.lalr.final
      ensures (status != Ok || conflict ==> Ended(d, status)) && !status.OutOfFuel?
      ensures Reasoned(status)
    {
      hide GlrValues.Calm, GlrValues.SomeAction, GraphInv, ValidTables, ValidGlr, Deterministic, ResolvedAbove, EdgesOk,
        AllFollow, LrChain, Driver.Through, Driver.ActionSays, DetVerdict, Driver.Stepped, NoneYoung, DetRun,
        Driver.EndsHere, Driver.Blamed, Driver.Goes, SoundValues, GlrValues.Good, TopsDistinct, AllGoing, Covering;
      ghost var at, x, was := Now(), NextToken(), log;
      if !recovered {
        NowFollows();
        LookaheadIs();
      }
      status, conflict := StandardStep();
      if !recovered {
        RunGoes(d, n, at, x, was, status, conflict);
      }
      if status == Ok && conflict {
        SingleNotYoung(S.G.lalr, S.AsGraph(), posn, S.owner);
      }
    }

    /** All runs that can go on go through d. */
    ghost predicate Through(d: Det)
      requires S.G.lalr.Ranges()
    {
      Covering(S.G, input, iset{d.states}, d.posn)
    }

    /** n steps of the deterministic automaton, none of which was its last, lead from d to at. */
    ghost predicate Goes(d: Det, n: nat, at: Det)
      requires S.G.lalr.Ranges()
    {
      && at == DetRun(S.G, input, d, n) && Through(at)
      && forall m: nat {:trigger DetRun(S.G, input, d, m)} | m < n ::
        DetVerdict(S.G, input, DetRun(S.G, input, d, m)) == GoOn
    }

    lemma RunStarts(d: Det)
      requires S.G.lalr.Ranges() && S.nextFree <= S.items.Length && |S.tops| == 1 && S.tops[0] != NULL
      requires Complete() && d == Now()
      ensures !recovered ==> Goes(d, 0, d)
    {
      hide Covering, LrChain, DetVerdict;
      OneChain(S.AsGraph());
    }

    lemma NowFollows()
      requires Valid() && Faithful() && !recovered && Single(S.AsGraph(), posn)
      ensures var q := Now().states;
        q != [] && q[|q|-1] < S.G.lalr.States() && Follows(S.G, input, posn, q)
    {
      hide GraphInv, ValidTables, ValidGlr, Deterministic, Follows, LrChain, ResolvedAbove, SoundValues, GlrValues.Good,
        EdgesOk;
      OneTop(S.AsGraph());
      SingleTop(S.G.lalr, S.AsGraph(), posn, S.owner);
    }

    /** What a step of deterministic parsing is to the automaton, while there has been no error. */
    lemma RunGoes(d: Det, n: nat, at: Det, x: nat, was: seq<nat>, status: Status, conflict: bool)
      requires Configured() && Goes(d, n, at) && x == TokenAt(S.G.lalr, input, at.posn)
      requires Stepped(at, x, was, status, conflict) && !recovered
      requires at.states != [] && at.states[|at.states|-1] < S.G.lalr.States()
      requires Follows(S.G, input, at.posn, at.states)
      requires status == Ok && conflict ==> S.nextFree <= S.items.Length && |S.tops| == 1 && S.tops[0] != NULL
      ensures match status
        case Ok =>
          if conflict then EndsHere(d, Conflicting) && Complete()
          else S.nextFree <= S.items.Length && |S.tops| == 1 && Goes(d, n + 1, Now())
        case Accept => EndsHere(d, Accepting)
        case UserError =>
          Blamed() && (EndsHere(d, Erring) || (log != [] && ActionSays(|log| - 1, log[|log|-1], UserError)))
        case _ => true
    {
      hide ValidTables, ValidGlr, Deterministic, Follows, LrChain, GlrValues.Good, EdgesOk, Covering, Rejected,
        VerdictOn, TokenAt, Driver.ActionSays, Act, StepOn;
      assert DetVerdict(S.G, input, at) == VerdictOn(S.G, at.states, x);
      match VerdictOn(S.G, at.states, x) {
        case Accepting =>
        case Conflicting => OneChain(S.AsGraph());
        case Erring => ErringRejects(S.G, input, at);
        case GoOn => StepCovers(S.G, input, at);
      }
    }

    /** The first stack in progress is a configuration of the automaton, and not a final one. */
    lemma AliveFollows()
      requires InProgress(NULL) && !recovered && |S.tops| > 0 && S.tops[0] != NULL
      ensures var q := LrChain(S.AsGraph().items, S.tops[0]);
        q != [] && q[|q|-1] != S.G.lalr.final && Follows(S.G, input, posn, q)
    {
      hide GraphInv, ValidTables, ValidGlr, Deterministic, Follows, LrChain, SoundValues, GlrValues.Good, EdgesOk,
        AllGoing, TopsDistinct;
      TopFacts(S.G.lalr, S.AsGraph(), 0, posn, S.owner);
      TopOfChain(S.AsGraph().items, S.tops[0]);
    }

    /** What a round is to the automaton: all runs that can go on still go through the live
        stacks; and if none is left, the input is rejected. */
    lemma RoundGoes(live: iset<seq<nat>>, at: nat, q: seq<nat>)
      requires Configured() && Covering(S.G, input, live, at)
      requires Follows(S.G, input, at, q) && q != [] && q[|q|-1] != S.G.lalr.final
      ensures var now := Moved(S.G, live, TokenAt(S.G.lalr, input, at));
        if now == iset{} then Rejected(S.G, input) else Covering(S.G, input, now, at + 1)
    {
      hide ValidTables, ValidGlr, Deterministic, Follows, GlrValues.Good, EdgesOk, Covering, Rejected, NoWayOn, TokenAt,
        Moved;
      var x := TokenAt(S.G.lalr, input, at);
      if Moved(S.G, live, x) == iset{} {
        NothingGoesOn(S.G, input, live, at);
        NoWayOnRejects(S.G, input, at, q);
      } else {
        CoveringMoved(S.G, input, live, at);
      }
    }

    /** One round, seen from the automaton. */
    method RoundTurn(fuel: nat) returns (status: Status, alone: bool)
      requires InProgress(NULL) && |S.tops| > 0 && S.tops[0] != NULL && NoneYoung(S.AsGraph(), posn) && Complete()
      requires S.splitPoint != NULL || FacesConflict(S.G, S.AsGraph(), 0, yychar)
      modifies this`yychar, this`yylval, this`pos, this`log, this`posn, this`errState, this`nerrs, S, S.items
      ensures S.items == old(S.items) || fresh(S.items)
      ensures !status.Accept? && Reasoned(status)
      ensures status == Ok && alone ==>
        Valid() && Faithful() && Single(S.AsGraph(), posn) && S.splitPoint == NULL && Complete()
      ensures status == Ok && !alone ==>
        && InProgress(NULL) && |S.tops| > 1 && S.tops[0] != NULL && S.splitPoint != NULL
        && NoneYoung(S.AsGraph(), posn) && Complete()
      ensures status == UserError ==> Valid() && Single(S.AsGraph(), posn) && NotFinal(S.AsGraph())
      ensures status == UserError && !recovered ==> Rejected(S.G, input)
      ensures nerrs == old(nerrs) + if status == UserError && errState == 0 then 1 else 0
      ensures errState == old(errState)
    {
      hide GraphInv, ValidTables, ValidGlr, Deterministic, ResolvedAbove, EdgesOk, AllGoing, TopsDistinct, AllFollow,
        SoundValues, GlrValues.Good, NoneYoung, Chains, Covering, Rejected, Moved, Follows, LrChain, FacesConflict,
        GlrValues.Calm, GlrValues.SomeAction, TokenAt, Translate;
      ghost var live, at, q := Chains(S.AsGraph()), posn, LrChain(S.AsGraph().items, S.tops[0]);
      if !recovered {
        AliveFollows();
        LookaheadIs();
        RoundGoes(live, at, q);
      }
      status, alone := Round(fuel);
      if status == Ok && !recovered {
        SomeChain();
      }
    }

    /** There is a live stack. */
    lemma SomeChain()
      requires S.nextFree <= S.items.Length && |S.tops| > 0 && S.tops[0] != NULL
      ensures Chains(S.AsGraph()) != iset{}
    {
      hide LrChain;
      assert OnTop(S.AsGraph(), LrChain(S.AsGraph().items, S.tops[0]));
      assert LrChain(S.AsGraph().items, S.tops[0]) in Chains(S.AsGraph());
    }

    /** The second loop of yyparse. */
    method Nondeterministic(fuel: nat) returns (status: Status)
      requires InProgress(NULL) && |S.tops| > 0 && S.tops[0] != NULL && NoneYoung(S.AsGraph(), posn) && Complete()
      requires S.splitPoint != NULL || FacesConflict(S.G, S.AsGraph(), 0, yychar)
      modifies this`yychar, this`yylval, this`pos, this`log, this`posn, this`errState, this`nerrs, S, S.items
      ensures S.items == old(S.items) || fresh(S.items)
      ensures !status.Accept? && Reasoned(status)
      ensures status.Ok? ==>
        Valid() && Faithful() && Single(S.AsGraph(), posn) && S.splitPoint == NULL && Complete()
      ensures status.UserError? ==> Valid() && Single(S.AsGraph(), posn) && NotFinal(S.AsGraph())
      ensures status.UserError? && !recovered ==> Rejected(S.G, input)
      ensures nerrs == old(nerrs) + if status == UserError && errState == 0 then 1 else 0
      ensures errState == old(errState)
    {
      hide GraphInv, ValidTables, ValidGlr, Deterministic, ResolvedAbove, EdgesOk, AllGoing, TopsDistinct, AllFollow,
        SoundValues, GlrValues.Good, NoneYoung, Driver.Complete, Rejected, FacesConflict, Driver.Faithful,
        GlrValues.Calm, GlrValues.SomeAction, Current, NotFinalIn;
      var left := fuel;
      while left > 0
        invariant S.items == old(S.items) || fresh(S.items)
        invariant InProgress(NULL) && |S.tops| > 0 && S.tops[0] != NULL
        invariant S.splitPoint != NULL || FacesConflict(S.G, S.AsGraph(), 0, yychar)
        invariant nerrs == old(nerrs) && errState == old(errState)
        invariant NoneYoung(S.AsGraph(), posn) && Complete()
        decreases left
      {
        left := left - 1;
        var alone;
        status, alone := RoundTurn(left);
        if status != Ok || alone {
          return;
        }
      }
      status := OutOfFuel;
    }

    // -------------------------------------------------------------- error recovery

    /** State lr has no action on the tokens from `from` to `to`. */
    ghost predicate NoAction(lr: nat, from: nat, to: nat)
      requires S.G.lalr.Ranges()
    {
      lr < S.G.lalr.States() && forall i {:trigger TokenAt(S.G.lalr, input, i)} | from <= i < to ::
        !Defaulted(S.G.lalr, lr) && Act(S.G.lalr, lr, TokenAt(S.G.lalr, input, i)) == Error
    }

    /** The lookahead is the token read last, or the one there was. */
    ghost predicate ReadLast(was: int, from: nat)
      reads this`yychar, this`pos
    {
      && from <= pos
      && yychar == if pos == from then was else if input(pos - 1) <= 0 then 0 else input(pos - 1)
    }

    lemma OneMoreSkipped(lr: nat, from: nat, to: nat)
      requires S.G.lalr.Ranges() && NoAction(lr, from, to) && from <= to
      ensures !Defaulted(S.G.lalr, lr) && Act(S.G.lalr, lr, TokenAt(S.G.lalr, input, to)) == Error ==>
        NoAction(lr, from, to + 1)
    {
      hide Act, TokenAt, Defaulted;
    }

    /** The lookahead is discarded and the next token read; has state lr an action on it? */
    method SkipOne(lr: nat) returns (found: bool)
      requires Valid() && lr < S.G.lalr.States()
      modifies this`yychar, this`yylval, this`pos
      ensures Valid() && pos == old(pos) + 1 && yychar == if input(old(pos)) <= 0 then 0 else input(old(pos))
      ensures found <==>
        Defaulted(S.G.lalr, lr) || Act(S.G.lalr, lr, TokenAt(S.G.lalr, input, old(pos))) != Error
    {
      hide GraphInv, ValidTables, ValidGlr, Deterministic, EdgesOk, Act, Defaulted, GlrValues.Good;
      yychar := EMPTY;
      var token := ReadToken();
      found := Defaulted(S.G.lalr, lr) || Act(S.G.lalr, lr, token) != Error;
    }

    /** Recovering again before three tokens were shifted: skip tokens until the state on
        top has an action; it has none on the tokens skipped. */
    method SkipTokens(fuel: nat) returns (status: Status)
      requires Valid() && Popped(S.AsGraph(), posn)
      modifies this`yychar, this`yylval, this`pos
      ensures status.Ok? || status.Abort? || status.OutOfFuel?
      ensures Valid() && ReadLast(old(yychar), old(pos))
      ensures status.Ok? ==>
        var lr := TopLr(S.AsGraph(), 0);
        && pos > old(pos) && NoAction(lr, old(pos), pos - 1)
        && (Defaulted(S.G.lalr, lr) || Act(S.G.lalr, lr, TokenAt(S.G.lalr, input, pos - 1)) != Error)
      ensures status.Abort? ==> yychar == EOF && NoAction(TopLr(S.AsGraph(), 0), old(pos), pos)
    {
      hide GraphInv, ValidTables, ValidGlr, Deterministic, EdgesOk, Act, Defaulted, GlrValues.Good, Driver.NoAction,
        SoundValues, ResolvedAbove, TokenAt;
      SingleTop(S.G.lalr, S.AsGraph(), posn, S.owner);
      assert S.items[S.tops[0]] == S.AsGraph().items[S.tops[0]];
      var left, lr := fuel, S.items[S.tops[0]].lr;
      NothingSkipped(lr);
      while left > 0
        invariant Valid() && ReadLast(old(yychar), old(pos)) && NoAction(lr, old(pos), pos)
        decreases left
      {
        left := left - 1;
        if yychar == EOF {
          return Abort;
        }
        var found := SkipOne(lr);
        if found {
          return Ok;
        }
        OneMoreSkipped(lr, old(pos), pos - 1);
      }
      status := OutOfFuel;
    }

    lemma NothingSkipped(lr: nat)
      requires S.G.lalr.Ranges() && lr < S.G.lalr.States()
      ensures forall from: nat :: NoAction(lr, from, from)
    {
    }

    /** State s shifts the token `error`. */
    ghost predicate TakesError(s: nat)
      requires S.G.lalr.Ranges()
    {
      s < S.G.lalr.States() && Act(S.G.lalr, s, TERROR).Shift?
    }

    /** None of the states from the n-th on does. */
    ghost predicate NoneTakesError(p: seq<nat>, n: nat)
      requires S.G.lalr.Ranges()
    {
      forall i {:trigger p[i]} | n <= i < |p| :: !TakesError(p[i])
    }

    /** The stack q is p down to the topmost state that shifts `error`, with `error` shifted. */
    ghost predicate LandsOn(p: seq<nat>, q: seq<nat>)
      requires S.G.lalr.Ranges()
    {
      exists i: nat {:trigger p[i]} :: i < |p| && TakesError(p[i]) && NoneTakesError(p, i + 1)
        && q == p[..i + 1] + [Act(S.G.lalr, p[i], TERROR).to]
    }

    /** The one stack is contiguous, and consists of the first states of p; the others do not
        shift `error`. */
    ghost predicate PoppedTo(p: seq<nat>)
      reads this, S, S.items
    {
      && Valid() && S.splitPoint == NULL && S.tops == [S.nextFree - 1] && NotFinal(S.AsGraph())
      && S.nextFree <= |p| && NoneTakesError(p, S.nextFree)
      && LrChain(S.AsGraph().items, S.nextFree - 1) == p[..S.nextFree]
    }

    /** What is on top then. */
    lemma PoppedTop(p: seq<nat>)
      requires PoppedTo(p) && S.nextFree > 0
      ensures S.nextFree <= S.items.Length && S.items[S.nextFree - 1].State? && S.nextFree <= |p|
      ensures S.items[S.nextFree - 1].lr == p[S.nextFree - 1] < S.G.lalr.States()
      ensures S.items[S.nextFree - 1].pred == S.nextFree - 2
    {
      hide GraphInv, ValidTables, ValidGlr, Deterministic, EdgesOk, Act, GlrValues.Good, LrChain, Driver.NoneTakesError,
        NotFinalIn;
      ghost var g := S.AsGraph();
      OneLess(S.G.lalr, g, S.owner);
      ChainCut(g);
      assert S.items[S.nextFree - 1] == g.items[|g.items| - 1];
      SingleTop(S.G.lalr, g, g.items[|g.items| - 1].posn, S.owner);
    }

    /** The top state, which does not shift `error`, is popped. */
    method PopState(ghost p: seq<nat>)
      requires PoppedTo(p) && S.nextFree > 0 && !TakesError(p[S.nextFree - 1])
      modifies S`tops, S`nextFree, S`spaceLeft
      ensures PoppedTo(p) && S.nextFree == old(S.nextFree) - 1
    {
      hide GraphInv, ValidTables, ValidGlr, Deterministic, EdgesOk, Act, GlrValues.Good, LrChain, Driver.NoneTakesError,
        Driver.TakesError;
      ghost var g := S.AsGraph();
      PoppedTop(p);
      OneLess(S.G.lalr, g, S.owner);
      ChainCut(g);
      NoneBelow(p, |g.items|);
      S.tops := [S.items[S.tops[0]].pred];
      S.nextFree := S.nextFree - 1;
      S.spaceLeft := S.spaceLeft + 1;
      assert S.AsGraph() == Truncated(g, |g.items| - 1);
    }

    /** The top state shifts `error`. */
    method PushError(to: nat, ghost p: seq<nat>) returns (status: Status)
      requires PoppedTo(p) && ErrorAcyclic(S.G.lalr) && S.nextFree > 0 && p[S.nextFree - 1] < S.G.lalr.States()
      requires Act(S.G.lalr, p[S.nextFree - 1], TERROR) == Action.Shift(to)
      modifies S, S.items
      ensures S.items == old(S.items) || fresh(S.items)
      ensures status.Ok? || (status.Exhausted? && S.Full())
      ensures status.Ok? ==>
        Valid() && S.splitPoint == NULL && |S.tops| == 1 && S.tops[0] != NULL
        && Single(S.AsGraph(), S.AsGraph().items[S.tops[0]].posn)
        && LandsOn(p, LrChain(S.AsGraph().items, S.tops[0]))
    {
      hide GraphInv, ValidTables, ValidGlr, Deterministic, EdgesOk, Act, GlrValues.Good, Acyclic, ErrorAcyclic, LrChain,
        Driver.NoneTakesError, Driver.LandsOn, SoundValues, AddState;
      ghost var g := S.AsGraph();
      PoppedTop(p);
      Landed(p, |g.items|);
      assert S.items[S.tops[0]] == g.items[|g.items| - 1];
      var top := S.items[S.tops[0]];
      ErrorPushed(g, top, to);
      status := S.Shift(0, to, top.posn, yylval);
    }

    /** Pop states until one can shift the error token, and shift it. */
    method ShiftError() returns (status: Status)
      requires Valid() && Single(S.AsGraph(), posn) && S.splitPoint == NULL && NotFinal(S.AsGraph())
      requires ErrorAcyclic(S.G.lalr)
      modifies S, S.items
      ensures S.items == old(S.items) || fresh(S.items)
      ensures status.Ok? || (status.Exhausted? && S.Full()) || status.Abort?
      ensures status.Ok? ==>
        Valid() && S.splitPoint == NULL && |S.tops| == 1 && S.tops[0] != NULL
        && Single(S.AsGraph(), S.AsGraph().items[S.tops[0]].posn)
        && LandsOn(old(LrChain(S.AsGraph().items, S.tops[0])), LrChain(S.AsGraph().items, S.tops[0]))
      ensures status.Abort? ==> NoneTakesError(old(LrChain(S.AsGraph().items, S.tops[0])), 0)
    {
      hide GraphInv, ValidTables, ValidGlr, Deterministic, EdgesOk, Act, GlrValues.Good, Acyclic, ErrorAcyclic, LrChain,
        Driver.NoneTakesError, Driver.LandsOn, NotFinalIn, ResolvedAbove;
      ghost var p := LrChain(S.AsGraph().items, S.tops[0]);
      PoppedNone(p);
      while S.tops[0] != NULL
        invariant S.items == old(S.items) && PoppedTo(p)
        decreases S.nextFree
      {
        PoppedTop(p);
        var action := Act(S.G.lalr, S.items[S.tops[0]].lr, TERROR);
        if action.Shift? {
          status := PushError(action.to, p);
          return;
        }
        PopState(p);
      }
      status := Abort;
    }

    lemma PoppedNone(p: seq<nat>)
      requires Valid() && Single(S.AsGraph(), posn) && S.splitPoint == NULL && NotFinal(S.AsGraph())
      requires p == LrChain(S.AsGraph().items, S.tops[0])
      ensures PoppedTo(p)
    {
      hide GraphInv, ValidTables, ValidGlr, Deterministic, EdgesOk, Act, GlrValues.Good, LrChain, Driver.NoneTakesError,
        NotFinalIn, ResolvedAbove;
      OneLess(S.G.lalr, S.AsGraph(), S.owner);
      ChainCut(S.AsGraph());
      NoneAbove(p);
    }

    /** The states of a contiguous stack, one by one. */
    lemma ChainCut(g: GlrGraph.Graph)
      requires S.G.lalr.Ranges() && GraphInv(S.G.lalr, g, S.owner) && g.split == NULL && |g.items| > 0
      ensures var n, h := |g.items|, Truncated(g, |g.items| - 1);
        && |LrChain(g.items, n - 1)| == n && LrChain(g.items, n - 1)[n - 1] == g.items[n - 1].lr
        && LrChain(h.items, n - 2) == LrChain(g.items, n - 1)[..n - 1]
    {
      hide Positions, Automaton, Unique, Derivations, LiveOwned, Outgrown, Forest;
      var n, h := |g.items|, Truncated(g, |g.items| - 1);
      assert g.items[n - 1].State?;
      ContiguousChain(g, n - 1);
      ChainFrame(h.items, g.items, n - 2, 0);
    }

    lemma {:induction false} ContiguousChain(g: GlrGraph.Graph, i: nat)
      requires Links(g) && g.split == NULL && i < |g.items|
      ensures GlrGraph.Step(g.items, i) && g.items[i].pred == i - 1 && |LrChain(g.items, i)| == i + 1
    {
      assert g.items[i].State?;
      if i > 0 {
        ContiguousChain(g, i - 1);
      }
    }

    lemma NoneAbove(p: seq<nat>)
      requires S.G.lalr.Ranges()
      ensures NoneTakesError(p, |p|)
    {
    }

    lemma NoneBelow(p: seq<nat>, n: nat)
      requires S.G.lalr.Ranges() && 0 < n <= |p| && NoneTakesError(p, n) && !TakesError(p[n - 1])
      ensures NoneTakesError(p, n - 1)
    {
      hide Driver.TakesError;
    }

    lemma Landed(p: seq<nat>, n: nat)
      requires S.G.lalr.Ranges() && 0 < n <= |p| && NoneTakesError(p, n) && TakesError(p[n - 1])
      ensures LandsOn(p, p[..n] + [Act(S.G.lalr, p[n - 1], TERROR).to])
    {
      hide Act, Driver.NoneTakesError;
      var i: nat := n - 1;
      assert TakesError(p[i]) && NoneTakesError(p, i + 1);
    }

    lemma ErrorPushed(g: GlrGraph.Graph, top: Item, to: nat)
      requires Configured() && ErrorAcyclic(S.G.lalr) && GraphInv(S.G.lalr, g, S.owner) && NotFinal(g)
      requires g.split == NULL && |g.tops| == 1 && 0 <= g.tops[0] < |g.items| && g.items[g.tops[0]] == top && top.State?
      requires top.lr < S.G.lalr.States() && Act(S.G.lalr, top.lr, TERROR) == Action.Shift(to)
      ensures var h := AddState(g, 0, to, top.posn, Resolved(yylval));
        GraphInv(S.G.lalr, h, S.owner) && Single(h, top.posn)
        && LrChain(h.items, h.tops[0]) == LrChain(g.items, g.tops[0]) + [to]
    {
      hide GraphInv, ValidTables, ValidGlr, Deterministic, EdgesOk, Act, GlrValues.Good, MayFollow, Acyclic, LrChain;
      PushChain(S.G.lalr, g, to, top.posn, yylval, S.owner);
      ActIsOk(S.G.lalr, top.lr, TERROR);
      AcyclicIs(S.G);
      ErrorFollows(S.G.lalr, g, to);
      PushSingle(S.G.lalr, g, TERROR, to, top.posn, yylval, S.owner);
    }

    /** yyrecoverSyntaxError; afterwards the parser stands where its stack does. */
    method Recover(fuel: nat) returns (status: Status)
      requires Valid() && Popped(S.AsGraph(), posn) && NotFinal(S.AsGraph()) && ErrorAcyclic(S.G.lalr)
      modifies this`yychar, this`yylval, this`pos, this`posn, this`errState, this`recovered, S, S.items
      ensures S.items == old(S.items) || fresh(S.items)
      ensures status.Ok? || (status.Exhausted? && S.Full()) || status.Abort? || status.OutOfFuel?
      ensures status.Ok? ==> Valid() && Faithful() && Single(S.AsGraph(), posn) && errState == 3
      ensures recovered
      ensures old(errState) == 3 ==>
        && ReadLast(old(yychar), old(pos)) && (status.Abort? ==> yychar == EOF)
        && (status.Ok? ==>
              LrChain(S.AsGraph().items, S.tops[0]) == old(LrChain(S.AsGraph().items, S.tops[0]))
              && pos > old(pos) && NoAction(TopLr(S.AsGraph(), 0), old(pos), pos - 1))
      ensures old(errState) != 3 ==>
        && pos == old(pos) && yychar == old(yychar)
        && (status.Ok? ==> LandsOn(old(LrChain(S.AsGraph().items, S.tops[0])), LrChain(S.AsGraph().items, S.tops[0])))
        && (status.Abort? ==> NoneTakesError(old(LrChain(S.AsGraph().items, S.tops[0])), 0))
    {
      hide GraphInv, ValidTables, ValidGlr, Deterministic, EdgesOk, ResolvedAbove, Contents, ErrorAcyclic, Acyclic,
        LrChain, SoundValues, GlrValues.Good, AllFollow, Driver.Reads, Driver.NoAction, Driver.LandsOn,
        Driver.NoneTakesError;
      recovered := true;
      PoppedSingle(S.AsGraph(), posn);
      assert S.items[S.tops[0]] == S.AsGraph().items[S.tops[0]];
      if errState == 3 {
        status := SkipTokens(fuel);
        if status == Ok {
          posn := S.items[S.tops[0]].posn;
        }
        return;
      }
      posn := S.items[S.tops[0]].posn;
      CompressOne(posn);
      errState := 3;
      status := ShiftError();
      if status == Ok {
        assert S.items[S.tops[0]] == S.AsGraph().items[S.tops[0]];
        posn := S.items[S.tops[0]].posn;
      }
    }

    // -------------------------------------------------------------- the whole parse

    /** yyparse.  Fuel bounds every loop, since a parse need not end.  Whatever happens,
        the invariants hold between any two operations (they are the operations'
        preconditions); and when the parser accepts by itself, what is left of all its
        stacks is one: the bottom, the start symbol, the end of input.  If there has been no
        error, the value of the start symbol is that of a derivation of all the input, and the
        automaton accepts the input.  And there is an error only if it does not, or if an action
        raises one: no sentence is rejected. */
    method YyParse(fuel: nat) returns (status: Status)
      requires Valid() && S.AsGraph() == GlrGraph.Graph([], NULL, [NULL]) && posn == 0 && yychar == EMPTY
      requires pos == 0 && !recovered && ErrorAcyclic(S.G.lalr)
      modifies this, S, S.items
      ensures status.Accept? ==>
        && Valid() && |S.tops| == 1
        && var p := LrChain(S.AsGraph().items, S.tops[0]);
           && |p| == 3 && p[0] == 0 && p[1] < S.G.lalr.States() && S.G.lalr.stos[p[1]] == S.G.lalr.start
           && p[2] == S.G.lalr.final
           && (!recovered ==> Follows(S.G, input, posn, p) && Reads())
      ensures status.Accept? && !recovered ==> Parsed(S.AsGraph(), posn) && !Rejected(S.G, input)
      ensures !status.Ok? && !status.UserError?
      ensures S.G.lalr.Ranges() && if recovered then Excused() else Reasoned(status)
      ensures !Rejected(S.G, input) && GlrValues.Obliging(E) ==>
        !recovered && (status.Accept? || (status.Exhausted? && S.Full()) || status.OutOfFuel?)
    {
      hide GraphInv, ValidTables, ValidGlr, Deterministic, EdgesOk, FinalOk, Act, ResolvedAbove, Follows, TokenAt,
        SoundValues, SoundValue, GlrValues.Good, AllFollow, Parsed, Driver.Complete, Rejected, GlrValues.Calm,
        GlrValues.SomeAction;
      status := PushBottom();
      if status != Ok {
        return;
      }
      var left := fuel;
      while left > 0
        invariant (S.items == old(S.items) || fresh(S.items)) && Valid() && Faithful() && Single(S.AsGraph(), posn)
        invariant Complete() && (recovered ==> Excused())
        decreases left
      {
        left := left - 1;
        status := Stage(left);
        if status != Ok {
          if status == Accept {
            Accepted();
          }
          return;
        }
      }
      status := OutOfFuel;
    }

    /** Deterministic parsing, and nondeterministic parsing if it ends in a conflict. */
    method Attempt(fuel: nat) returns (status: Status)
      requires Valid() && Faithful() && Single(S.AsGraph(), posn) && Complete()
      modifies this`yychar, this`yylval, this`pos, this`log, this`posn, this`errState, this`nerrs, S, S.items
      ensures S.items == old(S.items) || fresh(S.items)
      ensures status.Ok? ==> Valid() && Faithful() && Single(S.AsGraph(), posn) && Complete()
      ensures status.UserError? ==> Valid() && Popped(S.AsGraph(), posn) && NotFinal(S.AsGraph())
      ensures status.UserError? && !recovered ==> Blamed()
      ensures status.Accept? ==>
        Valid() && Faithful() && Single(S.AsGraph(), posn) && TopLr(S.AsGraph(), 0) == S.G.lalr.final
      ensures Reasoned(status)
    {
      hide GraphInv, ValidTables, ValidGlr, Deterministic, EdgesOk, FinalOk, Act, ResolvedAbove, AllFollow, SoundValues,
        GlrValues.Good, NoneYoung, Driver.Complete, Rejected, FacesConflict, GlrValues.Calm, GlrValues.SomeAction,
        Driver.EndsHere, Driver.Goes, Driver.ActionSays, AllGoing, TopsDistinct;
      status := Standard(fuel);
      if status == Ok {
        status := Nondeterministic(fuel);
      }
    }

    /** An attempt, and recovery if it ends in an error. */
    method Stage(fuel: nat) returns (status: Status)
      requires Valid() && Faithful() && Single(S.AsGraph(), posn) && ErrorAcyclic(S.G.lalr) && Complete()
      requires recovered ==> Excused()
      modifies this, S, S.items
      ensures S.items == old(S.items) || fresh(S.items)
      ensures !status.UserError?
      ensures status.Ok? ==> Valid() && Faithful() && Single(S.AsGraph(), posn) && Complete()
      ensures status.Accept? ==>
        Valid() && Faithful() && Single(S.AsGraph(), posn) && TopLr(S.AsGraph(), 0) == S.G.lalr.final
      ensures if recovered then Excused() else Reasoned(status)
    {
      hide GraphInv, ValidTables, ValidGlr, Deterministic, EdgesOk, FinalOk, Act, ResolvedAbove, AllFollow, SoundValues,
        GlrValues.Good, ErrorAcyclic, Covering, GlrValues.Calm, GlrValues.SomeAction, Driver.Blamed, Driver.Excused;
      status := Attempt(fuel);
      if status == UserError {
        if !recovered {
          BlamedIsExcused();
        }
        status := Recover(fuel);
      }
    }

    /** The input is not one that the automaton accepts, or some action raises an error. */
    ghost predicate Excused()
      requires S.G.lalr.Ranges()
    {
      Rejected(S.G, input) || GlrValues.SomeAction(E, GlrValues.YyErr)
    }

    lemma BlamedIsExcused()
      requires S.G.lalr.Ranges() && Blamed()
      ensures Excused()
    {
      hide Rejected;
      if !Rejected(S.G, input) {
        SaidIsReasoned(|log| - 1, log[|log|-1], UserError);
      }
    }

    /** yyparse as far as its first error.  This much does not ask of the grammar that it has
        no cycles when `error` derives nothing. */
    method ParseToError(fuel: nat) returns (status: Status)
      requires Valid() && S.AsGraph() == GlrGraph.Graph([], NULL, [NULL]) && posn == 0 && yychar == EMPTY
      requires pos == 0 && !recovered
      modifies this`yychar, this`yylval, this`pos, this`log, this`posn, this`errState, this`nerrs, S, S.items
      ensures status.Accept? ==>
        && Valid() && |S.tops| == 1
        && Follows(S.G, input, posn, LrChain(S.AsGraph().items, S.tops[0])) && Parsed(S.AsGraph(), posn)
      ensures status.UserError? ==> S.G.lalr.Ranges() && Blamed()
      ensures !status.Ok?
      ensures Reasoned(status)
    {
      hide GlrValues.Calm, GlrValues.SomeAction, GraphInv, ValidTables, ValidGlr, Deterministic, EdgesOk, FinalOk, Act,
        ResolvedAbove, Follows, TokenAt, SoundValues, SoundValue, GlrValues.Good, AllFollow, Parsed, Driver.Complete,
        Driver.Blamed;
      status := PushBottom();
      if status != Ok {
        return;
      }
      var left := fuel;
      while left > 0
        invariant (S.items == old(S.items) || fresh(S.items)) && Valid() && Faithful() && Single(S.AsGraph(), posn)
        invariant Complete()
        decreases left
      {
        left := left - 1;
        status := Attempt(left);
        if status != Ok {
          if status == Accept {
            Accepted();
          }
          return;
        }
      }
      status := OutOfFuel;
    }

    lemma Accepted()
      requires Valid() && Faithful() && Single(S.AsGraph(), posn)
      requires TopLr(S.AsGraph(), 0) == S.G.lalr.final
      ensures var p := LrChain(S.AsGraph().items, S.tops[0]);
        && |p| == 3 && p[0] == 0 && p[1] < S.G.lalr.States() && S.G.lalr.stos[p[1]] == S.G.lalr.start
        && p[2] == S.G.lalr.final && (!recovered ==> Follows(S.G, input, posn, p) && Reads())
      ensures !recovered ==> Parsed(S.AsGraph(), posn) && !Rejected(S.G, input)
    {
      hide GraphInv, ValidTables, ValidGlr, Deterministic, EdgesOk, FinalOk, Act, ResolvedAbove, Follows, SoundValues,
        GlrValues.Good, AllFollow, Parsed;
      AcceptedStack(S.AsGraph());
      if !recovered {
        AcceptedFollows();
        AcceptedValue(S.AsGraph());
      }
    }

    /** The first state is pushed. */
    method PushBottom() returns (status: Status)
      requires Valid() && S.AsGraph() == GlrGraph.Graph([], NULL, [NULL]) && posn == 0 && yychar == EMPTY
      requires pos == 0 && !recovered
      modifies S, S.items
      ensures S.items == old(S.items) || fresh(S.items)
      ensures status.Ok? || (status.Exhausted? && S.Full())
      ensures status == Ok ==> Valid() && Faithful() && Single(S.AsGraph(), posn) && Complete()
    {
      hide GraphInv, ValidTables, ValidGlr, Deterministic, EdgesOk, FinalOk, Act, ResolvedAbove, Follows, TokenAt,
        SoundValues, SoundValue, GlrValues.Good, AllFollow, Covering, Chains;
      BottomInv(S.G.lalr, yylval, S.owner);
      status := S.Shift(0, 0, 0, yylval);
      BottomCovers(S.G, input, S.AsGraph());
      BottomFollows(S.G, input, S.AsGraph());
      SoundBottom(E, input, lexval, S.AsGraph().items);
    }

    /** The state below the top of the one stack has a value, that of a parse tree of the start
        symbol whose leaves are the first n - 1 tokens; the n-th is the end of the input. */
    ghost predicate Parsed(g: GlrGraph.Graph, n: nat)
      requires E.T.Ranges()
    {
      && WholeInput(E.T, input, n)
      && |g.tops| == 1 && GlrGraph.Step(g.items, g.tops[0]) && GlrGraph.Step(g.items, g.items[g.tops[0]].pred)
      && var sem := g.items[g.items[g.tops[0]].pred].sem;
         sem.Resolved? && exists t {:trigger Parses(E, input, lexval, t, n - 1, sem.val)} ::
           Parses(E, input, lexval, t, n - 1, sem.val)
    }

    lemma AcceptedFollows()
      requires Valid() && Faithful() && !recovered && |S.tops| == 1 && S.tops[0] != NULL
      requires var p := LrChain(S.AsGraph().items, S.tops[0]); p != [] && p[|p|-1] == S.G.lalr.final
      ensures Follows(S.G, input, posn, LrChain(S.AsGraph().items, S.tops[0])) && WholeInput(E.T, input, posn)
    {
      hide GraphInv, ValidTables, ValidGlr, Deterministic, GlrValues.Good, Follows, WholeInput, LrChain, SoundValues;
      FollowsWholeInput(S.G, input, posn, LrChain(S.AsGraph().items, S.tops[0]));
    }

    lemma AcceptedValue(g: GlrGraph.Graph)
      requires Configured() && GraphInv(S.G.lalr, g, S.owner) && Single(g, posn) && Sound(g.items)
      requires g.items[g.tops[0]].lr == S.G.lalr.final && WholeInput(E.T, input, posn)
      ensures Parsed(g, posn)
    {
      hide GraphInv, ValidTables, ValidGlr, Deterministic, SoundValues, SoundValue, ResolvedAbove, KeyOf, Parses,
        WholeInput, NonCyclic, EndOnlyLast;
      AcceptedItems(g);
      var i := g.items[g.tops[0]].pred;
      SoundState(E, input, lexval, g.items, i);
      TablesEnd(E.T);
      SoundParses(E, input, lexval, posn - 1, g.items[i].sem.val);
    }

    lemma AcceptedItems(g: GlrGraph.Graph)
      requires Configured() && GraphInv(S.G.lalr, g, S.owner) && Single(g, posn)
      requires g.items[g.tops[0]].lr == S.G.lalr.final
      ensures GlrGraph.Step(g.items, g.tops[0]) && GlrGraph.Step(g.items, g.items[g.tops[0]].pred) && posn > 0
      ensures var i := g.items[g.tops[0]].pred;
        g.items[i].sem.Resolved? && KeyOf(E.T, g.items, i) == Key(E.T.start, 0, posn - 1)
    {
      hide GraphInv, Deterministic, ValidGlr, GlrValues.Good, ValidTables, ResolvedAbove, KeyOf;
      AcceptedStack(g);
      InvIs(S.G.lalr, g, S.owner);
      var top := g.tops[0];
      StatesStep(g, top);
      ThreeStates(g, top);
      ThreeKeys(g, top);
      ValueBelow(g);
    }

    lemma ThreeStates(g: GlrGraph.Graph, top: int)
      requires Links(g) && GlrGraph.Step(g.items, top) && |LrChain(g.items, top)| == 3
      ensures GlrGraph.Step(g.items, g.items[top].pred)
      ensures g.items[g.items[top].pred].pred == 0 && 0 < |g.items| && g.items[0].State? && g.items[0].pred == NULL
      ensures LrChain(g.items, top)[2] == g.items[top].lr
      ensures LrChain(g.items, top)[1] == g.items[g.items[top].pred].lr
    {
      hide LinksAbove;
      var i := g.items[top].pred;
      assert LrChain(g.items, top) == LrChain(g.items, i) + [g.items[top].lr];
      assert GlrGraph.Step(g.items, i);
      var j := g.items[i].pred;
      assert LrChain(g.items, i) == LrChain(g.items, j) + [g.items[i].lr];
      assert GlrGraph.Step(g.items, j);
      BottomItem(g, j);
    }

    lemma ThreeKeys(g: GlrGraph.Graph, top: int)
      requires S.G.lalr.Ranges() && E.T == S.G.lalr && GraphInv(E.T, g, S.owner)
      requires GlrGraph.Step(g.items, top) && GlrGraph.Step(g.items, g.items[top].pred)
      requires g.items[g.items[top].pred].pred == 0 && g.items[0].State? && g.items[0].pred == NULL
      requires g.items[top].lr < E.T.States() && E.T.stos[g.items[top].lr] == EOF
      requires g.items[g.items[top].pred].lr < E.T.States() && E.T.stos[g.items[g.items[top].pred].lr] == E.T.start
      ensures g.items[top].posn > 0
      ensures KeyOf(E.T, g.items, g.items[top].pred) == Key(E.T.start, 0, g.items[top].posn - 1)
    {
      hide GraphCore, Rooted, GlrOptions.Tidy, GlrOptions.NoneEmpty;
      assert Grounded(E.T, RankOf(E.T), g.items, top);
      assert Grounded(E.T, RankOf(E.T), g.items, 0);
    }

    lemma ValueBelow(g: GlrGraph.Graph)
      requires Links(g) && Single(g, posn) && GlrGraph.Step(g.items, g.tops[0])
      requires GlrGraph.Step(g.items, g.items[g.tops[0]].pred)
      ensures g.items[g.items[g.tops[0]].pred].sem.Resolved?
    {
      var i := g.items[g.tops[0]].pred;
      assert g.items[i].State?;
      if g.split != NULL && i > g.split {
        assert ResolvedAbove(g.items, g.split, i);
      }
    }

    lemma AcceptedStack(g: GlrGraph.Graph)
      requires S.G.lalr.Ranges() && ValidTables(S.G.lalr) && GraphInv(S.G.lalr, g, S.owner) && Single(g, posn)
      requires g.items[g.tops[0]].lr == S.G.lalr.final
      ensures var p := LrChain(g.items, g.tops[0]);
        |p| == 3 && p[0] == 0 && (forall i | 0 <= i < 3 :: p[i] < S.G.lalr.States())
        && S.G.lalr.stos[p[1]] == S.G.lalr.start && p[2] == S.G.lalr.final && S.G.lalr.stos[p[2]] == EOF
    {
      hide Positions, Unique, Derivations, ActionOk, LiveOwned, Outgrown, Forest;
      StatesStep(g, g.tops[0]);
      var p := LrChain(g.items, g.tops[0]);
      assert LrTables.Stack(S.G.lalr, p);
      FinalStack(S.G.lalr, p);
    }
  }
}
