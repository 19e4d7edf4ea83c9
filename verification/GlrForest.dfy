/** What the items of the graph-structured stack derive: every option is a derivation, by
    its rule, of a symbol from a stretch of the input; linked options, and a state and its
    options, derive the same symbol from the same stretch. */
module GlrForest {
  import opened LrTables
  import opened GlrGraph
  import opened GlrOptions
  import opened GlrResolve
  import GlrOps

  // ---------------------------------------------------------------- what items stand for

  function PosnAt(items: seq<Item>, i: int): nat {
    if 0 <= i < |items| && items[i].State? then items[i].posn else 0
  }

  /** A state stands for its accessing symbol, derived from what lies between its
      predecessor and itself; an option for the left-hand side of its rule.  (The bottom
      stands for nothing in particular.) */
  function KeyOf(T: Tables, items: seq<Item>, x: int): Key {
    if 0 <= x < |items| then
      match items[x]
      case State(lr, pred, posn, _) =>
        if pred < 0 then Key(EOF, 0, 0) else Key(if lr < |T.stos| then T.stos[lr] else 0, PosnAt(items, pred), posn)
      case Opt(rule, state, _, _) =>
        if rule < |T.r1| && rule < |T.r2| then
          Key(T.r1[rule], PosnAt(items, Walk(items, state, T.r2[rule])), PosnAt(items, state))
        else Key(0, 0, 0)
    else Key(0, 0, 0)
  }

  ghost function Keys(T: Tables, items: seq<Item>): int -> Key {
    x => KeyOf(T, items, x)
  }

  /** The right-hand side of option o is there, symbol by symbol. */
  ghost predicate Rooted(T: Tables, items: seq<Item>, o: int)
    requires T.Ranges()
  {
    && 0 <= o < |items| && items[o].Opt? && 1 < items[o].rule < T.Rules()
    && 0 <= items[o].state < |items| && items[o].state < o && items[items[o].state].State?
    && Step(items, Walk(items, items[o].state, T.r2[items[o].rule]))
    && (forall k {:trigger Walk(items, items[o].state, k)} | 0 <= k < T.r2[items[o].rule] ::
          && Step(items, Walk(items, items[o].state, k))
          && items[Walk(items, items[o].state, k)].lr < T.States()
          && T.stos[items[Walk(items, items[o].state, k)].lr]
             == T.rhs[items[o].rule][T.r2[items[o].rule] - 1 - k])
  }

  // ---------------------------------------------------------------- grammars without cycles

  /** A ranking of symbols and a set of symbols that may derive nothing. */
  datatype Ranking = Ranking(height: nat -> nat, nullable: nat -> bool)

  /** The symbols of a right-hand side, that at k excepted, may derive nothing. */
  ghost predicate OthersNullable(rk: Ranking, rhs: seq<nat>, k: int) {
    forall j {:trigger rhs[j]} | 0 <= j < |rhs| && j != k :: rk.nullable(rhs[j])
  }

  /** The grammar has no cycles: where a symbol derives another and nothing else, the other
      ranks lower.  Symbols that can derive the empty text are nullable. */
  ghost predicate NonCyclic(T: Tables, rk: Ranking)
    requires T.Ranges()
  {
    && (forall r {:trigger T.rhs[r]} | 1 < r < T.Rules() && OthersNullable(rk, T.rhs[r], -1) :: rk.nullable(T.r1[r]))
    && (forall r, k {:trigger T.rhs[r][k]} | 1 < r < T.Rules() && 0 <= k < |T.rhs[r]|
      && OthersNullable(rk, T.rhs[r], k) ::
          rk.height(T.rhs[r][k]) < rk.height(T.r1[r]))
  }

  function Span(k: Key): nat { if k.from < k.to then k.to - k.from else 0 }

  /** a derives from less than b, or from as much and ranks lower. */
  ghost predicate Less(rk: Ranking, a: Key, b: Key) {
    Span(a) < Span(b) || (Span(a) == Span(b) && rk.height(a.sym) < rk.height(b.sym))
  }

  ghost function Below(rk: Ranking, k: Key): iset<Key> {
    iset j | Less(rk, j, k)
  }

  // ---------------------------------------------------------------- the forest

  predicate IsToken(T: Tables, x: nat) { x < T.ntokens && x != TERROR }

  /** State s follows its predecessor: by one token if it stands for a token, and by none
      only if it stands for a nullable symbol. */
  ghost predicate Grounded(T: Tables, rk: Ranking, items: seq<Item>, s: int)
    requires T.Ranges()
  {
    && Step(items, s) && items[s].lr < T.States()
    && (items[s].pred < 0 ==> items[s].posn == 0)
    && (items[s].pred >= 0 ==>
          && items[items[s].pred].State? && items[items[s].pred].posn <= items[s].posn
          && (items[items[s].pred].posn == items[s].posn ==> rk.nullable(T.stos[items[s].lr]))
          && (IsToken(T, T.stos[items[s].lr]) ==> items[s].posn == items[items[s].pred].posn + 1))
  }

  /** What does not change while values are resolved. */
  ghost predicate Skeleton(T: Tables, rk: Ranking, items: seq<Item>)
    requires T.Ranges()
  {
    && (forall o {:trigger items[o]} | 0 <= o < |items| && items[o].Opt? :: Rooted(T, items, o))
    && (forall s {:trigger items[s]} | 0 <= s < |items| && items[s].State? :: Grounded(T, rk, items, s))
  }

  /** And what is kept of that which does. */
  ghost predicate Fleshed(T: Tables, bones: seq<Item>, items: seq<Item>) {
    SameBones(bones, items) && Tidy(items, Keys(T, bones)) && NoneEmpty(items)
  }

  // ---------------------------------------------------------------- right-hand sides derive less

  /** The position k links down the right-hand side of option o. */
  function RhsPosn(items: seq<Item>, o: int, k: nat): nat
    requires 0 <= o < |items| && items[o].Opt?
  {
    PosnAt(items, Walk(items, items[o].state, k))
  }

  lemma RhsState(T: Tables, rk: Ranking, items: seq<Item>, o: int, k: nat)
    requires T.Ranges() && Skeleton(T, rk, items) && 0 <= o < |items| && items[o].Opt? && k < T.r2[items[o].rule]
    ensures Rooted(T, items, o)
    ensures var c := Walk(items, items[o].state, k);
      && Step(items, c) && Walk(items, items[o].state, k + 1) == items[c].pred >= 0
      && Grounded(T, rk, items, c)
      && KeyOf(T, items, c) == Key(T.rhs[items[o].rule][T.r2[items[o].rule] - 1 - k], RhsPosn(items, o, k + 1),
        RhsPosn(items, o, k))
      && RhsPosn(items, o, k + 1) <= RhsPosn(items, o, k)
      && (RhsPosn(items, o, k + 1) == RhsPosn(items, o, k) ==>
        rk.nullable(T.rhs[items[o].rule][T.r2[items[o].rule] - 1 - k]))
  {
    hide Walk, Skeleton;
    OptionIsRooted(T, rk, items, o);
    var c := Walk(items, items[o].state, k);
    WalkUp(items, items[o].state, k);
    StepBelow(items, items[o].state, k + 1, T.r2[items[o].rule]);
    StateIsGrounded(T, rk, items, c);
  }

  /** Where links go on, there is a state. */
  lemma {:induction false} StepBelow(items: seq<Item>, i: int, k: nat, n: nat)
    requires k <= n && Step(items, Walk(items, i, n))
    ensures Step(items, Walk(items, i, k))
    decreases n
  {
    if n > 0 {
      if !Step(items, i) {
        WalkNothing(items, n);
      } else if k > 0 {
        StepBelow(items, items[i].pred, k - 1, n - 1);
      }
    }
  }

  lemma WalkNothing(items: seq<Item>, n: nat)
    ensures Walk(items, NULL, n) == NULL
  {
  }

  lemma {:induction false} RhsPosnDown(T: Tables, rk: Ranking, items: seq<Item>, o: int, k: nat, m: nat)
    requires T.Ranges() && Skeleton(T, rk, items) && 0 <= o < |items| && items[o].Opt?
    requires items[o].rule < T.Rules() && k <= m <= T.r2[items[o].rule]
    ensures RhsPosn(items, o, m) <= RhsPosn(items, o, k)
    decreases m - k
  {
    hide Skeleton, RhsPosn, KeyOf, Grounded, Rooted;
    if k < m {
      RhsState(T, rk, items, o, k);
      RhsPosnDown(T, rk, items, o, k + 1, m);
    }
  }

  lemma OptionKeyIs(T: Tables, rk: Ranking, items: seq<Item>, o: int)
    requires T.Ranges() && Skeleton(T, rk, items) && 0 <= o < |items| && items[o].Opt?
    ensures 1 < items[o].rule < T.Rules()
    ensures KeyOf(T, items, o) == Key(T.r1[items[o].rule], RhsPosn(items, o, T.r2[items[o].rule]), RhsPosn(items, o, 0))
  {
    assert Rooted(T, items, o);
  }

  /** In a grammar without cycles, what stands in a right-hand side derives less than the
      option does. */
  lemma RhsIsLess(T: Tables, rk: Ranking, items: seq<Item>, o: int, k: nat)
    requires T.Ranges() && NonCyclic(T, rk) && Skeleton(T, rk, items)
    requires 0 <= o < |items| && items[o].Opt? && k < T.r2[items[o].rule]
    ensures Less(rk, KeyOf(T, items, Walk(items, items[o].state, k)), KeyOf(T, items, o))
  {
    hide Skeleton, RhsPosn, KeyOf, Grounded, Rooted, NonCyclic, OthersNullable;
    OptionKeyIs(T, rk, items, o);
    var r := items[o].rule;
    var n := T.r2[r];
    RhsState(T, rk, items, o, k);
    RhsPosnDown(T, rk, items, o, 0, k);
    RhsPosnDown(T, rk, items, o, k + 1, n);
    if RhsPosn(items, o, k) == RhsPosn(items, o, 0) && RhsPosn(items, o, k + 1) == RhsPosn(items, o, n) {
      OthersDeriveNothing(T, rk, items, o, k);
      RankedLower(T, rk, r, n - 1 - k);
    }
  }

  lemma RankedLower(T: Tables, rk: Ranking, r: nat, k: nat)
    requires T.Ranges() && NonCyclic(T, rk) && 1 < r < T.Rules() && k < |T.rhs[r]| && OthersNullable(rk, T.rhs[r], k)
    ensures rk.height(T.rhs[r][k]) < rk.height(T.r1[r])
  {
  }

  lemma OthersDeriveNothing(T: Tables, rk: Ranking, items: seq<Item>, o: int, k: nat)
    requires T.Ranges() && Skeleton(T, rk, items) && 0 <= o < |items| && items[o].Opt?
    requires 1 < items[o].rule < T.Rules() && k < T.r2[items[o].rule]
    requires RhsPosn(items, o, k) == RhsPosn(items, o, 0)
    requires RhsPosn(items, o, k + 1) == RhsPosn(items, o, T.r2[items[o].rule])
    ensures OthersNullable(rk, T.rhs[items[o].rule], T.r2[items[o].rule] - 1 - k)
  {
    hide Skeleton, RhsPosn, KeyOf, Grounded, Rooted;
    var r := items[o].rule;
    var n := T.r2[r];
    assert |T.rhs[r]| == n;
    forall j {:trigger T.rhs[r][j]} | 0 <= j < n && j != n - 1 - k
      ensures rk.nullable(T.rhs[r][j])
    {
      var i := n - 1 - j;
      RhsState(T, rk, items, o, i);
      RhsPosnDown(T, rk, items, o, 0, i);
      RhsPosnDown(T, rk, items, o, i + 1, n);
      if i < k {
        RhsPosnDown(T, rk, items, o, i + 1, k);
      } else {
        RhsPosnDown(T, rk, items, o, k + 1, i);
      }
    }
  }

  // ---------------------------------------------------------------- the options of a state

  /** How the scan is to see the graph when it looks at the options of what stands for k. */
  ghost function ViewAt(T: Tables, rk: Ranking, bones: seq<Item>, k: Key): View {
    View(Keys(T, bones), k, Below(rk, k))
  }

  lemma FleshedOperand(T: Tables, G: Grammar, rk: Ranking, bones: seq<Item>, items: seq<Item>, o: int, k: Key)
    requires T.Ranges() && NonCyclic(T, rk) && Skeleton(T, rk, bones) && SameBones(bones, items)
    requires G.r2 == T.r2 && |G.dprec| == |G.merger| == |T.r2|
    requires 0 <= o < |items| && items[o].Opt? && Keys(T, bones)(o) == k
    ensures Operand(G, items, o, ViewAt(T, rk, bones, k))
  {
    hide Skeleton, KeyOf, NonCyclic, Less;
    var V := ViewAt(T, rk, bones, k);
    assert bones[o].Opt? && items[o].rule == bones[o].rule && items[o].state == bones[o].state;
    assert Rooted(T, bones, o) by { OptionIsRooted(T, rk, bones, o); }
    forall j {:trigger Walk(items, items[o].state, j)} | 0 <= j < G.r2[items[o].rule]
      ensures Step(items, Walk(items, items[o].state, j)) && V.key(Walk(items, items[o].state, j)) in V.below
    {
      BonesWalk(bones, items, bones[o].state, j);
      RhsIsLess(T, rk, bones, o, j);
    }
  }

  lemma StateIsGrounded(T: Tables, rk: Ranking, items: seq<Item>, s: int)
    requires T.Ranges() && Skeleton(T, rk, items) && 0 <= s < |items| && items[s].State?
    ensures Grounded(T, rk, items, s)
  {
    hide Rooted, Grounded;
  }

  lemma OptionIsRooted(T: Tables, rk: Ranking, bones: seq<Item>, o: int)
    requires T.Ranges() && Skeleton(T, rk, bones) && 0 <= o < |bones| && bones[o].Opt?
    ensures Rooted(T, bones, o)
  {
    hide Rooted, Grounded;
  }

  /** Identical options of the same symbol and stretch: their right-hand sides derive the
      same symbols from the same stretches. */
  lemma IdenticalSameKeys(T: Tables, G: Grammar, rk: Ranking, bones: seq<Item>, o0: int, o1: int)
    requires T.Ranges() && Skeleton(T, rk, bones) && G.r2 == T.r2 && |G.dprec| == |G.merger| == |T.r2|
    requires 0 <= o0 < |bones| && 0 <= o1 < |bones| && bones[o0].Opt? && bones[o1].Opt? && Identical(G, bones, o0, o1)
    requires KeyOf(T, bones, o0) == KeyOf(T, bones, o1)
    ensures SameKeys(G, bones, Keys(T, bones), o0, o1)
  {
    hide Skeleton, KeyOf, RhsPosn, Rooted, Grounded;
    var n := T.r2[bones[o0].rule];
    OptionKeyIs(T, rk, bones, o0);
    OptionKeyIs(T, rk, bones, o1);
    forall k {:trigger Walk(bones, bones[o0].state, k)} | 0 <= k < n
      ensures KeyOf(T, bones, Walk(bones, bones[o0].state, k)) == KeyOf(T, bones, Walk(bones, bones[o1].state, k))
    {
      RhsState(T, rk, bones, o0, k);
      RhsState(T, rk, bones, o1, k);
      IdenticalPosn(G, bones, o0, o1, k);
      if k + 1 < n {
        IdenticalPosn(G, bones, o0, o1, k + 1);
      }
    }
  }

  lemma IdenticalPosn(G: Grammar, items: seq<Item>, o0: int, o1: int, k: nat)
    requires 0 <= o0 < |items| && 0 <= o1 < |items| && items[o0].Opt? && items[o1].Opt? && Identical(G, items, o0, o1)
    requires k < G.r2[items[o0].rule]
    ensures RhsPosn(items, o0, k) == RhsPosn(items, o1, k)
  {
    hide Walk;
    assert SamePosn(items, Walk(items, items[o0].state, k), Walk(items, items[o1].state, k));
  }

  /** The options of a state without a value can be scanned, whatever has been pooled before. */
  lemma OptionsAreListed(T: Tables, G: Grammar, rk: Ranking, bones: seq<Item>, items: seq<Item>, s: int)
    requires T.Ranges() && NonCyclic(T, rk) && Skeleton(T, rk, bones) && Fleshed(T, bones, items)
    requires G.r2 == T.r2 && |G.dprec| == |G.merger| == |T.r2|
    requires 0 <= s < |items| && items[s].State? && items[s].sem.Unresolved?
    ensures Listed(G, items, items[s].sem.firstVal, ViewAt(T, rk, bones, KeyOf(T, bones, s)))
    ensures 0 <= items[s].sem.firstVal < |items| && items[items[s].sem.firstVal].Opt?
    ensures KeyOf(T, bones, items[s].sem.firstVal) == KeyOf(T, bones, s)
  {
    hide Skeleton, KeyOf, NonCyclic, Less, Operand, SameKeys, Identical, SameBones, Chain;
    var first, V := items[s].sem.firstVal, ViewAt(T, rk, bones, KeyOf(T, bones, s));
    FirstIsOption(T, bones, items, s);
    TidyChain(items, V.key, first);
    ChainDecreases(items, first);
    forall x {:trigger x in Chain(items, first)} | x in Chain(items, first)
      ensures V.key(x) == V.home && Operand(G, items, x, V)
    {
      FleshedOperand(T, G, rk, bones, items, x, V.home);
    }
    forall x, y {:trigger Identical(G, items, x, y)} |
      x in Chain(items, first) && y in Chain(items, first) && 0 <= x < |items| && 0 <= y < |items|
      && items[x].Opt? && items[y].Opt? && Identical(G, items, x, y)
      ensures SameKeys(G, items, V.key, x, y)
    {
      BonesIdenticalKeys(T, G, rk, bones, items, x, y);
    }
    NotLessItself(rk, V.home);
  }

  lemma NotLessItself(rk: Ranking, k: Key)
    ensures !Less(rk, k, k)
  {
  }

  lemma FirstIsOption(T: Tables, bones: seq<Item>, items: seq<Item>, s: int)
    requires Fleshed(T, bones, items) && 0 <= s < |items| && items[s].State? && items[s].sem.Unresolved?
    ensures 0 <= items[s].sem.firstVal < |items| && items[items[s].sem.firstVal].Opt?
    ensures KeyOf(T, bones, items[s].sem.firstVal) == KeyOf(T, bones, s)
    ensures Tidy(items, Keys(T, bones)) && Link(items, items[s].sem.firstVal)
  {
    hide KeyOf;
    assert Keys(T, bones)(items[s].sem.firstVal) == Keys(T, bones)(s);
  }

  lemma BonesIdenticalKeys(T: Tables, G: Grammar, rk: Ranking, bones: seq<Item>, items: seq<Item>, x: int, y: int)
    requires T.Ranges() && Skeleton(T, rk, bones) && G.r2 == T.r2 && |G.dprec| == |G.merger| == |T.r2|
    requires SameBones(bones, items) && 0 <= x < |items| && 0 <= y < |items| && items[x].Opt? && items[y].Opt?
    requires Identical(G, items, x, y) && KeyOf(T, bones, x) == KeyOf(T, bones, y)
    ensures SameKeys(G, items, Keys(T, bones), x, y)
  {
    hide Skeleton, KeyOf, Identical, SameKeys;
    assert bones[x].Opt? && bones[y].Opt?;
    BonesIdentical(G, bones, items, x, y);
    IdenticalSameKeys(T, G, rk, bones, x, y);
    BonesSameKeys(G, bones, items, Keys(T, bones), x, y);
  }

  // ---------------------------------------------------------------- the forest of a graph

  /** The grammar has no cycles. */
  ghost predicate Acyclic(T: Tables)
    requires T.Ranges()
  {
    exists rk :: NonCyclic(T, rk)
  }

  /** Not even when `error` derives nothing, as it does in recovery, which pushes it without
      reading anything. */
  ghost predicate ErrorAcyclic(T: Tables)
    requires T.Ranges()
  {
    exists rk {:trigger NonCyclic(T, rk)} :: NonCyclic(T, rk) && rk.nullable(TERROR)
  }

  /** A rule that adds no more than `error` to its own left-hand side makes a cycle then. */
  lemma ErrorRuleIsCyclic(T: Tables, r: nat)
    requires T.Ranges() && 1 < r < T.Rules() && T.rhs[r] == [T.r1[r], TERROR]
    ensures !ErrorAcyclic(T)
  {
    forall rk | NonCyclic(T, rk) && rk.nullable(TERROR)
      ensures false
    {
      assert T.rhs[r][0] == T.r1[r] && rk.nullable(T.rhs[r][1]);
      assert !OthersNullable(rk, T.rhs[r], 0);
    }
  }

  /** A ranking that shows it. */
  ghost function RankOf(T: Tables): Ranking
    requires T.Ranges()
  {
    if ErrorAcyclic(T) then
      var rk :| NonCyclic(T, rk) && rk.nullable(TERROR);
      rk
    else if Acyclic(T) then
      var rk :| NonCyclic(T, rk);
      rk
    else Ranking(_ => 0, _ => true)
  }

  ghost predicate Forest(T: Tables, items: seq<Item>)
    requires T.Ranges()
  {
    Skeleton(T, RankOf(T), items) && Tidy(items, Keys(T, items)) && NoneEmpty(items)
  }

  lemma KeyFrame(T: Tables, rk: Ranking, items: seq<Item>, items': seq<Item>, x: int)
    requires T.Ranges() && Skeleton(T, rk, items) && Extends(items, items') && 0 <= x < |items|
    ensures KeyOf(T, items', x) == KeyOf(T, items, x)
  {
    assert items'[x] == items'[x];
    if items[x].Opt? {
      assert Rooted(T, items, x);
      WalkFrame(items, items', items[x].state, T.r2[items[x].rule]);
    } else {
      assert Grounded(T, rk, items, x);
    }
  }

  lemma RootedFrame(T: Tables, rk: Ranking, items: seq<Item>, items': seq<Item>, o: int)
    requires T.Ranges() && Skeleton(T, rk, items) && Extends(items, items') && 0 <= o < |items| && items[o].Opt?
    ensures Rooted(T, items', o)
  {
    hide Skeleton;
    OptionIsRooted(T, rk, items, o);
    var top := items[o].state;
    WalkFrame(items, items', top, T.r2[items[o].rule]);
    forall k {:trigger Walk(items', top, k)} | 0 <= k < T.r2[items[o].rule]
      ensures Step(items', Walk(items', top, k)) && items'[Walk(items', top, k)].lr == items[Walk(items, top, k)].lr
      ensures Walk(items', top, k) == Walk(items, top, k)
    {
      WalkFrame(items, items', top, k);
    }
  }

  lemma GroundedFrame(T: Tables, rk: Ranking, items: seq<Item>, items': seq<Item>, s: int)
    requires T.Ranges() && Skeleton(T, rk, items) && Extends(items, items') && 0 <= s < |items| && items[s].State?
    ensures Grounded(T, rk, items', s)
  {
    hide Rooted;
    assert Grounded(T, rk, items, s);
  }

  /** What items that are new, or have new options, must be. */
  ghost predicate GrowsWell(T: Tables, items: seq<Item>, items': seq<Item>)
    requires T.Ranges()
  {
    && Extends(items, items')
    && (forall i {:trigger items'[i]} | |items| <= i < |items'| ::
          if items'[i].State? then Grounded(T, RankOf(T), items', i)
          else
            && Rooted(T, items', i) && NULL <= items'[i].next < i
            && (items'[i].next != NULL ==>
                  items'[items'[i].next].Opt? && KeyOf(T, items', items'[i].next) == KeyOf(T, items', i)))
    && (forall i {:trigger items'[i]} | 0 <= i < |items'| && items'[i].State? && items'[i].sem.Unresolved?
          && (i < |items| ==> items[i].sem != items'[i].sem) ::
          0 <= items'[i].sem.firstVal < |items'| && items'[items'[i].sem.firstVal].Opt?
          && KeyOf(T, items', items'[i].sem.firstVal) == KeyOf(T, items', i))
  }

  /** The forest grows. */
  lemma ForestGrows(T: Tables, items: seq<Item>, items': seq<Item>)
    requires T.Ranges() && Forest(T, items) && GrowsWell(T, items, items')
    ensures Forest(T, items')
  {
    hide KeyOf, Rooted, Grounded;
    var rk := RankOf(T);
    SkeletonGrows(T, rk, items, items');
    forall x | 0 <= x < |items|
      ensures KeyOf(T, items', x) == KeyOf(T, items, x)
    {
      KeyFrame(T, rk, items, items', x);
    }
    TidyGrows(T, items, items');
    forall i {:trigger items'[i]} | 0 <= i < |items'| && items'[i].State? && items'[i].sem.Unresolved?
      ensures items'[i].sem.firstVal != NULL
    {
      if i < |items| {
        assert items[i].State?;
      }
    }
  }

  lemma SkeletonGrows(T: Tables, rk: Ranking, items: seq<Item>, items': seq<Item>)
    requires T.Ranges() && Skeleton(T, rk, items) && Extends(items, items')
    requires forall i {:trigger items'[i]} | |items| <= i < |items'| ::
      if items'[i].State? then Grounded(T, rk, items', i) else Rooted(T, items', i)
    ensures Skeleton(T, rk, items')
  {
    hide Rooted, Grounded;
    forall i {:trigger items'[i]} | 0 <= i < |items'|
      ensures if items'[i].State? then Grounded(T, rk, items', i) else Rooted(T, items', i)
    {
      if i < |items| {
        if items[i].State? {
          GroundedFrame(T, rk, items, items', i);
        } else {
          RootedFrame(T, rk, items, items', i);
        }
      }
    }
  }

  lemma TidyGrows(T: Tables, items: seq<Item>, items': seq<Item>)
    requires T.Ranges() && Tidy(items, Keys(T, items)) && GrowsWell(T, items, items')
    requires forall x | 0 <= x < |items| :: KeyOf(T, items', x) == KeyOf(T, items, x)
    ensures Tidy(items', Keys(T, items'))
  {
    hide KeyOf, Rooted, Grounded;
    var key, key' := Keys(T, items), Keys(T, items');
    forall o {:trigger items'[o]} | 0 <= o < |items'| && items'[o].Opt?
      ensures NULL <= items'[o].next < o
      ensures items'[o].next != NULL ==> items'[items'[o].next].Opt? && key'(items'[o].next) == key'(o)
    {
      if o < |items| {
        assert items'[o] == items[o];
        if items[o].next != NULL {
          assert key(items[o].next) == key(o);
        }
      }
    }
    forall s {:trigger items'[s]} | 0 <= s < |items'| && items'[s].State? && items'[s].sem.Unresolved?
      ensures Link(items', items'[s].sem.firstVal)
      ensures items'[s].sem.firstVal != NULL ==> key'(items'[s].sem.firstVal) == key'(s)
    {
      if s < |items| && items[s].sem == items'[s].sem {
        assert items[s].State?;
        if items[s].sem.firstVal != NULL {
          assert key(items[s].sem.firstVal) == key(s);
          assert items'[items[s].sem.firstVal] == items[items[s].sem.firstVal];
        }
      }
    }
  }

  // ---------------------------------------------------------------- new derivations

  /** A reduction that the automaton allows is a derivation. */
  lemma NewRooted(T: Tables, items: seq<Item>, o: int)
    requires T.Ranges() && EdgesOk(T) && Automaton(T, items) && 0 <= o < |items| && items[o].Opt?
    requires 0 <= items[o].state < o && items[items[o].state].State? && Step(items, items[o].state)
    requires Reducible(T, items[items[o].state].lr, items[o].rule)
    ensures Rooted(T, items, o)
  {
    hide Reducible, Path, Spell, EdgesOk, Goto;
    var top, r := items[o].state, items[o].rule;
    var p := LrChain(items, top);
    assert Stack(T, p) && p[|p|-1] == items[top].lr;
    ReduceOnStack(T, p, r);
    var n := T.r2[r];
    GlrOps.WalkChain(items, top, n);
    forall k {:trigger Walk(items, top, k)} | 0 <= k < n
      ensures Step(items, Walk(items, top, k)) && items[Walk(items, top, k)].lr < T.States()
      ensures T.stos[items[Walk(items, top, k)].lr] == T.rhs[r][n - 1 - k]
    {
      GlrOps.WalkChain(items, top, k);
      var c := Walk(items, top, k);
      assert LrChain(items, c)[|p| - k - 1] == items[c].lr;
      assert items[c].lr == p[|p| - 1 - k];
      PathState(T, p, |p| - 1 - k);
      assert p[|p| - n..][n - 1 - k] == p[|p| - 1 - k];
      SpellAt(T, p[|p| - n..], n - 1 - k);
    }
  }

  lemma PathState(T: Tables, p: seq<nat>, i: int)
    requires T.Ranges() && Stack(T, p) && 0 <= i < |p|
    ensures p[i] < T.States()
  {
  }

  lemma SpellAt(T: Tables, p: seq<nat>, i: int)
    requires 0 <= i < |p| && p[i] < |T.stos|
    ensures |Spell(T, p)| == |p| && Spell(T, p)[i] == T.stos[p[i]]
  {
    hide Spell;
  }

  /** What derives nothing is nullable. */
  lemma EmptyIsNullable(T: Tables, items: seq<Item>, o: int)
    requires T.Ranges() && Acyclic(T) && Skeleton(T, RankOf(T), items) && 0 <= o < |items| && items[o].Opt?
    requires KeyOf(T, items, o).from == KeyOf(T, items, o).to
    ensures RankOf(T).nullable(KeyOf(T, items, o).sym)
  {
    hide Skeleton, RhsPosn, KeyOf, Grounded, Rooted, OthersNullable;
    var rk := RankOf(T);
    OptionKeyIs(T, rk, items, o);
    var r := items[o].rule;
    var n := T.r2[r];
    assert |T.rhs[r]| == n;
    AllNullable(T, rk, items, o);
    RankIs(T);
    assert T.rhs[r] == T.rhs[r];
  }

  lemma RankIs(T: Tables)
    requires T.Ranges() && Acyclic(T)
    ensures NonCyclic(T, RankOf(T)) && (ErrorAcyclic(T) ==> RankOf(T).nullable(TERROR))
  {
    hide NonCyclic;
  }

  lemma AllNullable(T: Tables, rk: Ranking, items: seq<Item>, o: int)
    requires T.Ranges() && Skeleton(T, rk, items) && 0 <= o < |items| && items[o].Opt?
    requires 1 < items[o].rule < T.Rules()
    requires RhsPosn(items, o, 0) == RhsPosn(items, o, T.r2[items[o].rule])
    ensures OthersNullable(rk, T.rhs[items[o].rule], -1)
  {
    hide Skeleton, RhsPosn, KeyOf, Grounded, Rooted;
    var r := items[o].rule;
    var n := T.r2[r];
    assert |T.rhs[r]| == n;
    forall j {:trigger T.rhs[r][j]} | 0 <= j < n
      ensures rk.nullable(T.rhs[r][j])
    {
      var i := n - 1 - j;
      RhsState(T, rk, items, o, i);
      RhsPosnDown(T, rk, items, o, 0, i);
      RhsPosnDown(T, rk, items, o, i + 1, n);
    }
  }

  /** The items, and the derivation that a reduction by r on the state `top` would be. */
  function WithOption(items: seq<Item>, top: int, r: nat): seq<Item> {
    items + [Opt(r, top, 0, NULL)]
  }

  lemma AutomatonWithOption(T: Tables, items: seq<Item>, o: Item)
    requires T.Ranges() && Automaton(T, items) && o.Opt?
    ensures Automaton(T, items + [o])
  {
    hide Stack;
    var items' := items + [o];
    forall i {:trigger items'[i]} | 0 <= i < |items'| && items'[i].State?
      ensures Stack(T, LrChain(items', i))
    {
      assert items'[i] == items[i];
      GlrGraph.ChainFrame(items, items', i, 0);
    }
  }

  lemma WithOptionKey(T: Tables, items: seq<Item>, top: int, r: nat)
    requires T.Ranges() && 1 < r < T.Rules() && 0 <= top < |items| && items[top].State?
    ensures KeyOf(T, WithOption(items, top, r), |items|)
         == Key(T.r1[r], PosnAt(items, Walk(items, top, T.r2[r])), items[top].posn)
  {
    var items' := WithOption(items, top, r);
    WalkFrame(items, items', top, T.r2[r]);
    var s := Walk(items, top, T.r2[r]);
    if 0 <= s < |items| {
      assert items'[s] == items[s];
    }
  }

  /** A reduction that the automaton allows derives its left-hand side. */
  lemma ReductionDerives(T: Tables, items: seq<Item>, top: int, r: nat)
    requires T.Ranges() && EdgesOk(T) && Automaton(T, items) && Skeleton(T, RankOf(T), items)
    requires Step(items, top) && Reducible(T, items[top].lr, r)
    ensures 1 < r < T.Rules()
    ensures var items' := WithOption(items, top, r);
      && Skeleton(T, RankOf(T), items') && Rooted(T, items', |items|) && Extends(items, items')
      && KeyOf(T, items', |items|) == Key(T.r1[r], PosnAt(items, Walk(items, top, T.r2[r])), items[top].posn)
    ensures Acyclic(T) && PosnAt(items, Walk(items, top, T.r2[r])) == items[top].posn ==> RankOf(T).nullable(T.r1[r])
  {
    hide Skeleton, KeyOf, Grounded, Rooted, Automaton, EdgesOk, Reducible, Goto, Walk;
    var items' := WithOption(items, top, r);
    AutomatonWithOption(T, items, Opt(r, top, 0, NULL));
    assert items'[top] == items[top] && items'[|items|] == Opt(r, top, 0, NULL);
    NewRooted(T, items', |items|);
    RootedRule(T, items', |items|);
    SkeletonGrows(T, RankOf(T), items, items');
    WithOptionKey(T, items, top, r);
    if Acyclic(T) && PosnAt(items, Walk(items, top, T.r2[r])) == items[top].posn {
      EmptyIsNullable(T, items', |items|);
    }
  }

  lemma RootedRule(T: Tables, items: seq<Item>, o: int)
    requires T.Ranges() && Rooted(T, items, o)
    ensures 1 < items[o].rule < T.Rules()
  {
  }
}
