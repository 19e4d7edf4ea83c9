/** Choosing among the options of one state: the scan at the start of yyresolveValue. */
module GlrResolve {
  import opened GlrGraph
  import opened GlrOptions

  /** yydprec, yymerger and yyr2: per rule. */
  datatype Grammar = Grammar(dprec: seq<nat>, merger: seq<nat>, r2: seq<nat>)
  {
    predicate Has(r: nat) { r < |dprec| && r < |merger| && r < |r2| }
  }

  datatype Preference = Ambiguous | Mergeable | KeepFirst | TakeSecond

  /** yypreference. */
  function Prefer(G: Grammar, r0: nat, r1: nat): (p: Preference)
    requires G.Has(r0) && G.Has(r1)
    ensures p == Mergeable <==> G.dprec[r0] == G.dprec[r1] && G.merger[r0] == G.merger[r1] != 0
    ensures p == KeepFirst <==> G.dprec[r0] > G.dprec[r1] > 0
    ensures p == TakeSecond <==> G.dprec[r1] > G.dprec[r0] > 0
  {
    var p0, p1 := G.dprec[r0], G.dprec[r1];
    if p0 == p1 then
      if G.merger[r0] == 0 || G.merger[r0] != G.merger[r1] then Ambiguous else Mergeable
    else if p0 == 0 || p1 == 0 then Ambiguous
    else if p0 < p1 then TakeSecond
    else KeepFirst
  }

  /** Two options of the same rule whose right-hand sides end at the same places. */
  ghost predicate Identical(G: Grammar, items: seq<Item>, o0: int, o1: int)
    requires 0 <= o0 < |items| && 0 <= o1 < |items| && items[o0].Opt? && items[o1].Opt?
  {
    && items[o0].rule == items[o1].rule && G.Has(items[o0].rule)
    && forall k {:trigger Walk(items, items[o0].state, k)} | 0 <= k < G.r2[items[o0].rule] ::
         SamePosn(items, Walk(items, items[o0].state, k), Walk(items, items[o1].state, k))
  }

  predicate SamePosn(items: seq<Item>, a: int, b: int) {
    0 <= a < |items| && items[a].State? && 0 <= b < |items| && items[b].State? && items[a].posn == items[b].posn
  }

  /** The n states from s down exist. */
  ghost predicate Side(items: seq<Item>, s: int, n: nat) {
    forall k {:trigger Walk(items, s, k)} | 0 <= k < n :: Step(items, Walk(items, s, k))
  }

  lemma {:induction false} WalkUp(items: seq<Item>, s: int, k: nat)
    requires Step(items, Walk(items, s, k))
    ensures Walk(items, s, k + 1) == items[Walk(items, s, k)].pred
  {
    WalkFurther(items, s, k, 1);
  }

  /** yyidenticalOptions. */
  method IdenticalOptions(G: Grammar, items: array<Item>, ghost used: nat, o0: nat, o1: nat) returns (same: bool)
    requires used <= items.Length
    requires o0 < used && o1 < used && items[o0].Opt? && items[o1].Opt? && G.Has(items[o0].rule)
    requires items[o0].rule == items[o1].rule ==>
      Side(items[..used], items[o0].state, G.r2[items[o0].rule])
        && Side(items[..used], items[o1].state, G.r2[items[o0].rule])
    ensures same <==> Identical(G, items[..used], o0, o1)
  {
    if items[o0].rule != items[o1].rule {
      return false;
    }
    ghost var now := items[..used];
    var s0: int, s1: int, n := items[o0].state, items[o1].state, G.r2[items[o0].rule];
    ghost var k: nat := 0;
    while n > 0
      invariant k + n == G.r2[items[o0].rule]
      invariant s0 == Walk(now, items[o0].state, k) && s1 == Walk(now, items[o1].state, k)
      invariant forall i {:trigger Walk(now, items[o0].state, i)} | 0 <= i < k ::
        SamePosn(now, Walk(now, items[o0].state, i), Walk(now, items[o1].state, i))
    {
      assert Step(now, s0) && Step(now, s1);
      if items[s0].posn != items[s1].posn {
        assert !SamePosn(now, Walk(now, items[o0].state, k), Walk(now, items[o1].state, k));
        return false;
      }
      WalkUp(now, items[o0].state, k);
      WalkUp(now, items[o1].state, k);
      s0, s1, n, k := items[s0].pred, items[s1].pred, n - 1, k + 1;
    }
    same := true;
  }

  // ---------------------------------------------------------------- what the scan finds

  /** Of the options in c, the one at b is the first of the highest precedence, and all
      others of that precedence come later and merge with it; `merge` says if there are any. */
  ghost predicate Best(G: Grammar, rules: seq<nat>, b: int, merge: bool) {
    && (forall k {:trigger rules[k]} | 0 <= k < |rules| :: G.Has(rules[k]))
    && 0 <= b < |rules|
    && (forall k {:trigger rules[k]} | 0 <= k < b :: 0 < G.dprec[rules[k]] < G.dprec[rules[b]])
    && (forall k {:trigger rules[k]} | b < k < |rules| ::
          if G.dprec[rules[k]] == G.dprec[rules[b]] then G.merger[rules[k]] == G.merger[rules[b]] != 0
          else 0 < G.dprec[rules[k]] < G.dprec[rules[b]])
    && (merge <==> exists k {:trigger rules[k]} | b < k < |rules| :: G.dprec[rules[k]] == G.dprec[rules[b]])
  }

  lemma BestFirst(G: Grammar, r: nat)
    requires G.Has(r)
    ensures Best(G, [r], 0, false)
  {
  }

  lemma BestNext(G: Grammar, rules: seq<nat>, b: int, merge: bool, r: nat)
    requires Best(G, rules, b, merge) && G.Has(r) && Prefer(G, rules[b], r) != Ambiguous
    ensures var p := Prefer(G, rules[b], r);
      Best(G, rules + [r], if p == TakeSecond then |rules| else b, if p == TakeSecond then false
        else merge || p == Mergeable)
  {
    var all := rules + [r];
    var p := Prefer(G, rules[b], r);
    assert forall k {:trigger all[k]} | 0 <= k < |rules| :: all[k] == rules[k];
    if p == Mergeable {
      assert all[|rules|] == r;
    } else if p == KeepFirst && merge {
      var k :| b < k < |rules| && G.dprec[rules[k]] == G.dprec[rules[b]];
      assert all[k] == rules[k];
    }
  }

  /** When the scan reports an ambiguity, the options seen so far have no best one. */
  lemma AmbiguousHasNoBest(G: Grammar, rules: seq<nat>, b: int, merge: bool, r: nat, b': int, merge': bool)
    requires Best(G, rules, b, merge) && G.Has(r) && Prefer(G, rules[b], r) == Ambiguous
    ensures !Best(G, rules + [r], b', merge')
  {
    var all := rules + [r];
    assert all[|rules|] == r && all[b] == rules[b];
    if 0 <= b' < |rules| {
      assert all[b'] == rules[b'];
    }
  }

  /** The rules of precedence d, in their order. */
  function OfPrecedence(G: Grammar, d: nat, rules: seq<nat>): seq<nat> {
    if rules == [] then []
    else (if G.Has(rules[0]) && G.dprec[rules[0]] == d then [rules[0]] else []) + OfPrecedence(G, d, rules[1..])
  }

  lemma {:induction false} NoneOfPrecedence(G: Grammar, d: nat, rules: seq<nat>)
    requires forall k {:trigger rules[k]} | 0 <= k < |rules| :: G.Has(rules[k]) && G.dprec[rules[k]] != d
    ensures OfPrecedence(G, d, rules) == []
    decreases |rules|
  {
    if rules != [] {
      NoneOfPrecedence(G, d, rules[1..]);
    }
  }

  lemma {:induction false} PrecedenceSplit(G: Grammar, d: nat, a: seq<nat>, b: seq<nat>)
    ensures OfPrecedence(G, d, a + b) == OfPrecedence(G, d, a) + OfPrecedence(G, d, b)
    decreases |a|
  {
    if a == [] {
      assert a + b == b;
    } else {
      PrecedenceSplit(G, d, a[1..], b);
      assert (a + b)[1..] == a[1..] + b;
    }
  }

  /** Of the highest precedence there are the best rule and some after it; none unless
      `merge` says so. */
  lemma BestPrecedence(G: Grammar, rules: seq<nat>, b: nat, merge: bool)
    requires Best(G, rules, b, merge)
    ensures G.Has(rules[b])
    ensures OfPrecedence(G, G.dprec[rules[b]], rules)
         == [rules[b]] + OfPrecedence(G, G.dprec[rules[b]], rules[b + 1..])
    ensures !merge ==> OfPrecedence(G, G.dprec[rules[b]], rules[b + 1..]) == []
  {
    var d := G.dprec[rules[b]];
    NoneOfPrecedence(G, d, rules[..b]);
    PrecedenceSplit(G, d, rules[..b], rules[b..]);
    assert rules == rules[..b] + rules[b..];
    assert rules[b..][1..] == rules[b + 1..];
    if !merge {
      NoneOfPrecedence(G, d, rules[b + 1..]);
    }
  }

  datatype Choice = Undecided | Decided(best: nat, merge: bool)

  ghost predicate AllRules(G: Grammar, rules: seq<nat>) {
    rules != [] && forall k {:trigger rules[k]} | 0 <= k < |rules| :: G.Has(rules[k])
  }

  /** The scan of a list of rules, on the rules alone. */
  function Decide(G: Grammar, rules: seq<nat>): (c: Choice)
    requires AllRules(G, rules)
    ensures c.Decided? ==> c.best < |rules|
  {
    var n := |rules| - 1;
    if n == 0 then Decided(0, false)
    else
      match Decide(G, rules[..n])
      case Undecided => Undecided
      case Decided(b, merge) =>
        match Prefer(G, rules[b], rules[n])
        case Ambiguous => Undecided
        case Mergeable => Decided(b, true)
        case KeepFirst => Decided(b, merge)
        case TakeSecond => Decided(n, false)
  }

  /** What it decides for is the best. */
  lemma {:induction false} DecidesForBest(G: Grammar, rules: seq<nat>)
    requires AllRules(G, rules)
    ensures var c := Decide(G, rules); c.Decided? ==> Best(G, rules, c.best, c.merge)
    decreases |rules|
  {
    hide Best, Prefer;
    var n := |rules| - 1;
    if n == 0 {
      assert rules == [rules[0]];
      BestFirst(G, rules[0]);
    } else {
      var front := rules[..n];
      DecidesForBest(G, front);
      assert rules == front + [rules[n]];
      if Decide(G, front).Decided? {
        OneMoreDecided(G, front, rules[n]);
      }
    }
  }

  lemma OneMoreDecided(G: Grammar, front: seq<nat>, r: nat)
    requires AllRules(G, front) && G.Has(r) && AllRules(G, front + [r])
    requires Decide(G, front).Decided? && Best(G, front, Decide(G, front).best, Decide(G, front).merge)
    ensures var c := Decide(G, front + [r]); c.Decided? ==> Best(G, front + [r], c.best, c.merge)
  {
    hide Best, Prefer;
    var c := Decide(G, front);
    assert (front + [r])[..|front|] == front && (front + [r])[|front|] == r;
    if Prefer(G, front[c.best], r) != Ambiguous {
      BestNext(G, front, c.best, c.merge, r);
    }
  }

  ghost predicate HasBest(G: Grammar, rules: seq<nat>) {
    exists b, merge :: Best(G, rules, b, merge)
  }

  /** It stays undecided exactly if there is a prefix that has no best one: from there on it
      is too late for a better one to come. */
  lemma {:induction false} UndecidedExactlyWhen(G: Grammar, rules: seq<nat>)
    requires AllRules(G, rules)
    ensures Decide(G, rules) == Undecided <==>
      exists n {:trigger rules[..n]} :: 0 < n <= |rules| && !HasBest(G, rules[..n])
    decreases |rules|
  {
    hide Best;
    var n := |rules| - 1;
    assert rules[..|rules|] == rules;
    DecidesForBest(G, rules);
    if n == 0 {
      assert forall m | 0 < m <= |rules| :: rules[..m] == rules;
      assert Best(G, rules, 0, false);
    } else {
      var front := rules[..n];
      UndecidedExactlyWhen(G, front);
      assert forall m | 0 < m <= n :: front[..m] == rules[..m];
      assert rules == front + [rules[n]];
      if Decide(G, front) == Undecided {
        var m :| 0 < m <= |front| && !HasBest(G, front[..m]);
        assert rules[..m] == front[..m];
      } else {
        DecidesForBest(G, front);
        var c := Decide(G, front);
        if Prefer(G, rules[c.best], rules[n]) == Ambiguous {
          forall b, merge
            ensures !Best(G, rules, b, merge)
          {
            AmbiguousHasNoBest(G, front, c.best, c.merge, rules[n], b, merge);
          }
          assert !HasBest(G, rules[..|rules|]);
        } else {
          var d := Decide(G, rules);
          assert Best(G, rules, d.best, d.merge);
          forall m | 0 < m <= |rules|
            ensures HasBest(G, rules[..m])
          {
            if m <= n {
              assert front[..m] == rules[..m];
            }
          }
        }
      }
    }
  }

  /** No two of the options, whose rules these are, are left undecided by yypreference. */
  ghost predicate Comparable(G: Grammar, rules: seq<nat>)
    requires AllRules(G, rules)
  {
    forall i, j {:trigger rules[i], rules[j]} | 0 <= i < j < |rules| :: Prefer(G, rules[i], rules[j]) != Ambiguous
  }

  /** Then the scan decides. */
  lemma {:induction false} ComparableIsDecided(G: Grammar, rules: seq<nat>)
    requires AllRules(G, rules) && Comparable(G, rules)
    ensures Decide(G, rules).Decided?
    decreases |rules|
  {
    hide Prefer;
    var n := |rules| - 1;
    if n > 0 {
      ComparableIsDecided(G, rules[..n]);
      var b := Decide(G, rules[..n]).best;
      assert rules[..n][b] == rules[b];
    }
  }

  /** Where they are not, the order matters: all rules together may have a best one that the
      scan does not live to see. */
  lemma OrderMatters()
    ensures var G := Grammar([0, 1, 1, 2], [0, 1, 2, 0], [0, 0, 0, 0]);
      && Decide(G, [1, 2, 3]) == Undecided && Best(G, [1, 2, 3], 2, false)
      && Decide(G, [1, 3, 2]) == Decided(1, false) && Best(G, [1, 3, 2], 1, false)
  {
    var G := Grammar([0, 1, 1, 2], [0, 1, 2, 0], [0, 0, 0, 0]);
    assert Decide(G, [1, 2, 3]) == Undecided by {
      assert [1, 2, 3][..2] == [1, 2] && [1, 2][..1] == [1];
      assert Decide(G, [1, 2]) == Undecided;
    }
    assert Decide(G, [1, 3, 2]) == Decided(1, false) by {
      assert [1, 3, 2][..2] == [1, 3] && [1, 3][..1] == [1];
      assert Decide(G, [1, 3]) == Decided(1, false);
    }
  }

  ghost predicate Found(G: Grammar, rules: seq<nat>, b: int, merge: bool) {
    AllRules(G, rules) && b >= 0 && Decide(G, rules) == Decided(b, merge)
  }

  lemma FoundFirst(G: Grammar, r: nat)
    requires G.Has(r)
    ensures Found(G, [r], 0, false)
  {
  }

  lemma FoundNext(G: Grammar, rules: seq<nat>, b: int, merge: bool, r: nat)
    requires Found(G, rules, b, merge) && G.Has(r) && Prefer(G, rules[b], r) != Ambiguous
    ensures var p := Prefer(G, rules[b], r);
      Found(G, rules + [r], if p == TakeSecond then |rules| else b, if p == TakeSecond then false
        else merge || p == Mergeable)
  {
    assert (rules + [r])[..|rules|] == rules;
  }

  lemma FoundNone(G: Grammar, rules: seq<nat>, b: int, merge: bool, r: nat)
    requires Found(G, rules, b, merge) && G.Has(r) && Prefer(G, rules[b], r) == Ambiguous
    ensures AllRules(G, rules + [r]) && Decide(G, rules + [r]) == Undecided
  {
    assert (rules + [r])[..|rules|] == rules;
  }

  // ---------------------------------------------------------------- the scan

  lemma BonesIdentical(G: Grammar, before: seq<Item>, now: seq<Item>, o0: int, o1: int)
    requires SameBones(before, now)
    requires 0 <= o0 < |now| && 0 <= o1 < |now| && before[o0].Opt? && before[o1].Opt?
    ensures Identical(G, now, o0, o1) == Identical(G, before, o0, o1)
  {
    forall k: nat
      ensures SamePosn(now, Walk(now, now[o0].state, k), Walk(now, now[o1].state, k))
           == SamePosn(before, Walk(before, before[o0].state, k), Walk(before, before[o1].state, k))
    {
      BonesWalk(before, now, before[o0].state, k);
      BonesWalk(before, now, before[o1].state, k);
    }
  }

  /** What the scan is to know of the graph: what states and options stand for, what the
      options it looks at stand for, and what the states of their right-hand sides may. */
  datatype View = View(key: int -> Key, home: Key, below: iset<Key>)

  /** The right-hand side of option o exists, and stands for things below. */
  ghost predicate Operand(G: Grammar, items: seq<Item>, o: int, V: View) {
    && 0 <= o < |items| && items[o].Opt? && items[o].state >= 0 && G.Has(items[o].rule)
    && forall k {:trigger Walk(items, items[o].state, k)} | 0 <= k < G.r2[items[o].rule] ::
         Step(items, Walk(items, items[o].state, k)) && V.key(Walk(items, items[o].state, k)) in V.below
  }

  lemma BonesOperand(G: Grammar, before: seq<Item>, now: seq<Item>, o: int, V: View)
    requires SameBones(before, now) && Operand(G, before, o, V)
    ensures Operand(G, now, o, V)
  {
    forall k {:trigger Walk(now, now[o].state, k)} | 0 <= k < G.r2[now[o].rule]
      ensures Step(now, Walk(now, now[o].state, k)) && V.key(Walk(now, now[o].state, k)) in V.below
    {
      BonesWalk(before, now, before[o].state, k);
    }
  }

  /** Corresponding states of the right-hand sides of two options of one rule stand for the same. */
  ghost predicate SameKeys(G: Grammar, items: seq<Item>, key: int -> Key, o0: int, o1: int) {
    && 0 <= o0 < |items| && 0 <= o1 < |items| && items[o0].Opt? && items[o1].Opt?
    && items[o0].rule == items[o1].rule && G.Has(items[o0].rule)
    && forall k {:trigger Walk(items, items[o0].state, k)} | 0 <= k < G.r2[items[o0].rule] ::
         key(Walk(items, items[o0].state, k)) == key(Walk(items, items[o1].state, k))
  }

  lemma BonesSameKeys(G: Grammar, before: seq<Item>, now: seq<Item>, key: int -> Key, o0: int, o1: int)
    requires SameBones(before, now) && SameKeys(G, before, key, o0, o1)
    ensures SameKeys(G, now, key, o0, o1)
  {
    forall k {:trigger Walk(now, now[o0].state, k)} | 0 <= k < G.r2[now[o0].rule]
      ensures key(Walk(now, now[o0].state, k)) == key(Walk(now, now[o1].state, k))
    {
      BonesWalk(before, now, before[o0].state, k);
      BonesWalk(before, now, before[o1].state, k);
    }
  }

  lemma OperandSides(G: Grammar, items: seq<Item>, o0: int, o1: int, V: View)
    requires Operand(G, items, o0, V) && Operand(G, items, o1, V) && SameKeys(G, items, V.key, o0, o1)
    ensures Sides(items, items[o0].state, items[o1].state, G.r2[items[o0].rule], V.key)
    ensures forall k {:trigger Among(items, items[o0].state, G.r2[items[o0].rule], V.key, k)} |
      Among(items, items[o0].state, G.r2[items[o0].rule], V.key, k) :: k in V.below
  {
  }

  /** Nothing has changed but what stands for `home` or for things below. */
  ghost predicate Beyond(V: View, before: seq<Item>, now: seq<Item>) {
    && |now| == |before|
    && (forall i {:trigger now[i]} {:trigger before[i]} | 0 <= i < |before| && V.key(i) != V.home
      && V.key(i) !in V.below ::
          now[i] == before[i])
  }

  /** Options `o0` and `o1` are identical: what their right-hand sides mean is pooled.
      Nothing but what stands for things below is touched. */
  method MergeIdentical(G: Grammar, items: array<Item>, ghost used: nat, o0: nat, o1: nat, ghost V: View)
    requires used <= items.Length
    requires Tidy(items[..used], V.key) && Operand(G, items[..used], o0, V) && Operand(G, items[..used], o1, V)
    requires SameKeys(G, items[..used], V.key, o0, o1)
    modifies items
    ensures Tidy(items[..used], V.key) && SameBones(old(items[..used]), items[..used])
    ensures forall i {:trigger items[..used][i]} | 0 <= i < used && V.key(i) !in V.below ::
      items[..used][i] == old(items[..used])[i]
    ensures Inherits(old(items[..used]), items[..used], V.key) && Beyond(V, old(items[..used]), items[..used])
    ensures var n := G.r2[old(items[o0].rule)];
      Distinct(old(items[..used]), old(items[o0].state), n, V.key) ==>
        AllPooled(old(items[..used]), items[..used], old(items[o0].state), old(items[o1].state), n)
  {
    hide Tidy, AllPooled, Sides, Among, SameBones, SameKeys, Distinct, Inherits;
    ghost var before := items[..used];
    OperandSides(G, before, o0, o1, V);
    var n := G.r2[items[o0].rule];
    MergeOptionSets(items, used, items[o0].state, items[o1].state, n, V.key);
  }

  /** The rules of the options in c. */
  function Rules(items: seq<Item>, c: seq<int>): (r: seq<nat>)
    ensures |r| == |c|
    ensures forall k {:trigger r[k]} | 0 <= k < |c| ::
      0 <= c[k] < |items| && items[c[k]].Opt? ==> r[k] == items[c[k]].rule
  {
    if c == [] then []
    else
      var x := c[|c|-1];
      Rules(items, c[..|c|-1]) + [if 0 <= x < |items| && items[x].Opt? then items[x].rule else 0]
  }

  lemma RulesFront(items: seq<Item>, o: int, c: seq<int>)
    requires 0 <= o < |items| && items[o].Opt?
    requires forall k {:trigger c[k]} | 0 <= k < |c| :: 0 <= c[k] < |items| && items[c[k]].Opt?
    ensures Rules(items, [o] + c) == [items[o].rule] + Rules(items, c)
  {
    var all := [o] + c;
    forall k | 0 <= k < |all|
      ensures Rules(items, all)[k] == ([items[o].rule] + Rules(items, c))[k]
    {
      assert 0 <= all[k] < |items| && items[all[k]].Opt?;
    }
  }

  /** The rules of options do not change. */
  lemma SameRules(before: seq<Item>, now: seq<Item>, c: seq<int>)
    requires SameBones(before, now)
    requires forall k {:trigger c[k]} | 0 <= k < |c| :: 0 <= c[k] < |before| && before[c[k]].Opt?
    ensures Rules(now, c) == Rules(before, c)
  {
    forall k | 0 <= k < |c|
      ensures Rules(now, c)[k] == Rules(before, c)[k]
    {
      assert before[c[k]].Opt? && now[c[k]].Opt?;
    }
  }

  lemma RulesFrom(items: seq<Item>, c: seq<int>, n: nat)
    requires n <= |c|
    requires forall k {:trigger c[k]} | 0 <= k < |c| :: 0 <= c[k] < |items| && items[c[k]].Opt?
    ensures Rules(items, c[n..]) == Rules(items, c)[n..]
  {
    forall k | 0 <= k < |c| - n
      ensures Rules(items, c[n..])[k] == Rules(items, c)[n..][k]
    {
      assert c[n..][k] == c[n + k];
    }
  }

  lemma RulesPush(items: seq<Item>, c: seq<int>, o: int)
    requires 0 <= o < |items| && items[o].Opt?
    ensures Rules(items, c + [o]) == Rules(items, c) + [items[o].rule]
  {
    assert (c + [o])[..|c|] == c;
  }

  /** The options to choose from: all stand for `home`, and nothing in their right-hand sides
      does; where two of them are identical, their right-hand sides stand for the same. */
  ghost predicate Listed(G: Grammar, items: seq<Item>, first: int, V: View) {
    && Tidy(items, V.key) && V.home !in V.below && 0 <= first < |items| && items[first].Opt?
    && (forall x {:trigger x in Chain(items, first)} | x in Chain(items, first) ::
          V.key(x) == V.home && Operand(G, items, x, V))
    && (forall x, y {:trigger Identical(G, items, x, y)} |
          x in Chain(items, first) && y in Chain(items, first) && 0 <= x < |items| && 0 <= y < |items|
          && items[x].Opt? && items[y].Opt? && Identical(G, items, x, y) ::
          SameKeys(G, items, V.key, x, y))
  }

  lemma ListedSame(G: Grammar, items: seq<Item>, first: int, V: View, x: int, y: int)
    requires Listed(G, items, first, V) && x in Chain(items, first) && y in Chain(items, first)
    requires 0 <= x < |items| && 0 <= y < |items| && items[x].Opt? && items[y].Opt? && Identical(G, items, x, y)
    ensures SameKeys(G, items, V.key, x, y)
  {
    hide SameKeys, Operand, Tidy, Chain;
  }

  /** `kept` and `rest` hold options from the list only, and each option they miss is
      identical to one that was kept. */
  ghost predicate Thinned(G: Grammar, items: seq<Item>, first: int, kept: seq<int>, rest: seq<int>) {
    && (forall x {:trigger x in kept} | x in kept :: x in Chain(items, first))
    && (forall x {:trigger x in rest} | x in rest :: x in Chain(items, first))
    && (forall x {:trigger x in Chain(items, first)} | x in Chain(items, first) ::
          x in kept || x in rest || Doubled(G, items, kept, x))
  }

  ghost predicate Doubled(G: Grammar, items: seq<Item>, c: seq<int>, x: int) {
    exists y {:trigger y in c} :: y in c && 0 <= y < |items| && items[y].Opt? && 0 <= x < |items| && items[x].Opt?
      && Identical(G, items, y, x)
  }

  /** In the middle of the scan: `kept` has been looked at, up to the option `prev`. */
  ghost predicate Scanning(G: Grammar, before: seq<Item>, now: seq<Item>, first: int, V: View,
                           kept: seq<int>, prev: int, b: int, merge: bool) {
    && Listed(G, before, first, V) && Tidy(now, V.key) && SameBones(before, now)
    && Inherits(before, now, V.key) && Beyond(V, before, now)
    && kept != [] && prev == kept[|kept|-1] && 0 <= prev < |now| && now[prev].Opt?
    && Chain(now, first) == kept + Chain(now, now[prev].next)
    && Thinned(G, before, first, kept, Chain(now, now[prev].next))
    && Found(G, Rules(before, kept), b, merge) && 0 <= b < |kept|
  }

  /** The option under consideration stays. */
  lemma ScanKeeps(G: Grammar, before: seq<Item>, now: seq<Item>, first: int, V: View,
                  kept: seq<int>, prev: int, b: int, merge: bool, b': int, merge': bool)
    requires Scanning(G, before, now, first, V, kept, prev, b, merge) && now[prev].next != NULL
    requires Found(G, Rules(before, kept) + [before[now[prev].next].rule], b', merge') && 0 <= b' <= |kept|
    ensures Scanning(G, before, now, first, V, kept + [now[prev].next], now[prev].next, b', merge')
  {
    hide Found, Thinned, Listed, Rules, Inherits, Beyond, Decide, AllRules, Tidy;
    var p := now[prev].next;
    LinkIsOption(now, V.key, prev);
    RulesPush(before, kept, p);
    assert Chain(now, p) == [p] + Chain(now, now[p].next);
    assert kept + Chain(now, p) == kept + [p] + Chain(now, now[p].next);
    ThinnedMore(G, before, first, kept, Chain(now, now[p].next), p);
  }

  lemma LinkIsOption(items: seq<Item>, key: int -> Key, o: int)
    requires Tidy(items, key) && 0 <= o < |items| && items[o].Opt? && items[o].next != NULL
    ensures 0 <= items[o].next < o && items[items[o].next].Opt? && items[items[o].next].next < items[o].next
  {
  }

  /** The option under consideration goes: it is identical to one that stays. */
  lemma ScanDrops(G: Grammar, before: seq<Item>, now: seq<Item>, first: int, V: View,
                  kept: seq<int>, prev: int, b: int, merge: bool)
    requires Scanning(G, before, now, first, V, kept, prev, b, merge) && now[prev].next != NULL
    requires 0 <= kept[b] < |before| && before[kept[b]].Opt? && 0 <= now[prev].next < |before|
      && before[now[prev].next].Opt?
    requires Identical(G, before, kept[b], now[prev].next) && now[now[prev].next].Opt?
    ensures var h := now[prev := now[prev].(next := now[now[prev].next].next)];
      Scanning(G, before, h, first, V, kept, prev, b, merge)
  {
    hide Found, Identical, Rules, StrictlyDecreasing, Thinned, Tidy, Chain;
    var p := now[prev].next;
    LinkIsOption(now, V.key, prev);
    var v := now[p].next;
    DropRelinks(now, V.key, first, kept, prev);
    ThinnedLess(G, before, first, kept, Chain(now, v), p, kept[b]);
    ScanFacts(G, before, now, first, V, kept, prev, b, merge);
    DropInherits(before, now, V, prev, v);
  }

  lemma DropInherits(before: seq<Item>, now: seq<Item>, V: View, prev: int, v: int)
    requires Inherits(before, now, V.key) && Beyond(V, before, now) && SameBones(before, now)
    requires 0 <= prev < |now| && now[prev].Opt? && V.key(prev) == V.home
    ensures var h := now[prev := now[prev].(next := v)];
      Inherits(before, h, V.key) && Beyond(V, before, h) && SameBones(before, h)
  {
    hide Inherits;
    var h := now[prev := now[prev].(next := v)];
    RelinkInherits(now, prev, v, V.key);
    InheritsTrans(before, now, h, V.key);
  }

  lemma RelinkInherits(now: seq<Item>, prev: int, v: int, key: int -> Key)
    requires 0 <= prev < |now| && now[prev].Opt?
    ensures Inherits(now, now[prev := now[prev].(next := v)], key)
  {
    var h := now[prev := now[prev].(next := v)];
    assert forall i {:trigger h[i]} | 0 <= i < |h| && h[i].State? :: h[i] == now[i];
  }

  /** Taking the option after prev out of the list. */
  lemma DropRelinks(now: seq<Item>, key: int -> Key, first: int, kept: seq<int>, prev: int)
    requires Tidy(now, key) && Link(now, first) && kept != [] && prev == kept[|kept|-1]
    requires 0 <= prev < |now| && now[prev].Opt? && now[prev].next != NULL
    requires Chain(now, first) == kept + Chain(now, now[prev].next)
    ensures 0 <= now[prev].next < |now| && now[now[prev].next].Opt?
    ensures var p := now[prev].next;
      var h := now[prev := now[prev].(next := now[p].next)];
      && Tidy(h, key) && Chain(now, p) == [p] + Chain(now, now[p].next)
      && Chain(h, first) == kept + Chain(now, now[p].next) && Chain(h, now[p].next) == Chain(now, now[p].next)
  {
    hide StrictlyDecreasing;
    LinkIsOption(now, key, prev);
    var p := now[prev].next;
    var v := now[p].next;
    Relink(now, first, kept, prev, v);
    ChainHead(now, p);
    TidyDrop(now, key, prev);
  }

  lemma TidyDrop(now: seq<Item>, key: int -> Key, prev: int)
    requires Tidy(now, key) && 0 <= prev < |now| && now[prev].Opt? && now[prev].next != NULL
    requires 0 <= now[prev].next < |now| && now[now[prev].next].Opt?
    ensures Tidy(now[prev := now[prev].(next := now[now[prev].next].next)], key)
  {
  }

  lemma ThinnedLess(G: Grammar, items: seq<Item>, first: int, kept: seq<int>, rest: seq<int>, p: int, y: int)
    requires Thinned(G, items, first, kept, [p] + rest) && y in kept
    requires 0 <= y < |items| && items[y].Opt? && 0 <= p < |items| && items[p].Opt? && Identical(G, items, y, p)
    ensures Thinned(G, items, first, kept, rest)
  {
    hide Identical, Chain;
    forall x {:trigger x in rest} | x in rest
      ensures x in Chain(items, first)
    {
      assert x in [p] + rest;
    }
    forall x {:trigger x in Chain(items, first)} | x in Chain(items, first)
      ensures x in kept || x in rest || Doubled(G, items, kept, x)
    {
      assert x in [p] + rest ==> x == p || x in rest;
    }
  }

  lemma ThinnedMore(G: Grammar, items: seq<Item>, first: int, kept: seq<int>, rest: seq<int>, p: int)
    requires Thinned(G, items, first, kept, [p] + rest)
    ensures Thinned(G, items, first, kept + [p], rest)
  {
    hide Identical, Chain;
    assert p in [p] + rest;
    forall x {:trigger x in rest} | x in rest
      ensures x in Chain(items, first)
    {
      assert x in [p] + rest;
    }
    forall x {:trigger x in Chain(items, first)} | x in Chain(items, first)
      ensures x in kept + [p] || x in rest || Doubled(G, items, kept + [p], x)
    {
      assert x in [p] + rest ==> x == p || x in rest;
      if Doubled(G, items, kept, x) {
        var y :| y in kept && 0 <= y < |items| && items[y].Opt? && 0 <= x < |items| && items[x].Opt?
          && Identical(G, items, y, x);
        assert y in kept + [p];
      }
    }
  }

  /** What is known about the option under consideration and the best one so far. */
  lemma ScanFacts(G: Grammar, before: seq<Item>, now: seq<Item>, first: int, V: View,
                  kept: seq<int>, prev: int, b: int, merge: bool)
    requires Scanning(G, before, now, first, V, kept, prev, b, merge)
    ensures 0 <= b < |kept| && IsOption(G, before, now, kept[b], V) && Tidy(now, V.key) && |now| == |before|
    ensures 0 <= prev < |now| && now[prev].Opt? && V.key(prev) == V.home
    ensures Rules(before, kept)[b] == before[kept[b]].rule
    ensures now[prev].next != NULL ==> IsOption(G, before, now, now[prev].next, V) && 0 <= now[prev].next < prev
    ensures V.home !in V.below
  {
    hide Found, Identical, Tidy, Operand, IsOption, Rules, Thinned, Listed, SameBones, Chain;
    ListedHome(G, before, first, V);
    assert kept[b] in kept && kept[|kept|-1] in kept;
    ListedOption(G, before, now, first, V, kept, prev, kept[b]);
    ListedOption(G, before, now, first, V, kept, prev, prev);
    RulesAt(G, before, now, kept, b, V);
    OptionKey(G, before, now, prev, V);
    if now[prev].next != NULL {
      var p := now[prev].next;
      LinkIsOption(now, V.key, prev);
      ChainHead(now, p);
      assert p in Chain(now, p);
      ListedOption(G, before, now, first, V, kept, prev, p);
    }
  }

  lemma ListedHome(G: Grammar, items: seq<Item>, first: int, V: View)
    requires Listed(G, items, first, V)
    ensures V.home !in V.below
  {
  }

  lemma OptionKey(G: Grammar, before: seq<Item>, now: seq<Item>, x: int, V: View)
    requires IsOption(G, before, now, x, V)
    ensures V.key(x) == V.home && |now| == |before|
  {
  }

  lemma RulesAt(G: Grammar, before: seq<Item>, now: seq<Item>, kept: seq<int>, b: int, V: View)
    requires 0 <= b < |kept| && IsOption(G, before, now, kept[b], V)
    ensures Rules(before, kept)[b] == before[kept[b]].rule
  {
  }

  lemma ListedOption(G: Grammar, before: seq<Item>, now: seq<Item>, first: int, V: View,
                     kept: seq<int>, prev: int, x: int)
    requires Listed(G, before, first, V) && SameBones(before, now) && 0 <= prev < |now| && now[prev].Opt?
    requires Thinned(G, before, first, kept, Chain(now, now[prev].next))
    requires x in kept || x in Chain(now, now[prev].next)
    ensures IsOption(G, before, now, x, V)
  {
    hide Identical, Tidy, Operand;
    assert x in Chain(before, first);
    BonesOption(G, before, now, x, V);
  }

  /** x is an option that stands for `home`, before and now. */
  ghost predicate IsOption(G: Grammar, before: seq<Item>, now: seq<Item>, x: int, V: View) {
    && 0 <= x < |before| == |now| && before[x].Opt? && now[x].Opt? && now[x].rule == before[x].rule
      && G.Has(now[x].rule)
    && V.key(x) == V.home && Operand(G, now, x, V) && Operand(G, before, x, V)
  }

  lemma BonesOption(G: Grammar, before: seq<Item>, now: seq<Item>, x: int, V: View)
    requires SameBones(before, now) && Operand(G, before, x, V) && V.key(x) == V.home
    ensures IsOption(G, before, now, x, V)
  {
    BonesOperand(G, before, now, x, V);
  }

  /** A merge above does not disturb the scan. */
  lemma ScanUndisturbed(G: Grammar, before: seq<Item>, now: seq<Item>, now': seq<Item>, first: int, V: View,
                        kept: seq<int>, prev: int, b: int, merge: bool)
    requires Scanning(G, before, now, first, V, kept, prev, b, merge)
    requires Tidy(now', V.key) && SameBones(now, now') && Inherits(now, now', V.key) && Beyond(V, now, now')
    requires forall i {:trigger now'[i]} | 0 <= i < |now| && V.key(i) !in V.below :: now'[i] == now[i]
    ensures Scanning(G, before, now', first, V, kept, prev, b, merge) && now'[prev] == now[prev]
  {
    hide Found, Identical, Tidy, Operand, Thinned, StrictlyDecreasing;
    BonesTrans(before, now, now');
    TidyLinks(now, V.key);
    forall x {:trigger x in Chain(now, first)} | x in Chain(now, first)
      ensures 0 <= x < |now'| && now'[x] == now[x]
    {
      ListedOption(G, before, now, first, V, kept, prev, x);
    }
    SameChain(now, now', first);
    forall x {:trigger x in Chain(now, now[prev].next)} | x in Chain(now, now[prev].next)
      ensures 0 <= x < |now'| && now'[x] == now[x]
    {
      assert x in Chain(now, first);
    }
    SameChain(now, now', now[prev].next);
    assert prev in Chain(now, first);
  }

  lemma ScanStart(G: Grammar, items: seq<Item>, first: int, V: View)
    requires Listed(G, items, first, V)
    ensures Scanning(G, items, items, first, V, [first], first, 0, false)
  {
    hide Operand, Identical;
    TidyLinks(items, V.key);
    ChainHead(items, first);
    assert first in Chain(items, first);
    assert Operand(G, items, first, V) by { assert first in Chain(items, first); }
    OperandRule(G, items, first, V);
    RulesPush(items, [], first);
    assert [] + [first] == [first];
    assert Rules(items, [first]) == [items[first].rule];
    FoundFirst(G, items[first].rule);
  }

  lemma OperandRule(G: Grammar, items: seq<Item>, o: int, V: View)
    requires Operand(G, items, o, V)
    ensures 0 <= o < |items| && items[o].Opt? && G.Has(items[o].rule)
  {
  }

  lemma OperandSide(G: Grammar, items: seq<Item>, o: int, V: View)
    requires Operand(G, items, o, V)
    ensures Side(items, items[o].state, G.r2[items[o].rule])
  {
  }

  /** The scan over, `kept` is the list that is left. */
  lemma ScanEnds(G: Grammar, before: seq<Item>, now: seq<Item>, first: int, V: View,
                 kept: seq<int>, prev: int, b: int, merge: bool)
    requires Scanning(G, before, now, first, V, kept, prev, b, merge) && now[prev].next == NULL
    ensures Chain(now, first) == kept && Thinned(G, before, first, kept, []) && Found(G, Rules(before, kept), b, merge)
    ensures Tidy(now, V.key) && SameBones(before, now)
    ensures Inherits(before, now, V.key) && Beyond(V, before, now)
  {
    hide Found, Thinned, Tidy;
    assert Chain(now, NULL) == [];
    assert kept + [] == kept;
  }

  /** The first loop of yyresolveValue over the options of a state, of which `first` is the
      first.  Options identical to the best one so far are taken out, and their
      right-hand sides merged with its.  If no ambiguity is reported, `best` is the first of
      the highest precedence among those left, every other of that precedence comes
      later and has the same merger, and `merge` says whether there is one. */
  method Scan(G: Grammar, items: array<Item>, ghost used: nat, first: nat, ghost V: View)
    returns (ambiguous: bool, best: nat, merge: bool, ghost kept: seq<int>, ghost b: nat, ghost other: int)
    requires used <= items.Length
    requires Listed(G, items[..used], first, V)
    modifies items
    ensures SameBones(old(items[..used]), items[..used]) && Tidy(items[..used], V.key)
    ensures Inherits(old(items[..used]), items[..used], V.key) && Beyond(V, old(items[..used]), items[..used])
    ensures !ambiguous ==>
      && Chain(items[..used], first) == kept && Thinned(G, old(items[..used]), first, kept, [])
      && b < |kept| && kept[b] == best && Found(G, Rules(old(items[..used]), kept), b, merge)
    ensures ambiguous ==>
      && b < |kept| && kept[b] == best && Found(G, Rules(old(items[..used]), kept), b, merge)
      && (forall x | x in kept :: x in Chain(old(items[..used]), first)) && other in Chain(old(items[..used]), first)
      && IsOption(G, old(items[..used]), items[..used], best, V)
        && IsOption(G, old(items[..used]), items[..used], other, V)
      && !Identical(G, old(items[..used]), best, other) && Prefer(G, items[best].rule, items[other].rule) == Ambiguous
      && AllRules(G, Rules(old(items[..used]), kept + [other]))
      && Decide(G, Rules(old(items[..used]), kept + [other])) == Undecided
  {
    hide Decide, AllRules, Found, Thinned, Identical, Tidy, Operand, Rules, Scanning, SameBones, Chain, AllPooled,
      Inherits, Beyond;
    ghost var before := items[..used];
    ScanStart(G, before, first, V);
    best, merge, b, kept, other := first, false, 0, [first], NULL;
    var prev := first;
    ambiguous := false;
    ScanFacts(G, before, items[..used], first, V, kept, prev, b, merge);
    while items[prev].next != NULL
      invariant 0 <= prev < used && items[prev].Opt? && NULL <= items[prev].next
      invariant Scanning(G, before, items[..used], first, V, kept, prev, b, merge) && b < |kept| && kept[b] == best
      decreases prev, items[prev].next
    {
      var done;
      ghost var o;
      done, best, merge, prev, kept, b, o := ScanOne(G, items, used, first, V, prev, best, merge, kept, b, before);
      if done {
        return true, best, merge, kept, b, o;
      }
    }
    ScanEnds(G, before, items[..used], first, V, kept, prev, b, merge);
  }

  /** One step of the scan. */
  method ScanOne(G: Grammar, items: array<Item>, ghost used: nat, first: nat, ghost V: View, prev: nat, best: nat,
                 merge: bool,
                 ghost kept: seq<int>, ghost b: nat, ghost before: seq<Item>)
    returns (ambiguous: bool, best': nat, merge': bool, prev': nat, ghost kept': seq<int>, ghost b': nat,
      ghost other: int)
    requires used <= items.Length
    requires prev < used && items[prev].Opt? && items[prev].next != NULL
    requires Scanning(G, before, items[..used], first, V, kept, prev, b, merge) && b < |kept| && kept[b] == best
    modifies items
    ensures prev' < used && items[prev'].Opt? && NULL <= items[prev'].next && b' < |kept'| && kept'[b'] == best'
    ensures Scanning(G, before, items[..used], first, V, kept', prev', b', merge')
    ensures !ambiguous ==> prev' < prev || (prev' == prev && items[prev].next < old(items[prev].next))
    ensures ambiguous ==>
      && Tidy(items[..used], V.key) && SameBones(before, items[..used]) && Found(G, Rules(before, kept'), b', merge')
      && Inherits(before, items[..used], V.key) && Beyond(V, before, items[..used])
      && (forall x | x in kept' :: x in Chain(before, first))
      && IsOption(G, before, items[..used], best', V) && IsOption(G, before, items[..used], other, V)
      && other in Chain(before, first)
      && !Identical(G, before, best', other) && Prefer(G, items[best'].rule, items[other].rule) == Ambiguous
      && AllRules(G, Rules(before, kept' + [other])) && Decide(G, Rules(before, kept' + [other])) == Undecided
  {
    hide Decide, AllRules, Found, Thinned, Identical, Tidy, Operand, Rules, Scanning, SameBones, Chain, AllPooled,
      Inherits, Beyond, IsOption;
    ghost var now := items[..used];
    ScanFacts(G, before, now, first, V, kept, prev, b, merge);
    ScanParts(G, before, now, first, V, kept, prev, b, merge);
    best', merge', prev', kept', b', other, ambiguous := best, merge, prev, kept, b, NULL, false;
    var p := items[prev].next;
    OptionParts(G, before, now, best, V);
    OptionParts(G, before, now, p, V);
    var same := IdenticalOptions(G, items, used, best, p);
    BonesIdentical(G, before, now, best, p);
    if same {
      DropIdentical(G, items, used, first, V, prev, best, merge, kept, b, before);
      ScanFacts(G, before, items[..used], first, V, kept, prev, b, merge);
      return;
    }
    var preference := Prefer(G, items[best].rule, items[p].rule);
    if preference == Ambiguous {
      ambiguous, other := true, p;
      RulesAre(before, kept, b);
      FoundNone(G, Rules(before, kept), b, merge, before[p].rule);
      RulesPush(before, kept, p);
      return;
    }
    if preference == TakeSecond {
      best', merge', b' := p, false, |kept|;
    } else if preference == Mergeable {
      merge' := true;
    }
    RulesAre(before, kept, b);
    FoundNext(G, Rules(before, kept), b, merge, before[p].rule);
    ScanKeeps(G, before, now, first, V, kept, prev, b, merge, b', merge');
    prev', kept' := p, kept + [p];
    ScanFacts(G, before, now, first, V, kept', prev', b', merge');
  }

  lemma RulesAre(items: seq<Item>, kept: seq<int>, b: int)
    requires 0 <= b < |kept| && 0 <= kept[b] < |items| && items[kept[b]].Opt?
    ensures |Rules(items, kept)| == |kept| && Rules(items, kept)[b] == items[kept[b]].rule
  {
  }

  lemma OptionParts(G: Grammar, before: seq<Item>, now: seq<Item>, x: int, V: View)
    requires IsOption(G, before, now, x, V)
    ensures 0 <= x < |before| == |now| && before[x].Opt? && now[x].Opt? && now[x].rule == before[x].rule
      && G.Has(now[x].rule)
    ensures Operand(G, now, x, V) && V.key(x) == V.home && Side(now, now[x].state, G.r2[now[x].rule])
  {
    OperandSide(G, now, x, V);
  }

  lemma ScanParts(G: Grammar, before: seq<Item>, now: seq<Item>, first: int, V: View,
                  kept: seq<int>, prev: int, b: int, merge: bool)
    requires Scanning(G, before, now, first, V, kept, prev, b, merge)
    ensures Tidy(now, V.key) && SameBones(before, now) && Found(G, Rules(before, kept), b, merge)
    ensures Inherits(before, now, V.key) && Beyond(V, before, now)
    ensures forall x | x in kept :: x in Chain(before, first)
    ensures now[prev].next != NULL ==> now[prev].next in Chain(before, first)
  {
    hide Found, Identical, Operand, Chain;
    if now[prev].next != NULL {
      LinkIsOption(now, V.key, prev);
      ChainHead(now, now[prev].next);
      assert now[prev].next in Chain(now, now[prev].next);
    }
  }

  /** The option after prev is identical to the best one: their right-hand sides are merged
      and it is taken out. */
  method DropIdentical(G: Grammar, items: array<Item>, ghost used: nat, first: nat, ghost V: View, prev: nat, best: nat,
                       ghost merge: bool, ghost kept: seq<int>, ghost b: nat, ghost before: seq<Item>)
    requires used <= items.Length
    requires prev < used && items[prev].Opt? && items[prev].next != NULL
    requires Scanning(G, before, items[..used], first, V, kept, prev, b, merge) && b < |kept| && kept[b] == best
    requires best < |before| && before[best].Opt? && 0 <= items[prev].next < |before| && before[items[prev].next].Opt?
    requires Identical(G, before, best, items[prev].next)
    modifies items
    ensures items[prev].Opt? && items[prev].next < old(items[prev].next)
    ensures Scanning(G, before, items[..used], first, V, kept, prev, b, merge)
  {
    hide Found, Thinned, Identical, Tidy, Operand, Rules, Scanning, SameBones, Chain, AllPooled, Inherits, Beyond,
      IsOption;
    ghost var now := items[..used];
    ScanFacts(G, before, now, first, V, kept, prev, b, merge);
    var p := items[prev].next;
    OptionParts(G, before, now, best, V);
    OptionParts(G, before, now, p, V);
    ScanParts(G, before, now, first, V, kept, prev, b, merge);
    IdenticalKeys(G, before, now, first, V, kept, prev, b, merge);
    MergeIdentical(G, items, used, best, p, V);
    ghost var now' := items[..used];
    ScanUndisturbed(G, before, now, now', first, V, kept, prev, b, merge);
    assert now'[p] == now[p];
    ScanDrops(G, before, now', first, V, kept, prev, b, merge);
    LinkIsOption(now', V.key, prev);
    items[prev] := items[prev].(next := items[p].next);
    assert items[..used] == now'[prev := now'[prev].(next := now'[p].next)];
  }

  lemma IdenticalKeys(G: Grammar, before: seq<Item>, now: seq<Item>, first: int, V: View,
                      kept: seq<int>, prev: int, b: int, merge: bool)
    requires Scanning(G, before, now, first, V, kept, prev, b, merge) && now[prev].next != NULL
    requires 0 <= kept[b] < |before| && before[kept[b]].Opt? && 0 <= now[prev].next < |before|
      && before[now[prev].next].Opt?
    requires Identical(G, before, kept[b], now[prev].next)
    ensures SameKeys(G, now, V.key, kept[b], now[prev].next)
  {
    hide Found, Identical, Operand, Chain, Tidy, SameKeys, Listed, SameBones, Thinned;
    ScanParts(G, before, now, first, V, kept, prev, b, merge);
    assert kept[b] in kept;
    ListedSame(G, before, first, V, kept[b], now[prev].next);
    BonesSameKeys(G, before, now, V.key, kept[b], now[prev].next);
  }
}
