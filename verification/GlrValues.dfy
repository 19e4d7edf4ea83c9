/** Resolving the values that deferred actions have left open: yyresolveStates,
    yyresolveAction and yyresolveValue. */
module GlrValues {
  import opened LrTables
  import opened GlrGraph
  import opened GlrOptions
  import opened GlrResolve
  import opened GlrForest

  /** YYRESULTTAG. */
  datatype Tag = YyOk | YyAccept | YyAbort | YyErr

  /** What a user action comes to. */
  datatype Result = Result(tag: Tag, val: int)

  /** The grammar, and the user's code: what the n-th action executed makes of the values of
      a right-hand side, and what a merger makes of two values. */
  datatype Setting = Setting(T: Tables, G: Grammar, act: (nat, nat, seq<int>) -> Result, merge: (nat, int, int) -> int)

  ghost predicate Good(E: Setting, rk: Ranking) {
    && E.T.Ranges() && NonCyclic(E.T, rk)
    && E.G.r2 == E.T.r2 && |E.G.dprec| == |E.G.merger| == |E.T.r2|
  }

  // ---------------------------------------------------------------- what values are to be

  /** The values of a right-hand side fit its symbols, derived from consecutive stretches. */
  ghost predicate KidsFit(T: Tables, fits: (Key, int) -> bool, r: nat, cuts: seq<nat>, vals: seq<int>) {
    && r < |T.rhs| && |vals| == |T.rhs[r]| && |cuts| == |vals| + 1
    && forall k {:trigger vals[k]} | 0 <= k < |vals| :: fits(Key(T.rhs[r][k], cuts[k], cuts[k + 1]), vals[k])
  }

  /** v is what an action of rule r makes of fitting values. */
  ghost predicate Made(E: Setting, fits: (Key, int) -> bool, k: Key, r: nat, v: int) {
    exists n: nat, cuts: seq<nat>, vals: seq<int>
      {:trigger KidsFit(E.T, fits, r, cuts, vals), E.act(n, r, vals)} ::
      && 1 < r < |E.T.r1| && KidsFit(E.T, fits, r, cuts, vals) && E.act(n, r, vals) == Result(YyOk, v)
      && k == Key(E.T.r1[r], cuts[0], cuts[|vals|])
  }

  /** One of the values that ambiguous derivations give, and the rule whose action gave it. */
  datatype Piece = Piece(rule: nat, val: int)

  /** They are merged one after the other, by the merger of the rule that comes in. */
  function MergeAll(E: Setting, ps: seq<Piece>): int
    requires ps != []
  {
    if |ps| == 1 then ps[0].val
    else
      var p := ps[|ps|-1];
      E.merge(if p.rule < |E.G.merger| then E.G.merger[p.rule] else 0, MergeAll(E, ps[..|ps|-1]), p.val)
  }

  /** The pieces are values of k, made by actions of rules of the same precedence. */
  ghost predicate Alternatives(E: Setting, fits: (Key, int) -> bool, k: Key, ps: seq<Piece>) {
    ps != [] && forall i {:trigger ps[i]} | 0 <= i < |ps| ::
      && Made(E, fits, k, ps[i].rule, ps[i].val)
      && E.G.Has(ps[i].rule) && E.G.Has(ps[0].rule) && E.G.dprec[ps[i].rule] == E.G.dprec[ps[0].rule]
  }

  /** `fits` goes with the user's code: actions make fitting values of fitting values, and
      those of one precedence merge into such.  Nothing is asked of the values of the end of
      input. */
  ghost predicate Compatible(E: Setting, fits: (Key, int) -> bool) {
    && (forall v: int, from: nat, to: nat {:trigger fits(Key(EOF, from, to), v)} :: fits(Key(EOF, from, to), v))
    && (forall k, ps {:trigger Alternatives(E, fits, k, ps)} | Alternatives(E, fits, k, ps) :: fits(k, MergeAll(E, ps)))
  }

  function PieceRules(ps: seq<Piece>): (rules: seq<nat>)
    ensures |rules| == |ps| && forall i {:trigger rules[i]} | 0 <= i < |ps| :: rules[i] == ps[i].rule
  {
    seq(|ps|, i requires 0 <= i < |ps| => ps[i].rule)
  }

  /** The piece is what one of the actions executed came to. */
  ghost predicate Ran(E: Setting, log: seq<nat>, p: Piece) {
    exists n: nat, vals {:trigger E.act(n, p.rule, vals)} ::
      n < |log| && log[n] == p.rule && E.act(n, p.rule, vals) == Result(YyOk, p.val)
  }

  ghost predicate AllRan(E: Setting, log: seq<nat>, ps: seq<Piece>) {
    forall i {:trigger ps[i]} | 0 <= i < |ps| :: Ran(E, log, ps[i])
  }

  /** yypreference decides between any two rules of one symbol, and two derivations by one
      rule merge, or cannot be cut differently. */
  ghost predicate Unambiguous(T: Tables, G: Grammar) {
    && (forall r0, r1 {:trigger T.r1[r0], T.r1[r1]} |
          1 < r0 < |T.r1| && 1 < r1 < |T.r1| && r0 != r1 && T.r1[r0] == T.r1[r1] && G.Has(r0) && G.Has(r1) ::
          Prefer(G, r0, r1) != Ambiguous)
    && (forall r {:trigger T.r1[r]} | 1 < r < |T.r1| && G.Has(r) :: G.merger[r] != 0 || G.r2[r] <= 1)
  }

  /** The grammar is unambiguous in this sense, and no action executes YYABORT. */
  ghost predicate Calm(E: Setting) {
    && Unambiguous(E.T, E.G)
    && (forall n: nat, r: nat, vals {:trigger E.act(n, r, vals)} :: E.act(n, r, vals).tag != YyAbort)
  }

  /** Some action of the user ends with `tag`. */
  ghost predicate SomeAction(E: Setting, tag: Tag) {
    exists n: nat, r: nat, vals {:trigger E.act(n, r, vals)} :: E.act(n, r, vals).tag == tag
  }

  /** The actions all end normally, and no ambiguity is left to be reported. */
  ghost predicate Obliging(E: Setting) {
    Calm(E) && !SomeAction(E, YyErr) && !SomeAction(E, YyAccept)
  }

  /** Why values are not resolved: because of the user's actions, or of an ambiguity. */
  ghost predicate Caused(E: Setting, tag: Tag) {
    match tag
    case YyOk => true
    case YyAbort => !Calm(E)
    case _ => SomeAction(E, tag)
  }

  // ---------------------------------------------------------------- progress

  /** States that have values keep having values; what stands for something outside `region`
      is as it was; and values fit if they fitted before. */
  ghost predicate Progress(E: Setting, bones: seq<Item>, region: iset<Key>, before: seq<Item>, now: seq<Item>) {
    && |now| == |before|
    && (forall i {:trigger now[i]} {:trigger before[i]} | 0 <= i < |before| && before[i].State?
      && before[i].sem.Resolved? ::
          now[i].State? && now[i].sem.Resolved?)
    && (forall i {:trigger now[i]} {:trigger before[i]} | 0 <= i < |before| && KeyOf(E.T, bones, i) !in region ::
          now[i] == before[i])
    && (forall fits: (Key, int) -> bool {:trigger AllFit(before, Keys(E.T, bones), fits)} |
          Compatible(E, fits) && AllFit(before, Keys(E.T, bones), fits) :: AllFit(now, Keys(E.T, bones), fits))
  }

  lemma ProgressSelf(E: Setting, bones: seq<Item>, region: iset<Key>, items: seq<Item>)
    ensures Progress(E, bones, region, items, items)
  {
    hide AllFit, Compatible, KeyOf;
  }

  lemma ProgressTrans(E: Setting, bones: seq<Item>, r0: iset<Key>, r1: iset<Key>, r: iset<Key>,
                      a: seq<Item>, b: seq<Item>, c: seq<Item>)
    requires Progress(E, bones, r0, a, b) && Progress(E, bones, r1, b, c) && r0 <= r && r1 <= r
    ensures Progress(E, bones, r, a, c)
  {
    hide AllFit, Compatible, KeyOf, Keys;
    forall i {:trigger c[i]} {:trigger a[i]} | 0 <= i < |a|
      ensures a[i].State? && a[i].sem.Resolved? ==> c[i].State? && c[i].sem.Resolved?
      ensures KeyOf(E.T, bones, i) !in r ==> c[i] == a[i]
    {
      assert b[i] == b[i];
    }
  }

  ghost function UpTo(rk: Ranking, k: Key): iset<Key> {
    iset j | j == k || Less(rk, j, k)
  }

  lemma ScanProgress(E: Setting, rk: Ranking, bones: seq<Item>, k: Key, before: seq<Item>, now: seq<Item>)
    requires Inherits(before, now, Keys(E.T, bones)) && Beyond(ViewAt(E.T, rk, bones, k), before, now)
    ensures Progress(E, bones, UpTo(rk, k), before, now)
  {
    hide AllFit, Compatible, KeyOf, Less;
  }

  lemma UpToBelow(rk: Ranking, a: Key, b: Key)
    requires Less(rk, a, b)
    ensures UpTo(rk, a) <= Below(rk, b) && Below(rk, a) <= UpTo(rk, a)
  {
  }

  // ---------------------------------------------------------------- right-hand sides

  /** Where the right-hand side of option o is cut into what its symbols derive. */
  function Cuts(bones: seq<Item>, o: int, n: nat): (c: seq<nat>)
    requires 0 <= o < |bones| && bones[o].Opt?
    ensures |c| == n + 1
    ensures forall i {:trigger c[i]} | 0 <= i <= n :: c[i] == RhsPosn(bones, o, n - i)
  {
    seq(n + 1, i requires 0 <= i <= n => RhsPosn(bones, o, n - i))
  }

  /** The states of the right-hand side of o have these values. */
  ghost predicate HasValues(items: seq<Item>, top: int, n: nat, vals: seq<int>) {
    && |vals| == n
    && forall j {:trigger Walk(items, top, j)} | 0 <= j < n ::
         Step(items, Walk(items, top, j)) && items[Walk(items, top, j)].sem == Resolved(vals[n - 1 - j])
  }

  lemma ValuesFit(E: Setting, rk: Ranking, bones: seq<Item>, items: seq<Item>, o: int, vals: seq<int>,
                  fits: (Key, int) -> bool)
    requires Good(E, rk) && Skeleton(E.T, rk, bones) && SameBones(bones, items)
    requires 0 <= o < |bones| && bones[o].Opt? && bones[o].rule < E.T.Rules()
    requires HasValues(items, bones[o].state, E.T.r2[bones[o].rule], vals)
    requires AllFit(items, Keys(E.T, bones), fits)
    ensures KidsFit(E.T, fits, bones[o].rule, Cuts(bones, o, |vals|), vals)
  {
    hide Skeleton, KeyOf, RhsPosn, NonCyclic, Rooted, Grounded;
    var n := |vals|;
    var cuts := Cuts(bones, o, n);
    forall k {:trigger vals[k]} | 0 <= k < n
      ensures fits(Key(E.T.rhs[bones[o].rule][k], cuts[k], cuts[k + 1]), vals[k])
    {
      var j := n - 1 - k;
      RhsState(E.T, rk, bones, o, j);
      BonesWalk(bones, items, bones[o].state, j);
      var c := Walk(items, bones[o].state, j);
      assert items[c].sem == Resolved(vals[k]);
      assert fits(Keys(E.T, bones)(c), vals[k]);
    }
  }

  /** What the action of option o makes of fitting values. */
  lemma ActionMakes(E: Setting, rk: Ranking, bones: seq<Item>, items: seq<Item>, o: int, vals: seq<int>, count: nat,
                    fits: (Key, int) -> bool)
    requires Good(E, rk) && Skeleton(E.T, rk, bones) && SameBones(bones, items)
    requires 0 <= o < |bones| && bones[o].Opt? && bones[o].rule < E.T.Rules()
    requires HasValues(items, bones[o].state, E.T.r2[bones[o].rule], vals)
    requires AllFit(items, Keys(E.T, bones), fits)
    requires E.act(count, bones[o].rule, vals).tag == YyOk
    ensures Made(E, fits, KeyOf(E.T, bones, o), bones[o].rule, E.act(count, bones[o].rule, vals).val)
  {
    hide Skeleton, KeyOf, RhsPosn, NonCyclic, HasValues, KidsFit, AllFit, SameBones;
    ValuesFit(E, rk, bones, items, o, vals, fits);
    OptionKeyIs(E.T, rk, bones, o);
    HasCount(items, bones[o].state, E.T.r2[bones[o].rule], vals);
    var cuts := Cuts(bones, o, |vals|);
    assert KidsFit(E.T, fits, bones[o].rule, cuts, vals);
    assert KeyOf(E.T, bones, o) == Key(E.T.r1[bones[o].rule], cuts[0], cuts[|vals|]);
  }

  lemma HasCount(items: seq<Item>, top: int, n: nat, vals: seq<int>)
    requires HasValues(items, top, n, vals)
    ensures |vals| == n
  {
  }

  /** One value needs no merging. */
  lemma MadeFits(E: Setting, fits: (Key, int) -> bool, k: Key, r: nat, v: int)
    requires Compatible(E, fits) && Made(E, fits, k, r, v) && E.G.Has(r)
    ensures fits(k, v)
  {
    hide Made;
    var ps := [Piece(r, v)];
    assert Alternatives(E, fits, k, ps);
    assert MergeAll(E, ps) == v;
  }

  /** The values of the n states from s down, in the order of the right-hand side. */
  method RhsValues(items: array<Item>, ghost used: nat, top: int, n: nat) returns (vals: seq<int>)
    requires used <= items.Length
    requires forall k {:trigger Walk(items[..used], top, k)} | 0 <= k < n ::
      Step(items[..used], Walk(items[..used], top, k)) && items[Walk(items[..used], top, k)].sem.Resolved?
    ensures HasValues(items[..used], top, n, vals)
  {
    hide Walk;
    ghost var now := items[..used];
    var s, left := top, n;
    ghost var k: nat := 0;
    vals := [];
    WalkNone(now, top);
    while left > 0
      invariant k + left == n && s == Walk(now, top, k) && |vals| == k
      invariant forall j {:trigger Walk(now, top, j)} | 0 <= j < k ::
        now[Walk(now, top, j)].sem == Resolved(vals[k - 1 - j])
    {
      assert Step(now, s) && now[s] == items[s];
      WalkUp(now, top, k);
      vals := [items[s].sem.val] + vals;
      s, left, k := items[s].pred, left - 1, k + 1;
    }
  }

  lemma WalkNone(items: seq<Item>, s: int)
    ensures Walk(items, s, 0) == s
  {
  }

  // ---------------------------------------------------------------- the three of them

  /** The n states from s down exist, and derive less than `top`. */
  ghost predicate Stretch(E: Setting, rk: Ranking, bones: seq<Item>, s: int, n: nat, top: Key) {
    forall k {:trigger Walk(bones, s, k)} | 0 <= k < n ::
      Step(bones, Walk(bones, s, k)) && Less(rk, KeyOf(E.T, bones, Walk(bones, s, k)), top)
  }

  /** The n states from s down have values. */
  ghost predicate Valued(bones: seq<Item>, items: seq<Item>, s: int, n: nat) {
    forall k {:trigger Walk(bones, s, k)} | 0 <= k < n ::
      0 <= Walk(bones, s, k) < |items| && items[Walk(bones, s, k)].State? && items[Walk(bones, s, k)].sem.Resolved?
  }

  /** The graph can be worked on. */
  ghost predicate Ready(E: Setting, rk: Ranking, bones: seq<Item>, items: seq<Item>) {
    Good(E, rk) && Skeleton(E.T, rk, bones) && Fleshed(E.T, bones, items)
  }

  /** yyresolveStates: the n states from s down get values, the lowest first. */
  method ResolveStates(E: Setting, ghost rk: Ranking, items: array<Item>, ghost used: nat, ghost bones: seq<Item>,
                       s: int, n: nat, log: seq<nat>, ghost top: Key)
    returns (tag: Tag, log': seq<nat>)
    requires used <= items.Length && Ready(E, rk, bones, items[..used]) && Stretch(E, rk, bones, s, n, top)
    modifies items
    ensures log <= log' && SameBones(bones, items[..used]) && Caused(E, tag)
    ensures tag == YyOk ==>
      && Ready(E, rk, bones, items[..used]) && Valued(bones, items[..used], s, n)
      && Progress(E, bones, Below(rk, top), old(items[..used]), items[..used])
    decreases Span(top), rk.height(top.sym), 0, n
  {
    hide Ready, Less, KeyOf, Walk, Progress, SameBones;
    ghost var before := items[..used];
    ReadyBones(E, rk, bones, before);
    if n == 0 {
      ProgressSelf(E, bones, Below(rk, top), before);
      return YyOk, log;
    }
    TopState(E, rk, bones, before, s, n, top);
    tag, log' := ResolveStates(E, rk, items, used, bones, items[s].pred, n - 1, log, top);
    if tag != YyOk {
      return;
    }
    ghost var now := items[..used];
    TopState(E, rk, bones, now, s, n, top);
    assert items[s] == now[s];
    LessDecreases(rk, KeyOf(E.T, bones, s), top);
    if items[s].sem.Unresolved? {
      ghost var ps;
      tag, log', ps := ResolveValue(E, rk, items, used, bones, s, log');
      if tag != YyOk {
        return;
      }
      UpToBelow(rk, KeyOf(E.T, bones, s), top);
    } else {
      ProgressSelf(E, bones, UpTo(rk, KeyOf(E.T, bones, s)), now);
      UpToBelow(rk, KeyOf(E.T, bones, s), top);
    }
    ProgressTrans(E, bones, Below(rk, top), UpTo(rk, KeyOf(E.T, bones, s)), Below(rk, top), before, now, items[..used]);
    MoreValued(E, bones, now, items[..used], s, n, UpTo(rk, KeyOf(E.T, bones, s)));
  }

  lemma ReadyBones(E: Setting, rk: Ranking, bones: seq<Item>, items: seq<Item>)
    requires Ready(E, rk, bones, items)
    ensures SameBones(bones, items)
  {
  }

  lemma LessDecreases(rk: Ranking, a: Key, b: Key)
    requires Less(rk, a, b)
    ensures Span(a) < Span(b) || (Span(a) == Span(b) && rk.height(a.sym) < rk.height(b.sym))
  {
  }

  lemma StateStays(bones: seq<Item>, before: seq<Item>, now: seq<Item>, s: nat)
    requires SameBones(bones, before) && SameBones(bones, now) && s < |before| && before[s].State?
    ensures |now| == |before| && now[s].State?
  {
    assert bones[s].State?;
  }

  /** The topmost of a stretch of states, and the stretch below it. */
  lemma TopState(E: Setting, rk: Ranking, bones: seq<Item>, items: seq<Item>, s: int, n: nat, top: Key)
    requires Ready(E, rk, bones, items) && Stretch(E, rk, bones, s, n, top) && n > 0
    ensures 0 <= s < |items| == |bones| && items[s].State? && Less(rk, KeyOf(E.T, bones, s), top)
    ensures Step(bones, s) && bones[s].pred == items[s].pred && SameBones(bones, items)
    ensures Stretch(E, rk, bones, bones[s].pred, n - 1, top)
  {
    hide Less, KeyOf, Skeleton, Tidy;
    assert Walk(bones, s, 0) == s;
    assert bones[s].pred == items[s].pred;
    forall k {:trigger Walk(bones, bones[s].pred, k)} | 0 <= k < n - 1
      ensures Walk(bones, bones[s].pred, k) == Walk(bones, s, k + 1)
    {
    }
  }

  lemma MoreValued(E: Setting, bones: seq<Item>, now: seq<Item>, now': seq<Item>, s: int, n: nat, region: iset<Key>)
    requires n > 0 && Step(bones, s) && |now| == |bones|
    requires Valued(bones, now, bones[s].pred, n - 1) && Progress(E, bones, region, now, now')
    requires now'[s].State? && now'[s].sem.Resolved?
    ensures Valued(bones, now', s, n)
  {
    hide AllFit, KeyOf;
    forall k {:trigger Walk(bones, s, k)} | 0 <= k < n
      ensures 0 <= Walk(bones, s, k) < |now'| && now'[Walk(bones, s, k)].State? && now'[Walk(bones, s, k)].sem.Resolved?
    {
      if k > 0 {
        assert Walk(bones, s, k) == Walk(bones, bones[s].pred, k - 1);
        assert now[Walk(bones, s, k)] == now[Walk(bones, s, k)];
      }
    }
  }

  /** The action of option o has been executed last, on the values that its right-hand side
      has, and has come to val. */
  ghost predicate Executed(E: Setting, items: seq<Item>, o: Item, log: seq<nat>, val: int) {
    o.Opt? && o.rule < |E.T.r2| && log != [] && log[|log|-1] == o.rule
    && exists vals {:trigger HasValues(items, o.state, E.T.r2[o.rule], vals)} ::
         HasValues(items, o.state, E.T.r2[o.rule], vals) && E.act(|log| - 1, o.rule, vals) == Result(YyOk, val)
  }

  lemma ExecutedRan(E: Setting, items: seq<Item>, o: Item, log: seq<nat>, val: int)
    requires Executed(E, items, o, log, val)
    ensures Ran(E, log, Piece(o.rule, val))
  {
    hide HasValues;
  }

  lemma RanStays(E: Setting, log: seq<nat>, log': seq<nat>, ps: seq<Piece>)
    requires AllRan(E, log, ps) && log <= log'
    ensures AllRan(E, log', ps)
  {
    forall i {:trigger ps[i]} | 0 <= i < |ps|
      ensures Ran(E, log', ps[i])
    {
      var n: nat, vals :| n < |log| && log[n] == ps[i].rule && E.act(n, ps[i].rule, vals) == Result(YyOk, ps[i].val);
      assert log'[n] == log[n];
    }
  }

  /** yyresolveAction: the states of the right-hand side get values, and the action of the
      option is executed on them. */
  method ResolveAction(E: Setting, ghost rk: Ranking, items: array<Item>, ghost used: nat, ghost bones: seq<Item>,
                       o: nat, log: seq<nat>)
    returns (tag: Tag, val: int, log': seq<nat>)
    requires used <= items.Length && Ready(E, rk, bones, items[..used]) && o < used && items[o].Opt?
    modifies items
    ensures log <= log' && SameBones(bones, items[..used]) && Caused(E, tag)
    ensures tag == YyOk ==>
      && Ready(E, rk, bones, items[..used]) && log' != [] && log'[|log'|-1] == old(items[o].rule)
      && Progress(E, bones, Below(rk, KeyOf(E.T, bones, o)), old(items[..used]), items[..used])
      && (forall fits: (Key, int) -> bool {:trigger AllFit(old(items[..used]), Keys(E.T, bones), fits)} |
            Compatible(E, fits) && AllFit(old(items[..used]), Keys(E.T, bones), fits) ::
            Made(E, fits, KeyOf(E.T, bones, o), old(items[o].rule), val))
      && Executed(E, items[..used], old(items[o]), log', val)
    decreases Span(KeyOf(E.T, bones, o)), rk.height(KeyOf(E.T, bones, o).sym), 1
  {
    hide Ready, Less, KeyOf, Walk, Progress, Compatible, AllFit, SameBones, Made, Executed, HasValues;
    ghost var before := items[..used];
    ghost var k := KeyOf(E.T, bones, o);
    assert before[o] == items[o];
    OptionStretch(E, rk, bones, before, o);
    var rule, n, last := items[o].rule, E.T.r2[items[o].rule], items[o].state;
    tag, log' := ResolveStates(E, rk, items, used, bones, last, n, log, k);
    val := 0;
    if tag != YyOk {
      return;
    }
    ghost var now := items[..used];
    StretchValues(E, rk, bones, now, last, n, k);
    var vals := RhsValues(items, used, last, n);
    var result := E.act(|log'|, rule, vals);
    tag, val := result.tag, result.val;
    if tag == YyOk {
      forall fits: (Key, int) -> bool {:trigger AllFit(before, Keys(E.T, bones), fits)} |
        Compatible(E, fits) && AllFit(before, Keys(E.T, bones), fits)
        ensures Made(E, fits, k, rule, val)
      {
        ProgressFits(E, bones, Below(rk, k), before, now, fits);
        OptionActionMakes(E, rk, bones, before, now, o, vals, |log'|, fits);
      }
    }
    ghost var count := |log'|;
    log' := log' + [rule];
    if tag == YyOk {
      ActionExecuted(E, now, before[o], log', vals, count, val);
    }
  }

  lemma ActionExecuted(E: Setting, items: seq<Item>, o: Item, log: seq<nat>, vals: seq<int>, count: nat, val: int)
    requires o.Opt? && o.rule < |E.T.r2| && |log| == count + 1 && log[count] == o.rule
    requires HasValues(items, o.state, E.T.r2[o.rule], vals)
    requires E.act(count, o.rule, vals).tag == YyOk && E.act(count, o.rule, vals).val == val
    ensures Executed(E, items, o, log, val)
  {
    hide HasValues;
    assert E.act(|log| - 1, o.rule, vals) == Result(YyOk, val);
  }

  lemma ProgressFits(E: Setting, bones: seq<Item>, region: iset<Key>, before: seq<Item>, now: seq<Item>,
                     fits: (Key, int) -> bool)
    requires Progress(E, bones, region, before, now) && Compatible(E, fits) && AllFit(before, Keys(E.T, bones), fits)
    ensures AllFit(now, Keys(E.T, bones), fits)
  {
  }

  lemma OptionActionMakes(E: Setting, rk: Ranking, bones: seq<Item>, before: seq<Item>, now: seq<Item>, o: nat,
                          vals: seq<int>, count: nat, fits: (Key, int) -> bool)
    requires Ready(E, rk, bones, before) && Ready(E, rk, bones, now) && o < |before| && before[o].Opt?
    requires before[o].rule < E.T.Rules() && HasValues(now, before[o].state, E.T.r2[before[o].rule], vals)
    requires AllFit(now, Keys(E.T, bones), fits)
    requires E.act(count, before[o].rule, vals).tag == YyOk
    ensures Made(E, fits, KeyOf(E.T, bones, o), before[o].rule, E.act(count, before[o].rule, vals).val)
  {
    hide KeyOf, Skeleton, NonCyclic, Made, AllFit, HasValues, Tidy;
    assert bones[o].Opt? && bones[o].rule == before[o].rule && bones[o].state == before[o].state;
    ActionMakes(E, rk, bones, now, o, vals, count, fits);
  }

  lemma OptionStretch(E: Setting, rk: Ranking, bones: seq<Item>, items: seq<Item>, o: nat)
    requires Ready(E, rk, bones, items) && o < |items| && items[o].Opt?
    ensures 1 < items[o].rule < E.T.Rules() && E.T.Ranges()
    ensures Stretch(E, rk, bones, items[o].state, E.T.r2[items[o].rule], KeyOf(E.T, bones, o))
  {
    hide Less, KeyOf, Skeleton, NonCyclic, Tidy;
    assert bones[o].Opt? && bones[o].rule == items[o].rule && bones[o].state == items[o].state;
    OptionIsRooted(E.T, rk, bones, o);
    forall k {:trigger Walk(bones, items[o].state, k)} | 0 <= k < E.T.r2[items[o].rule]
      ensures Step(bones, Walk(bones, items[o].state, k))
        && Less(rk, KeyOf(E.T, bones, Walk(bones, items[o].state, k)), KeyOf(E.T, bones, o))
    {
      RhsIsLess(E.T, rk, bones, o, k);
    }
  }

  lemma StretchValues(E: Setting, rk: Ranking, bones: seq<Item>, items: seq<Item>, s: int, n: nat, top: Key)
    requires Ready(E, rk, bones, items) && Stretch(E, rk, bones, s, n, top) && Valued(bones, items, s, n)
    ensures forall k {:trigger Walk(items, s, k)} | 0 <= k < n ::
      Step(items, Walk(items, s, k)) && items[Walk(items, s, k)].sem.Resolved?
  {
    hide Less, KeyOf, Skeleton, NonCyclic, Tidy;
    forall k {:trigger Walk(items, s, k)} | 0 <= k < n
      ensures Step(items, Walk(items, s, k)) && items[Walk(items, s, k)].sem.Resolved?
    {
      BonesWalk(bones, items, s, k);
    }
  }

  /** The pieces are for the options of highest precedence of those that the scan of the list
      from `first` keeps, all of them and in their order. */
  ghost predicate ChoiceMade(G: Grammar, before: seq<Item>, first: int, ps: seq<Piece>) {
    exists kept: seq<int>, b: nat, merge: bool {:trigger Best(G, Rules(before, kept), b, merge)} ::
      && Thinned(G, before, first, kept, []) && Best(G, Rules(before, kept), b, merge) && G.Has(Rules(before, kept)[b])
      && PieceRules(ps) == OfPrecedence(G, G.dprec[Rules(before, kept)[b]], Rules(before, kept))
  }

  /** After the scan the graph can be worked on as before, and the best option is one of the
      state's. */
  lemma AfterScan(E: Setting, rk: Ranking, bones: seq<Item>, before: seq<Item>, now: seq<Item>, s: nat, best: int,
                  kept: seq<int>, b: nat)
    requires Ready(E, rk, bones, before) && s < |before| && before[s].State? && before[s].sem.Unresolved?
    requires SameBones(before, now) && Tidy(now, Keys(E.T, bones)) && Inherits(before, now, Keys(E.T, bones))
    requires Chain(now, before[s].sem.firstVal) == kept && b < |kept| && kept[b] == best
    ensures Ready(E, rk, bones, now) && s < |now| && now[s].State?
    ensures 0 <= best < |now| && now[best].Opt? && 1 < now[best].rule < |E.T.r1| && now[best].rule == before[best].rule
    ensures KeyOf(E.T, bones, best) == KeyOf(E.T, bones, s)
    ensures before[best].Opt? && E.G.Has(now[best].rule)
    ensures var first := before[s].sem.firstVal;
      0 <= first < |now| && now[first].Opt? && KeyOf(E.T, bones, first) == KeyOf(E.T, bones, s)
  {
    hide KeyOf, Skeleton, NonCyclic, Chain, AllFit;
    BonesTrans(bones, before, now);
    FirstIsOption(E.T, bones, before, s);
    var first := before[s].sem.firstVal;
    assert now[first].Opt?;
    ChainDecreases(now, first);
    TidyChain(now, Keys(E.T, bones), first);
    assert best in Chain(now, first);
    assert Keys(E.T, bones)(best) == Keys(E.T, bones)(first);
    assert before[best].Opt? && bones[best].Opt?;
    OptionIsRooted(E.T, rk, bones, best);
  }

  lemma Chosen(G: Grammar, before: seq<Item>, first: int, kept: seq<int>, b: nat, merge: bool, ps: seq<Piece>)
    requires Thinned(G, before, first, kept, []) && Best(G, Rules(before, kept), b, merge)
    requires var rules := Rules(before, kept);
      G.Has(rules[b]) && PieceRules(ps) ==
        if merge then [rules[b]] + OfPrecedence(G, G.dprec[rules[b]], rules[b + 1..]) else [rules[b]]
    ensures ChoiceMade(G, before, first, ps)
  {
    BestPrecedence(G, Rules(before, kept), b, merge);
  }

  /** What follows the best option of the list that the scan has left, now and after its
      action has been executed. */
  lemma AfterBest(E: Setting, rk: Ranking, bones: seq<Item>, before: seq<Item>, scanned: seq<Item>, acted: seq<Item>,
                  first: int, kept: seq<int>, b: nat, best: nat, k: Key)
    requires Ready(E, rk, bones, scanned) && Progress(E, bones, Below(rk, k), scanned, acted)
    requires SameBones(before, scanned) && SameBones(before, acted)
    requires 0 <= first < |scanned| && scanned[first].Opt? && KeyOf(E.T, bones, first) == k
    requires Chain(scanned, first) == kept && b < |kept| && kept[b] == best < |scanned| && scanned[best].Opt?
    ensures best < |acted| && acted[best] == scanned[best]
    ensures Rules(acted, Chain(acted, acted[best].next)) == Rules(before, kept)[b + 1..]
    ensures Rules(before, kept)[b] == scanned[best].rule
  {
    hide KeyOf, AllFit, Less, Rules, Compatible, Chain, Ready, Progress, SameBones;
    KeptStays(E, rk, bones, before, scanned, acted, first, kept, k);
    ReadyLinks(E, rk, bones, scanned);
    ChainRest(scanned, first, kept, b);
    var next := scanned[best].next;
    forall x {:trigger x in Chain(scanned, next)} | x in Chain(scanned, next)
      ensures 0 <= x < |acted| && acted[x] == scanned[x]
    {
      assert x in kept;
    }
    BonesSizes(before, scanned);
    BonesSizes(before, acted);
    StateOrOption(before, scanned, acted, next);
    SameChain(scanned, acted, next);
    RulesFrom(before, kept, b + 1);
    SameRules(before, acted, kept[b + 1..]);
    RulesAre(before, kept, b);
    assert kept[b] in kept;
  }

  lemma StateOrOption(before: seq<Item>, a: seq<Item>, b: seq<Item>, i: int)
    requires SameBones(before, a) && SameBones(before, b)
    ensures |a| == |b| && (0 <= i < |a| && a[i].State? ==> b[i].State?)
  {
    if 0 <= i < |a| {
      BonesAt(before, a, i);
      BonesAt(before, b, i);
    }
  }

  lemma ReadyLinks(E: Setting, rk: Ranking, bones: seq<Item>, items: seq<Item>)
    requires Ready(E, rk, bones, items)
    ensures LinksDown(items) && Tidy(items, Keys(E.T, bones)) && SameBones(bones, items)
  {
    hide Skeleton, NonCyclic, LinksDown;
  }

  /** The options kept stand for k, so that work below leaves them alone. */
  lemma KeptStays(E: Setting, rk: Ranking, bones: seq<Item>, before: seq<Item>, scanned: seq<Item>, acted: seq<Item>,
                  first: int, kept: seq<int>, k: Key)
    requires Ready(E, rk, bones, scanned) && Progress(E, bones, Below(rk, k), scanned, acted)
    requires SameBones(before, scanned) && 0 <= first < |scanned| && scanned[first].Opt?
    requires KeyOf(E.T, bones, first) == k && Chain(scanned, first) == kept
    ensures |acted| == |scanned|
    ensures forall x {:trigger x in kept} | x in kept :: 0 <= x < |scanned| && acted[x] == scanned[x]
    ensures forall i {:trigger kept[i]} | 0 <= i < |kept| ::
      && 0 <= kept[i] < |before| && before[kept[i]].Opt?
      && scanned[kept[i]].Opt? && scanned[kept[i]].rule == before[kept[i]].rule
  {
    hide KeyOf, AllFit, Less, Compatible, Ready, Skeleton, Chain;
    ReadyLinks(E, rk, bones, scanned);
    TidyChain(scanned, Keys(E.T, bones), first);
    ChainDecreases(scanned, first);
    forall x {:trigger x in kept} | x in kept
      ensures 0 <= x < |scanned| && scanned[x].Opt? && acted[x] == scanned[x] && x < |before|
      ensures before[x].Opt? && scanned[x].rule == before[x].rule
    {
      assert Keys(E.T, bones)(x) == k;
      StillThere(E, rk, bones, scanned, acted, x, k);
    }
    assert forall i | 0 <= i < |kept| :: kept[i] in kept;
  }

  /** The rest of a chain from its b-th element on. */
  lemma {:induction false} ChainRest(items: seq<Item>, first: int, kept: seq<int>, b: nat)
    requires LinksDown(items) && Link(items, first) && Chain(items, first) == kept && b < |kept|
    ensures 0 <= kept[b] < |items| && items[kept[b]].Opt? && Chain(items, items[kept[b]].next) == kept[b + 1..]
    ensures Link(items, items[kept[b]].next)
    decreases b
  {
    assert Chain(items, first) == [first] + Chain(items, items[first].next);
    if b > 0 {
      ChainRest(items, items[first].next, kept[1..], b - 1);
      assert kept[1..][b..] == kept[b + 1..];
    }
  }

  /** What a state's value has been resolved to: the options of highest precedence that the
      scan keeps have had their actions executed, and the values are merged in their order. */
  ghost predicate Resolution(E: Setting, before: seq<Item>, first: int, log: seq<nat>, ps: seq<Piece>) {
    && ps != [] && ChoiceMade(E.G, before, first, ps) && AllRan(E, log, ps)
    && log != [] && log[|log|-1] == ps[|ps|-1].rule
  }

  /** Whatever fits the rest of the graph: the pieces are values of k, each made by its rule. */
  ghost predicate PiecesMade(E: Setting, bones: seq<Item>, before: seq<Item>, k: Key, ps: seq<Piece>) {
    forall fits: (Key, int) -> bool {:trigger AllFit(before, Keys(E.T, bones), fits)} |
      Compatible(E, fits) && AllFit(before, Keys(E.T, bones), fits) :: Alternatives(E, fits, k, ps)
  }

  /** yyresolveValue: the options of state s are scanned, the action of the best is executed,
      and so are those of the others that merge with it; s gets the result. */
  method ResolveValue(E: Setting, ghost rk: Ranking, items: array<Item>, ghost used: nat, ghost bones: seq<Item>,
                      s: nat, log: seq<nat>)
    returns (tag: Tag, log': seq<nat>, ghost ps: seq<Piece>)
    requires used <= items.Length && Ready(E, rk, bones, items[..used])
    requires s < used && items[s].State? && items[s].sem.Unresolved?
    modifies items
    ensures log <= log' && SameBones(bones, items[..used]) && Caused(E, tag)
    ensures tag == YyOk ==>
      && Ready(E, rk, bones, items[..used])
      && Progress(E, bones, UpTo(rk, KeyOf(E.T, bones, s)), old(items[..used]), items[..used])
      && Resolution(E, old(items[..used]), old(items[s].sem.firstVal), log', ps)
      && PiecesMade(E, bones, old(items[..used]), KeyOf(E.T, bones, s), ps)
      && items[s].State? && items[s].sem == Resolved(MergeAll(E, ps))
    decreases Span(KeyOf(E.T, bones, s)), rk.height(KeyOf(E.T, bones, s).sym), 3
  {
    hide Ready, Less, KeyOf, Walk, Progress, Compatible, AllFit, Best, Found, Decide, AllRules, Calm, Thinned, Listed,
      Inherits, Beyond, SameBones, Tidy, Chain, ChoiceMade, Rules, Identical, Operand, Made, Executed, AllRan,
      Alternatives, MergeAll, PieceRules, OfPrecedence, PiecesMade;
    ghost var before := items[..used];
    ghost var k := KeyOf(E.T, bones, s);
    ps := [];
    assert before[s] == items[s];
    CanScan(E, rk, bones, before, s);
    var first := items[s].sem.firstVal;
    var ambiguous, best, merge;
    ghost var kept, b, other;
    ambiguous, best, merge, kept, b, other := Scan(E.G, items, used, first, ViewAt(E.T, rk, bones, k));
    ghost var scanned := items[..used];
    ReadyBones(E, rk, bones, before);
    BonesTrans(bones, before, scanned);
    if ambiguous {
      assert items[best] == scanned[best] && items[other] == scanned[other];
      NotAmbiguous(E, rk, bones, before, scanned, s, best, other);
      return YyAbort, log, [];
    }
    FoundBest(E.G, Rules(before, kept), b, merge);
    AfterScan(E, rk, bones, before, scanned, s, best, kept, b);
    ScanProgress(E, rk, bones, k, before, scanned);
    assert items[best] == scanned[best];
    var val;
    tag, val, log' := ResolveAction(E, rk, items, used, bones, best, log);
    if tag == YyOk {
      ghost var acted := items[..used];
      StillThere(E, rk, bones, scanned, acted, best, k);
      BestActed(E, rk, bones, before, scanned, acted, first, kept, b, merge, best, k, log', val);
      ps := [Piece(scanned[best].rule, val)];
      if merge {
        tag, val, log', ps := MergeOthers(E, rk, items, used, bones, best, val, log', k);
      } else {
        OnePiece(E, k, scanned[best].rule, val);
        ProgressSelf(E, bones, Below(rk, k), acted);
      }
      if tag == YyOk {
        Chosen(E.G, before, first, kept, b, merge, ps);
        ghost var now := items[..used];
        ValueMade(E, rk, bones, before, scanned, acted, now, k, scanned[best].rule, ps);
        StateStays(bones, before, now, s);
        SetValue(E, rk, bones, before, now, s, val);
        items[s] := items[s].(sem := Resolved(val));
        assert items[..used] == now[s := now[s].(sem := Resolved(val))];
        BonesSet(bones, now, s, Resolved(val));
      }
    }
    if tag != YyOk {
      ghost var now := items[..used];
      StateStays(bones, before, now, s);
      assert items[s] == now[s];
      items[s] := items[s].(sem := Unresolved(NULL));
      assert items[..used] == now[s := now[s].(sem := Unresolved(NULL))];
      BonesSet(bones, now, s, Unresolved(NULL));
    }
  }

  /** The best option's action has been executed: what it gave, and what comes after it. */
  lemma BestActed(E: Setting, rk: Ranking, bones: seq<Item>, before: seq<Item>, scanned: seq<Item>, acted: seq<Item>,
                  first: int, kept: seq<int>, b: nat, merge: bool, best: nat, k: Key, log: seq<nat>, val: int)
    requires Ready(E, rk, bones, scanned) && Progress(E, bones, Below(rk, k), scanned, acted)
    requires SameBones(before, scanned) && SameBones(bones, before) && SameBones(bones, acted)
    requires 0 <= first < |scanned| && scanned[first].Opt? && KeyOf(E.T, bones, first) == k
    requires Chain(scanned, first) == kept && b < |kept| && kept[b] == best < |scanned| && scanned[best].Opt?
    requires Best(E.G, Rules(before, kept), b, merge) && Executed(E, acted, scanned[best], log, val)
    ensures best < |acted| && acted[best] == scanned[best] && E.G.Has(scanned[best].rule)
    ensures b < |Rules(before, kept)| && Rules(before, kept)[b] == scanned[best].rule
    ensures Rules(acted, Chain(acted, acted[best].next)) == Rules(before, kept)[b + 1..]
    ensures log != [] && log[|log|-1] == scanned[best].rule
    ensures var one := [Piece(scanned[best].rule, val)];
      AllRan(E, log, one) && PieceRules(one) == [scanned[best].rule] && MergeAll(E, one) == val
  {
    hide KeyOf, Ready, Progress, Best, HasValues, Chain, Rules;
    BonesBack(bones, before, acted);
    AfterBest(E, rk, bones, before, scanned, acted, first, kept, b, best, k);
    ExecutedRan(E, acted, scanned[best], log, val);
    BestHas(E.G, Rules(before, kept), b, merge);
    assert PieceRules([Piece(scanned[best].rule, val)]) == [scanned[best].rule];
  }

  lemma BestHas(G: Grammar, rules: seq<nat>, b: int, merge: bool)
    requires Best(G, rules, b, merge)
    ensures 0 <= b < |rules| && G.Has(rules[b])
  {
  }

  lemma BonesBack(bones: seq<Item>, a: seq<Item>, b: seq<Item>)
    requires SameBones(bones, a) && SameBones(bones, b)
    ensures SameBones(a, b)
  {
    forall i {:trigger b[i]} {:trigger a[i]} | 0 <= i < |a|
      ensures if a[i].State? then b[i].State? && b[i] == a[i].(sem := b[i].sem)
              else b[i].Opt? && b[i] == a[i].(next := b[i].next)
    {
      assert bones[i] == bones[i];
    }
  }

  /** The pieces are values of k, and their merge fits. */
  lemma ValueMade(E: Setting, rk: Ranking, bones: seq<Item>, before: seq<Item>, scanned: seq<Item>, acted: seq<Item>,
                  now: seq<Item>, k: Key, rule: nat, ps: seq<Piece>)
    requires Progress(E, bones, UpTo(rk, k), before, scanned) && Progress(E, bones, Below(rk, k), scanned, acted)
    requires Progress(E, bones, Below(rk, k), acted, now) && ps != []
    requires forall fits: (Key, int) -> bool {:trigger AllFit(scanned, Keys(E.T, bones), fits)} |
      Compatible(E, fits) && AllFit(scanned, Keys(E.T, bones), fits) :: Made(E, fits, k, rule, ps[0].val)
    requires forall fits: (Key, int) -> bool {:trigger AllFit(acted, Keys(E.T, bones), fits)} |
      Compatible(E, fits) && AllFit(acted, Keys(E.T, bones), fits) && Made(E, fits, k, rule, ps[0].val) ::
      Alternatives(E, fits, k, ps)
    ensures PiecesMade(E, bones, before, k, ps) && Progress(E, bones, UpTo(rk, k), before, now)
    ensures forall fits: (Key, int) -> bool {:trigger AllFit(before, Keys(E.T, bones), fits)} |
      Compatible(E, fits) && AllFit(before, Keys(E.T, bones), fits) :: fits(k, MergeAll(E, ps))
  {
    hide Progress, Compatible, AllFit, Made, Alternatives, MergeAll, Less;
    forall fits: (Key, int) -> bool {:trigger AllFit(before, Keys(E.T, bones), fits)} |
      Compatible(E, fits) && AllFit(before, Keys(E.T, bones), fits)
      ensures Alternatives(E, fits, k, ps) && fits(k, MergeAll(E, ps))
    {
      ProgressFits(E, bones, UpTo(rk, k), before, scanned, fits);
      ProgressFits(E, bones, Below(rk, k), scanned, acted, fits);
      assert AllFit(scanned, Keys(E.T, bones), fits);
      assert AllFit(acted, Keys(E.T, bones), fits);
      PiecesFit(E, fits, k, ps);
    }
    BelowUpTo(rk, k);
    ProgressTrans(E, bones, Below(rk, k), Below(rk, k), UpTo(rk, k), scanned, acted, now);
    ProgressTrans(E, bones, UpTo(rk, k), UpTo(rk, k), UpTo(rk, k), before, scanned, now);
  }

  /** The values of the other options of the same precedence are merged into that of the best:
      of all that follow it in the list, in their order. */
  method MergeOthers(E: Setting, ghost rk: Ranking, items: array<Item>, ghost used: nat, ghost bones: seq<Item>,
                     best: nat, val0: int, log: seq<nat>, ghost k: Key)
    returns (tag: Tag, val: int, log': seq<nat>, ghost ps: seq<Piece>)
    requires used <= items.Length && Ready(E, rk, bones, items[..used]) && k == KeyOf(E.T, bones, best)
    requires best < used && items[best].Opt? && E.G.Has(items[best].rule)
    requires log != [] && log[|log|-1] == items[best].rule && AllRan(E, log, [Piece(items[best].rule, val0)])
    modifies items
    ensures log <= log' && SameBones(bones, items[..used]) && Caused(E, tag)
    ensures tag == YyOk ==>
      && Ready(E, rk, bones, items[..used])
      && ps != [] && ps[0] == Piece(old(items[best].rule), val0) && val == MergeAll(E, ps)
      && PieceRules(ps) == [old(items[best].rule)]
         + OfPrecedence(E.G, E.G.dprec[old(items[best].rule)],
                        old(Rules(items[..used], Chain(items[..used], items[best].next))))
      && AllRan(E, log', ps) && log' != [] && log'[|log'|-1] == ps[|ps|-1].rule
      && Progress(E, bones, Below(rk, k), old(items[..used]), items[..used])
      && (forall fits: (Key, int) -> bool {:trigger AllFit(old(items[..used]), Keys(E.T, bones), fits)} |
            Compatible(E, fits) && AllFit(old(items[..used]), Keys(E.T, bones), fits)
            && Made(E, fits, k, old(items[best].rule), val0) :: Alternatives(E, fits, k, ps))
    decreases Span(k), rk.height(k.sym), 2
  {
    hide Ready, Less, KeyOf, Walk, Progress, Compatible, AllFit, SameBones, Tidy, Chain, Made, Alternatives, MergeAll,
      Executed, AllRan, PieceRules, OfPrecedence, Rules, Calm;
    ghost var before := items[..used];
    ReadyBones(E, rk, bones, before);
    tag, val, log' := YyOk, val0, log;
    var dprec := E.G.dprec[items[best].rule];
    NextOption(E, rk, bones, before, best, k);
    assert items[best] == before[best];
    ProgressSelf(E, bones, Below(rk, k), before);
    var p := items[best].next;
    ghost var rule := items[best].rule;
    ghost var all := [rule] + OfPrecedence(E.G, dprec, Rules(before, Chain(before, p)));
    ps := [Piece(rule, val0)];
    OnePiece(E, k, rule, val0);
    while p != NULL
      invariant Ready(E, rk, bones, items[..used]) && Progress(E, bones, Below(rk, k), before, items[..used])
      invariant SameBones(bones, items[..used])
      invariant NULL <= p < used && (p != NULL ==> items[p].Opt? && KeyOf(E.T, bones, p) == k)
      invariant log <= log' && log' != [] && ps != [] && log'[|log'|-1] == ps[|ps|-1].rule && AllRan(E, log', ps)
      invariant tag == YyOk
      invariant ps[0] == Piece(rule, val0) && val == MergeAll(E, ps)
      invariant PieceRules(ps) + OfPrecedence(E.G, dprec, Rules(before, Chain(before, p))) == all
      invariant forall fits: (Key, int) -> bool {:trigger AllFit(before, Keys(E.T, bones), fits)} |
        Compatible(E, fits) && AllFit(before, Keys(E.T, bones), fits) && Made(E, fits, k, rule, val0) ::
        Alternatives(E, fits, k, ps)
      decreases p
    {
      ghost var now := items[..used];
      assert now[p] == items[p];
      NextOption(E, rk, bones, now, p, k);
      StillThere(E, rk, bones, before, now, p, k);
      NextOfPrecedence(E, rk, bones, before, p, k, dprec);
      if E.G.dprec[items[p].rule] == dprec {
        var other;
        ghost var log0 := log';
        tag, other, log' := ResolveAction(E, rk, items, used, bones, p, log');
        if tag != YyOk {
          return;
        }
        ghost var now' := items[..used];
        StillThere(E, rk, bones, now, now', p, k);
        assert items[p] == now'[p];
        val := E.merge(E.G.merger[items[p].rule], val, other);
        ghost var more := Piece(now[p].rule, other);
        forall fits: (Key, int) -> bool {:trigger AllFit(before, Keys(E.T, bones), fits)} |
          Compatible(E, fits) && AllFit(before, Keys(E.T, bones), fits) && Made(E, fits, k, rule, val0)
          ensures Alternatives(E, fits, k, ps + [more])
        {
          ProgressFits(E, bones, Below(rk, k), before, now, fits);
          assert AllFit(now, Keys(E.T, bones), fits);
          MorePieces(E, fits, k, ps, more);
        }
        MergeOne(E, ps, more);
        ExecutedRan(E, now', now[p], log', other);
        OneMoreRan(E, log0, log', ps, more);
        ps := ps + [more];
        ProgressTrans(E, bones, Below(rk, k), Below(rk, k), Below(rk, k), before, now, now');
        NextOption(E, rk, bones, now', p, k);
      }
      p := items[p].next;
    }
    NoMoreOfPrecedence(E.G, dprec, before);
  }

  lemma NextOfPrecedence(E: Setting, rk: Ranking, bones: seq<Item>, items: seq<Item>, p: nat, k: Key, d: nat)
    requires Ready(E, rk, bones, items) && p < |items| && items[p].Opt? && KeyOf(E.T, bones, p) == k
    ensures OfPrecedence(E.G, d, Rules(items, Chain(items, p)))
         == (if E.G.Has(items[p].rule) && E.G.dprec[items[p].rule] == d then [items[p].rule] else [])
            + OfPrecedence(E.G, d, Rules(items, Chain(items, items[p].next)))
  {
    hide KeyOf, Skeleton, NonCyclic, Rules;
    var c := Chain(items, items[p].next);
    ChainHead(items, p);
    ChainDecreases(items, items[p].next);
    forall i {:trigger c[i]} | 0 <= i < |c|
      ensures 0 <= c[i] < |items| && items[c[i]].Opt?
    {
      assert c[i] in c;
    }
    RulesFront(items, p, c);
    var rules := [items[p].rule] + Rules(items, c);
    assert rules[0] == items[p].rule && rules[1..] == Rules(items, c);
  }

  lemma NoMoreOfPrecedence(G: Grammar, d: nat, items: seq<Item>)
    ensures OfPrecedence(G, d, Rules(items, Chain(items, NULL))) == []
  {
  }

  lemma OneMoreRan(E: Setting, log: seq<nat>, log': seq<nat>, ps: seq<Piece>, p: Piece)
    requires AllRan(E, log, ps) && log <= log' && Ran(E, log', p)
    ensures AllRan(E, log', ps + [p])
    ensures PieceRules(ps + [p]) == PieceRules(ps) + [p.rule]
  {
    hide Ran;
    RanStays(E, log, log', ps);
  }

  lemma OnePiece(E: Setting, k: Key, r: nat, v: int)
    requires E.G.Has(r)
    ensures MergeAll(E, [Piece(r, v)]) == v
    ensures forall fits: (Key, int) -> bool {:trigger Made(E, fits, k, r, v)} |
      Made(E, fits, k, r, v) :: Alternatives(E, fits, k, [Piece(r, v)])
  {
    hide Made;
  }

  lemma MorePieces(E: Setting, fits: (Key, int) -> bool, k: Key, ps: seq<Piece>, p: Piece)
    requires Alternatives(E, fits, k, ps) && Made(E, fits, k, p.rule, p.val)
    requires E.G.Has(p.rule) && E.G.Has(ps[0].rule) && E.G.dprec[p.rule] == E.G.dprec[ps[0].rule]
    ensures Alternatives(E, fits, k, ps + [p])
  {
    hide Made;
  }

  lemma MergeOne(E: Setting, ps: seq<Piece>, p: Piece)
    requires ps != [] && E.G.Has(p.rule)
    ensures MergeAll(E, ps + [p]) == E.merge(E.G.merger[p.rule], MergeAll(E, ps), p.val)
  {
    assert (ps + [p])[..|ps|] == ps;
  }

  lemma PiecesFit(E: Setting, fits: (Key, int) -> bool, k: Key, ps: seq<Piece>)
    requires Compatible(E, fits) && Alternatives(E, fits, k, ps)
    ensures fits(k, MergeAll(E, ps))
  {
    hide Alternatives, MergeAll;
  }

  lemma FoundBest(G: Grammar, rules: seq<nat>, b: int, merge: bool)
    requires Found(G, rules, b, merge)
    ensures Best(G, rules, b, merge)
  {
    DecidesForBest(G, rules);
  }

  /** Two options of a state are of rules of one symbol, and end at the same place; if they
      are of one rule that is no longer than one symbol they are identical. */
  lemma NotAmbiguous(E: Setting, rk: Ranking, bones: seq<Item>, before: seq<Item>, now: seq<Item>, s: nat, o0: int,
                     o1: int)
    requires Ready(E, rk, bones, before) && s < |before| && before[s].State?
    requires IsOption(E.G, before, now, o0, ViewAt(E.T, rk, bones, KeyOf(E.T, bones, s)))
    requires IsOption(E.G, before, now, o1, ViewAt(E.T, rk, bones, KeyOf(E.T, bones, s)))
    requires Prefer(E.G, now[o0].rule, now[o1].rule) == Ambiguous && !Identical(E.G, before, o0, o1)
    ensures !Calm(E)
  {
    hide KeyOf, Skeleton, NonCyclic, Tidy, Operand, Identical;
    assert KeyOf(E.T, bones, o0) == KeyOf(E.T, bones, o1);
    assert bones[o0].Opt? && bones[o1].Opt?;
    OptionKeyIs(E.T, rk, bones, o0);
    OptionKeyIs(E.T, rk, bones, o1);
    assert E.T.r1[bones[o0].rule] == E.T.r1[bones[o1].rule];
    if before[o0].rule == before[o1].rule && E.G.r2[before[o0].rule] <= 1 {
      ShortIsIdentical(E, rk, bones, before, o0, o1);
    }
  }

  lemma ShortIsIdentical(E: Setting, rk: Ranking, bones: seq<Item>, items: seq<Item>, o0: int, o1: int)
    requires Ready(E, rk, bones, items) && 0 <= o0 < |items| && 0 <= o1 < |items| && items[o0].Opt? && items[o1].Opt?
    requires items[o0].rule == items[o1].rule && E.G.Has(items[o0].rule) && E.G.r2[items[o0].rule] <= 1
    requires KeyOf(E.T, bones, o0) == KeyOf(E.T, bones, o1)
    ensures Identical(E.G, items, o0, o1)
  {
    hide Skeleton, NonCyclic, Tidy, KeyOf;
    assert bones[o0].Opt? && bones[o1].Opt?;
    OptionKeyIs(E.T, rk, bones, o0);
    OptionKeyIs(E.T, rk, bones, o1);
    OptionIsRooted(E.T, rk, bones, o0);
    OptionIsRooted(E.T, rk, bones, o1);
    var a, b := items[o0].state, items[o1].state;
    assert bones[a].State? && bones[b].State? && bones[a].posn == bones[b].posn;
    assert items[a] == items[a] && items[b] == items[b];
    assert Walk(items, a, 0) == a && Walk(items, b, 0) == b;
  }

  lemma CanScan(E: Setting, rk: Ranking, bones: seq<Item>, items: seq<Item>, s: nat)
    requires Ready(E, rk, bones, items) && s < |items| && items[s].State? && items[s].sem.Unresolved?
    ensures Listed(E.G, items, items[s].sem.firstVal, ViewAt(E.T, rk, bones, KeyOf(E.T, bones, s)))
    ensures 0 <= items[s].sem.firstVal
  {
    hide Skeleton, KeyOf, Fleshed, NonCyclic, Listed;
    OptionsAreListed(E.T, E.G, rk, bones, items, s);
  }

  /** Work below leaves an option as it is. */
  lemma StillThere(E: Setting, rk: Ranking, bones: seq<Item>, now: seq<Item>, now': seq<Item>, p: nat, k: Key)
    requires Progress(E, bones, Below(rk, k), now, now') && p < |now| && KeyOf(E.T, bones, p) == k
    ensures |now'| == |now| && now'[p] == now[p]
  {
    hide KeyOf, AllFit;
  }

  lemma BelowUpTo(rk: Ranking, k: Key)
    ensures Below(rk, k) <= UpTo(rk, k)
  {
  }

  lemma NextOption(E: Setting, rk: Ranking, bones: seq<Item>, items: seq<Item>, p: nat, k: Key)
    requires Ready(E, rk, bones, items) && p < |items| && items[p].Opt? && KeyOf(E.T, bones, p) == k
    ensures E.G.Has(items[p].rule) && NULL <= items[p].next < p
    ensures items[p].next != NULL ==> items[items[p].next].Opt? && KeyOf(E.T, bones, items[p].next) == k
  {
    hide KeyOf, Skeleton, NonCyclic;
    assert bones[p].Opt? && bones[p].rule == items[p].rule;
    OptionIsRooted(E.T, rk, bones, p);
    assert items[p].next != NULL ==> Keys(E.T, bones)(items[p].next) == Keys(E.T, bones)(p);
  }

  lemma BonesSet(bones: seq<Item>, now: seq<Item>, s: nat, sem: Semantics)
    requires SameBones(bones, now) && s < |now| && now[s].State?
    ensures SameBones(bones, now[s := now[s].(sem := sem)])
  {
  }

  /** State s gets a value that fits. */
  lemma SetValue(E: Setting, rk: Ranking, bones: seq<Item>, before: seq<Item>, now: seq<Item>, s: nat, val: int)
    requires Ready(E, rk, bones, now) && s < |now| && now[s].State?
    requires Progress(E, bones, UpTo(rk, KeyOf(E.T, bones, s)), before, now)
    requires forall fits: (Key, int) -> bool {:trigger AllFit(before, Keys(E.T, bones), fits)} |
      Compatible(E, fits) && AllFit(before, Keys(E.T, bones), fits) :: fits(KeyOf(E.T, bones, s), val)
    ensures var h := now[s := now[s].(sem := Resolved(val))];
      Ready(E, rk, bones, h) && Progress(E, bones, UpTo(rk, KeyOf(E.T, bones, s)), before, h)
  {
    hide KeyOf, Skeleton, NonCyclic, Compatible, Less;
    var h := now[s := now[s].(sem := Resolved(val))];
    assert forall i {:trigger h[i]} | 0 <= i < |h| && i != s :: h[i] == now[i];
    assert KeyOf(E.T, bones, s) in UpTo(rk, KeyOf(E.T, bones, s));
  }
}
