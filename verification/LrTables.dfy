/** The compressed LALR(1) tables that Bison emits, how the parsers look actions
    and gotos up in them, and what it means for such tables to be valid. */
module LrTables {

  datatype Option<+T> = None | Some(value: T)

  // Internal symbol numbers fixed by Bison: `error` and the undefined token.
  const TERROR: nat := 1
  const UNDEFTOK: nat := 2
  const EOF: nat := 0

  /** What is on the stack whenever a state is on top of it: the symbols last derived, the
      top one first, and the states that can be 0, 1, 2 ... places down from the top. */
  datatype Past = Past(symbols: seq<nat>, states: seq<set<nat>>)

  /** One expanded set of tables.  `edges` are the transitions (state, symbol, state)
      of the automaton the tables compress, and `past` is what its states know of the stack
      below them; the parsers never look at these.
      `rhs` lists the right-hand sides of the rules (yyrhs cut up by yyprhs). */
  datatype Tables = Tables(
    pact: seq<int>, defact: seq<nat>, pgoto: seq<int>, defgoto: seq<int>,
    table: seq<int>, check: seq<int>,
    r1: seq<nat>, r2: seq<nat>, stos: seq<nat>,
    pactNinf: int, tableNinf: Option<int>,
    ntokens: nat, final: nat, translate: int -> nat,
    rhs: seq<seq<nat>>, start: nat, edges: set<(nat, nat, nat)>, past: seq<Past>)
  {
    function States(): nat { |pact| }
    function Rules(): nat { |r1| }

    /** Table shapes: every array the parsers index has the length the indices need. */
    ghost predicate Ranges() {
      && |defact| == |stos| == |pact| > 0
      && |check| == |table| > 0
      && |pgoto| == |defgoto|
      && |r2| == |rhs| == |r1|
      && ntokens > UNDEFTOK
      && final < |pact| && ntokens <= start < ntokens + |pgoto|
      && (tableNinf.Some? ==> tableNinf.value < 0)
      && (forall r {:trigger r1[r]} | 0 < r < |r1| :: ntokens <= r1[r] < ntokens + |pgoto|)
      && (forall r {:trigger rhs[r]} | 0 <= r < |r1| :: r2[r] == |rhs[r]|)
      && (forall x {:trigger translate(x)} | x > 0 :: 0 < translate(x) < ntokens)
    }
  }

  datatype Action = Shift(to: nat) | Reduce(rule: nat) | Error

  /** yypact_value_is_default: the state acts without looking at a token. */
  predicate Defaulted(T: Tables, s: nat)
    requires T.Ranges() && s < T.States()
  {
    T.pact[s] == T.pactNinf
  }

  /** The entry of yytable that yycheck confirms belongs to state s and symbol x. */
  function Entry(T: Tables, s: nat, x: nat): Option<int>
    requires T.Ranges() && s < T.States()
  {
    var i := T.pact[s] + x;
    if Defaulted(T, s) || i < 0 || |T.table| <= i || T.check[i] != x then None
    else Some(T.table[i])
  }

  function DefaultAction(T: Tables, s: nat): Action
    requires T.Ranges() && s < T.States()
  {
    if T.defact[s] == 0 then Error else Reduce(T.defact[s])
  }

  /** What the parsers do in state s when the next token is x. */
  function Act(T: Tables, s: nat, x: nat): Action
    requires T.Ranges() && s < T.States()
  {
    match Entry(T, s, x)
    case None => DefaultAction(T, s)
    case Some(v) =>
      if T.tableNinf == Some(v) then Error
      else if v > 0 then Shift(v)
      else Reduce(-v)
  }

  /** The state reached after reducing to nonterminal `lhs` on top of state s. */
  function Goto(T: Tables, s: nat, lhs: nat): int
    requires T.Ranges() && T.ntokens <= lhs < T.ntokens + |T.pgoto|
  {
    var i := T.pgoto[lhs - T.ntokens] + s;
    if 0 <= i < |T.table| && T.check[i] == s then T.table[i]
    else T.defgoto[lhs - T.ntokens]
  }

  function Translate(T: Tables, raw: int): nat
  {
    if raw <= 0 then EOF else T.translate(raw)
  }

  // ---------------------------------------------------------------- validity

  /** p follows edges of the automaton; the symbols it spells are the accessing
      symbols of the states after the first. */
  ghost predicate Path(T: Tables, p: seq<nat>)
    requires T.Ranges()
  {
    && |p| > 0
    && (forall i {:trigger p[i]} | 0 <= i < |p| :: p[i] < |T.pact|)
    && (forall i, j {:trigger p[i], p[j]} | 0 <= i < j == i + 1 < |p| ::
          (p[i], T.stos[p[j]], p[j]) in T.edges)
  }

  /** The accessing symbols of the states in p. */
  function Spell(T: Tables, p: seq<nat>): (r: seq<nat>)
    ensures |r| == |p|
    ensures forall i {:trigger r[i]} | 0 <= i < |p| && p[i] < |T.stos| :: r[i] == T.stos[p[i]]
  {
    if p == [] then []
    else
      var s := p[|p|-1];
      Spell(T, p[..|p|-1]) + [if s < |T.stos| then T.stos[s] else 0]
  }

  lemma SpellPush(T: Tables, p: seq<nat>, t: nat)
    requires t < |T.stos|
    ensures Spell(T, p + [t]) == Spell(T, p) + [T.stos[t]]
  {
    assert (p + [t])[..|p|] == p;
  }

  lemma {:induction false} SpellSplit(T: Tables, p: seq<nat>, q: seq<nat>)
    ensures Spell(T, p + q) == Spell(T, p) + Spell(T, q)
    decreases |q|
  {
    if q == [] {
      assert p + q == p;
    } else {
      var n := |q| - 1;
      SpellSplit(T, p, q[..n]);
      assert (p + q)[..|p|+n] == p + q[..n];
    }
  }

  /** Rule r may be reduced in state s, by what s knows of the stack: the symbols last derived
      are its right-hand side, state 0 (the stack bottom) is not within it, and below it are
      states with a legal goto. */
  ghost predicate Reducible(T: Tables, s: nat, r: nat)
    requires T.Ranges()
  {
    && 1 < r < T.Rules() && s < |T.past|
    && var past, n := T.past[s], |T.rhs[r]|;
       && n <= |past.symbols| && n < |past.states|
       && (forall k {:trigger past.symbols[k]} {:trigger past.states[k]} | 0 <= k < n ::
             past.symbols[k] == T.rhs[r][n - 1 - k] && 0 !in past.states[k])
       && (forall q | q in past.states[n] ::
             q < T.States() && Goto(T, q, T.r1[r]) >= 0 && (q, T.r1[r], Goto(T, q, T.r1[r])) in T.edges)
  }

  /** What the end b of an edge knows is the symbol x, and what its start a knows. */
  ghost predicate Remembers(a: Past, x: nat, b: Past) {
    && |b.symbols| <= |a.symbols| + 1 && |a.states| == |a.symbols| + 1 && |b.states| == |b.symbols| + 1
    && (b.symbols != [] ==> b.symbols[0] == x && b.symbols[1..] <= a.symbols)
    && (forall k {:trigger b.states[k]} | 0 < k < |b.states| :: a.states[k - 1] <= b.states[k])
  }

  ghost predicate EdgesOk(T: Tables)
    requires T.Ranges()
  {
    && |T.past| == T.States()
    && (forall s {:trigger T.past[s]} | 0 <= s < T.States() ::
          |T.past[s].states| == |T.past[s].symbols| + 1 && s in T.past[s].states[0])
    && (forall e | e in T.edges ::
          && e.0 < T.States() && 0 != e.2 < T.States() && T.stos[e.2] == e.1
          && Remembers(T.past[e.0], e.1, T.past[e.2]))
  }

  /** The end of input is in no right-hand side but that of rule 1, the rule of $accept. */
  ghost predicate EndOnlyLast(T: Tables)
    requires T.Ranges()
  {
    forall r, i {:trigger T.rhs[r][i]} | 1 < r < T.Rules() && 0 <= i < |T.rhs[r]| :: T.rhs[r][i] != EOF
  }

  /** The final state is entered only by $end, on top of the start symbol, on top of
      the bottom; nothing is pushed on top of it. */
  ghost predicate FinalOk(T: Tables)
  {
    && T.final != 0
    && (forall e | e in T.edges && e.2 == T.final :: e.0 != 0 && e.1 == EOF)
    && (forall e | e in T.edges :: e.0 != T.final)
    && (forall e, f | e in T.edges && f in T.edges && f.2 == T.final && e.2 == f.0 ::
          e.0 == 0 && e.1 == T.start)
  }

  ghost predicate ActionOk(T: Tables, s: nat, x: nat)
    requires T.Ranges() && s < T.States()
  {
    match Act(T, s, x)
    case Shift(t) => (s, x, t) in T.edges && (x == EOF ==> t == T.final)
    case Reduce(r) => Reducible(T, s, r)
    case Error => true
  }

  ghost predicate ValidTables(T: Tables)
  {
    && T.Ranges()
    && EdgesOk(T)
    && FinalOk(T)
    && EndOnlyLast(T)
    && (forall s: nat, x: nat {:trigger Act(T, s, x)} | s < T.States() && s != T.final && x < T.ntokens ::
          ActionOk(T, s, x))
  }

  // ---------------------------------------------------------------- stacks as paths

  /** A state stack, bottom first: a path from the initial state. */
  ghost predicate Stack(T: Tables, p: seq<nat>)
    requires T.Ranges()
  {
    Path(T, p) && p[0] == 0
  }

  lemma PathPrefix(T: Tables, p: seq<nat>, k: nat)
    requires T.Ranges() && Path(T, p) && 0 < k <= |p|
    ensures Path(T, p[..k])
  {
  }

  lemma PathPush(T: Tables, p: seq<nat>, x: nat, t: nat)
    requires T.Ranges() && EdgesOk(T) && Path(T, p) && (p[|p|-1], x, t) in T.edges
    ensures Path(T, p + [t]) && T.stos[t] == x
  {
  }

  /** What the top of a path knows is true of it: k places down is one of the states that it
      remembers there, entered by the symbol that it remembers. */
  lemma {:induction false} PastIsTrue(T: Tables, p: seq<nat>, k: nat)
    requires T.Ranges() && EdgesOk(T) && Path(T, p) && k < |p| && k < |T.past[p[|p|-1]].states|
    ensures p[|p| - 1 - k] in T.past[p[|p|-1]].states[k]
    ensures k < |T.past[p[|p|-1]].symbols| && k < |p| - 1 ==>
      T.past[p[|p|-1]].symbols[k] == T.stos[p[|p| - 1 - k]]
    decreases |p|
  {
    var n := |p| - 1;
    if n > 0 {
      var a, b := T.past[p[n-1]], T.past[p[n]];
      var q := p[..n];
      assert (p[n-1], T.stos[p[n]], p[n]) in T.edges;
      assert Remembers(a, T.stos[p[n]], b);
      if k > 0 {
        PathPrefix(T, p, n);
        PastIsTrue(T, q, k - 1);
        assert q[n - 1 - (k - 1)] == p[n - k] && q[n - 1] == p[n - 1];
        assert a.states[k - 1] <= b.states[k];
        if k < |b.symbols| {
          assert b.symbols[1..][k - 1] == a.symbols[k - 1];
        }
      }
    }
  }

  /** A stack is at least as high as the right-hand side of a rule that its top may reduce. */
  lemma NoUnderflow(T: Tables, p: seq<nat>, r: nat)
    requires T.Ranges() && EdgesOk(T) && Stack(T, p) && Reducible(T, p[|p|-1], r)
    ensures T.r2[r] < |p|
  {
    hide EdgesOk, Goto;
    assert T.r2[r] == |T.rhs[r]|;
    if |p| <= T.r2[r] {
      PastIsTrue(T, p, |p| - 1);
    }
  }

  /** The symbols on top of such a stack are the right-hand side. */
  lemma RhsOnTop(T: Tables, p: seq<nat>, r: nat)
    requires T.Ranges() && EdgesOk(T) && Stack(T, p) && Reducible(T, p[|p|-1], r) && T.r2[r] < |p|
    ensures Spell(T, p[|p| - T.r2[r]..]) == T.rhs[r]
  {
    hide EdgesOk, Goto, Spell;
    var n := T.r2[r];
    var w := p[|p| - n..];
    assert n == |T.rhs[r]|;
    forall i | 0 <= i < n
      ensures Spell(T, w)[i] == T.rhs[r][i]
    {
      PastIsTrue(T, p, n - 1 - i);
      assert w[i] == p[|p| - n + i];
    }
  }

  /** Below them is a state with a legal goto. */
  lemma GotoBelow(T: Tables, p: seq<nat>, r: nat)
    requires T.Ranges() && EdgesOk(T) && Stack(T, p) && Reducible(T, p[|p|-1], r) && T.r2[r] < |p|
    ensures var s := p[|p| - 1 - T.r2[r]]; Goto(T, s, T.r1[r]) >= 0 && (s, T.r1[r], Goto(T, s, T.r1[r])) in T.edges
  {
    hide EdgesOk, Goto, Spell;
    assert T.r2[r] == |T.rhs[r]|;
    PastIsTrue(T, p, T.r2[r]);
  }

  /** No reduction pops below the bottom, the symbols popped are the right-hand side,
      and the goto pushes a legal state: the central step of LR soundness. */
  lemma ReduceOnStack(T: Tables, p: seq<nat>, r: nat)
    requires T.Ranges() && EdgesOk(T) && Stack(T, p) && Reducible(T, p[|p|-1], r)
    ensures 1 < r < T.Rules() && T.r2[r] < |p|
    ensures Spell(T, p[|p| - T.r2[r]..]) == T.rhs[r]
    ensures var q := p[..|p| - T.r2[r]];
         var g := Goto(T, q[|q|-1], T.r1[r]);
         g >= 0 && (q[|q|-1], T.r1[r], g) in T.edges && Stack(T, q) && Stack(T, q + [g])
  {
    hide EdgesOk, Goto, Spell;
    NoUnderflow(T, p, r);
    RhsOnTop(T, p, r);
    GotoBelow(T, p, r);
    var k := |p| - T.r2[r];
    PathPrefix(T, p, k);
    assert p[..k][k-1] == p[|p| - 1 - T.r2[r]];
    PathPush(T, p[..k], T.r1[r], Goto(T, p[..k][k-1], T.r1[r]));
  }

  lemma FinalOnTop(T: Tables, p: seq<nat>, i: nat)
    requires T.Ranges() && FinalOk(T) && Path(T, p) && i + 1 < |p|
    ensures p[i] != T.final
  {
    assert (p[i], T.stos[p[i+1]], p[i+1]) in T.edges;
  }

  lemma BottomOnce(T: Tables, p: seq<nat>, i: nat)
    requires T.Ranges() && EdgesOk(T) && Path(T, p) && 0 < i < |p|
    ensures p[i] != 0
  {
    assert (p[i-1], T.stos[p[i]], p[i]) in T.edges;
  }

  /** An accepting stack is exactly bottom, start symbol, end of input. */
  lemma FinalStack(T: Tables, p: seq<nat>)
    requires ValidTables(T) && Stack(T, p) && p[|p|-1] == T.final
    ensures |p| == 3 && T.stos[p[1]] == T.start && T.stos[p[2]] == EOF
  {
    var n := |p|;
    assert n > 1;
    assert (p[n-2], T.stos[p[n-1]], p[n-1]) in T.edges;
    assert n > 2;
    assert (p[n-3], T.stos[p[n-2]], p[n-2]) in T.edges;
    if n > 3 {
      BottomOnce(T, p, n - 3);
    }
  }
}
