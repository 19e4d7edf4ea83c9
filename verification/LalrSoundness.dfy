/** With valid tables the driver never leaves its tables or its stack, and what it
    accepts it has parsed. */
module LalrSoundness {
  import opened LrTables
  import opened ParseTrees
  import opened Lalr

  // ---------------------------------------------------------------- the stack is a path

  ghost predicate Shape(T: Tables, c: Config)
    requires T.Ranges()
  {
    && c.lab != Crash
    && c.Sane(T)
    && Stack(T, c.states)
    && (c.lab == ErrLab || c.lab == ErrLab1 ==> c.Top() != T.final)
  }

  /** What valid tables promise about an action taken on this stack with token x. */
  ghost predicate Legal(T: Tables, states: seq<nat>, x: nat, a: Action)
    requires T.Ranges() && Stack(T, states)
  {
    match a
    case Error => true
    case Shift(t) =>
      (states[|states|-1], x, t) in T.edges && (x == EOF ==> t == T.final)
    case Reduce(r) =>
      && CanReduce(T, states, r)
      && Spell(T, states[|states| - T.r2[r]..]) == T.rhs[r]
      && var q := states[..|states| - T.r2[r]];
         var g := Goto(T, q[|q|-1], T.r1[r]);
         (q[|q|-1], T.r1[r], g) in T.edges && Stack(T, q) && Stack(T, q + [g])
  }

  lemma ChosenLegal(T: Tables, env: Env, c: Config)
    requires ValidTables(T) && Shape(T, c) && c.Top() != T.final
    ensures Legal(T, c.states, Translate(T, Current(env, c).raw), Chosen(T, env, c))
  {
    hide Reducible, Path, EdgesOk, FinalOk, Goto, Entry, Spell;
    var x := Translate(T, Current(env, c).raw);
    assert ActionOk(T, c.Top(), x);
    if Act(T, c.Top(), x).Reduce? {
      ReduceOnStack(T, c.states, Act(T, c.Top(), x).rule);
    }
  }

  lemma ErrorShiftLegal(T: Tables, s: nat)
    requires ValidTables(T) && s < T.States() && s != T.final && ErrorShift(T, s).Some?
    ensures (s, TERROR, ErrorShift(T, s).value) in T.edges
  {
    assert ActionOk(T, s, TERROR);
  }

  lemma ReduceKeepsShape(T: Tables, env: Env, c: Config, r: nat)
    requires T.Ranges() && FinalOk(T) && Shape(T, c) && c.Top() != T.final
    requires Legal(T, c.states, 0, Reduce(r))
    ensures Shape(T, DoReduce(T, env, c, r))
  {
    hide Goto, Held, Spell, Path, FinalOk;
    var k := |c.states| - T.r2[r];
    if k < |c.states| {
      FinalOnTop(T, c.states, k - 1);
    }
    StackTop(T, c.states[..k]);
    StackTop(T, c.states[..k] + [Goto(T, c.states[..k][k - 1], T.r1[r])]);
  }

  lemma StackTop(T: Tables, p: seq<nat>)
    requires T.Ranges() && Stack(T, p)
    ensures p != [] && p[|p|-1] < T.States()
  {
  }

  lemma ShiftKeepsShape(T: Tables, c: Config, x: nat, t: nat)
    requires T.Ranges() && EdgesOk(T) && Shape(T, c) && (c.Top(), x, t) in T.edges && c.look.Some?
    ensures Shape(T, DoShift(T, c, t)) && T.stos[t] == x
  {
    PathPush(T, c.states, x, t);
  }

  lemma BackupKeepsShape(T: Tables, env: Env, c: Config)
    requires T.Ranges() && EdgesOk(T) && FinalOk(T) && Shape(T, c) && c.Top() != T.final
    requires Legal(T, c.states, Translate(T, Current(env, c).raw), Chosen(T, env, c))
    ensures Shape(T, Backup(T, env, c))
  {
    hide Path, Spell, Goto, DoReduce, DoShift, FinalOk, EdgesOk, CanReduce;
    var d := if Defaulted(T, c.Top()) then c else ReadToken(env, c);
    match Chosen(T, env, c) {
      case Shift(t) => ShiftKeepsShape(T, d, Translate(T, Current(env, c).raw), t);
      case Reduce(r) => ReduceKeepsShape(T, env, d, r);
      case Error =>
    }
  }

  lemma PopKeepsShape(T: Tables, c: Config)
    requires ValidTables(T) && Shape(T, c) && c.lab == ErrLab1
    ensures Shape(T, PopForError(T, c))
  {
    var n := |c.vals|;
    if ErrorShift(T, c.Top()).Some? {
      ErrorShiftLegal(T, c.Top());
      PathPush(T, c.states, TERROR, ErrorShift(T, c.Top()).value);
    } else if n > 0 {
      PathPrefix(T, c.states, n);
      FinalOnTop(T, c.states, n - 1);
    }
  }

  lemma NextKeepsShape(T: Tables, env: Env, c: Config)
    requires ValidTables(T) && Shape(T, c)
    ensures Shape(T, Next(T, env, c))
  {
    hide Backup, Held, Goto, Entry, Reducible, ActionOk, EdgesOk, Legal;
    match c.lab {
      case NewState =>
        var d := if c.cap <= |c.states| then c.(cap := Grown(env, c.cap)) else c;
        if c.Top() != T.final {
          ChosenLegal(T, env, d);
          BackupKeepsShape(T, env, d);
        }
      case ErrLab =>
      case ErrLab1 => PopKeepsShape(T, c);
      case Return(_) => PathPrefix(T, c.states, 1);
      case Done(_) =>
    }
  }

  /** No run ever crashes: no reduction pops below the stack bottom, no table is indexed
      outside its bounds, and the state stack stays a path of the automaton. */
  lemma {:induction false} NeverCrashes(T: Tables, env: Env, n: nat)
    requires ValidTables(T)
    ensures Shape(T, Run(T, env, Init(env), n))
  {
    if n > 0 {
      NeverCrashes(T, env, n - 1);
      NextKeepsShape(T, env, Run(T, env, Init(env), n - 1));
    }
  }

  // ---------------------------------------------------------------- the values are parse trees

  function Upto(n: nat): seq<nat> {
    if n == 0 then [] else Upto(n - 1) + [n - 1]
  }

  /** The stack holds what has been parsed so far: it has not just been cut back by
      YYABORT, YYACCEPT or the cleanup. */
  predicate Intact(T: Tables, c: Config) {
    c.lab == NewState || c.lab == ErrLab || (c.lab.Return? && c.states != [] && c.Top() == T.final)
  }

  ghost predicate LookOk(env: Env, c: Config) {
    c.look.Some? ==>
      && c.look.value.idx < c.pos
      && c.look.value.raw == (if Raw(env.input, c.look.value.idx) <= 0 then 0
                              else Raw(env.input, c.look.value.idx))
  }

  /** While no error has been recovered from, the trees on the stack cover exactly the
      tokens shifted, and have been built by exactly the reductions performed. */
  ghost predicate Exact(T: Tables, c: Config) {
    Intact(T, c) && !c.recovered ==>
      && Yields(c.vals) == Upto(c.shifted)
      && PostOrders(c.vals) == c.rules
      && c.pos == c.shifted + (if c.look.Some? then 1 else 0)
      && (c.look.Some? ==> c.look.value.idx == c.shifted)
  }

  ghost predicate Trees(T: Tables, env: Env, c: Config)
    requires T.Ranges() && Shape(T, c)
  {
    && LookOk(env, c)
    && Forest(T, env.input, c.vals, Symbols(T, c.states))
    && Exact(T, c)
    && (c.lab == ErrLab1 ==> c.recovered)
  }

  /** The symbols above the bottom of the stack. */
  function Symbols(T: Tables, p: seq<nat>): seq<nat>
    requires p != []
  {
    Spell(T, p[1..])
  }

  lemma SymbolsPush(T: Tables, p: seq<nat>, t: nat)
    requires p != [] && t < |T.stos|
    ensures Symbols(T, p + [t]) == Symbols(T, p) + [T.stos[t]]
  {
    assert (p + [t])[1..] == p[1..] + [t];
    SpellPush(T, p[1..], t);
  }

  lemma SymbolsCut(T: Tables, p: seq<nat>, k: nat)
    requires 0 < k <= |p|
    ensures Symbols(T, p[..k]) == Symbols(T, p)[..k-1]
    ensures Spell(T, p[k..]) == Symbols(T, p)[k-1..]
  {
    assert p[1..] == p[..k][1..] + p[k..];
    SpellSplit(T, p[..k][1..], p[k..]);
  }

  lemma ShiftKeepsTrees(T: Tables, env: Env, c: Config, t: nat)
    requires T.Ranges() && Shape(T, c) && Trees(T, env, c) && c.look.Some? && c.lab == NewState
    requires Shape(T, DoShift(T, c, t)) && T.stos[t] == Translate(T, c.look.value.raw)
    ensures Trees(T, env, DoShift(T, c, t))
  {
    var x := Translate(T, c.look.value.raw);
    SymbolsPush(T, c.states, t);
    var leaf := Leaf(x, c.look.value.idx);
    ForestPush(T, env.input, c.vals, Symbols(T, c.states), leaf, x);
    PushTree(c.vals, leaf);
  }

  /** The forest after rule r has gathered the topmost trees under a new node. */
  lemma ReduceForest(T: Tables, env: Env, c: Config, r: nat, id: nat)
    requires T.Ranges() && Shape(T, c) && Trees(T, env, c)
    requires Legal(T, c.states, 0, Reduce(r))
    ensures var k := |c.vals| - T.r2[r];
            var node := Node(r, c.vals[k..], id);
            var q := c.states[..k+1];
            var g := Goto(T, q[|q|-1], T.r1[r]);
      && Forest(T, env.input, c.vals[..k], Symbols(T, q))
      && WellFormed(T, env.input, node) && Root(T, node) == T.r1[r]
  {
    var k := |c.vals| - T.r2[r];
    SymbolsCut(T, c.states, k + 1);
    ForestSlice(T, env.input, c.vals, Symbols(T, c.states), k);
  }

  lemma ReduceExact(T: Tables, env: Env, c: Config, r: nat)
    requires T.Ranges() && Shape(T, c) && CanReduce(T, c.states, r)
    requires Exact(T, c) && c.lab == NewState && env.act(c.nred).outcome == Normal
    ensures Exact(T, DoReduce(T, env, c, r))
  {
    hide Held, Path, Yields, PostOrders, Owners, Goto;
    var k := |c.vals| - T.r2[r];
    var node := Node(r, c.vals[k..], c.nred);
    assert c.vals[..k] + c.vals[k..] == c.vals;
    YieldsSplit(c.vals[..k], c.vals[k..]);
    PostOrdersSplit(c.vals[..k], c.vals[k..]);
    PushTree(c.vals[..k], node);
  }

  lemma GotoSymbol(T: Tables, s: nat, x: nat, g: nat)
    requires T.Ranges() && EdgesOk(T) && (s, x, g) in T.edges
    ensures g < T.States() && T.stos[g] == x
  {
  }

  lemma NormalReduceKeepsTrees(T: Tables, env: Env, c: Config, r: nat)
    requires T.Ranges() && EdgesOk(T) && Shape(T, c) && Trees(T, env, c) && c.lab == NewState
    requires Legal(T, c.states, 0, Reduce(r)) && env.act(c.nred).outcome == Normal
    requires Shape(T, DoReduce(T, env, c, r))
    ensures Trees(T, env, DoReduce(T, env, c, r))
  {
    hide Path, Yields, PostOrders, Held, Forest, Symbols, WellFormed, Goto, Exact, EdgesOk, Spell;
    var k := |c.vals| - T.r2[r];
    var q := c.states[..k+1];
    var g := Goto(T, q[|q|-1], T.r1[r]);
    var node, d := Node(r, c.vals[k..], c.nred), DoReduce(T, env, c, r);
    ReduceForest(T, env, c, r, c.nred);
    GotoSymbol(T, q[|q|-1], T.r1[r], g);
    SymbolsPush(T, q, g);
    ForestPush(T, env.input, c.vals[..k], Symbols(T, q), node, T.r1[r]);
    assert d.states == q + [g] && d.vals == c.vals[..k] + [node];
    ReduceExact(T, env, c, r);
  }

  lemma ReduceKeepsTrees(T: Tables, env: Env, c: Config, r: nat)
    requires T.Ranges() && EdgesOk(T) && FinalOk(T) && Shape(T, c) && Trees(T, env, c)
    requires c.Top() != T.final && c.lab == NewState
    requires Legal(T, c.states, 0, Reduce(r))
    ensures Shape(T, DoReduce(T, env, c, r)) && Trees(T, env, DoReduce(T, env, c, r))
  {
    hide Path, Yields, PostOrders, Held, Forest, Symbols, Legal, WellFormed, Spell, Goto, EdgesOk, FinalOk;
    ReduceKeepsShape(T, env, c, r);
    if env.act(c.nred).outcome == Normal {
      NormalReduceKeepsTrees(T, env, c, r);
    } else {
      ReduceForest(T, env, c, r, c.nred);
      if T.r2[r] > 0 {
        FinalOnTop(T, c.states, |c.vals| - T.r2[r]);
      }
    }
  }

  lemma BackupKeepsTrees(T: Tables, env: Env, c: Config)
    requires T.Ranges() && EdgesOk(T) && FinalOk(T) && Shape(T, c) && Trees(T, env, c)
    requires c.Top() != T.final && c.lab == NewState
    requires Legal(T, c.states, Translate(T, Current(env, c).raw), Chosen(T, env, c))
    ensures Shape(T, Backup(T, env, c)) && Trees(T, env, Backup(T, env, c))
  {
    hide Path, Yields, PostOrders, Held, Forest, Symbols, FinalOk, DoReduce, DoShift, EdgesOk, CanReduce, Goto, Spell;
    BackupKeepsShape(T, env, c);
    var d := if Defaulted(T, c.Top()) then c else ReadToken(env, c);
    assert Trees(T, env, d);
    match Chosen(T, env, c) {
      case Shift(t) =>
        ShiftKeepsShape(T, d, Translate(T, Current(env, c).raw), t);
        ShiftKeepsTrees(T, env, d, t);
      case Reduce(r) => ReduceKeepsTrees(T, env, d, r);
      case Error =>
    }
  }

  lemma PopKeepsTrees(T: Tables, env: Env, c: Config)
    requires ValidTables(T) && Shape(T, c) && Trees(T, env, c) && c.lab == ErrLab1
    ensures Shape(T, PopForError(T, c)) && Trees(T, env, PopForError(T, c))
  {
    hide Path, Yields, PostOrders, Held, Reducible, ActionOk;
    PopKeepsShape(T, c);
    var n := |c.vals|;
    if ErrorShift(T, c.Top()).Some? {
      ErrorShiftLegal(T, c.Top());
      var t := ErrorShift(T, c.Top()).value;
      SymbolsPush(T, c.states, t);
      ForestPush(T, env.input, c.vals, Symbols(T, c.states), ErrLeaf, TERROR);
    } else if n > 0 {
      SymbolsCut(T, c.states, n);
      ForestSlice(T, env.input, c.vals, Symbols(T, c.states), n - 1);
    }
  }

  /** The invariant of LR soundness. */
  ghost predicate Inv(T: Tables, env: Env, c: Config)
    requires T.Ranges()
  {
    Shape(T, c) && Trees(T, env, c)
  }

  lemma EnterKeepsInv(T: Tables, env: Env, c: Config)
    requires ValidTables(T) && Inv(T, env, c) && c.lab == NewState
    ensures Inv(T, env, EnterState(T, env, c))
  {
    var d := if c.cap <= |c.states| then c.(cap := Grown(env, c.cap)) else c;
    hide Path, Yields, PostOrders, Held, Forest, Symbols, Backup, ActionOk, EdgesOk, Legal;
    assert Inv(T, env, d);
    if c.Top() != T.final {
      ChosenLegal(T, env, d);
      BackupKeepsTrees(T, env, d);
    }
  }

  lemma NextKeepsInv(T: Tables, env: Env, c: Config)
    requires ValidTables(T) && Inv(T, env, c)
    ensures Inv(T, env, Next(T, env, c))
  {
    hide Tables.Ranges, Spell, PostOrders, ActionOk, EdgesOk, Yields, PopForError, Path, Backup, WellFormed, FinalOk,
      Popped;
    match c.lab {
      case NewState => EnterKeepsInv(T, env, c);
      case ErrLab =>
      case ErrLab1 => PopKeepsTrees(T, env, c);
      case Return(_) => PathPrefix(T, c.states, 1);
      case Done(_) =>
    }
  }

  lemma {:induction false} RunInv(T: Tables, env: Env, n: nat)
    requires T.Ranges() && ValidTables(T)
    ensures Inv(T, env, Run(T, env, Init(env), n))
  {
    hide Next, Inv, ValidTables;
    if n == 0 {
      InitInv(T, env);
    } else {
      RunInv(T, env, n - 1);
      NextKeepsInv(T, env, Run(T, env, Init(env), n - 1));
    }
  }

  lemma InitInv(T: Tables, env: Env)
    requires T.Ranges()
    ensures Inv(T, env, Init(env))
  {
  }

  /** LR soundness: whenever the driver is in its final state, it holds one parse tree of
      the start symbol followed by the end-of-input token.  In a run without error
      recovery the tree's leaves are exactly the tokens read, each once and in order, and
      the reductions performed are exactly its nodes in post-order. */
  lemma AcceptsOnlyParses(T: Tables, env: Env, n: nat)
    requires ValidTables(T)
    requires Run(T, env, Init(env), n).lab in {NewState, Return(0)}
    requires Run(T, env, Init(env), n).states != []
    requires Run(T, env, Init(env), n).Top() == T.final
    ensures var c := Run(T, env, Init(env), n);
      && |c.vals| == 2
      && WellFormed(T, env.input, c.vals[0])
      && Root(T, c.vals[0]) == T.start
      && (!c.recovered ==>
            && c.shifted > 0
            && Yield(c.vals[0]) == Upto(c.shifted - 1)
            && Raw(env.input, c.shifted - 1) <= 0
            && PostOrder(c.vals[0]) == c.rules)
  {
    hide Run, ActionOk, EdgesOk, FinalOk, Held, Path, PostOrders, Yields, PostOrder, Yield, Spell, Symbols, WellFormed;
    var c := Run(T, env, Init(env), n);
    RunInv(T, env, n);
    FinalStack(T, c.states);
    var w := Symbols(T, c.states);
    AcceptedSymbols(T, c.states);
    assert WellFormed(T, env.input, c.vals[0]) && WellFormed(T, env.input, c.vals[1]);
    assert Root(T, c.vals[1]) == EOF;
    LastLeaf(T, env.input, c.vals[1]);
    if !c.recovered {
      LastOfTwo(c.vals, c.shifted);
    }
  }

  lemma AcceptedSymbols(T: Tables, p: seq<nat>)
    requires T.Ranges() && Stack(T, p) && |p| == 3
    ensures Symbols(T, p) == [T.stos[p[1]], T.stos[p[2]]]
  {
  }

  /** Two trees of which the second is a leaf, and together they cover the first n tokens. */
  lemma LastOfTwo(ts: seq<Tree>, n: nat)
    requires |ts| == 2 && ts[1].Leaf? && Yields(ts) == Upto(n)
    ensures n > 0 && Yield(ts[0]) == Upto(n - 1) && ts[1].tok == n - 1
    ensures PostOrders(ts) == PostOrder(ts[0])
  {
    var v := ts[..1];
    assert ts == v + [ts[1]] && v == [] + [ts[0]];
    PushTree(v, ts[1]);
    PushTree([], ts[0]);
    SameLast(Yield(ts[0]), Upto(n - 1), ts[1].tok, n - 1);
  }

  lemma SameLast(a: seq<nat>, b: seq<nat>, x: nat, y: nat)
    requires a + [x] == b + [y]
    ensures a == b && x == y
  {
    assert a == (a + [x])[..|a+[x]|-1] && x == (a + [x])[|a+[x]|-1];
  }

  lemma LastLeaf(T: Tables, input: seq<int>, t: Tree)
    requires T.Ranges() && WellFormed(T, input, t)
    requires Root(T, t) == EOF
    ensures t.Leaf? && Raw(input, t.tok) <= 0
  {
  }

  // ---------------------------------------------------------------- what a parse that returns 0 has parsed

  /** t is a parse tree of the start symbol; without error recovery its leaves are the tokens
      shifted but for the last, the end of input, and its nodes the reductions performed. */
  ghost predicate ParseTree(T: Tables, input: seq<int>, t: Tree, shifted: nat, rules: seq<nat>, recovered: bool)
    requires T.Ranges()
  {
    && WellFormed(T, input, t) && Root(T, t) == T.start
    && (!recovered ==>
          shifted > 0 && Yield(t) == Upto(shifted - 1) && Raw(input, shifted - 1) <= 0 && PostOrder(t) == rules)
  }

  /** The code 0 comes from the final state or from YYACCEPT. */
  lemma ZeroMeans(T: Tables, env: Env, c: Config)
    requires T.Ranges() && Shape(T, c) && Next(T, env, c).lab == Return(0)
    ensures var d := Next(T, env, c);
      d.states != [] && (d.Top() == T.final || (d.nred > 0 && env.act(d.nred - 1).outcome == YyAccept))
  {
    hide Path, Held, Goto, Entry, Owners, Popped, Backup;
    if c.lab == NewState {
      var d := if c.cap <= |c.states| then c.(cap := Grown(env, c.cap)) else c;
      if d.Top() != T.final && |d.states| < d.cap && Backup(T, env, d).lab == Return(0) {
        ZeroBackup(T, env, d);
      }
    }
  }

  lemma ZeroBackup(T: Tables, env: Env, c: Config)
    requires T.Ranges() && c.Sane(T) && c.lab == NewState && Backup(T, env, c).lab == Return(0)
    ensures var d := Backup(T, env, c); d.states != [] && d.nred > 0 && env.act(d.nred - 1).outcome == YyAccept
  {
    hide Held, Goto, Entry, Act;
  }

  lemma BeforeDone(T: Tables, env: Env, c: Config)
    requires T.Ranges() && Shape(T, c) && Next(T, env, c).lab == Done(0)
    ensures c.lab == Return(0) || c.lab == Done(0)
    ensures var d := Next(T, env, c);
      d.nred == c.nred && d.shifted == c.shifted && d.rules == c.rules && d.recovered == c.recovered
  {
    hide Path, Held, Goto, Entry, Owners, Popped, Backup;
    if c.lab == NewState {
      var d := if c.cap <= |c.states| then c.(cap := Grown(env, c.cap)) else c;
      if d.Top() != T.final && |d.states| < d.cap {
        NeverDoneAtOnce(T, env, d);
      }
    }
  }

  lemma NeverDoneAtOnce(T: Tables, env: Env, c: Config)
    requires T.Ranges() && c.Sane(T) && c.lab == NewState
    ensures !Backup(T, env, c).lab.Done?
  {
    hide Held, Goto, Entry, Act;
  }

  /** A parse that returns 0, and in which no action executed YYACCEPT, has parsed its input. */
  lemma {:induction false} ZeroParses(T: Tables, env: Env, n: nat) returns (t: Tree)
    requires T.Ranges() && ValidTables(T) && Run(T, env, Init(env), n).lab == Done(0)
    requires forall i | 0 <= i < Run(T, env, Init(env), n).nred :: env.act(i).outcome != YyAccept
    ensures var c := Run(T, env, Init(env), n); ParseTree(T, env.input, t, c.shifted, c.rules, c.recovered)
  {
    hide ValidTables, Next, Shape, Yield, PostOrder, WellFormed, Root;
    if n == 0 {
      assert false;
    } else {
      var c := Run(T, env, Init(env), n - 1);
      NeverCrashes(T, env, n - 1);
      BeforeDone(T, env, c);
      if c.lab == Done(0) {
        t := ZeroParses(T, env, n - 1);
      } else {
        NotFirst(env);
        NeverCrashes(T, env, n - 2);
        ZeroMeans(T, env, Run(T, env, Init(env), n - 2));
        ShapeIs(T, c);
        AcceptsOnlyParses(T, env, n - 1);
        t := c.vals[0];
      }
    }
  }

  lemma NotFirst(env: Env)
    ensures Init(env).lab == NewState
  {
  }

  lemma ShapeIs(T: Tables, c: Config)
    requires T.Ranges() && Shape(T, c)
    ensures c.states != []
  {
  }
}
