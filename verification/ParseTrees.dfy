/** Values on the parser's value stack, identified by how they came about: the value of a
    token, the copy of yylval pushed for the `error` symbol, or the $$ of one reduction. */
module ParseTrees {
  import opened LrTables

  datatype Tree =
    | Leaf(sym: nat, tok: nat)                    // tok: index of the token in the input
    | ErrLeaf
    | Node(rule: nat, kids: seq<Tree>, id: nat)   // id: number of the reduction

  /** A value somebody has to release: that of a token read, or that of a $$ pushed. */
  datatype Owner = TokVal(tok: nat) | RedVal(id: nat)

  function Root(T: Tables, t: Tree): nat
  {
    match t
    case Leaf(sym, _) => sym
    case ErrLeaf => TERROR
    case Node(rule, _, _) => if rule < |T.r1| then T.r1[rule] else 0
  }

  /** Every node is an instance of its rule; every leaf carries the symbol of its token. */
  ghost predicate WellFormed(T: Tables, input: seq<int>, t: Tree)
    requires T.Ranges()
    decreases t, 0
  {
    match t
    case Leaf(sym, tok) => sym == Translate(T, Raw(input, tok))
    case ErrLeaf => true
    case Node(rule, kids, _) => 0 < rule < T.Rules() && Forest(T, input, kids, T.rhs[rule])
  }

  /** The roots of ts, left to right, are the symbols in syms. */
  ghost predicate Forest(T: Tables, input: seq<int>, ts: seq<Tree>, syms: seq<nat>)
    requires T.Ranges()
    decreases ts, 1
  {
    && |ts| == |syms|
    && (forall i {:trigger ts[i]} | 0 <= i < |ts| ::
          WellFormed(T, input, ts[i]) && Root(T, ts[i]) == syms[i])
  }

  /** The k-th answer of the scanner: after the last token it keeps answering end of file. */
  function Raw(input: seq<int>, k: nat): int {
    if k < |input| then input[k] else 0
  }

  /** The input tokens below a tree, as indices. */
  function Yield(t: Tree): seq<nat>
    decreases t, 0
  {
    match t
    case Leaf(_, tok) => [tok]
    case ErrLeaf => []
    case Node(_, kids, _) => Yields(kids)
  }

  function Yields(ts: seq<Tree>): seq<nat>
    decreases ts, 1
  {
    if ts == [] then [] else Yields(ts[..|ts|-1]) + Yield(ts[|ts|-1])
  }

  /** The rules of a tree in post-order: the reductions that build it, in order. */
  function PostOrder(t: Tree): seq<nat>
    decreases t, 0
  {
    match t
    case Leaf(_, _) => []
    case ErrLeaf => []
    case Node(rule, kids, _) => PostOrders(kids) + [rule]
  }

  function PostOrders(ts: seq<Tree>): seq<nat>
    decreases ts, 1
  {
    if ts == [] then [] else PostOrders(ts[..|ts|-1]) + PostOrder(ts[|ts|-1])
  }

  function Owners(t: Tree): seq<Owner> {
    match t
    case Leaf(_, tok) => [TokVal(tok)]
    case ErrLeaf => []
    case Node(_, _, id) => [RedVal(id)]
  }

  /** The values held on a value stack. */
  function Held(ts: seq<Tree>): seq<Owner> {
    if ts == [] then [] else Held(ts[..|ts|-1]) + Owners(ts[|ts|-1])
  }

  /** The same values in the order in which the stack is popped. */
  function Popped(ts: seq<Tree>): seq<Owner> {
    if ts == [] then [] else Owners(ts[|ts|-1]) + Popped(ts[..|ts|-1])
  }

  lemma PoppedLast(v: seq<Tree>, before: seq<Owner>)
    requires v != []
    ensures before + Popped(v) == (before + Owners(v[|v|-1])) + Popped(v[..|v|-1])
  {
    hide Owners;
    Regroup(before, Owners(v[|v|-1]), Popped(v[..|v|-1]));
  }

  lemma Regroup(a: seq<Owner>, b: seq<Owner>, c: seq<Owner>)
    ensures a + (b + c) == (a + b) + c
  {
  }

  lemma NonePopped()
    ensures Popped([]) == []
  {
  }

  /** How often o occurs in a log. */
  function Count(log: seq<Owner>, o: Owner): nat {
    if log == [] then 0
    else Count(log[..|log|-1], o) + if log[|log|-1] == o then 1 else 0
  }

  lemma PushTree(ts: seq<Tree>, t: Tree)
    ensures Yields(ts + [t]) == Yields(ts) + Yield(t)
    ensures PostOrders(ts + [t]) == PostOrders(ts) + PostOrder(t)
    ensures Held(ts + [t]) == Held(ts) + Owners(t)
  {
    assert (ts + [t])[..|ts|] == ts;
  }

  lemma {:induction false} YieldsSplit(a: seq<Tree>, b: seq<Tree>)
    ensures Yields(a + b) == Yields(a) + Yields(b)
    decreases |b|
  {
    hide Yield;
    if b == [] {
      assert a + b == a;
    } else {
      var n := |b| - 1;
      YieldsSplit(a, b[..n]);
      assert (a + b)[..|a|+n] == a + b[..n];
      assert Yields(a + b) == Yields(a + b[..n]) + Yield(b[n]);
      assert Yields(b) == Yields(b[..n]) + Yield(b[n]);
    }
  }

  lemma {:induction false} PostOrdersSplit(a: seq<Tree>, b: seq<Tree>)
    ensures PostOrders(a + b) == PostOrders(a) + PostOrders(b)
    decreases |b|
  {
    hide PostOrder;
    if b == [] {
      assert a + b == a;
    } else {
      var n := |b| - 1;
      PostOrdersSplit(a, b[..n]);
      assert (a + b)[..|a|+n] == a + b[..n];
      assert PostOrders(a + b) == PostOrders(a + b[..n]) + PostOrder(b[n]);
      assert PostOrders(b) == PostOrders(b[..n]) + PostOrder(b[n]);
    }
  }

  lemma {:induction false} HeldSplit(a: seq<Tree>, b: seq<Tree>)
    ensures Held(a + b) == Held(a) + Held(b)
    decreases |b|
  {
    hide Owners;
    if b == [] {
      assert a + b == a;
    } else {
      var n := |b| - 1;
      HeldSplit(a, b[..n]);
      assert (a + b)[..|a|+n] == a + b[..n];
      assert Held(a + b) == Held(a + b[..n]) + Owners(b[n]);
    }
  }

  lemma {:induction false} CountSplit(a: seq<Owner>, b: seq<Owner>, o: Owner)
    ensures Count(a + b, o) == Count(a, o) + Count(b, o)
    decreases |b|
  {
    if b == [] {
      assert a + b == a;
    } else {
      var n := |b| - 1;
      CountSplit(a, b[..n], o);
      assert (a + b)[..|a|+n] == a + b[..n];
    }
  }

  lemma {:induction false} PoppedCount(ts: seq<Tree>, o: Owner)
    ensures Count(Popped(ts), o) == Count(Held(ts), o)
  {
    if ts != [] {
      var n := |ts| - 1;
      PoppedCount(ts[..n], o);
      CountSplit(Owners(ts[n]), Popped(ts[..n]), o);
      CountSplit(Held(ts[..n]), Owners(ts[n]), o);
    }
  }

  lemma ForestPush(T: Tables, input: seq<int>, ts: seq<Tree>, syms: seq<nat>, t: Tree, x: nat)
    requires T.Ranges() && Forest(T, input, ts, syms)
    requires WellFormed(T, input, t) && Root(T, t) == x
    ensures Forest(T, input, ts + [t], syms + [x])
  {
  }

  lemma ForestSlice(T: Tables, input: seq<int>, ts: seq<Tree>, syms: seq<nat>, k: nat)
    requires T.Ranges() && Forest(T, input, ts, syms) && k <= |ts|
    ensures Forest(T, input, ts[..k], syms[..k])
    ensures Forest(T, input, ts[k..], syms[k..])
  {
    forall i {:trigger ts[k..][i]} | 0 <= i < |ts[k..]|
      ensures ts[k..][i] == ts[k+i]
    {
    }
  }
}
