/** Derivations, as packed parse trees, and their values.  What the values on the stacks of
    the GLR parser mean comes down to this: they are values of such trees. */
module GlrTrees {
  import opened LrTables
  import opened GlrGraph
  import opened GlrLanguage
  import opened GlrMeaning
  import opened GlrValues

  /** A token of the input; an application of a rule, whose action is the count-th executed,
      with the places where its right-hand side is cut; the alternatives of an ambiguity,
      merged; or the end of the input, whose value is anything. */
  datatype Tree =
    | Leaf(n: nat)
    | Node(count: nat, rule: nat, cuts: seq<nat>, kids: seq<Tree>)
    | Merged(alternatives: seq<Tree>)
    | End(val: int)

  /** The value of a tree: actions are applied, and mergers. */
  function Value(E: Setting, lexval: nat -> int, t: Tree): int {
    match t
    case Leaf(n) => lexval(n)
    case Node(count, rule, _, kids) =>
      E.act(count, rule, seq(|kids|, i requires 0 <= i < |kids| => Value(E, lexval, kids[i]))).val
    case Merged(ts) =>
      if ts == [] then 0
      else MergeAll(E, seq(|ts|, i requires 0 <= i < |ts| => Piece(RootRule(ts[i]), Value(E, lexval, ts[i]))))
    case End(v) => v
  }

  function RootRule(t: Tree): nat { if t.Node? then t.rule else 0 }

  function Values(E: Setting, lexval: nat -> int, ts: seq<Tree>): (vals: seq<int>)
    ensures |vals| == |ts| && forall i {:trigger vals[i]} | 0 <= i < |ts| :: vals[i] == Value(E, lexval, ts[i])
  {
    seq(|ts|, i requires 0 <= i < |ts| => Value(E, lexval, ts[i]))
  }

  function Pieces(E: Setting, lexval: nat -> int, ts: seq<Tree>): (ps: seq<Piece>)
    ensures |ps| == |ts|
    ensures forall i {:trigger ps[i]} | 0 <= i < |ts| :: ps[i] == Piece(RootRule(ts[i]), Value(E, lexval, ts[i]))
  {
    seq(|ts|, i requires 0 <= i < |ts| => Piece(RootRule(ts[i]), Value(E, lexval, ts[i])))
  }

  /** t derives the symbol of k from its stretch of the input.  What is merged are applications
      of rules of one precedence. */
  ghost predicate IsTree(E: Setting, input: nat -> int, lexval: nat -> int, t: Tree, k: Key)
    requires E.T.Ranges()
  {
    match t
    case Leaf(n) => k == Key(TokenAt(E.T, input, n), n, n + 1)
    case Node(count, r, cuts, kids) =>
      && 1 < r < E.T.Rules() && |kids| == |E.T.rhs[r]| && |cuts| == |kids| + 1
      && k == Key(E.T.r1[r], cuts[0], cuts[|kids|])
      && E.act(count, r, Values(E, lexval, kids)).tag == YyOk
      && forall i {:trigger kids[i]} | 0 <= i < |kids| ::
           IsTree(E, input, lexval, kids[i], Key(E.T.rhs[r][i], cuts[i], cuts[i + 1]))
    case Merged(ts) =>
      && ts != []
      && forall i {:trigger ts[i]} | 0 <= i < |ts| ::
           && ts[i].Node? && IsTree(E, input, lexval, ts[i], k)
           && E.G.Has(ts[i].rule) && E.G.Has(RootRule(ts[0])) && E.G.dprec[ts[i].rule] == E.G.dprec[RootRule(ts[0])]
    case End(_) => k.sym == EOF
  }

  /** v is the value of some derivation of k. */
  ghost predicate Means(E: Setting, input: nat -> int, lexval: nat -> int, k: Key, v: int)
    requires E.T.Ranges()
  {
    exists t {:trigger IsTree(E, input, lexval, t, k)} :: IsTree(E, input, lexval, t, k) && Value(E, lexval, t) == v
  }

  ghost function Meaning(E: Setting, input: nat -> int, lexval: nat -> int): (Key, int) -> bool
    requires E.T.Ranges()
  {
    (k, v) => Means(E, input, lexval, k, v)
  }

  // ---------------------------------------------------------------- sound values are values of trees

  lemma LeafMeans(E: Setting, input: nat -> int, lexval: nat -> int, n: nat)
    requires E.T.Ranges()
    ensures Means(E, input, lexval, Key(TokenAt(E.T, input, n), n, n + 1), lexval(n))
  {
    hide TokenAt;
    assert IsTree(E, input, lexval, Leaf(n), Key(TokenAt(E.T, input, n), n, n + 1));
  }

  lemma EndMeans(E: Setting, input: nat -> int, lexval: nat -> int, from: nat, to: nat, v: int)
    requires E.T.Ranges()
    ensures Means(E, input, lexval, Key(EOF, from, to), v)
  {
    assert IsTree(E, input, lexval, End(v), Key(EOF, from, to));
  }

  /** Trees for the values of the first n symbols of a right-hand side. */
  lemma {:induction false} KidsMean(E: Setting, input: nat -> int, lexval: nat -> int, r: nat, cuts: seq<nat>,
                                    vals: seq<int>, n: nat) returns (kids: seq<Tree>)
    requires E.T.Ranges() && KidsFit(E.T, Meaning(E, input, lexval), r, cuts, vals) && n <= |vals|
    ensures |kids| == n
    ensures forall i {:trigger kids[i]} | 0 <= i < n ::
      && IsTree(E, input, lexval, kids[i], Key(E.T.rhs[r][i], cuts[i], cuts[i + 1]))
      && Value(E, lexval, kids[i]) == vals[i]
  {
    hide IsTree, Value;
    kids := [];
    if n > 0 {
      kids := KidsMean(E, input, lexval, r, cuts, vals, n - 1);
      assert Meaning(E, input, lexval)(Key(E.T.rhs[r][n - 1], cuts[n - 1], cuts[n]), vals[n - 1]);
      var t :| IsTree(E, input, lexval, t, Key(E.T.rhs[r][n - 1], cuts[n - 1], cuts[n]))
        && Value(E, lexval, t) == vals[n - 1];
      kids := kids + [t];
    }
  }

  /** A tree for what an action makes of values of trees. */
  lemma MadeTree(E: Setting, input: nat -> int, lexval: nat -> int, k: Key, r: nat, v: int) returns (t: Tree)
    requires E.T.Ranges() && Made(E, Meaning(E, input, lexval), k, r, v)
    ensures t.Node? && t.rule == r && IsTree(E, input, lexval, t, k) && Value(E, lexval, t) == v
  {
    hide Means, IsTree, Value;
    var n: nat, cuts: seq<nat>, vals: seq<int> :|
      && 1 < r < |E.T.r1| && KidsFit(E.T, Meaning(E, input, lexval), r, cuts, vals)
        && E.act(n, r, vals) == Result(YyOk, v)
      && k == Key(E.T.r1[r], cuts[0], cuts[|vals|]);
    var kids := KidsMean(E, input, lexval, r, cuts, vals, |vals|);
    assert Values(E, lexval, kids) == vals;
    t := Node(n, r, cuts, kids);
    NodeValue(E, lexval, n, r, cuts, kids);
    IsNode(E, input, lexval, n, r, cuts, kids);
  }

  /** Trees for the first n of the values that are merged. */
  lemma {:induction false} PieceTrees(E: Setting, input: nat -> int, lexval: nat -> int, k: Key, ps: seq<Piece>, n: nat)
    returns (ts: seq<Tree>)
    requires E.T.Ranges() && Alternatives(E, Meaning(E, input, lexval), k, ps) && n <= |ps|
    ensures |ts| == n
    ensures forall i {:trigger ts[i]} | 0 <= i < n ::
      && ts[i].Node? && ts[i].rule == ps[i].rule && IsTree(E, input, lexval, ts[i], k)
      && Value(E, lexval, ts[i]) == ps[i].val
  {
    hide IsTree, Value, Made;
    ts := [];
    if n > 0 {
      ts := PieceTrees(E, input, lexval, k, ps, n - 1);
      var t := MadeTree(E, input, lexval, k, ps[n - 1].rule, ps[n - 1].val);
      ts := ts + [t];
    }
  }

  lemma MergedMeans(E: Setting, input: nat -> int, lexval: nat -> int, k: Key, ps: seq<Piece>)
    requires E.T.Ranges() && Alternatives(E, Meaning(E, input, lexval), k, ps)
    ensures Means(E, input, lexval, k, MergeAll(E, ps))
  {
    hide Means, MergeAll, Made, IsTree, Value;
    var ts := PieceTrees(E, input, lexval, k, ps, |ps|);
    assert Pieces(E, lexval, ts) == ps;
    IsMerged(E, input, lexval, ts, k);
    MergedValue(E, lexval, ts);
    Witness(E, input, lexval, Merged(ts), k);
  }

  lemma IsMerged(E: Setting, input: nat -> int, lexval: nat -> int, ts: seq<Tree>, k: Key)
    requires E.T.Ranges() && ts != []
    requires forall i {:trigger ts[i]} | 0 <= i < |ts| ::
      && ts[i].Node? && IsTree(E, input, lexval, ts[i], k)
      && E.G.Has(ts[i].rule) && E.G.Has(RootRule(ts[0])) && E.G.dprec[ts[i].rule] == E.G.dprec[RootRule(ts[0])]
    ensures IsTree(E, input, lexval, Merged(ts), k)
  {
  }

  lemma MergedValue(E: Setting, lexval: nat -> int, ts: seq<Tree>)
    requires ts != []
    ensures Value(E, lexval, Merged(ts)) == MergeAll(E, Pieces(E, lexval, ts))
  {
    hide MergeAll;
    assert Pieces(E, lexval, ts)
        == seq(|ts|, i requires 0 <= i < |ts| => Piece(RootRule(ts[i]), Value(E, lexval, ts[i])));
  }

  lemma Witness(E: Setting, input: nat -> int, lexval: nat -> int, t: Tree, k: Key)
    requires E.T.Ranges() && IsTree(E, input, lexval, t, k)
    ensures Means(E, input, lexval, k, Value(E, lexval, t))
  {
    hide IsTree, Value;
  }

  lemma NodeValue(E: Setting, lexval: nat -> int, count: nat, r: nat, cuts: seq<nat>, kids: seq<Tree>)
    ensures Value(E, lexval, Node(count, r, cuts, kids)) == E.act(count, r, Values(E, lexval, kids)).val
  {
    assert Values(E, lexval, kids) == seq(|kids|, i requires 0 <= i < |kids| => Value(E, lexval, kids[i]));
  }

  lemma IsNode(E: Setting, input: nat -> int, lexval: nat -> int, count: nat, r: nat, cuts: seq<nat>, kids: seq<Tree>)
    requires E.T.Ranges() && 1 < r < E.T.Rules() && |kids| == |E.T.rhs[r]| && |cuts| == |kids| + 1
    requires E.act(count, r, Values(E, lexval, kids)).tag == YyOk
    requires forall i {:trigger kids[i]} | 0 <= i < |kids| ::
      IsTree(E, input, lexval, kids[i], Key(E.T.rhs[r][i], cuts[i], cuts[i + 1]))
    ensures IsTree(E, input, lexval, Node(count, r, cuts, kids), Key(E.T.r1[r], cuts[0], cuts[|kids|]))
  {
  }

  /** "Being the value of a derivation" goes with the user's code and the tokens, whatever
      they are. */
  lemma TreesAreSensible(E: Setting, input: nat -> int, lexval: nat -> int)
    requires E.T.Ranges()
    ensures Sensible(E, input, lexval, Meaning(E, input, lexval))
  {
    hide Means, Made, Alternatives, MergeAll, TokenAt;
    var fits := Meaning(E, input, lexval);
    forall v: int, from: nat, to: nat
      ensures fits(Key(EOF, from, to), v)
    {
      EndMeans(E, input, lexval, from, to, v);
    }
    forall k, ps {:trigger Alternatives(E, fits, k, ps)} | Alternatives(E, fits, k, ps)
      ensures ps != [] && fits(k, MergeAll(E, ps))
    {
      NonEmpty(E, fits, k, ps);
      MergedMeans(E, input, lexval, k, ps);
    }
    forall n: nat
      ensures fits(Key(TokenAt(E.T, input, n), n, n + 1), lexval(n))
    {
      LeafMeans(E, input, lexval, n);
    }
  }

  lemma NonEmpty(E: Setting, fits: (Key, int) -> bool, k: Key, ps: seq<Piece>)
    requires Alternatives(E, fits, k, ps)
    ensures ps != []
  {
  }

  lemma KidsCuts(T: Tables, fits: (Key, int) -> bool, r: nat, cuts: seq<nat>, vals: seq<int>)
    requires KidsFit(T, fits, r, cuts, vals)
    ensures |cuts| == |vals| + 1
  {
  }

  /** A sound value is the value of a derivation; and the other way round, which shows that
      soundness says no more and no less. */
  lemma SoundMeans(E: Setting, input: nat -> int, lexval: nat -> int, k: Key, v: int)
    requires E.T.Ranges() && |E.G.dprec| == |E.G.merger| == |E.G.r2| == |E.T.r2|
    ensures SoundValue(E, input, lexval, k, v) <==> Means(E, input, lexval, k, v)
  {
    hide Sensible, Means, IsTree, Value;
    if SoundValue(E, input, lexval, k, v) {
      TreesAreSensible(E, input, lexval);
      assert Meaning(E, input, lexval)(k, v);
    }
    if Means(E, input, lexval, k, v) {
      var t :| IsTree(E, input, lexval, t, k) && Value(E, lexval, t) == v by { MeansTree(E, input, lexval, k, v); }
      forall fits: (Key, int) -> bool {:trigger fits(k, v)} | Sensible(E, input, lexval, fits)
        ensures fits(k, v)
      {
        TreeFits(E, input, lexval, t, k, fits);
      }
    }
  }

  lemma MeansTree(E: Setting, input: nat -> int, lexval: nat -> int, k: Key, v: int)
    requires E.T.Ranges() && Means(E, input, lexval, k, v)
    ensures exists t {:trigger IsTree(E, input, lexval, t, k)} ::
      IsTree(E, input, lexval, t, k) && Value(E, lexval, t) == v
  {
    hide IsTree, Value;
  }

  /** The value of a tree fits whatever goes with the user's code and the tokens; that of a
      node is one that its rule makes. */
  lemma {:induction false} TreeFits(E: Setting, input: nat -> int, lexval: nat -> int, t: Tree, k: Key,
                                    fits: (Key, int) -> bool)
    requires E.T.Ranges() && IsTree(E, input, lexval, t, k) && Sensible(E, input, lexval, fits)
    requires |E.G.dprec| == |E.G.merger| == |E.G.r2| == |E.T.r2|
    ensures fits(k, Value(E, lexval, t))
    ensures t.Node? ==> Made(E, fits, k, t.rule, Value(E, lexval, t))
    decreases t
  {
    hide TokenAt, MergeAll, Made, Compatible;
    match t
    case Leaf(_) =>
    case End(_) =>
      EndFits(E, fits, k, t.val);
    case Merged(ts) =>
      forall i {:trigger ts[i]} | 0 <= i < |ts|
        ensures Made(E, fits, k, ts[i].rule, Value(E, lexval, ts[i]))
      {
        TreeFits(E, input, lexval, ts[i], k, fits);
      }
      MergedValue(E, lexval, ts);
      assert Alternatives(E, fits, k, Pieces(E, lexval, ts));
      PiecesFit(E, fits, k, Pieces(E, lexval, ts));
    case Node(count, r, cuts, kids) =>
      var vals := Values(E, lexval, kids);
      forall i {:trigger kids[i]} | 0 <= i < |kids|
        ensures fits(Key(E.T.rhs[r][i], cuts[i], cuts[i + 1]), vals[i])
      {
        TreeFits(E, input, lexval, kids[i], Key(E.T.rhs[r][i], cuts[i], cuts[i + 1]), fits);
      }
      NodeValue(E, lexval, count, r, cuts, kids);
      assert KidsFit(E.T, fits, r, cuts, vals);
      NodeMade(E, fits, count, r, cuts, vals);
      MadeFits(E, fits, k, r, Value(E, lexval, t));
  }

  lemma EndFits(E: Setting, fits: (Key, int) -> bool, k: Key, v: int)
    requires Compatible(E, fits) && k.sym == EOF
    ensures fits(k, v)
  {
    assert k == Key(EOF, k.from, k.to);
  }

  lemma NodeMade(E: Setting, fits: (Key, int) -> bool, count: nat, r: nat, cuts: seq<nat>, vals: seq<int>)
    requires 1 < r < |E.T.r1| && KidsFit(E.T, fits, r, cuts, vals) && E.act(count, r, vals).tag == YyOk
    ensures Made(E, fits, Key(E.T.r1[r], cuts[0], cuts[|vals|]), r, E.act(count, r, vals).val)
  {
    hide KidsFit;
    KidsCuts(E.T, fits, r, cuts, vals);
    assert E.act(count, r, vals) == Result(YyOk, E.act(count, r, vals).val);
  }

  // ---------------------------------------------------------------- yields

  /** The tokens of a tree, left to right. */
  function Leaves(t: Tree): seq<nat> {
    match t
    case Leaf(n) => [n]
    case Node(_, _, _, kids) => AllLeaves(kids)
    case Merged(ts) => if ts == [] then [] else Leaves(ts[0])
    case End(_) => []
  }

  function AllLeaves(ts: seq<Tree>): seq<nat> {
    if ts == [] then [] else AllLeaves(ts[..|ts|-1]) + Leaves(ts[|ts|-1])
  }

  function Stretch(from: nat, to: nat): seq<nat>
    requires from <= to
  {
    seq(to - from, i requires 0 <= i < to - from => from + i)
  }

  /** The leaves of a derivation are the tokens of its stretch: all of them, in order, once. */
  lemma {:induction false} TreeYield(E: Setting, input: nat -> int, lexval: nat -> int, t: Tree, k: Key)
    requires E.T.Ranges() && EndOnlyLast(E.T) && IsTree(E, input, lexval, t, k) && k.sym != EOF
    ensures k.from <= k.to && Leaves(t) == Stretch(k.from, k.to)
    decreases t, 1, 0
  {
    hide TokenAt;
    match t
    case Leaf(_) =>
    case Merged(ts) =>
      TreeYield(E, input, lexval, ts[0], k);
    case Node(count, r, cuts, kids) =>
      KidsYield(E, input, lexval, t, |kids|);
      assert kids[..|kids|] == kids;
  }

  lemma {:induction false} KidsYield(E: Setting, input: nat -> int, lexval: nat -> int, t: Tree, n: nat)
    requires E.T.Ranges() && EndOnlyLast(E.T) && t.Node? && 1 < t.rule < E.T.Rules() && n <= |t.kids|
    requires |t.kids| == |E.T.rhs[t.rule]| && |t.cuts| == |t.kids| + 1
    requires forall i {:trigger t.kids[i]} | 0 <= i < |t.kids| ::
      IsTree(E, input, lexval, t.kids[i], Key(E.T.rhs[t.rule][i], t.cuts[i], t.cuts[i + 1]))
    ensures t.cuts[0] <= t.cuts[n] && AllLeaves(t.kids[..n]) == Stretch(t.cuts[0], t.cuts[n])
    decreases t, 0, n
  {
    hide IsTree;
    if n > 0 {
      KidsYield(E, input, lexval, t, n - 1);
      var i := n - 1;
      var kid := t.kids[i];
      assert E.T.rhs[t.rule][i] != EOF;
      TreeYield(E, input, lexval, kid, Key(E.T.rhs[t.rule][i], t.cuts[i], t.cuts[n]));
      assert t.kids[..n][..i] == t.kids[..i] && t.kids[..n][i] == kid;
    }
  }

  /** t is a derivation of the start symbol from the first n tokens, all of them, in order,
      each once; its value is v. */
  ghost predicate Parses(E: Setting, input: nat -> int, lexval: nat -> int, t: Tree, n: nat, v: int)
    requires E.T.Ranges()
  {
    && IsTree(E, input, lexval, t, Key(E.T.start, 0, n)) && Value(E, lexval, t) == v
    && Leaves(t) == Stretch(0, n)
  }

  /** A sound value of the start symbol is that of a parse tree. */
  lemma SoundParses(E: Setting, input: nat -> int, lexval: nat -> int, n: nat, v: int)
    requires E.T.Ranges() && EndOnlyLast(E.T) && |E.G.dprec| == |E.G.merger| == |E.G.r2| == |E.T.r2|
    requires SoundValue(E, input, lexval, Key(E.T.start, 0, n), v)
    ensures exists t {:trigger Parses(E, input, lexval, t, n, v)} :: Parses(E, input, lexval, t, n, v)
  {
    hide IsTree, Value, SoundValue, Leaves, Means, EndOnlyLast;
    var k := Key(E.T.start, 0, n);
    SoundMeans(E, input, lexval, k, v);
    MeansTree(E, input, lexval, k, v);
    var t :| IsTree(E, input, lexval, t, k) && Value(E, lexval, t) == v;
    TreeYield(E, input, lexval, t, k);
    assert Parses(E, input, lexval, t, n, v);
  }
}
