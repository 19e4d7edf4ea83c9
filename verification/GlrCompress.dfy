/** yycompressStack: the one stack left is laid out contiguously again, in place. */
module GlrCompress {
  import opened LrTables
  import opened GlrGraph
  import opened GlrOps
  import opened GlrInvariants
  import opened GlrForest
  import opened GlrRanks
  import GlrOptions
  import GlrStack

  /** The states of the stack with top i that lie above the split point, bottom first. */
  function Above(items: seq<Item>, split: int, i: int): seq<int>
    decreases i
  {
    if i <= split || !Step(items, i) then [] else Above(items, split, items[i].pred) + [i]
  }

  /** A chain of states from the split point up, each linked to the one before. */
  ghost predicate Chain(items: seq<Item>, split: int, c: seq<int>) {
    && 0 <= split < |items|
    && (forall n {:trigger c[n]} | 0 <= n < |c| :: split + 1 + n <= c[n] < |items| && items[c[n]].State?)
    && (c != [] ==> items[c[0]].pred == split)
    && (forall m, n {:trigger c[m], c[n]} | 0 <= m < n == m + 1 < |c| :: items[c[n]].pred == c[m])
    && Increasing(c)
  }

  ghost predicate Increasing(c: seq<int>) {
    forall m, n {:trigger c[m], c[n]} | 0 <= m < n < |c| :: c[m] < c[n]
  }

  function Last(c: seq<int>, split: int): int {
    if c == [] then split else c[|c|-1]
  }

  lemma ChainPush(items: seq<Item>, split: int, c: seq<int>, i: int)
    requires Chain(items, split, c) && 0 <= i < |items| && items[i].State?
    requires items[i].pred == Last(c, split) < i
    ensures Chain(items, split, c + [i])
  {
  }

  lemma {:induction false} AboveIsChain(g: Graph, i: int)
    requires Links(g) && 0 <= g.split <= i < |g.items| && g.items[i].State?
    ensures var c := Above(g.items, g.split, i); Chain(g.items, g.split, c) && Last(c, g.split) == i
    decreases i
  {
    hide Chain;
    StatesStep(g, i);
    if i > g.split {
      AboveIsChain(g, g.items[i].pred);
      ChainPush(g.items, g.split, Above(g.items, g.split, g.items[i].pred), i);
    } else {
      assert Chain(g.items, g.split, []) by { EmptyChain(g.items, g.split); }
    }
  }

  lemma EmptyChain(items: seq<Item>, split: int)
    requires 0 <= split < |items|
    ensures Chain(items, split, [])
  {
  }

  /** The same states laid out from the split point on. */
  function Compacted(items: seq<Item>, split: int, c: seq<int>): (r: seq<Item>)
    requires forall n {:trigger c[n]} | 0 <= n < |c| :: 0 <= c[n] < |items| && items[c[n]].State?
    ensures |r| == |c|
    ensures forall n {:trigger r[n]} | 0 <= n < |c| :: r[n] == items[c[n]].(pred := split + n)
  {
    if c == [] then []
    else Compacted(items, split, c[..|c|-1]) + [items[c[|c|-1]].(pred := split + |c| - 1)]
  }

  ghost predicate Within(g: Graph, c: seq<int>) {
    && 0 <= g.split < |g.items|
    && forall n {:trigger c[n]} | 0 <= n < |c| :: 0 <= c[n] < |g.items| && g.items[c[n]].State?
  }

  /** The result: one contiguous stack. */
  ghost function Compressed(g: Graph, c: seq<int>): Graph
    requires Within(g, c)
  {
    Graph(g.items[..g.split + 1] + Compacted(g.items, g.split, c), NULL, [g.split + |c|])
  }

  /** The states of c, as they were in `items` but linked upwards from the n-th on. */
  ghost predicate Reversed(items: seq<Item>, now: seq<Item>, c: seq<int>, n: int)
    requires forall m {:trigger c[m]} | 0 <= m < |c| :: 0 <= c[m] < |items| && items[c[m]].State?
    requires |now| == |items|
  {
    && (forall i {:trigger now[i]} | 0 <= i < |items| && i !in c :: now[i] == items[i])
    && (forall m {:trigger c[m]} | 0 <= m < n && m < |c| :: now[c[m]] == items[c[m]])
    && UpLinked(items, now, c, n)
  }

  ghost predicate UpLinked(items: seq<Item>, now: seq<Item>, c: seq<int>, n: int)
    requires forall m {:trigger c[m]} | 0 <= m < |c| :: 0 <= c[m] < |items| && items[c[m]].State?
    requires |now| == |items|
  {
    && (forall m, k {:trigger c[m], c[k]} | 0 <= n <= m < k == m + 1 < |c| ::
          now[c[m]] == items[c[m]].(pred := c[k]))
    && (0 <= n < |c| ==> now[c[|c|-1]] == items[c[|c|-1]].(pred := NULL))
  }

  /** Reading the n-th state of the chain, or the split point, before its link is turned. */
  lemma NotReversedYet(items: seq<Item>, now: seq<Item>, split: int, c: seq<int>, n: nat)
    requires Chain(items, split, c) && n <= |c| && |now| == |items| && Reversed(items, now, c, n)
    requires items[split].State?
    ensures var p := if n == 0 then split else c[n - 1];
      0 <= p < |items| && now[p] == items[p] && items[p].State?
    ensures n > 0 ==> items[c[n - 1]].pred == if n == 1 then split else c[n - 2]
  {
    assert split !in c;
  }

  lemma ReverseOne(items: seq<Item>, now: seq<Item>, split: int, c: seq<int>, n: nat)
    requires Chain(items, split, c) && 0 < n <= |c| && |now| == |items| && Reversed(items, now, c, n)
    ensures var p := c[n - 1];
            Reversed(items, now[p := now[p].(pred := if n < |c| then c[n] else NULL)], c, n - 1)
  {
  }

  /** First loop: turn the predecessor links of the chain round.  Returns the state just
      above the split point, NULL if there is none. */
  method ReverseLinks(items: array<Item>, top: int, split: int, ghost c: seq<int>, ghost n: nat) returns (r: int)
    requires n <= items.Length && Chain(items[..n], split, c) && top == Last(c, split)
    requires items[split].State?
    modifies items
    ensures items[n..] == old(items[n..])
    ensures r == if c == [] then NULL else c[0]
    ensures Reversed(old(items[..n]), items[..n], c, 0)
  {
    ghost var before := items[..n];
    var p := top;
    ghost var j := |c|;
    NotReversedYet(before, before, split, c, j);
    var q := items[p].pred;
    r := NULL;
    while p != split
      invariant 0 <= j <= |c| && p == (if j == 0 then split else c[j - 1]) && 0 <= p < n && before[p].State?
      invariant q == before[p].pred && before[split].State? && items[n..] == old(items[n..])
      invariant r == if j < |c| then c[j] else NULL
      invariant Reversed(before, items[..n], c, j)
      decreases j
    {
      ghost var now := items[..n];
      items[p] := items[p].(pred := r);
      assert items[..n] == now[p := now[p].(pred := r)];
      NotReversedYet(before, now, split, c, j);
      ReverseOne(before, now, split, c, j);
      r := p;
      p := q;
      j := j - 1;
      NotReversedYet(before, items[..n], split, c, j);
      q := items[p].pred;
    }
  }

  /** The n-th state of the chain, with its link turned. */
  lemma UpLink(items: seq<Item>, now: seq<Item>, split: int, c: seq<int>, n: nat)
    requires Chain(items, split, c) && n < |c| && |now| == |items| && UpLinked(items, now, c, n)
    ensures now[c[n]] == items[c[n]].(pred := if n + 1 < |c| then c[n + 1] else NULL)
    ensures split + 1 + n <= c[n]
  {
  }

  /** Writing below the states that are still to be copied does not touch them. */
  lemma WriteBelow(items: seq<Item>, now: seq<Item>, split: int, c: seq<int>, n: nat, x: Item)
    requires Chain(items, split, c) && n < |c| && |now| == |items| && UpLinked(items, now, c, n)
    ensures UpLinked(items, now[split + 1 + n := x], c, n + 1)
  {
  }

  lemma CompactedPush(items: seq<Item>, split: int, c: seq<int>, n: nat)
    requires Chain(items, split, c) && n < |c|
    ensures Compacted(items, split, c[..n + 1])
         == Compacted(items, split, c[..n]) + [items[c[n]].(pred := split + n)]
  {
    assert c[..n + 1][..n] == c[..n];
  }

  /** One round of the second loop: copy state r to `free` and link it to the one before. */
  method CopyOne(items: array<Item>, r: nat, free: nat) returns (next: int)
    requires r < items.Length && free < items.Length && items[r].State?
    modifies items
    ensures next == old(items[r]).pred
    ensures items[..] == old(items[..])[free := old(items[r]).(pred := free - 1)]
  {
    items[free] := items[r];
    next := items[r].pred;
    items[free] := items[free].(pred := free - 1);
  }

  /** The first n states have been copied; the links of the others point upwards. */
  ghost predicate Copied(before: seq<Item>, now: seq<Item>, split: int, c: seq<int>, n: nat) {
    && Chain(before, split, c) && |now| == |before| && n <= |c| && split + 1 + n <= |before|
    && UpLinked(before, now, c, n)
    && now[..split + 1 + n] == before[..split + 1] + Compacted(before, split, c[..n])
  }

  lemma CopyStep(before: seq<Item>, now: seq<Item>, split: int, c: seq<int>, n: nat)
    requires Copied(before, now, split, c, n) && n < |c|
    ensures now[c[n]] == before[c[n]].(pred := if n + 1 < |c| then c[n + 1] else NULL)
    ensures split + 1 + n <= c[n] < |now| && now[c[n]].State?
    ensures Copied(before, now[split + 1 + n := now[c[n]].(pred := split + n)], split, c, n + 1)
  {
    hide Compacted, UpLinked;
    UpLink(before, now, split, c, n);
    var x := now[c[n]].(pred := split + n);
    WriteBelow(before, now, split, c, n, x);
    CompactedPush(before, split, c, n);
    var after := now[split + 1 + n := x];
    assert after[..split + 1 + n + 1] == now[..split + 1 + n] + [x];
    Regroup(before[..split + 1], Compacted(before, split, c[..n]), x);
  }

  /** Second loop: copy the states down, following the turned links. */
  method CopyDown(items: array<Item>, first: int, split: int, ghost c: seq<int>, ghost before: seq<Item>)
    returns (free: nat)
    requires |before| <= items.Length && Chain(before, split, c)
    requires Reversed(before, items[..|before|], c, 0) && first == if c == [] then NULL else c[0]
    modifies items
    ensures free == split + 1 + |c| <= |before|
    ensures items[..free] == before[..split + 1] + Compacted(before, split, c)
  {
    hide Copied, Compacted, UpLinked, Chain, Increasing, Reversed;
    CopiedStart(before, items[..|before|], split, c);
    var r := first;
    free := split + 1;
    ghost var n: nat := 0;
    while r != NULL
      invariant n <= |c| && free == split + 1 + n <= |before|
      invariant r == if n < |c| then c[n] else NULL
      invariant Copied(before, items[..|before|], split, c, n)
      decreases |c| - n
    {
      ghost var all, now := items[..], items[..|before|];
      CopyStep(before, now, split, c, n);
      assert items[r] == now[c[n]];
      r := CopyOne(items, r, free);
      assert items[..|before|] == now[free := now[c[n]].(pred := free - 1)];
      free := free + 1;
      n := n + 1;
    }
    CopiedDone(before, items[..|before|], split, c, n);
    assert items[..free] == items[..|before|][..free];
  }

  lemma CopiedStart(before: seq<Item>, now: seq<Item>, split: int, c: seq<int>)
    requires Chain(before, split, c) && |now| == |before| && Reversed(before, now, c, 0)
    ensures Copied(before, now, split, c, 0) && 0 <= split < |before|
  {
    LowPart(before, now, split, c);
  }

  lemma CopiedDone(before: seq<Item>, now: seq<Item>, split: int, c: seq<int>, n: nat)
    requires Copied(before, now, split, c, n) && (n < |c| ==> c[n] == NULL)
    ensures n == |c| && now[..split + 1 + n] == before[..split + 1] + Compacted(before, split, c)
  {
    hide Compacted, UpLinked;
    assert c[..|c|] == c;
  }

  lemma Regroup(a: seq<Item>, b: seq<Item>, x: Item)
    ensures a + b + [x] == a + (b + [x])
  {
  }

  lemma LowPart(items: seq<Item>, now: seq<Item>, split: int, c: seq<int>)
    requires Chain(items, split, c) && |now| == |items| && Reversed(items, now, c, 0)
    ensures now[..split + 1] == items[..split + 1]
  {
    assert forall i {:trigger now[i]} | 0 <= i <= split :: i !in c;
  }

  // ---------------------------------------------------------------- what the result keeps

  /** The states of the stack with top i, bottom first, without their links. */
  function Contents(items: seq<Item>, i: int): seq<Item>
    decreases i
  {
    if Step(items, i) then Contents(items, items[i].pred) + [items[i].(pred := NULL)] else []
  }

  lemma {:induction false} ContentsFrame(items: seq<Item>, items': seq<Item>, i: int)
    requires i < |items| && items <= items'
    ensures Contents(items', i) == Contents(items, i) && LrChain(items', i) == LrChain(items, i)
    decreases i
  {
    if Step(items, i) {
      ContentsFrame(items, items', items[i].pred);
    }
  }

  /** What Compressed needs: the states above the split point, all with values. */
  ghost predicate Compressible(g: Graph, c: seq<int>) {
    && Links(g) && g.split != NULL
    && |g.tops| == 1 && g.tops[0] != NULL && c == Above(g.items, g.split, g.tops[0])
    && Chain(g.items, g.split, c) && Last(c, g.split) == g.tops[0] && Within(g, c)
    && (forall n {:trigger c[n]} | 0 <= n < |c| :: g.items[c[n]].sem.Resolved?)
  }

  lemma ChainAt(g: Graph, c: seq<int>, n: nat)
    requires Compressible(g, c) && n < |c|
    ensures g.split < c[n] < |g.items| && g.items[c[n]].State? && g.items[c[n]].sem.Resolved?
    ensures g.items[c[n]].pred == (if n == 0 then g.split else c[n - 1]) < c[n]
    ensures Step(g.items, c[n]) && 0 <= g.split && Within(g, c)
  {
    hide Links;
    if n > 0 {
      var m := n - 1;
      assert c[m] < c[n];
    }
  }

  lemma CompactedAt(g: Graph, c: seq<int>, n: nat)
    requires Within(g, c) && n < |c|
    ensures |Compressed(g, c).items| == g.split + 1 + |c|
    ensures Compressed(g, c).items[g.split + 1 + n] == g.items[c[n]].(pred := g.split + n)
  {
    var low, high := g.items[..g.split + 1], Compacted(g.items, g.split, c);
    assert (low + high)[|low| + n] == high[n];
  }

  /** The n-th state above the split point after the compression. */
  lemma CompressedAt(g: Graph, c: seq<int>, n: nat)
    requires Compressible(g, c) && n < |c|
    ensures |Compressed(g, c).items| == g.split + 1 + |c|
    ensures g.split < c[n] < |g.items| && g.items[c[n]].State? && g.items[c[n]].sem.Resolved?
    ensures Compressed(g, c).items[g.split + 1 + n] == g.items[c[n]].(pred := g.split + n)
    ensures g.items[c[n]].pred == if n == 0 then g.split else c[n - 1]
    ensures Step(g.items, c[n]) && Step(Compressed(g, c).items, g.split + 1 + n)
  {
    hide Compressible, Compressed, Chain, Within, Links;
    ChainAt(g, c, n);
    CompactedAt(g, c, n);
  }

  lemma CompressedLow(g: Graph, c: seq<int>)
    requires Compressible(g, c)
    ensures |Compressed(g, c).items| == g.split + 1 + |c|
    ensures Compressed(g, c).items[..g.split + 1] == g.items[..g.split + 1]
  {
  }

  lemma CompressedLinks(g: Graph, c: seq<int>)
    requires Compressible(g, c)
    ensures Links(Compressed(g, c))
  {
    hide Compressed, Within, LinksAbove, Chain;
    var h := Compressed(g, c);
    assert h.split == NULL && h.tops == [g.split + |c|] by { CompressedShape(g, c); }
    CompressedLow(g, c);
    forall i {:trigger h.items[i]} | 0 <= i < |h.items|
      ensures h.items[i].State? && h.items[i].pred == i - 1 && h.items[i].sem.Resolved?
    {
      if i <= g.split {
        LowIsContiguous(g, c);
        assert h.items[i] == h.items[..g.split + 1][i] == g.items[..g.split + 1][i] == g.items[i];
      } else {
        CompressedAt(g, c, i - g.split - 1);
      }
    }
  }

  lemma CompressedShape(g: Graph, c: seq<int>)
    requires Compressible(g, c)
    ensures Compressed(g, c).split == NULL && Compressed(g, c).tops == [g.split + |c|]
  {
    hide Links, Chain, Contiguous, LinksAbove;
  }

  lemma LowIsContiguous(g: Graph, c: seq<int>)
    requires Compressible(g, c)
    ensures 0 <= g.split < |g.items| && Contiguous(g.items, g.split)
  {
  }

  /** Every stack that ends in a state of the compressed one is what it was. */
  lemma {:induction false} CompressedChain(g: Graph, c: seq<int>, n: nat)
    requires Compressible(g, c) && n <= |c|
    ensures var h, i := Compressed(g, c), if n == 0 then g.split else c[n - 1];
      && Contents(h.items, g.split + n) == Contents(g.items, i)
      && LrChain(h.items, g.split + n) == LrChain(g.items, i)
  {
    hide Compressed, Within, Chain, Links;
    var h := Compressed(g, c);
    CompressedLow(g, c);
    LowIsContiguous(g, c);
    if n == 0 {
      var low := g.items[..g.split + 1];
      assert low <= h.items && low <= g.items;
      ContentsFrame(low, h.items, g.split);
      ContentsFrame(low, g.items, g.split);
    } else {
      CompressedAt(g, c, n - 1);
      CompressedChain(g, c, n - 1);
    }
  }

  /** yycompressStack keeps the stack: the same states, positions and values, bottom to top. */
  lemma CompressKeepsStack(g: Graph, c: seq<int>)
    requires Compressible(g, c)
    ensures var h := Compressed(g, c);
      && h.split == NULL && |h.tops| == 1 && Links(h)
      && Contents(h.items, h.tops[0]) == Contents(g.items, g.tops[0])
      && LrChain(h.items, h.tops[0]) == LrChain(g.items, g.tops[0])
  {
    hide Chain, Links, Above, Contents, Within, Compressed, Increasing;
    CompressedShape(g, c);
    CompressedLinks(g, c);
    CompressedChain(g, c, |c|);
  }

  lemma CompressedPositions(g: Graph, c: seq<int>)
    requires Compressible(g, c) && Positions(g.items)
    ensures Positions(Compressed(g, c).items)
  {
    hide Compressed, Within, Chain, Links, LinksAbove;
    var h := Compressed(g, c);
    CompressedLow(g, c);
    LowIsContiguous(g, c);
    forall i {:trigger h.items[i]} | 0 <= i < |h.items| && h.items[i].State?
      ensures Step(h.items, i) && h.items[i].pred >= 0 && h.items[h.items[i].pred].State? ==>
              h.items[h.items[i].pred].posn <= h.items[i].posn
    {
      if i <= g.split {
        assert h.items[i] == h.items[..g.split + 1][i] == g.items[i];
        if i > 0 {
          var j := i - 1;
          assert h.items[j] == h.items[..g.split + 1][j] == g.items[j];
        }
      } else {
        var n := i - g.split - 1;
        CompressedAt(g, c, n);
        if n > 0 {
          CompressedAt(g, c, n - 1);
        } else {
          assert h.items[g.split] == h.items[..g.split + 1][g.split] == g.items[g.split];
        }
      }
    }
  }

  lemma CompressedAutomaton(T: Tables, g: Graph, c: seq<int>)
    requires T.Ranges() && Compressible(g, c) && Automaton(T, g.items)
    ensures Automaton(T, Compressed(g, c).items)
  {
    hide Compressed, Within, Chain, Links, LinksAbove, Stack;
    var h := Compressed(g, c);
    CompressedLow(g, c);
    LowIsContiguous(g, c);
    forall i {:trigger h.items[i]} | 0 <= i < |h.items| && h.items[i].State?
      ensures Stack(T, LrChain(h.items, i))
    {
      if i <= g.split {
        var low := g.items[..g.split + 1];
        assert low <= h.items && low <= g.items;
        ContentsFrame(low, h.items, i);
        ContentsFrame(low, g.items, i);
        assert g.items[i].State?;
      } else {
        var n := i - g.split - 1;
        CompressedAt(g, c, n);
        CompressedChain(g, c, n + 1);
      }
    }
  }

  /** In a contiguous stack no two states agree in predecessor, and there are no options. */
  lemma ContiguousRest(T: Tables, h: Graph)
    requires T.Ranges() && Links(h) && h.split == NULL
    ensures Unique(h) && Derivations(T, h.items, map[]) && LiveOwned(h, map[])
  {
    hide Live, Derives;
  }

  /** A state of the compressed stack stands for what it stood for. */
  /** What is below the n-th state above the split point stays there. */
  lemma CompressedBelow(g: Graph, c: seq<int>, n: nat)
    requires Compressible(g, c) && n < |c|
    ensures var h, i := Compressed(g, c), if n == 0 then g.split else c[n - 1];
      && 0 <= g.split && g.split + n < |h.items| && 0 <= i < |g.items| && g.items[i].State?
      && h.items[g.split + n].State? && h.items[g.split + n].posn == g.items[i].posn
  {
    hide Compressed, Within, Chain, LinksAbove;
    var h := Compressed(g, c);
    LowIsContiguous(g, c);
    if n > 0 {
      CompressedAt(g, c, n - 1);
    } else {
      CompressedLow(g, c);
      assert h.items[g.split] == h.items[..g.split + 1][g.split] == g.items[g.split];
    }
  }

  lemma CompressedKey(T: Tables, rk: Ranking, g: Graph, c: seq<int>, n: nat)
    requires T.Ranges() && Compressible(g, c) && Skeleton(T, rk, g.items) && n < |c|
    ensures var h, i := Compressed(g, c), g.split + 1 + n;
      && i < |h.items| && g.split < c[n] < |g.items| && h.items[i].State? && h.items[i].sem == g.items[c[n]].sem
      && KeyOf(T, h.items, i) == KeyOf(T, g.items, c[n]) && Grounded(T, rk, h.items, i)
  {
    hide Compressed, Within, Chain, Links, LinksAbove, Compressible, Skeleton;
    CompressedAt(g, c, n);
    CompressedBelow(g, c, n);
    StateIsGrounded(T, rk, g.items, c[n]);
  }

  lemma CompressedLowKey(T: Tables, rk: Ranking, g: Graph, c: seq<int>, i: nat)
    requires T.Ranges() && Compressible(g, c) && Skeleton(T, rk, g.items) && i <= g.split
    ensures var h := Compressed(g, c);
      && i < |h.items| && i < |g.items| && h.items[i] == g.items[i] && h.items[i].State?
      && KeyOf(T, h.items, i) == KeyOf(T, g.items, i) && Grounded(T, rk, h.items, i)
  {
    hide Compressed, Within, Chain, Links, LinksAbove, Rooted;
    var h := Compressed(g, c);
    CompressedLow(g, c);
    LowIsContiguous(g, c);
    assert h.items[i] == h.items[..g.split + 1][i] == g.items[i];
    assert Grounded(T, rk, g.items, i);
    if i > 0 {
      var j := i - 1;
      assert h.items[j] == h.items[..g.split + 1][j] == g.items[j];
    }
  }

  lemma CompressedStates(T: Tables, rk: Ranking, g: Graph, c: seq<int>, i: nat)
    requires T.Ranges() && Compressible(g, c) && Skeleton(T, rk, g.items) && i < |Compressed(g, c).items|
    ensures Compressed(g, c).items[i].State? && Grounded(T, rk, Compressed(g, c).items, i)
    ensures exists j {:trigger g.items[j]} | 0 <= j < |g.items| ::
      g.items[j].State? && g.items[j].sem == Compressed(g, c).items[i].sem
      && KeyOf(T, g.items, j) == KeyOf(T, Compressed(g, c).items, i)
  {
    hide Compressed, Within, Chain, Links, Grounded, Skeleton, KeyOf;
    CompressedLow(g, c);
    if i <= g.split {
      CompressedLowKey(T, rk, g, c, i);
    } else {
      var n: nat := i - g.split - 1;
      CompressedKey(T, rk, g, c, n);
      var j := c[n];
      ChainAt(g, c, n);
      assert 0 <= j < |g.items| && g.items[j].sem == Compressed(g, c).items[i].sem;
    }
  }

  /** There are only states, with values, and each follows its predecessor as it should. */
  ghost predicate AllGrounded(T: Tables, items: seq<Item>)
    requires T.Ranges()
  {
    forall i {:trigger items[i]} | 0 <= i < |items| ::
      items[i].State? && items[i].sem.Resolved? && Grounded(T, RankOf(T), items, i)
  }

  lemma CompressedForest(T: Tables, g: Graph, c: seq<int>)
    requires T.Ranges() && Compressible(g, c) && Forest(T, g.items)
    ensures Forest(T, Compressed(g, c).items)
  {
    hide Forest, Compressed, AllGrounded, Tables.Ranges;
    CompressedGrounded(T, g, c);
    StatesAreForest(T, Compressed(g, c).items);
  }

  lemma CompressedGrounded(T: Tables, g: Graph, c: seq<int>)
    requires T.Ranges() && Compressible(g, c) && Forest(T, g.items)
    ensures AllGrounded(T, Compressed(g, c).items)
  {
    hide Links, Forest, Grounded, Chain, Above, Compacted, Compressed, Tables.Ranges;
    var items := Compressed(g, c).items;
    forall i {:trigger items[i]} {:trigger Grounded(T, RankOf(T), items, i)} | 0 <= i < |items|
      ensures items[i].State? && items[i].sem.Resolved? && Grounded(T, RankOf(T), items, i)
    {
      CompressedState(T, g, c, i);
    }
  }

  lemma CompressedState(T: Tables, g: Graph, c: seq<int>, i: nat)
    requires T.Ranges() && Compressible(g, c) && Forest(T, g.items) && i < |Compressed(g, c).items|
    ensures var items := Compressed(g, c).items;
      items[i].State? && items[i].sem.Resolved? && Grounded(T, RankOf(T), items, i)
  {
    hide Compressed, Within, Chain, Grounded, Rooted, KeyOf, Skeleton, Links, Forest, Above;
    CompressedLinks(g, c);
    CompressedShape(g, c);
    ForestParts(T, g.items);
    CompressedStates(T, RankOf(T), g, c, i);
    ContiguousAt(Compressed(g, c), i);
  }

  lemma ContiguousAt(g: Graph, i: nat)
    requires Links(g) && g.split == NULL && i < |g.items|
    ensures g.items[i].State? && g.items[i].sem.Resolved?
  {
  }

  /** Items that are all states with values make a forest. */
  lemma StatesAreForest(T: Tables, items: seq<Item>)
    requires T.Ranges() && AllGrounded(T, items)
    ensures Forest(T, items)
  {
    hide Grounded, Rooted, KeyOf;
  }

  /** And its value fits as it did. */
  lemma CompressedFits(T: Tables, g: Graph, c: seq<int>, fits: (Key, int) -> bool)
    requires T.Ranges() && Compressible(g, c) && Forest(T, g.items)
    requires GlrOptions.AllFit(g.items, Keys(T, g.items), fits)
    ensures GlrOptions.AllFit(Compressed(g, c).items, Keys(T, Compressed(g, c).items), fits)
  {
    hide Compressed, Within, Chain, Grounded, Rooted, KeyOf, Links;
    var h := Compressed(g, c);
    forall i {:trigger h.items[i]} | 0 <= i < |h.items| && h.items[i].State? && h.items[i].sem.Resolved?
      ensures fits(KeyOf(T, h.items, i), h.items[i].sem.val)
    {
      CompressedStates(T, RankOf(T), g, c, i);
      var j :| 0 <= j < |g.items| && g.items[j].State? && g.items[j].sem == h.items[i].sem
        && KeyOf(T, g.items, j) == KeyOf(T, h.items, i);
      assert fits(Keys(T, g.items)(j), g.items[j].sem.val);
    }
  }

  /** yycompressStack keeps the invariants. */
  lemma CompressedInv(T: Tables, g: Graph, c: seq<int>, owner: map<int, int>)
    requires T.Ranges() && Compressible(g, c) && GraphInv(T, g, owner)
    ensures GraphInv(T, Compressed(g, c), map[])
  {
    hide Compressed, Within, Links, Positions, Automaton, Unique, Derivations, Forest, LiveOwned, Chain, Outgrown;
    CompressedLinks(g, c);
    CompressedPositions(g, c);
    CompressedAutomaton(T, g, c);
    assert Compressed(g, c).split == NULL && |Compressed(g, c).tops| == 1 by { CompressedShape(g, c); }
    ContiguousRest(T, Compressed(g, c));
    CompressedForest(T, g, c);
    SingleOutgrown(T, Compressed(g, c));
  }

  lemma CompressibleParts(g: Graph, c: seq<int>)
    requires Compressible(g, c)
    ensures Within(g, c) && Chain(g.items, g.split, c) && g.tops[0] == Last(c, g.split) && g.items[g.split].State?
  {
    assert g.items[g.split].State?;
  }

  lemma CompressedIs(g: Graph, c: seq<int>, items: seq<Item>)
    requires Within(g, c) && items == g.items[..g.split + 1] + Compacted(g.items, g.split, c)
    ensures Compressed(g, c) == Graph(items, NULL, [g.split + |c|])
  {
    hide Compacted, Within;
  }

  /** Both loops: the states of the chain end up from the split point on. */
  method Rearrange(items: array<Item>, top: int, split: int, n: nat, ghost c: seq<int>) returns (free: nat)
    requires n <= items.Length && Chain(items[..n], split, c) && top == Last(c, split)
    requires items[split].State?
    modifies items
    ensures free == split + 1 + |c| <= n
    ensures items[..free] == old(items[..n])[..split + 1] + Compacted(old(items[..n]), split, c)
  {
    ghost var before := items[..n];
    var first := ReverseLinks(items, top, split, c, n);
    free := CopyDown(items, first, split, c, before);
  }

  /** yycompressStack: does nothing unless there is one stack and a split point. */
  method Compress(S: GlrStack.Stack)
    requires S.Valid() && S.nextFree <= S.items.Length
    requires |S.tops| == 1 && S.splitPoint != NULL ==>
      Compressible(S.AsGraph(), Above(S.AsGraph().items, S.splitPoint, S.tops[0]))
    modifies S, S.items
    ensures S.Valid() && S.items == old(S.items)
    ensures S.owner == if |old(S.tops)| == 1 && old(S.splitPoint) != NULL then map[] else old(S.owner)
    ensures |old(S.tops)| == 1 && old(S.splitPoint) != NULL ==>
      var g := old(S.AsGraph());
      S.AsGraph() == Compressed(g, Above(g.items, g.split, g.tops[0])) && S.lastDeleted == NULL
    ensures |old(S.tops)| != 1 || old(S.splitPoint) == NULL ==> S.AsGraph() == old(S.AsGraph())
  {
    hide Compressible, Compacted, Above, Within, Links, Chain, Increasing, Compressed, Step, Last, UpLinked;
    if |S.tops| != 1 || S.splitPoint == NULL {
      return;
    }
    ghost var g := S.AsGraph();
    ghost var c := Above(g.items, g.split, g.tops[0]);
    CompressibleParts(g, c);
    var free := Rearrange(S.items, S.tops[0], S.splitPoint, S.nextFree, c);
    CompressedIs(g, c, S.items[..free]);
    S.spaceLeft := S.spaceLeft + S.nextFree - free;
    S.nextFree := free;
    S.splitPoint := NULL;
    S.lastDeleted := NULL;
    S.tops := [free - 1];
    S.owner := map[];
  }
}
