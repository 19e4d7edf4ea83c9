/** The options of an unresolved state: a list kept in decreasing address order, the merge
    of two such lists in place, and the choice among the options of one state. */
module GlrOptions {
  import opened GlrGraph
  import GlrOps

  // ---------------------------------------------------------------- chains of options

  /** Options link to options at lower addresses only. */
  ghost predicate LinksDown(items: seq<Item>) {
    forall o {:trigger items[o]} | 0 <= o < |items| && items[o].Opt? ::
      NULL <= items[o].next < o && (items[o].next != NULL ==> items[items[o].next].Opt?)
  }

  /** NULL, or an option. */
  predicate Link(items: seq<Item>, o: int) {
    o == NULL || (0 <= o < |items| && items[o].Opt?)
  }

  /** The options from o on, along yynext. */
  function Chain(items: seq<Item>, o: int): seq<int>
    decreases o
  {
    if 0 <= o < |items| && items[o].Opt? && items[o].next < o then [o] + Chain(items, items[o].next) else []
  }

  predicate StrictlyDecreasing(c: seq<int>) {
    forall i, j {:trigger c[i], c[j]} | 0 <= i < j < |c| :: c[i] > c[j]
  }

  lemma {:induction false} ChainDecreases(items: seq<Item>, o: int)
    ensures StrictlyDecreasing(Chain(items, o))
    ensures forall x {:trigger x in Chain(items, o)} | x in Chain(items, o) ::
      0 <= x <= o && x < |items| && items[x].Opt?
    decreases o
  {
    if 0 <= o < |items| && items[o].Opt? && items[o].next < o {
      ChainDecreases(items, items[o].next);
      var c, r := Chain(items, o), Chain(items, items[o].next);
      forall i, j {:trigger c[i], c[j]} | 0 <= i < j < |c|
        ensures c[i] > c[j]
      {
        assert c[j] == r[j - 1] && r[j - 1] in r;
        if i > 0 {
          assert c[i] == r[i - 1];
        }
      }
    }
  }

  /** A chain depends only on the options at its own addresses and below. */
  lemma {:induction false} ChainFrame(items: seq<Item>, items': seq<Item>, o: int)
    requires |items| == |items'| && forall i {:trigger items'[i]} | 0 <= i <= o && i < |items| && items[i].Opt? ::
      items'[i] == items[i]
    requires forall i {:trigger items'[i]} | 0 <= i <= o && i < |items| && items[i].State? :: items'[i].State?
    ensures Chain(items', o) == Chain(items, o)
    decreases o
  {
    if 0 <= o < |items| && items[o].Opt? && items[o].next < o {
      ChainFrame(items, items', items[o].next);
    }
  }

  // ---------------------------------------------------------------- merging two chains

  /** A place where a chain continues: the first link of state s (cell NULL), or the
      link of option `cell`. */
  predicate Cell(items: seq<Item>, s: int, cell: int) {
    && 0 <= s < |items| && items[s].State? && items[s].sem.Unresolved?
    && (cell == NULL || (0 <= cell < |items| && items[cell].Opt?))
  }

  function Get(items: seq<Item>, s: int, cell: int): int
    requires Cell(items, s, cell)
  {
    if cell == NULL then items[s].sem.firstVal else items[cell].next
  }

  function Put(items: seq<Item>, s: int, cell: int, o: int): seq<Item>
    requires Cell(items, s, cell)
  {
    if cell == NULL then items[s := items[s].(sem := Unresolved(o))] else items[cell := items[cell].(next := o)]
  }

  /** The state of the merge: the options `done` are in their final place and lead up to
      `cell`; what follows there, and the chain from z, are still to be merged. */
  ghost predicate Merging(items: seq<Item>, s: int, done: seq<int>, cell: int, z: int, all: iset<int>) {
    && LinksDown(items) && Cell(items, s, cell) && Link(items, items[s].sem.firstVal)
    && Link(items, Get(items, s, cell)) && Link(items, z)
    && Chain(items, items[s].sem.firstVal) == done + Chain(items, Get(items, s, cell))
    && cell == (if done == [] then NULL else done[|done|-1])
    && (done != [] ==> Get(items, s, cell) < cell && z < cell)
    && (forall x :: x in all <==> x in done || x in Chain(items, Get(items, s, cell)) || x in Chain(items, z))
  }

  lemma RelinkLinks(items: seq<Item>, cell: int, v: int)
    requires LinksDown(items) && Link(items, v) && 0 <= cell < |items| && items[cell].Opt? && NULL <= v < cell
    ensures LinksDown(items[cell := items[cell].(next := v)])
  {
  }

  /** Changing the last link of a chain changes what follows it. */
  lemma {:induction false} Relink(items: seq<Item>, o: int, done: seq<int>, cell: int, v: int)
    requires LinksDown(items) && Link(items, o) && Link(items, v) && done != [] && cell == done[|done|-1] > v
    requires 0 <= cell < |items| && items[cell].Opt? && Chain(items, o) == done + Chain(items, items[cell].next)
    ensures var h := items[cell := items[cell].(next := v)];
      LinksDown(h) && Chain(h, o) == done + Chain(items, v) && Chain(h, v) == Chain(items, v)
    decreases |done|
  {
    hide StrictlyDecreasing, LinksDown;
    var h := items[cell := items[cell].(next := v)];
    RelinkLinks(items, cell, v);
    ChainFrame(items, h, v);
    ChainTail(items, o, done, Chain(items, items[cell].next));
    assert done == [o] + done[1..];
    if |done| > 1 {
      Relink(items, items[o].next, done[1..], cell, v);
      assert h[o] == items[o] by { ChainDistinct(items, o, done); }
      assert Chain(h, o) == [o] + (done[1..] + Chain(items, v));
    }
  }

  /** What follows the first of a chain. */
  lemma ChainTail(items: seq<Item>, o: int, done: seq<int>, rest: seq<int>)
    requires Link(items, o) && LinksDown(items) && done != [] && Chain(items, o) == done + rest
    ensures done[0] == o && 0 <= o < |items| && items[o].Opt? && items[o].next < o
    ensures Chain(items, items[o].next) == done[1..] + rest
  {
    assert Chain(items, o) == [o] + Chain(items, items[o].next);
    assert (done + rest)[0] == done[0];
    assert (done + rest)[1..] == done[1..] + rest;
    assert ([o] + Chain(items, items[o].next))[1..] == Chain(items, items[o].next);
  }

  lemma ChainDistinct(items: seq<Item>, o: int, done: seq<int>)
    requires |done| > 1 && done <= Chain(items, o)
    ensures done[0] > done[|done|-1]
  {
    ChainDecreases(items, o);
    assert Chain(items, o)[0] > Chain(items, o)[|done|-1];
  }

  /** Only links of options in `all`, and the first option of s, have changed. */
  ghost predicate OnlyLinks(items: seq<Item>, now: seq<Item>, s: int, all: iset<int>) {
    && |now| == |items|
    && (forall i {:trigger now[i]} | 0 <= i < |items| && i != s ::
          if i in all && items[i].Opt? then now[i].Opt?
            && now[i] == items[i].(next := now[i].next) else now[i] == items[i])
    && (0 <= s < |items| && items[s].State? ==> now[s].State? && now[s] == items[s].(sem := now[s].sem))
  }

  /** What follows a cell is replaced by the chain from v. */
  lemma PutChain(items: seq<Item>, s: int, done: seq<int>, cell: int, z: int, all: iset<int>, v: int)
    requires Merging(items, s, done, cell, z, all) && Link(items, v) && (done != [] ==> v < cell)
    ensures var h := Put(items, s, cell, v);
      && LinksDown(h) && Cell(h, s, cell) && Get(h, s, cell) == v && Link(h, h[s].sem.firstVal)
      && Chain(h, h[s].sem.firstVal) == done + Chain(items, v)
      && Chain(h, v) == Chain(items, v) && Chain(h, z) == Chain(items, z)
      && Chain(h, Get(items, s, cell)) == Chain(items, Get(items, s, cell))
      && (forall o :: Link(h, o) == Link(items, o))
  {
    var h := Put(items, s, cell, v);
    ChainFrame(items, h, z);
    ChainFrame(items, h, Get(items, s, cell));
    if done == [] {
      ChainFrame(items, h, v);
    } else {
      Relink(items, items[s].sem.firstVal, done, cell, v);
    }
  }

  lemma MergeAdvance(items: seq<Item>, s: int, done: seq<int>, cell: int, z: int, all: iset<int>)
    requires Merging(items, s, done, cell, z, all) && Get(items, s, cell) > z
    ensures Merging(items, s, done + [Get(items, s, cell)], Get(items, s, cell), z, all)
  {
    var cur := Get(items, s, cell);
    assert Chain(items, cur) == [cur] + Chain(items, items[cur].next);
    assert done + Chain(items, cur) == done + [cur] + Chain(items, items[cur].next);
  }

  /** z goes in front of what follows the cell. */
  lemma MergeInsert(items: seq<Item>, s: int, done: seq<int>, cell: int, z: int, all: iset<int>)
    requires Merging(items, s, done, cell, z, all) && NULL < Get(items, s, cell) < z
    ensures var cur := Get(items, s, cell);
      var h := Put(items, s, cell, z);
      var h' := h[z := h[z].(next := cur)];
      h[z] == items[z] && Merging(h', s, done + [z], z, items[z].next, all)
  {
    hide Merging, Chain, StrictlyDecreasing, LinksDown;
    MergingParts(items, s, done, cell, z, all);
    var cur := Get(items, s, cell);
    var h := Put(items, s, cell, z);
    PutChain(items, s, done, cell, z, all, z);
    ChainHead(items, z);
    assert done + Chain(items, z) == done + [z] + Chain(items, items[z].next);
    ChainFrame(items, h, items[z].next);
    Relink(h, h[s].sem.firstVal, done + [z], z, cur);
    var h' := h[z := h[z].(next := cur)];
    ChainFrame(h, h', items[z].next);
    InsertDone(items, h', s, done, cell, z, all);
  }

  lemma ChainHead(items: seq<Item>, o: int)
    requires 0 <= o < |items| && items[o].Opt? && items[o].next < o
    ensures Chain(items, o) == [o] + Chain(items, items[o].next)
  {
  }

  lemma MergingParts(items: seq<Item>, s: int, done: seq<int>, cell: int, z: int, all: iset<int>)
    requires Merging(items, s, done, cell, z, all)
    ensures LinksDown(items) && Cell(items, s, cell) && Link(items, items[s].sem.firstVal)
    ensures Link(items, Get(items, s, cell)) && Link(items, z) && (done != [] ==> z < cell)
    ensures cell == (if done == [] then NULL else done[|done|-1])
    ensures z != NULL ==> 0 <= z < |items| && items[z].Opt? && z != s && items[z].next < z && z != cell
  {
  }

  lemma InsertDone(items: seq<Item>, h': seq<Item>, s: int, done: seq<int>, cell: int, z: int, all: iset<int>)
    requires Merging(items, s, done, cell, z, all) && NULL < Get(items, s, cell) < z
    requires LinksDown(h') && Cell(h', s, z) && h'[z].Opt? && h'[z].next == Get(items, s, cell)
    requires Link(h', h'[s].sem.firstVal) && Link(h', items[z].next) && Link(h', Get(items, s, cell))
    requires Chain(h', h'[s].sem.firstVal) == done + [z] + Chain(items, Get(items, s, cell))
    requires Chain(h', Get(items, s, cell)) == Chain(items, Get(items, s, cell))
    requires Chain(h', items[z].next) == Chain(items, items[z].next)
    ensures Merging(h', s, done + [z], z, items[z].next, all)
  {
    assert Chain(items, z) == [z] + Chain(items, items[z].next);
  }

  method SetCell(items: array<Item>, ghost used: nat, s: nat, cell: int, o: int)
    requires used <= items.Length
    requires Cell(items[..used], s, cell)
    modifies items
    ensures items[..used] == Put(old(items[..used]), s, cell, o)
  {
    if cell == NULL {
      items[s] := items[s].(sem := Unresolved(o));
    } else {
      items[cell] := items[cell].(next := o);
    }
  }

  /** The two chains of a merge are to hold. */
  ghost function Union(items: seq<Item>, a: int, b: int): iset<int> {
    iset x | x in Chain(items, a) || x in Chain(items, b)
  }

  /** A state with a well-formed chain of options. */
  ghost predicate Optional(items: seq<Item>, s: int) {
    0 <= s < |items| && items[s].State? && items[s].sem.Unresolved? && Link(items, items[s].sem.firstVal)
  }

  lemma MergeStart(items: seq<Item>, s0: int, s1: int)
    requires LinksDown(items) && Optional(items, s0) && Optional(items, s1)
    ensures Merging(items, s0, [], NULL, items[s1].sem.firstVal,
                    Union(items, items[s0].sem.firstVal, items[s1].sem.firstVal))
  {
    assert Chain(items, items[s0].sem.firstVal) == [] + Chain(items, items[s0].sem.firstVal);
  }

  /** The merged chain is complete: nothing is left to merge, or both chains go on alike. */
  lemma MergeStops(items: seq<Item>, s: int, done: seq<int>, cell: int, z: int, all: iset<int>)
    requires Merging(items, s, done, cell, z, all) && (z == NULL || z == Get(items, s, cell))
    ensures LinksDown(items) && Optional(items, s)
    ensures forall x :: x in all <==> x in Chain(items, items[s].sem.firstVal)
  {
  }

  /** The rest of the second chain becomes the rest of the first. */
  lemma MergeAppends(items: seq<Item>, s: int, done: seq<int>, cell: int, z: int, all: iset<int>)
    requires Merging(items, s, done, cell, z, all) && Get(items, s, cell) == NULL
    ensures var h := Put(items, s, cell, z);
      && LinksDown(h) && Optional(h, s) && forall x :: x in all <==> x in Chain(h, h[s].sem.firstVal)
  {
    PutChain(items, s, done, cell, z, all, z);
  }

  /** Writing to a cell of the merge changes only links that belong to it. */
  lemma OnlyLinksPut(items: seq<Item>, now: seq<Item>, s: int, all: iset<int>, done: seq<int>, cell: int, z: int,
    v: int)
    requires OnlyLinks(items, now, s, all) && Merging(now, s, done, cell, z, all)
    ensures OnlyLinks(items, Put(now, s, cell, v), s, all) && (z != NULL ==> z in all)
  {
    assert cell != NULL ==> cell in all;
    assert z != NULL ==> z in Chain(now, z);
  }

  lemma OnlyLinksNext(items: seq<Item>, now: seq<Item>, s: int, all: iset<int>, z: int, v: int)
    requires OnlyLinks(items, now, s, all) && z in all && 0 <= z < |now| && now[z].Opt? && z != s
    ensures OnlyLinks(items, now[z := now[z].(next := v)], s, all)
  {
  }

  /** Insert z at the cell, in front of cur; return what followed z. */
  method InsertAt(items: array<Item>, ghost used: nat, s: nat, cell: int, z: nat, cur: int) returns (z': int)
    requires used <= items.Length
    requires Cell(items[..used], s, cell) && z < used && items[z].Opt? && z != cell && z != s
    modifies items
    ensures var h := Put(old(items[..used]), s, cell, z);
      h[z] == old(items[z]) && items[..used] == h[z := h[z].(next := cur)] && z' == old(items[z]).next
  {
    SetCell(items, used, s, cell, z);
    ghost var h := items[..used];
    z' := items[z].next;
    items[z] := items[z].(next := cur);
    assert items[..used] == h[z := h[z].(next := cur)];
  }

  /** The loop of yymergeOptionSets: the options of the chain from z go into the chain of s. */
  method MergeInto(items: array<Item>, ghost used: nat, s: nat, first: int, ghost all: iset<int>)
    requires used <= items.Length
    requires Merging(items[..used], s, [], NULL, first, all)
    modifies items
    ensures LinksDown(items[..used]) && Optional(items[..used], s)
    ensures OnlyLinks(old(items[..used]), items[..used], s, all)
    ensures forall x :: x in all <==> x in Chain(items[..used], items[s].sem.firstVal)
  {
    hide Merging, OnlyLinks, Chain, LinksDown;
    ghost var before := items[..used];
    var cell, z := NULL, first;
    ghost var done: seq<int> := [];
    MergingParts(before, s, done, cell, z, all);
    OnlyLinksStart(before, s, all);
    while z != NULL && z != (if cell == NULL then items[s].sem.firstVal else items[cell].next)
      invariant Merging(items[..used], s, done, cell, z, all) && Cell(items[..used], s, cell)
      invariant OnlyLinks(before, items[..used], s, all)
      decreases z + if cell == NULL then items[s].sem.firstVal else items[cell].next
    {
      ghost var now := items[..used];
      MergingParts(now, s, done, cell, z, all);
      OnlyLinksPut(before, now, s, all, done, cell, z, z);
      var cur := if cell == NULL then items[s].sem.firstVal else items[cell].next;
      if cur == NULL {
        MergeAppends(now, s, done, cell, z, all);
        SetCell(items, used, s, cell, z);
        return;
      }
      if cur < z {
        MergeInsert(now, s, done, cell, z, all);
        OnlyLinksNext(before, Put(now, s, cell, z), s, all, z, cur);
        var next := InsertAt(items, used, s, cell, z, cur);
        cell, z := z, next;
      } else {
        MergeAdvance(now, s, done, cell, z, all);
        cell := cur;
      }
      done := done + [cell];
      MergingParts(items[..used], s, done, cell, z, all);
    }
    MergeStops(items[..used], s, done, cell, z, all);
  }

  lemma OnlyLinksStart(items: seq<Item>, s: int, all: iset<int>)
    ensures OnlyLinks(items, items, s, all)
  {
  }

  /** yymergeOptionSets, for one pair of states that both have options: the two chains are
      merged in place, and both states get the result.  Whether or not they share a tail,
      the result holds exactly the options of both, in strictly decreasing order. */
  method MergeChains(items: array<Item>, ghost used: nat, s0: nat, s1: nat)
    requires used <= items.Length
    requires LinksDown(items[..used]) && Optional(items[..used], s0) && Optional(items[..used], s1) && s0 != s1
    modifies items
    ensures Unioned(old(items[..used]), items[..used], s0, s1)
    ensures ElsewhereSame(old(items[..used]), items[..used], s0, s1)
  {
    hide Merging, Chain, OnlyLinks, LinksDown, Unioned, ElsewhereSame;
    ghost var before := items[..used];
    var a, b := items[s0].sem.firstVal, items[s1].sem.firstVal;
    MergeStart(before, s0, s1);
    MergeInto(items, used, s0, b, Union(before, a, b));
    ghost var now := items[..used];
    MergedSecond(before, now, s0, s1);
    items[s1] := items[s1].(sem := Unresolved(items[s0].sem.firstVal));
    ShareChain(before, now, s0, s1);
  }

  /** s0 and s1 have one chain, which holds the options that either had before. */
  ghost predicate Unioned(before: seq<Item>, now: seq<Item>, s0: nat, s1: nat)
    requires Optional(before, s0) && Optional(before, s1)
  {
    && LinksDown(now) && Optional(now, s0) && Optional(now, s1)
    && now[s0].sem.firstVal == now[s1].sem.firstVal
    && (forall x :: x in Chain(now, now[s0].sem.firstVal) <==>
          x in Chain(before, before[s0].sem.firstVal) || x in Chain(before, before[s1].sem.firstVal))
    && StrictlyDecreasing(Chain(now, now[s0].sem.firstVal))
  }

  /** Apart from the two states, only links of their options have changed. */
  ghost predicate ElsewhereSame(before: seq<Item>, now: seq<Item>, s0: nat, s1: nat)
    requires Optional(before, s0) && Optional(before, s1)
  {
    && |now| == |before|
    && (forall i {:trigger now[i]} | 0 <= i < |now| && i != s0 && i != s1 ::
          if i in Union(before, before[s0].sem.firstVal, before[s1].sem.firstVal) && before[i].Opt?
          then now[i].Opt? && now[i] == before[i].(next := now[i].next) else now[i] == before[i])
    && now[s0].State? && now[s0] == before[s0].(sem := now[s0].sem)
    && now[s1].State? && now[s1] == before[s1].(sem := now[s1].sem)
  }

  lemma MergedSecond(before: seq<Item>, now: seq<Item>, s0: nat, s1: nat)
    requires Optional(before, s0) && Optional(before, s1) && s0 != s1
    requires OnlyLinks(before, now, s0, Union(before, before[s0].sem.firstVal, before[s1].sem.firstVal))
    ensures |now| == |before| && now[s1] == before[s1] && Optional(now, s1)
  {
  }

  /** The second state gets the chain of the first. */
  lemma ShareChain(before: seq<Item>, items: seq<Item>, s0: nat, s1: nat)
    requires Optional(before, s0) && Optional(before, s1) && s0 != s1
    requires LinksDown(items) && Optional(items, s0) && Optional(items, s1)
    requires OnlyLinks(before, items, s0, Union(before, before[s0].sem.firstVal, before[s1].sem.firstVal))
    requires forall x :: x in Union(before, before[s0].sem.firstVal, before[s1].sem.firstVal) <==>
                         x in Chain(items, items[s0].sem.firstVal)
    ensures var now := items[s1 := items[s1].(sem := Unresolved(items[s0].sem.firstVal))];
      Unioned(before, now, s0, s1) && ElsewhereSame(before, now, s0, s1)
  {
    var now := items[s1 := items[s1].(sem := Unresolved(items[s0].sem.firstVal))];
    ChainFrame(items, now, items[s0].sem.firstVal);
    ChainDecreases(now, items[s0].sem.firstVal);
  }

  // ---------------------------------------------------------------- all states of two right-hand sides

  /** State a got what states a and b meant before: the value of either, or the options of both. */
  ghost predicate Pooled(before: seq<Item>, now: seq<Item>, a: nat, b: nat) {
    && a < |before| == |now| && b < |before| && before[a].State? && before[b].State? && now[a].State? && now[b].State?
    && (if a == b then now[a] == before[a]
        else if before[a].sem.Resolved? then now[a].sem == now[b].sem == before[a].sem
        else if before[b].sem.Resolved? then now[a].sem == now[b].sem == before[b].sem
        else Optional(before, a) && Optional(before, b) && Unioned(before, now, a, b))
  }

  ghost predicate Usable(items: seq<Item>, s: int) {
    Step(items, s) && (items[s].sem.Unresolved? ==> Optional(items, s))
  }

  /** State s stands for k, and so do its options. */
  ghost predicate AtKey(items: seq<Item>, s: int, key: int -> Key, k: Key)
    requires Usable(items, s)
  {
    key(s) == k && (items[s].sem.Unresolved? ==> forall x | x in Chain(items, items[s].sem.firstVal) :: key(x) == k)
  }

  /** Linked options stand for the same, and a state's options for what the state stands for. */
  ghost predicate Tidy(items: seq<Item>, key: int -> Key) {
    && LinksDown(items)
    && (forall o {:trigger items[o]} | 0 <= o < |items| && items[o].Opt? && items[o].next != NULL ::
          key(items[o].next) == key(o))
    && (forall s {:trigger items[s]} | 0 <= s < |items| && items[s].State? && items[s].sem.Unresolved? ::
          Link(items, items[s].sem.firstVal)
            && (items[s].sem.firstVal != NULL ==> key(items[s].sem.firstVal) == key(s)))
  }

  /** The n states from s0 and from s1 down stand, pair by pair, for the same. */
  ghost predicate Sides(items: seq<Item>, s0: int, s1: int, n: nat, key: int -> Key) {
    forall j {:trigger Walk(items, s0, j)} {:trigger Walk(items, s1, j)} | 0 <= j < n ::
      && Step(items, Walk(items, s0, j)) && Step(items, Walk(items, s1, j))
      && key(Walk(items, s0, j)) == key(Walk(items, s1, j))
  }

  /** The n states from s down stand for different things. */
  ghost predicate Distinct(items: seq<Item>, s: int, n: nat, key: int -> Key) {
    forall i, j {:trigger Walk(items, s, i), Walk(items, s, j)} | 0 <= i < j < n ::
      key(Walk(items, s, i)) != key(Walk(items, s, j))
  }

  /** One of the n states from s down stands for k. */
  ghost predicate Among(items: seq<Item>, s: int, n: int, key: int -> Key, k: Key) {
    exists i {:trigger Walk(items, s, i)} | 0 <= i < n :: key(Walk(items, s, i)) == k
  }

  lemma {:induction false} TidyChain(items: seq<Item>, key: int -> Key, o: int)
    requires Tidy(items, key) && Link(items, o)
    ensures forall x {:trigger x in Chain(items, o)} | x in Chain(items, o) :: key(x) == key(o)
    decreases o
  {
    if o != NULL {
      TidyChain(items, key, items[o].next);
    }
  }

  lemma TidyUsable(items: seq<Item>, key: int -> Key, s: int)
    requires Tidy(items, key) && Step(items, s)
    ensures Usable(items, s) && AtKey(items, s, key, key(s)) && LinksDown(items)
  {
    if items[s].sem.Unresolved? {
      TidyChain(items, key, items[s].sem.firstVal);
      if items[s].sem.firstVal == NULL {
        assert Chain(items, NULL) == [];
      }
    }
  }

  /** States and options are the same but for the links and values that merging changes. */
  ghost predicate SameBones(before: seq<Item>, now: seq<Item>) {
    && |now| == |before|
    && (forall i {:trigger now[i]} {:trigger before[i]} | 0 <= i < |before| ::
          if before[i].State? then now[i].State? && now[i] == before[i].(sem := now[i].sem)
          else now[i].Opt? && now[i] == before[i].(next := now[i].next))
  }

  lemma {:induction false} BonesWalk(before: seq<Item>, now: seq<Item>, s: int, n: nat)
    requires SameBones(before, now)
    ensures Walk(now, s, n) == Walk(before, s, n)
    ensures Step(now, Walk(now, s, n)) == Step(before, Walk(before, s, n))
    decreases n
  {
    if n > 0 && Step(before, s) {
      BonesWalk(before, now, before[s].pred, n - 1);
    }
  }

  lemma BonesTrans(a: seq<Item>, b: seq<Item>, c: seq<Item>)
    requires SameBones(a, b) && SameBones(b, c)
    ensures SameBones(a, c)
  {
    forall i {:trigger c[i]} {:trigger a[i]} | 0 <= i < |a|
      ensures if a[i].State? then c[i].State? && c[i] == a[i].(sem := c[i].sem)
              else c[i].Opt? && c[i] == a[i].(next := c[i].next)
    {
      assert b[i] == b[i];
    }
  }

  /** Only what stands for the same as one of the first j states from s down has changed, and
      no links between states have. */
  ghost predicate Untouched(before: seq<Item>, now: seq<Item>, key: int -> Key, s: int, j: int) {
    && SameBones(before, now)
    && (forall i {:trigger now[i]} {:trigger before[i]} | 0 <= i < |before| && !Among(before, s, j, key, key(i)) ::
          now[i] == before[i])
  }

  lemma {:induction false} SameChain(items: seq<Item>, now: seq<Item>, o: int)
    requires |now| == |items| && forall x {:trigger x in Chain(items, o)} | x in Chain(items, o) ::
      0 <= x < |now| && now[x] == items[x]
    requires 0 <= o < |items| && items[o].State? ==> now[o].State?
    requires LinksDown(items) && Link(items, o)
    ensures Chain(now, o) == Chain(items, o)
    decreases o
  {
    if o != NULL {
      assert Chain(items, o) == [o] + Chain(items, items[o].next);
      assert o in Chain(items, o);
      forall x {:trigger x in Chain(items, items[o].next)} | x in Chain(items, items[o].next)
        ensures 0 <= x < |now| && now[x] == items[x]
      {
        assert x in Chain(items, o);
      }
      SameChain(items, now, items[o].next);
    }
  }

  /** Work on what stands for k leaves alone what was pooled and stands for something else. */
  lemma PooledStays(before: seq<Item>, now: seq<Item>, now': seq<Item>, a: nat, b: nat, key: int -> Key, k: Key)
    requires Usable(before, a) && Usable(before, b) && AtKey(before, a, key, key(a)) && AtKey(before, b, key, key(a))
    requires Pooled(before, now, a, b) && |now'| == |now| && key(a) != k && LinksDown(now')
    requires forall i {:trigger now'[i]} | 0 <= i < |now| && key(i) != k :: now'[i] == now[i]
    ensures Pooled(before, now', a, b)
  {
    hide Chain, StrictlyDecreasing;
    if a != b && before[a].sem.Unresolved? && before[b].sem.Unresolved? {
      var f := now[a].sem.firstVal;
      ChainDecreases(now, f);
      forall x {:trigger x in Chain(now, f)} | x in Chain(now, f)
        ensures 0 <= x < |now'| && now'[x] == now[x]
      {
        assert key(x) == key(a);
      }
      SameChain(now, now', f);
      if f != NULL {
        FirstIn(now, f);
      }
    }
  }

  lemma FirstIn(items: seq<Item>, o: int)
    requires LinksDown(items) && Link(items, o) && o != NULL
    ensures o in Chain(items, o)
  {
  }

  // ---------------------------------------------------------------- what pooling keeps

  /** All values are such as `fits` wants them, given what their states stand for. */
  ghost predicate AllFit(items: seq<Item>, key: int -> Key, fits: (Key, int) -> bool) {
    forall i {:trigger items[i]} | 0 <= i < |items| && items[i].State? && items[i].sem.Resolved? ::
      fits(key(i), items[i].sem.val)
  }

  /** Every state has a value or an option. */
  ghost predicate NoneEmpty(items: seq<Item>) {
    forall i {:trigger items[i]} | 0 <= i < |items| && items[i].State? && items[i].sem.Unresolved? ::
      items[i].sem.firstVal != NULL
  }

  /** States that have values keep having values, and whatever values had to be by what
      their states stand for, they still are. */
  ghost predicate Inherits(before: seq<Item>, now: seq<Item>, key: int -> Key) {
    && |now| == |before|
    && (forall i {:trigger now[i]} {:trigger before[i]} | 0 <= i < |before| && before[i].State?
      && before[i].sem.Resolved? ::
          now[i].State? && now[i].sem.Resolved?)
    && (NoneEmpty(before) ==> NoneEmpty(now))
    && (forall fits: (Key, int) -> bool :: AllFit(before, key, fits) ==> AllFit(now, key, fits))
  }

  lemma InheritsTrans(a: seq<Item>, b: seq<Item>, c: seq<Item>, key: int -> Key)
    requires Inherits(a, b, key) && Inherits(b, c, key)
    ensures Inherits(a, c, key)
  {
    hide AllFit, NoneEmpty;
    forall i {:trigger c[i]} {:trigger a[i]} | 0 <= i < |a| && a[i].State? && a[i].sem.Resolved?
      ensures c[i].State? && c[i].sem.Resolved?
    {
      assert b[i] == b[i];
    }
  }

  lemma InheritsSelf(a: seq<Item>, key: int -> Key)
    ensures Inherits(a, a, key)
  {
    hide AllFit, NoneEmpty;
  }

  lemma ChainNull(items: seq<Item>)
    ensures Chain(items, NULL) == []
  {
  }

  lemma ChainsInherit(before: seq<Item>, now: seq<Item>, a: nat, b: nat, key: int -> Key)
    requires Optional(before, a) && Optional(before, b) && LinksDown(before)
    requires Unioned(before, now, a, b) && ElsewhereSame(before, now, a, b)
    ensures Inherits(before, now, key)
  {
    hide Chain, StrictlyDecreasing;
    if NoneEmpty(before) {
      FirstIn(before, before[a].sem.firstVal);
      ChainNull(now);
    }
    forall i {:trigger now[i]} | 0 <= i < |now| && now[i].State?
      ensures before[i].State? && (i != a && i != b ==> now[i] == before[i])
    {
      assert before[i] == before[i];
    }
  }

  // ---------------------------------------------------------------- what pooling never loses

  /** The options that follow from o followed from it before. */
  ghost predicate Keeps(before: seq<Item>, now: seq<Item>, o: int, o': int) {
    forall x {:trigger x in Chain(now, o')} | x in Chain(before, o) :: x in Chain(now, o')
  }

  /** States that had values have values; those that have none still have their options. */
  ghost predicate Gains(before: seq<Item>, now: seq<Item>) {
    && SameBones(before, now)
    && (forall o {:trigger Keeps(before, now, o, o)} | 0 <= o < |before| && before[o].Opt? :: Keeps(before, now, o, o))
    && (forall i {:trigger now[i]} {:trigger before[i]} | 0 <= i < |before| && before[i].State?
      && now[i].sem.Unresolved? ::
          before[i].sem.Unresolved? && Keeps(before, now, before[i].sem.firstVal, now[i].sem.firstVal))
  }

  lemma GainsSelf(items: seq<Item>)
    ensures Gains(items, items)
  {
    hide Chain;
  }

  lemma GainsTrans(a: seq<Item>, b: seq<Item>, c: seq<Item>)
    requires Gains(a, b) && Gains(b, c)
    ensures Gains(a, c)
  {
    hide Chain, SameBones;
    BonesTrans(a, b, c);
    BonesSizes(a, b);
    forall o {:trigger Keeps(a, c, o, o)} | 0 <= o < |a| && a[o].Opt?
      ensures Keeps(a, c, o, o)
    {
      BonesAt(a, b, o);
      assert Keeps(a, b, o, o) && Keeps(b, c, o, o);
    }
    forall i {:trigger c[i]} {:trigger a[i]} | 0 <= i < |a| && a[i].State? && i < |c| && c[i].State?
      && c[i].sem.Unresolved?
      ensures a[i].sem.Unresolved? && Keeps(a, c, a[i].sem.firstVal, c[i].sem.firstVal)
    {
      BonesAt(a, b, i);
      assert b[i] == b[i];
    }
    forall i | 0 <= i < |a|
      ensures a[i].State? ==> c[i].State?
    {
      BonesAt(a, c, i);
    }
  }

  lemma BonesSizes(before: seq<Item>, now: seq<Item>)
    requires SameBones(before, now)
    ensures |now| == |before|
  {
  }

  lemma BonesAt(before: seq<Item>, now: seq<Item>, i: int)
    requires SameBones(before, now) && 0 <= i < |before|
    ensures |now| == |before| && now[i].State? == before[i].State?
  {
  }

  /** In a chain, what comes later follows from what comes before. */
  lemma {:induction false} LaterInChain(items: seq<Item>, f: int, o: int, x: int)
    requires LinksDown(items) && Link(items, f) && o in Chain(items, f) && x in Chain(items, f) && x <= o
    ensures x in Chain(items, o)
    decreases f
  {
    if o != f {
      ChainDecreases(items, f);
      LaterInChain(items, items[f].next, o, x);
    }
  }

  lemma {:induction false} TailInChain(items: seq<Item>, f: int, o: int, x: int)
    requires LinksDown(items) && Link(items, f) && o in Chain(items, f) && x in Chain(items, o)
    ensures x in Chain(items, f) && x <= o
    decreases f
  {
    ChainDecreases(items, o);
    if o != f {
      TailInChain(items, items[f].next, o, x);
    }
  }

  lemma {:induction false} MergedKeeps(before: seq<Item>, now: seq<Item>, a: nat, b: nat, o: int)
    requires Optional(before, a) && Optional(before, b) && LinksDown(before) && Link(before, o)
    requires Unioned(before, now, a, b) && ElsewhereSame(before, now, a, b)
    ensures Keeps(before, now, o, o)
    decreases o
  {
    hide StrictlyDecreasing;
    var f, g := before[a].sem.firstVal, before[b].sem.firstVal;
    if o != NULL {
      assert before[o].Opt? && now[o].Opt?;
      if o in Chain(before, f) || o in Chain(before, g) {
        forall x | x in Chain(before, o)
          ensures x in Chain(now, o)
        {
          TailInChain(before, if o in Chain(before, f) then f else g, o, x);
          LaterInChain(now, now[a].sem.firstVal, o, x);
        }
      } else {
        MergedKeeps(before, now, a, b, before[o].next);
        assert o !in Union(before, f, g) && now[o] == before[o];
        assert Chain(before, o) == [o] + Chain(before, before[o].next);
        assert Chain(now, o) == [o] + Chain(now, before[o].next);
        forall x | x in Chain(before, o)
          ensures x in Chain(now, o)
        {
        }
      }
    }
  }

  lemma MergedGains(before: seq<Item>, now: seq<Item>, a: nat, b: nat, key: int -> Key)
    requires Optional(before, a) && Optional(before, b) && Tidy(before, key)
    requires Unioned(before, now, a, b) && ElsewhereSame(before, now, a, b)
    ensures Gains(before, now)
  {
    hide Chain, StrictlyDecreasing;
    forall o {:trigger Keeps(before, now, o, o)} | 0 <= o < |before| && before[o].Opt?
      ensures Keeps(before, now, o, o)
    {
      MergedKeeps(before, now, a, b, o);
    }
    forall i {:trigger now[i]} {:trigger before[i]} | 0 <= i < |before| && before[i].State?
      ensures now[i].State? && (before[i].sem.Unresolved? ==>
        now[i].sem.Unresolved? && Keeps(before, now, before[i].sem.firstVal, now[i].sem.firstVal))
    {
      assert now[i] == now[i];
      if before[i].sem.Unresolved? && i != a && i != b {
        MergedKeeps(before, now, a, b, before[i].sem.firstVal);
      }
    }
  }

  /** A state gets a value. */
  lemma ValueGains(before: seq<Item>, s: nat, sem: Semantics)
    requires s < |before| && before[s].State? && sem.Resolved?
    ensures Gains(before, before[s := before[s].(sem := sem)])
  {
    hide Chain;
    var now := before[s := before[s].(sem := sem)];
    forall o
      ensures Chain(now, o) == Chain(before, o)
    {
      ChainFrame(before, now, o);
    }
  }

  /** State s has a value, or the options that either state had; and if either had a value,
      it has one. */
  ghost predicate HoldsBoth(before: seq<Item>, now: seq<Item>, s: nat, a: nat, b: nat)
    requires s < |now| && a < |before| && b < |before| && now[s].State? && before[a].State? && before[b].State?
  {
    now[s].sem.Unresolved? ==>
      && before[a].sem.Unresolved? && Keeps(before, now, before[a].sem.firstVal, now[s].sem.firstVal)
      && before[b].sem.Unresolved? && Keeps(before, now, before[b].sem.firstVal, now[s].sem.firstVal)
  }

  ghost predicate Gathered(before: seq<Item>, now: seq<Item>, a: nat, b: nat) {
    && a < |before| == |now| && b < |before| && before[a].State? && before[b].State? && now[a].State? && now[b].State?
    && HoldsBoth(before, now, a, a, b) && HoldsBoth(before, now, b, a, b)
  }

  /** Each of the first n pairs of states holds what both held before. */
  ghost predicate AllGathered(before: seq<Item>, now: seq<Item>, s0: int, s1: int, n: int) {
    forall i {:trigger Walk(before, s0, i)} | 0 <= i < n ::
      0 <= Walk(before, s0, i) && 0 <= Walk(before, s1, i)
      && Gathered(before, now, Walk(before, s0, i), Walk(before, s1, i))
  }

  lemma PooledGathers(before: seq<Item>, mid: seq<Item>, now: seq<Item>, a: nat, b: nat)
    requires Gains(before, mid) && Gains(mid, now) && Pooled(mid, now, a, b)
    ensures Gathered(before, now, a, b)
  {
    hide Chain, StrictlyDecreasing;
    GainsTrans(before, mid, now);
    assert mid[a] == mid[a] && mid[b] == mid[b];
    assert before[a] == before[a] && before[b] == before[b];
  }

  lemma GatheredStays(before: seq<Item>, mid: seq<Item>, now: seq<Item>, a: nat, b: nat)
    requires Gathered(before, mid, a, b) && Gains(mid, now)
    ensures Gathered(before, now, a, b)
  {
    hide Chain;
    assert mid[a] == mid[a] && mid[b] == mid[b];
    assert now[a] == now[a] && now[b] == now[b];
  }

  lemma GainsGathers(before: seq<Item>, now: seq<Item>, a: nat)
    requires Gains(before, now) && a < |before| && before[a].State?
    ensures Gathered(before, now, a, a)
  {
    hide Chain;
    assert now[a] == now[a];
  }

  lemma OneMoreGathered(before: seq<Item>, mid: seq<Item>, now: seq<Item>, s0: int, s1: int, j: nat)
    requires AllGathered(before, mid, s0, s1, j) && Gains(before, mid) && Gains(mid, now)
    requires 0 <= Walk(before, s0, j) && 0 <= Walk(before, s1, j)
    requires Pooled(mid, now, Walk(before, s0, j), Walk(before, s1, j))
    ensures AllGathered(before, now, s0, s1, j + 1)
  {
    hide Gathered, Gains, Pooled, Walk;
    PooledGathers(before, mid, now, Walk(before, s0, j), Walk(before, s1, j));
    forall i {:trigger Walk(before, s0, i)} | 0 <= i < j
      ensures Gathered(before, now, Walk(before, s0, i), Walk(before, s1, i))
    {
      GatheredStays(before, mid, now, Walk(before, s0, i), Walk(before, s1, i));
    }
  }

  lemma RestGathered(before: seq<Item>, now: seq<Item>, s0: int, s1: int, n: nat, key: int -> Key, j: nat)
    requires AllGathered(before, now, s0, s1, j) && Gains(before, now) && Sides(before, s0, s1, n, key)
    requires j <= n && Walk(before, s0, j) == Walk(before, s1, j)
    ensures AllGathered(before, now, s0, s1, n)
  {
    hide Gathered, Gains, Walk;
    forall i {:trigger Walk(before, s0, i)} | j <= i < n
      ensures 0 <= Walk(before, s0, i) && 0 <= Walk(before, s1, i)
      ensures Gathered(before, now, Walk(before, s0, i), Walk(before, s1, i))
    {
      WalkFurther(before, s0, j, i - j);
      WalkFurther(before, s1, j, i - j);
      GainsGathers(before, now, Walk(before, s0, i));
    }
  }

  /** The states a and b, which stand for the same, have been pooled, and nothing that stands
      for anything else has changed. */
  ghost predicate PairMerged(before: seq<Item>, now: seq<Item>, a: nat, b: nat, key: int -> Key) {
    && Tidy(now, key) && Pooled(before, now, a, b) && OnlyKey(before, now, key, key(a))
    && Inherits(before, now, key) && Gains(before, now)
  }

  /** State b gets the value of state a. */
  lemma ValueMerged(before: seq<Item>, a: nat, b: nat, key: int -> Key)
    requires Tidy(before, key) && Step(before, a) && Step(before, b) && a != b && key(a) == key(b)
    requires before[a].sem.Resolved?
    ensures var now := before[b := before[b].(sem := before[a].sem)];
      PairMerged(before, now, a, b, key) && (before[b].sem.Unresolved? ==> PairMerged(before, now, b, a, key))
  {
    hide Chain, StrictlyDecreasing, Gains, AllFit;
    ValueGains(before, b, before[a].sem);
    ValueInherits(before, a, b, key);
  }

  lemma ValueInherits(before: seq<Item>, a: nat, b: nat, key: int -> Key)
    requires Step(before, a) && Step(before, b) && key(a) == key(b) && before[a].sem.Resolved?
    ensures Inherits(before, before[b := before[b].(sem := before[a].sem)], key)
  {
  }

  /** Both states share the options that either had. */
  lemma ChainsMerged(before: seq<Item>, now: seq<Item>, a: nat, b: nat, key: int -> Key)
    requires Tidy(before, key) && Optional(before, a) && Optional(before, b) && a != b && key(a) == key(b)
    requires Step(before, a) && Step(before, b)
    requires Unioned(before, now, a, b) && ElsewhereSame(before, now, a, b)
    ensures PairMerged(before, now, a, b, key)
  {
    hide Chain, StrictlyDecreasing, Gains, Tidy, Inherits;
    TidyUsable(before, key, a);
    TidyUsable(before, key, b);
    ChainsTidy(before, now, a, b, key);
    ChainsInherit(before, now, a, b, key);
    MergedGains(before, now, a, b, key);
    ChainsOnlyKey(before, now, a, b, key);
  }

  lemma ChainsOnlyKey(before: seq<Item>, now: seq<Item>, a: nat, b: nat, key: int -> Key)
    requires Optional(before, a) && Optional(before, b) && key(a) == key(b)
    requires Usable(before, a) && Usable(before, b) && AtKey(before, a, key, key(a)) && AtKey(before, b, key, key(a))
    requires Unioned(before, now, a, b) && ElsewhereSame(before, now, a, b)
    ensures OnlyKey(before, now, key, key(a))
  {
    hide Chain, StrictlyDecreasing;
  }

  /** One pair of states. */
  method MergePair(items: array<Item>, ghost used: nat, a: nat, b: nat, ghost key: int -> Key)
    requires used <= items.Length
    requires Tidy(items[..used], key) && Step(items[..used], a) && Step(items[..used], b) && a != b && key(a) == key(b)
    modifies items
    ensures PairMerged(old(items[..used]), items[..used], a, b, key)
  {
    hide Chain, Tidy, PairMerged, Unioned, ElsewhereSame;
    ghost var before := items[..used];
    TidyUsable(before, key, a);
    TidyUsable(before, key, b);
    if items[a].sem.Resolved? {
      ValueMerged(before, a, b, key);
      items[b] := items[b].(sem := items[a].sem);
      assert items[..used] == before[b := before[b].(sem := before[a].sem)];
    } else if items[b].sem.Resolved? {
      ValueMerged(before, b, a, key);
      items[a] := items[a].(sem := items[b].sem);
      assert items[..used] == before[a := before[a].(sem := before[b].sem)];
    } else {
      MergeChains(items, used, a, b);
      ChainsMerged(before, items[..used], a, b, key);
    }
  }

  lemma ChainsTidy(before: seq<Item>, now: seq<Item>, a: nat, b: nat, key: int -> Key)
    requires Tidy(before, key) && Usable(before, a) && Usable(before, b)
    requires AtKey(before, a, key, key(a)) && AtKey(before, b, key, key(a))
    requires before[a].sem.Unresolved? && before[b].sem.Unresolved?
    requires Unioned(before, now, a, b) && ElsewhereSame(before, now, a, b)
    ensures Tidy(now, key)
  {
    hide Chain, StrictlyDecreasing, LinksDown;
    var f := now[a].sem.firstVal;
    assert forall x | x in Chain(now, f) :: key(x) == key(a);
    forall o {:trigger now[o]} | 0 <= o < |now| && now[o].Opt? && now[o].next != NULL
      ensures key(now[o].next) == key(o)
    {
      assert before[o].Opt?;
      if o in Chain(now, f) {
        NextInChain(now, f, o);
      }
    }
    forall s {:trigger now[s]} | 0 <= s < |now| && now[s].State? && now[s].sem.Unresolved?
      ensures Link(now, now[s].sem.firstVal) && (now[s].sem.firstVal != NULL ==> key(now[s].sem.firstVal) == key(s))
    {
      assert before[s].State?;
      if s == a || s == b {
        if f != NULL {
          FirstIn(now, f);
        }
      } else {
        assert now[s] == before[s] && Link(before, before[s].sem.firstVal);
      }
    }
  }

  lemma {:induction false} NextInChain(items: seq<Item>, f: int, o: int)
    requires LinksDown(items) && Link(items, f) && o in Chain(items, f) && 0 <= o < |items| && items[o].Opt?
      && items[o].next != NULL
    ensures items[o].next in Chain(items, f)
    decreases f
  {
    if o == f {
      FirstIn(items, items[o].next);
    } else {
      NextInChain(items, items[f].next, o);
    }
  }

  /** Only the links of options and the semantics of states that stand for k have changed. */
  ghost predicate OnlyKey(before: seq<Item>, now: seq<Item>, key: int -> Key, k: Key) {
    && |now| == |before|
    && (forall i {:trigger now[i]} {:trigger before[i]} | 0 <= i < |before| ::
          if key(i) != k then now[i] == before[i]
          else if before[i].State? then now[i].State? && now[i] == before[i].(sem := now[i].sem)
          else now[i].Opt? && now[i] == before[i].(next := now[i].next))
  }

  /** A state that stands for something not reached yet is as it was. */
  lemma NotReached(before: seq<Item>, now: seq<Item>, key: int -> Key, s: int, j: int, a: int)
    requires Untouched(before, now, key, s, j) && LinksDown(before) && LinksDown(now)
    requires Usable(before, a) && AtKey(before, a, key, key(a)) && !Among(before, s, j, key, key(a))
    ensures Usable(now, a) && AtKey(now, a, key, key(a)) && now[a] == before[a]
    ensures now[a].sem.Unresolved? ==> Chain(now, now[a].sem.firstVal) == Chain(before, now[a].sem.firstVal)
  {
    hide Chain, Among;
    if before[a].sem.Unresolved? {
      var f := before[a].sem.firstVal;
      ChainDecreases(before, f);
      forall x {:trigger x in Chain(before, f)} | x in Chain(before, f)
        ensures 0 <= x < |now| && now[x] == before[x]
      {
        assert key(x) == key(a);
      }
      SameChain(before, now, f);
    }
  }

  lemma PooledFrom(before: seq<Item>, now: seq<Item>, now': seq<Item>, key: int -> Key, s: int, j: int, a: nat, b: nat)
    requires Untouched(before, now, key, s, j) && LinksDown(before) && LinksDown(now) && key(a) == key(b)
    requires Usable(before, a) && Usable(before, b) && AtKey(before, a, key, key(a)) && AtKey(before, b, key, key(b))
    requires !Among(before, s, j, key, key(a)) && Pooled(now, now', a, b) && |now'| == |before|
    ensures Pooled(before, now', a, b)
  {
    hide Chain, StrictlyDecreasing, LinksDown, Untouched, Among;
    NotReached(before, now, key, s, j, a);
    NotReached(before, now, key, s, j, b);
  }

  lemma UntouchedNext(before: seq<Item>, now: seq<Item>, now': seq<Item>, key: int -> Key, s: int, j: nat)
    requires Untouched(before, now, key, s, j) && OnlyKey(now, now', key, key(Walk(before, s, j)))
    ensures Untouched(before, now', key, s, j + 1) && SameBones(now, now')
  {
    hide Walk;
    BonesTrans(before, now, now');
    forall i {:trigger now'[i]} {:trigger before[i]} | 0 <= i < |before| && !Among(before, s, j + 1, key, key(i))
      ensures now'[i] == before[i]
    {
      assert now[i] == now[i];
      assert !Among(before, s, j, key, key(i));
    }
  }

  /** The first n pairs of states have been pooled. */
  ghost predicate AllPooled(before: seq<Item>, now: seq<Item>, s0: int, s1: int, n: int) {
    forall i {:trigger Walk(before, s0, i)} | 0 <= i < n ::
      0 <= Walk(before, s0, i) && 0 <= Walk(before, s1, i)
        && Pooled(before, now, Walk(before, s0, i), Walk(before, s1, i))
  }

  lemma NotAmong(items: seq<Item>, s: int, n: nat, key: int -> Key, j: nat)
    requires Distinct(items, s, n, key) && j < n
    ensures !Among(items, s, j, key, key(Walk(items, s, j)))
  {
    hide Walk;
  }

  lemma OneMorePooled(before: seq<Item>, now: seq<Item>, now': seq<Item>, s0: int, s1: int, n: nat,
    key: int -> Key, j: nat)
    requires Tidy(before, key) && Sides(before, s0, s1, n, key) && Distinct(before, s0, n, key) && j < n
    requires LinksDown(now) && LinksDown(now') && |now'| == |before|
    requires Untouched(before, now, key, s0, j) && AllPooled(before, now, s0, s1, j)
    requires OnlyKey(now, now', key, key(Walk(before, s0, j)))
    requires 0 <= Walk(before, s0, j) && 0 <= Walk(before, s1, j)
    requires Pooled(now, now', Walk(before, s0, j), Walk(before, s1, j))
    ensures AllPooled(before, now', s0, s1, j + 1)
  {
    hide Pooled, Usable, AtKey, LinksDown, Untouched, Tidy, Walk, Among;
    var a, b := Walk(before, s0, j), Walk(before, s1, j);
    TidyUsable(before, key, a);
    TidyUsable(before, key, b);
    NotAmong(before, s0, n, key, j);
    PooledFrom(before, now, now', key, s0, j, a, b);
    forall i {:trigger Walk(before, s0, i)} | 0 <= i < j
      ensures Pooled(before, now', Walk(before, s0, i), Walk(before, s1, i))
    {
      TidyUsable(before, key, Walk(before, s0, i));
      TidyUsable(before, key, Walk(before, s1, i));
      PooledStays(before, now, now', Walk(before, s0, i), Walk(before, s1, i), key, key(a));
    }
  }

  lemma {:induction false} WalkFurther(items: seq<Item>, s: int, j: nat, i: nat)
    ensures Walk(items, s, j + i) == Walk(items, Walk(items, s, j), i)
    decreases j
  {
    if j > 0 {
      if Step(items, s) {
        WalkFurther(items, items[s].pred, j - 1, i);
      } else {
        assert !Step(items, NULL);
      }
    }
  }

  /** From where the two sides meet on they are the same. */
  lemma RestPooled(before: seq<Item>, now: seq<Item>, s0: int, s1: int, n: nat, key: int -> Key, j: nat)
    requires Tidy(before, key) && Sides(before, s0, s1, n, key) && Distinct(before, s0, n, key)
    requires j <= n && Walk(before, s0, j) == Walk(before, s1, j)
    requires Untouched(before, now, key, s0, j) && AllPooled(before, now, s0, s1, j)
    ensures AllPooled(before, now, s0, s1, n)
  {
    hide Pooled, Tidy, Untouched, Walk, Among;
    forall i {:trigger Walk(before, s0, i)} | j <= i < n
      ensures 0 <= Walk(before, s0, i) && 0 <= Walk(before, s1, i)
        && Pooled(before, now, Walk(before, s0, i), Walk(before, s1, i))
    {
      WalkFurther(before, s0, j, i - j);
      WalkFurther(before, s1, j, i - j);
      NotAmong(before, s0, n, key, i);
      AmongLess(before, s0, j, i, key, key(Walk(before, s0, i)));
      PooledAlone(before, now, key, s0, j, Walk(before, s0, i));
    }
  }

  lemma AmongLess(items: seq<Item>, s: int, j: int, i: int, key: int -> Key, k: Key)
    requires j <= i && !Among(items, s, i, key, k)
    ensures !Among(items, s, j, key, k)
  {
    hide Walk;
  }

  lemma PooledAlone(before: seq<Item>, now: seq<Item>, key: int -> Key, s: int, j: int, a: nat)
    requires Untouched(before, now, key, s, j) && Step(before, a) && !Among(before, s, j, key, key(a))
    ensures Pooled(before, now, a, a)
  {
    hide Among;
  }

  /** yymergeOptionSets: two derivations of the same state by the same rule.  Nothing but
      states that stand for the same as one on the sides, and their options, is touched.
      Afterwards of every pair of corresponding states each has a value, or the options of
      both; and where the states of one side stand for different things, the two mean the
      same. */
  method MergeOptionSets(items: array<Item>, ghost used: nat, s0: nat, s1: nat, n: nat, ghost key: int -> Key)
    requires used <= items.Length
    requires Tidy(items[..used], key) && Sides(items[..used], s0, s1, n, key)
    modifies items
    ensures Tidy(items[..used], key) && Untouched(old(items[..used]), items[..used], key, s0, n)
    ensures Inherits(old(items[..used]), items[..used], key)
    ensures Gains(old(items[..used]), items[..used]) && AllGathered(old(items[..used]), items[..used], s0, s1, n)
    ensures Distinct(old(items[..used]), s0, n, key) ==> AllPooled(old(items[..used]), items[..used], s0, s1, n)
  {
    hide Usable, AtKey, Pooled, LinksDown, Untouched, OnlyKey, Walk, Tidy, Among, SameBones, Distinct, AllPooled,
      Inherits, Gains, AllGathered;
    ghost var before := items[..used];
    InheritsSelf(before, key);
    GainsSelf(before);
    NoneGathered(before, s0, s1);
    var a: int, b: int, left := s0, s1, n;
    ghost var j: nat := 0;
    UntouchedStart(before, s0, s1, key);
    while left > 0
      invariant j + left == n && a == Walk(before, s0, j) && b == Walk(before, s1, j)
      invariant Tidy(items[..used], key) && Untouched(before, items[..used], key, s0, j)
      invariant Inherits(before, items[..used], key)
      invariant Gains(before, items[..used]) && AllGathered(before, items[..used], s0, s1, j)
      invariant Distinct(before, s0, n, key) ==> AllPooled(before, items[..used], s0, s1, j)
    {
      ghost var now := items[..used];
      SideStates(before, now, s0, s1, n, key, j);
      if a == b {
        break;
      }
      MergePair(items, used, a, b, key);
      UntouchedNext(before, now, items[..used], key, s0, j);
      InheritsTrans(before, now, items[..used], key);
      OneMoreGathered(before, now, items[..used], s0, s1, j);
      GainsTrans(before, now, items[..used]);
      if Distinct(before, s0, n, key) {
        TidyLinks(now, key);
        TidyLinks(items[..used], key);
        OneMorePooled(before, now, items[..used], s0, s1, n, key, j);
      }
      WalkOneMore(before, now, items[..used], s0, j);
      WalkOneMore(before, now, items[..used], s1, j);
      a, b := items[a].pred, items[b].pred;
      left, j := left - 1, j + 1;
    }
    UntouchedLess(before, items[..used], key, s0, j, n);
    if left > 0 {
      RestGathered(before, items[..used], s0, s1, n, key, j);
    }
    if left > 0 && Distinct(before, s0, n, key) {
      RestPooled(before, items[..used], s0, s1, n, key, j);
    }
  }

  lemma NoneGathered(items: seq<Item>, s0: int, s1: int)
    ensures AllGathered(items, items, s0, s1, 0)
  {
  }

  lemma TidyLinks(now: seq<Item>, key: int -> Key)
    requires Tidy(now, key)
    ensures LinksDown(now)
  {
  }

  /** The next two states of the sides. */
  lemma SideStates(before: seq<Item>, now: seq<Item>, s0: int, s1: int, n: nat, key: int -> Key, j: nat)
    requires Sides(before, s0, s1, n, key) && Untouched(before, now, key, s0, j) && j < n
    ensures var a, b := Walk(before, s0, j), Walk(before, s1, j);
      0 <= a && 0 <= b && Step(now, a) && Step(now, b) && key(a) == key(b) && SameBones(before, now)
  {
    hide Among;
    BonesWalk(before, now, s0, j);
    BonesWalk(before, now, s1, j);
  }

  lemma UntouchedLess(before: seq<Item>, now: seq<Item>, key: int -> Key, s: int, j: int, n: int)
    requires Untouched(before, now, key, s, j) && j <= n
    ensures Untouched(before, now, key, s, n)
  {
    hide Walk;
  }

  lemma UntouchedStart(items: seq<Item>, s0: int, s1: int, key: int -> Key)
    ensures Untouched(items, items, key, s0, 0) && AllPooled(items, items, s0, s1, 0)
    ensures Walk(items, s0, 0) == s0 && Walk(items, s1, 0) == s1
  {
  }

  lemma WalkOneMore(before: seq<Item>, now: seq<Item>, now': seq<Item>, s: int, j: nat)
    requires SameBones(before, now) && SameBones(now, now') && Step(now, Walk(before, s, j))
    ensures var a := Walk(before, s, j);
      0 <= a < |now'| && now'[a].State? && now'[a].pred == Walk(before, s, j + 1)
  {
    BonesWalk(before, now, s, j);
    WalkFurther(before, s, j, 1);
  }

  // ---------------------------------------------------------------- where the order comes from

  /** In every graph that the parser builds, options are linked downwards... */
  lemma GraphLinksDown(g: Graph)
    requires Links(g)
    ensures LinksDown(g.items)
  {
  }

  /** ...because yyaddDeferredAction puts the newest option in front. */
  lemma NewestFirst(g: Graph, s: int, rule: nat, rhs: int, rawchar: int)
    requires Links(g) && GlrOps.CanAddOption(g, s, rhs)
    ensures var h := GlrOps.AddOption(g, s, rule, rhs, rawchar);
      && LinksDown(h.items) && h.items[s].sem.firstVal == |g.items|
      && Chain(h.items, |g.items|) == [|g.items|] + Chain(g.items, g.items[s].sem.firstVal)
      && StrictlyDecreasing(Chain(h.items, |g.items|))
  {
    var h := GlrOps.AddOption(g, s, rule, rhs, rawchar);
    GlrOps.AddOptionLinks(g, s, rule, rhs, rawchar);
    GraphLinksDown(h);
    ChainDecreases(h.items, |g.items|);
    ChainExtends(g.items, h.items, g.items[s].sem.firstVal);
  }

  lemma {:induction false} ChainExtends(items: seq<Item>, items': seq<Item>, o: int)
    requires Extends(items, items') && o < |items|
    requires forall i {:trigger items'[i]} | 0 <= i < |items| && items[i].State? :: items'[i].State?
    ensures Chain(items', o) == Chain(items, o)
    decreases o
  {
    if 0 <= o < |items| && items[o].Opt? && items[o].next < o {
      ChainExtends(items, items', items[o].next);
    }
  }
}
