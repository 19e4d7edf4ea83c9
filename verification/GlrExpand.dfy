/** yyexpandGLRStack with real addresses: what relocating the links comes to. */
module GlrExpand {
  import opened GlrGraph

  // Addresses count in items; 0 is the null pointer.  The items here carry addresses
  // where those of GlrGraph carry indices.
  const NULLPTR: int := 0

  /** The index that address p stands for in an array at `base`. */
  function Index(base: int, p: int): int {
    if p == NULLPTR then NULL else p - base
  }

  /** YYRELOC. */
  function Reloc(from: int, to: int, p: int): int { to - (from - p) }

  /** An item with indices for its addresses. */
  function View(base: int, item: Item): Item {
    match item
    case State(lr, pred, posn, Resolved(val)) => State(lr, Index(base, pred), posn, Resolved(val))
    case State(lr, pred, posn, Unresolved(first)) => State(lr, Index(base, pred), posn, Unresolved(Index(base, first)))
    case Opt(rule, state, rawchar, next) => Opt(rule, Index(base, state), rawchar, Index(base, next))
  }

  function Views(base: int, items: seq<Item>): (v: seq<Item>)
    ensures |v| == |items|
    ensures forall i {:trigger v[i]} | 0 <= i < |items| :: v[i] == View(base, items[i])
  {
    if items == [] then [] else Views(base, items[..|items|-1]) + [View(base, items[|items|-1])]
  }

  function Indices(base: int, ps: seq<int>): (r: seq<int>)
    ensures |r| == |ps|
    ensures forall i {:trigger r[i]} | 0 <= i < |ps| :: r[i] == Index(base, ps[i])
  {
    if ps == [] then [] else Indices(base, ps[..|ps|-1]) + [Index(base, ps[|ps|-1])]
  }

  /** p is null or the address of one of n items at base. */
  predicate Points(base: int, n: int, p: int) {
    p == NULLPTR || base <= p < base + n
  }

  predicate Linked(base: int, n: int, item: Item) {
    match item
    case State(_, pred, _, Resolved(_)) => Points(base, n, pred)
    case State(_, pred, _, Unresolved(first)) => Points(base, n, pred) && Points(base, n, first)
    case Opt(_, state, _, next) => Points(base, n, state) && Points(base, n, next)
  }

  class Arena {
    var base: int              // yyitems
    var items: array<Item>
    var nextFree: nat
    var spaceLeft: nat
    var splitPoint: int
    var tops: seq<int>
    var lastDeleted: int

    ghost predicate Valid()
      reads this, items
    {
      && base > 0 && nextFree + spaceLeft == items.Length
      && (forall i {:trigger items[i]} | 0 <= i < nextFree :: Linked(base, nextFree, items[i]))
      && Points(base, nextFree, splitPoint) && Points(base, nextFree, lastDeleted)
      && (forall k {:trigger tops[k]} | 0 <= k < |tops| :: Points(base, nextFree, tops[k]))
    }

    ghost function AsGraph(): Graph
      requires nextFree <= items.Length
      reads this, items
    {
      Graph(Views(base, items[..nextFree]), Index(base, splitPoint), Indices(base, tops))
    }

    /** One item, moved from address `from` to address `to`. */
    method RelocItem(item: Item, from: int, to: int) returns (moved: Item)
      requires base > 0 && to - from + base > 0 && Linked(base, nextFree, item)
      ensures View(to - from + base, moved) == View(base, item)
    {
      moved := item;
      match item
      case State(_, pred, _, sem) =>
        if pred != NULLPTR {
          moved := moved.(pred := Reloc(from, to, pred));
        }
        if sem.Unresolved? && sem.firstVal != NULLPTR {
          moved := moved.(sem := Unresolved(Reloc(from, to, sem.firstVal)));
        }
      case Opt(_, state, _, next) =>
        if state != NULLPTR {
          moved := moved.(state := Reloc(from, to, state));
        }
        if next != NULLPTR {
          moved := moved.(next := Reloc(from, to, next));
        }
    }

    /** The copying loop. */
    method CopyItems(newItems: array<Item>, newBase: int)
      requires Valid() && newBase > 0 && nextFree <= newItems.Length && newItems != items
      modifies newItems
      ensures Views(newBase, newItems[..nextFree]) == Views(base, items[..nextFree])
    {
      var n := 0;
      while n < nextFree
        invariant 0 <= n <= nextFree
        invariant forall i {:trigger newItems[i]} | 0 <= i < n :: View(newBase, newItems[i]) == View(base, items[i])
      {
        newItems[n] := RelocItem(items[n], base + n, newBase + n);
        n := n + 1;
      }
    }

    /** The loop over the tops. */
    method RelocTops(newBase: int)
      requires newBase > 0 && base > 0 && forall k {:trigger tops[k]} | 0 <= k < |tops| ::
        Points(base, nextFree, tops[k])
      modifies this`tops
      ensures Indices(newBase, tops) == Indices(base, old(tops))
    {
      var k := 0;
      while k < |tops|
        invariant 0 <= k <= |tops| == |old(tops)|
        invariant forall i {:trigger tops[i]} | 0 <= i < |tops| ::
          if i < k then Index(newBase, tops[i]) == Index(base, old(tops)[i]) else tops[i] == old(tops)[i]
      {
        if tops[k] != NULLPTR {
          tops := tops[k := Reloc(base, newBase, tops[k])];
        }
        k := k + 1;
      }
    }

    /** yyexpandGLRStack, when malloc returns newBase.  The graph is the same, link for
        link; the place of lastDeleted is not, unless the new array is where the old was. */
    method Expand(maxDepth: nat, newBase: int) returns (ok: bool)
      requires Valid() && newBase > 0
      modifies this
      ensures nextFree + spaceLeft == items.Length && (items == old(items) || fresh(items))
      ensures AsGraph() == old(AsGraph())
      ensures ok <==> nextFree + 2 <= maxDepth
      ensures ok ==> base == newBase && items.Length == (if 2 * nextFree < maxDepth then 2 * nextFree else maxDepth)
      ensures ok && lastDeleted != NULLPTR ==>
        (Index(base, lastDeleted) == old(Index(base, lastDeleted)) <==> newBase == old(base))
    {
      hide Views, Indices, View;
      var size := nextFree;
      if maxDepth < 2 || maxDepth - 2 < size {
        return false;
      }
      var newSize := 2 * size;
      if maxDepth < newSize {
        newSize := maxDepth;
      }
      var newItems := new Item[newSize](_ => Opt(0, NULLPTR, 0, NULLPTR));
      CopyItems(newItems, newBase);
      if splitPoint != NULLPTR {
        splitPoint := Reloc(base, newBase, splitPoint);
      }
      RelocTops(newBase);
      items, base := newItems, newBase;
      spaceLeft := newSize - size;
      assert AsGraph() == old(AsGraph());
      ok := true;
    }
  }
}
